# Battlecard manager: a verified model of its import pipeline and classifiers

The application keeps a list of competitor profiles ("battlecards") in a remote
table. It shows them as tiles with a dashboard of threat-level counts, lets the
user search and filter them, edit one in a form, open one in a detail page, and
import many at once from a CSV file.

This project models, in Dafny, the parts of the application where the logic lives:

- **CSV codec** (`csv_codec.dfy`, module `CsvCodec`). The line tokenizer is a
  method with a `while` loop, proved equal to a recursive scan. The file
  parser checks the header against the expected columns and turns data lines
  into row maps. The writer of the downloadable template is modelled too. The
  proofs cover field counts, quote handling and round trips.
- **CSV import** (`csv_import.dfy`, module `CsvImport`). A row becomes a card.
  Each row is sorted into "create", "update" or "error" against the held
  cards, by a loop proved equal to a recursive specification. This module
  also gives the importer's report and its error texts.
- **Store** (`storage.dfy`, module `Storage`). This is the mapping between a
  card and a table row in both directions: pipe-joined lists, a
  `'true'`/`'false'` flag, and empty text read back as absent. It also has
  the state of the data hook (held list, loading flag, last error) as a
  class, with fetch, create, update and delete. The remote table is a class
  that logs every request.
- **Application shell** (`app.dfy`, module `App`). This covers the search and
  threat filter, and the bulk import that creates and then updates cards one
  at a time. The import stops at the first failure and ends with a refetch.
  It also covers the view handlers of the controller class.
- **Form** (`form.dfy`, module `Form`). This covers the state the form opens
  with, its list editors (replace, append, remove), its scalar inputs and its
  submission. The form state is a class.
- **Tile, dashboard and detail page** (`card.dfy`, `dashboard.dfy`,
  `detail.dfy`). These are the threat-level classifiers: the tile colour, the
  tile badge, the four dashboard counts and the detail page's badge. The
  detail page also has its value renderer and its list of displayed fields.

Shared pieces are `Wrappers` (`Option`, `Result`, `Outcome`), `Text`,
`Seqs` (filter, count, subsequence) and `Types` (the record, reduced to the
attributes whose treatment differs). `Text` provides lower-casing, which is
ASCII only, and `trim`, which removes JavaScript's full set of white space and
line terminators. It also provides `split`/`join` on one character and
substring search.

`CsvCodec.CsvHeaders` holds the 73 names of the expected header list in
`CSVImporter.tsx`.

The model makes several disagreements between the classifiers explicit:

- The tile colour is chosen case-insensitively and maps `high` to green and
  `very low` to red.
- The tile badge is case-sensitive and maps `High` to red.
- The detail badge differs from the tile badge exactly on `Minimal` and
  `Very Low`.
- The dashboard counts neither `Critical` nor `Minimal`.

## Model

| member | source | states |
|---|---|---|
| CsvCodec.ParseLine | project/src/components/CSVImporter.tsx:243-295 | the character loop of `parseCSVLine` returns exactly the values of the recursive scan `Fields` (loop invariant: scanning the rest from the current state gives the scan of the whole line) |
| CsvCodec.Step | project/src/components/CSVImporter.tsx:250-284 | one move of the tokenizer consumes one or two characters and never runs past the line |
| CsvCodec.ScanDoubledQuote | project/src/components/CSVImporter.tsx:256-259 | inside quotes, `""` appends one literal quote to the field and keeps quoting on |
| CsvCodec.ScanOpenQuote | project/src/components/CSVImporter.tsx:264-268 | outside quotes a `"` only turns quoting on and marks the field as quoted; nothing is appended |
| CsvCodec.ScanCloseQuote | project/src/components/CSVImporter.tsx:260-263 | inside quotes a lone `"` only turns quoting off; nothing is appended |
| CsvCodec.ScanSeparator | project/src/components/CSVImporter.tsx:269-279 | a comma outside quotes finishes the field (with its quoted mark) and starts an empty unquoted one |
| CsvCodec.ScanOther | project/src/components/CSVImporter.tsx:280-282 | any other character, or a comma inside quotes, is appended to the current field |
| CsvCodec.FieldCount | project/src/components/CSVImporter.tsx:243-295 | a line yields exactly one more value than it has commas outside quotes, so never zero values |
| CsvCodec.QuotedCommaIsData | project/src/components/CSVImporter.tsx:269 | a comma between quotes is field data: `"a,b","c"` gives the two values `a,b` and `c` |
| CsvCodec.QuoteFreeLine | project/src/components/CSVImporter.tsx:243-295 | a line without quotes is split at every comma and each piece trimmed |
| CsvCodec.CollapseEscape | project/src/components/CSVImporter.tsx:275 | collapsing `""` undoes the writer's quote doubling for every cell |
| CsvCodec.FinishSafeCell | project/src/components/CSVImporter.tsx:272-291 | a cell with no edge white space, no quote at either end and no `""` survives the quoted-field post-processing unchanged |
| CsvCodec.ScanEscaped | project/src/components/CSVImporter.tsx:253-282 | inside quotes, an escaped cell is appended to the field exactly as the cell was |
| CsvCodec.ScanQuoted | project/src/components/CSVImporter.tsx:253-282 | a written (quoted and escaped) cell followed by a comma or the end of the line is collected as that cell, marked quoted |
| CsvCodec.ScanRow | project/src/components/CSVImporter.tsx:243-295 | a written row is collected as one quoted field per cell, in order |
| CsvCodec.RowFields | project/src/components/CSVImporter.tsx:243-295 | a written non-empty row tokenizes to one value per cell, each the cell after quoted-field post-processing |
| CsvCodec.RowRoundTrip | project/src/components/CSVImporter.tsx:179-295 | round trip: a non-empty row of safe cells, written as the template writer writes it, tokenizes back to the same cells |
| CsvCodec.LeadingQuoteLost | project/src/components/CSVImporter.tsx:287-291 | a cell that begins with a quote does not survive: `"a` is read back as `a` |
| CsvCodec.DoubledQuoteCollapsed | project/src/components/CSVImporter.tsx:287-291 | two adjacent quotes in a cell collapse: `a""b` is read back as `a"b` |
| CsvCodec.QuotedSpaceTrimmed | project/src/components/CSVImporter.tsx:287-291 | edge white space is trimmed even inside quotes: ` a ` is read back as `a` |
| CsvCodec.Missing | project/src/components/CSVImporter.tsx:203 | the missing columns are exactly the expected names absent from the header |
| CsvCodec.Extra | project/src/components/CSVImporter.tsx:204 | the extra columns are exactly the header names not expected |
| CsvCodec.HeaderCheck | project/src/components/CSVImporter.tsx:202-206 | the header passes exactly when it names the same set of columns as expected (order and duplicates ignored) |
| CsvCodec.RowOf | project/src/components/CSVImporter.tsx:231-234 | a row object has exactly the header's names as keys |
| CsvCodec.RowOfLookup | project/src/components/CSVImporter.tsx:232-234 | a column not repeated later in the header holds the value in its own position (later duplicates overwrite) |
| CsvCodec.BuildRow | project/src/components/CSVImporter.tsx:231-234 | the `forEach` loop building a row object gives `RowOf` |
| CsvCodec.ParseRows | project/src/components/CSVImporter.tsx:225-237 | the data-line loop gives `Rows`: lines whose field count differs from the header's are dropped, the rest kept in file order |
| CsvCodec.ParseCsv | project/src/components/CSVImporter.tsx:194-240 | `parseCSV` returns `ParseCsvSpec`: `[]` with fewer than two non-blank lines, the mismatch error, or the rows |
| CsvCodec.ParseFailsIffHeaderMismatch | project/src/components/CSVImporter.tsx:195-223 | parsing fails exactly when there are at least two non-blank lines and the first does not name the expected columns |
| CsvCodec.MismatchMessageMentions | project/src/components/CSVImporter.tsx:213-222 | the mismatch error text always contains `header mismatch` |
| CsvCodec.MismatchMessageNames | project/src/components/CSVImporter.tsx:213-220 | the mismatch error text names every missing and every extra column, and when both kinds occur the missing line comes before the extra line |
| CsvCodec.RowsShape | project/src/components/CSVImporter.tsx:227-237 | there is at most one row per data line, and each row is keyed by exactly the header's names |
| CsvCodec.ParsedRowsShape | project/src/components/CSVImporter.tsx:195-239 | a successful parse gives `[]` below two lines, otherwise at most one row per data line, each keyed by exactly the expected columns |
| CsvCodec.WrittenLines | project/src/components/CSVImporter.tsx:179-195 | the non-blank lines of a written file are its written rows |
| CsvCodec.ParseWithGoodHeader | project/src/components/CSVImporter.tsx:194-240 | with a header naming the expected columns, parsing gives the rows of the data lines |
| CsvCodec.RowsOfWritten | project/src/components/CSVImporter.tsx:179-237 | written data rows as wide as the header read back as the row objects of those rows |
| CsvCodec.CsvRoundTrip | project/src/components/CSVImporter.tsx:179-240 | round trip of a whole file: a header naming the expected columns and safe rows, written and parsed, give back the row objects of those rows |
| CsvImport.ListCell | project/src/components/CSVImporter.tsx:319-320 | a list cell gives items that are non-empty, trimmed and pipe-free |
| CsvImport.ListCellRoundTrip | project/src/components/CSVImporter.tsx:319 | items that are non-empty, trimmed and pipe-free, joined with `\|`, come back as the same items |
| CsvImport.ListCellIdempotent | project/src/components/CSVImporter.tsx:319 | reading a list cell, joining its items and reading again changes nothing |
| CsvImport.ListedCellIgnoresCase | project/src/components/CSVImporter.tsx:309 | the listed flag (`yes` or `true`) ignores letter case |
| CsvImport.Convert | project/src/components/CSVImporter.tsx:297-384 | a converted card has no identifier and no timestamps, the row's company name untrimmed, and every modelled attribute present |
| CsvImport.FirstMatch | project/src/components/CSVImporter.tsx:460-462 | the match found is the first held card whose name equals the row's ignoring case; none exactly when no held card matches |
| CsvImport.ClassifyNew | project/src/components/CSVImporter.tsx:452-473 | a named row matching no held card becomes a card to create |
| CsvImport.ClassifyCases | project/src/components/CSVImporter.tsx:441-479 | the verdict on row `i` by cases: a blank name is rejected as row `i+2` with `Company name is required`; a match takes the first match's identifier and is an update; otherwise a create |
| CsvImport.SortRows | project/src/components/CSVImporter.tsx:441-480 | the `rows.forEach` loop gives the recursive `Sort` |
| CsvImport.SortPartitions | project/src/components/CSVImporter.tsx:441-480 | the creates, updates and errors are exactly the rows whose verdict is create, update or error, each list in row order; every row lands in exactly one list |
| CsvImport.SortContents | project/src/components/CSVImporter.tsx:441-480 | errors are numbered from 2 in increasing order with the one message; creates are named, have no identifier and match no held card; updates carry the identifier of a held card of that name |
| CsvImport.RepeatedNewNameCreatedTwice | project/src/components/CSVImporter.tsx:460-473 | rows are matched only against the held cards: two rows with the same new name both become creates |
| CsvImport.AllBlankIffNothingKept | project/src/components/CSVImporter.tsx:441-494 | nothing is kept exactly when every row is unnamed |
| CsvImport.PrepareFails | project/src/components/CSVImporter.tsx:419-494 | preparing fails exactly when parsing failed, no row was read, or every row is unnamed; a prepared batch is never empty |
| CsvImport.Report | project/src/components/CSVImporter.tsx:502-537 | the reported success count is always the created count plus the updated count |
| CsvImport.HeaderMismatchShownVerbatim | project/src/components/CSVImporter.tsx:519-536 | a header mismatch is reported verbatim, without the `Import failed: ` prefix, with zero counts |
| CsvImport.OtherFailuresPrefixed | project/src/components/CSVImporter.tsx:519-536 | any other failure, whether in preparing the rows or in handing them over, is reported behind `Import failed: `, with zero successes |
| Storage.MessageOr | project/src/hooks/useBattlecards.ts:143 | an `Error` gives its message; anything else gives the fallback text |
| Storage.OrUndefined | project/src/hooks/useBattlecards.ts:23-30 | an empty or missing text column reads as absent; otherwise it reads as itself |
| Storage.ListColumn | project/src/hooks/useBattlecards.ts:41-43 | a list column reads as non-empty, pipe-free items; an empty or missing column reads as `[]` |
| Storage.FromRow | project/src/hooks/useBattlecards.ts:20-139 | a fetched row keeps its identifier, name and timestamps; the flag is set exactly when the column is `'true'`; lists and mapping are always present; no text attribute is empty |
| Storage.ListColumnRoundTrip | project/src/hooks/useBattlecards.ts:41-190 | a pipe-free list, written joined by `\|` and read back, gives its items less the empty ones |
| Storage.FlagColumnRoundTrip | project/src/hooks/useBattlecards.ts:31-180 | the flag written as `'true'`/`'false'` reads back as whether it was true; a missing column reads as false |
| Storage.MappingColumnRoundTrip | project/src/hooks/useBattlecards.ts:57-206 | under a lawful codec the mapping column reads back as the written mapping, `{}` when absent |
| Storage.InsertThenRead | project/src/hooks/useBattlecards.ts:20-251 | a card inserted and fetched again is `ReadBack` of it (absent for empty texts, empty list items dropped, false for an absent flag), with the table's identifier and timestamps |
| Storage.UpdateThenRead | project/src/hooks/useBattlecards.ts:20-365 | a card updated and fetched again is `ReadBack` of it, except that an absent optional text leaves the column as it was, so it reads back as the stored row's value; identifier and creation time are the row's own |
| Storage.ReadBackSettles | project/src/hooks/useBattlecards.ts:20-139 | every fetched card is settled, and a settled card reads back unchanged |
| Storage.FetchedRecordSurvivesSave | project/src/hooks/useBattlecards.ts:20-361 | a fetched card saved again by update over its own row and re-fetched comes back as it was, apart from the update timestamps |
| Storage.PipeInsideItemSplits | project/src/hooks/useBattlecards.ts:41-190 | an item containing `\|` does not survive: it reads back as two items |
| Storage.Without | project/src/hooks/useBattlecards.ts:382 | after a delete the held cards are exactly those with another identifier |
| Storage.WithoutIdempotent | project/src/hooks/useBattlecards.ts:382 | deleting an identifier twice removes no more than deleting it once |
| Storage.WithoutAbsent | project/src/hooks/useBattlecards.ts:382 | deleting an identifier no held card has leaves the list as it was |
| Storage.CreateFailure | project/src/hooks/useBattlecards.ts:269 | the recorded create error starts with `Failed to create battlecard for <name>: ` |
| Storage.CreateRequests | project/src/hooks/useBattlecards.ts:162-170 | a create sends nothing for a blank name, and exactly one insert otherwise |
| Storage.CreateReply | project/src/hooks/useBattlecards.ts:162-165 | a blank name throws `Company name is required` before any request |
| Storage.Remote.Select | project/src/hooks/useBattlecards.ts:13-16 | a select is logged and answered by the table's reply for its position |
| Storage.Remote.Insert | project/src/hooks/useBattlecards.ts:168-251 | an insert is logged with its columns and answered by the table |
| Storage.Remote.Update | project/src/hooks/useBattlecards.ts:277-361 | an update is logged with its identifier and columns and answered by the table |
| Storage.Remote.Delete | project/src/hooks/useBattlecards.ts:375-378 | a delete is logged with its identifier and answered by the table |
| Storage.BattlecardStore.constructor | project/src/hooks/useBattlecards.ts:6-8 | the hook starts with no cards, loading, and no error |
| Storage.BattlecardStore.Fetch | project/src/hooks/useBattlecards.ts:10-147 | one select; on success the held list is the rows read in order, on failure the list stays and the error is the message or `An error occurred`; loading ends either way, and the held state is what that last select left |
| Storage.BattlecardStore.Create | project/src/hooks/useBattlecards.ts:149-273 | the held list and loading flag are untouched (no append, no refetch); the requests are `CreateRequests`; a failure records the error naming the company |
| Storage.BattlecardStore.Update | project/src/hooks/useBattlecards.ts:275-371 | one update; on success a refetch follows and sets the list, on failure the error is the message or `Failed to update battlecard` and the list stays |
| Storage.BattlecardStore.Delete | project/src/hooks/useBattlecards.ts:373-387 | one delete; on success exactly the cards with the identifier are removed, order kept; on failure the list stays and the error is recorded |
| App.FilterCards | project/src/App.tsx:38-49 | the shown cards are exactly the held cards passing the search and the threat test |
| App.EmptyFiltersShowAll | project/src/App.tsx:40-45 | with no search term and no (or an empty) threat level the input is returned unchanged |
| App.FilterKeepsOrder | project/src/App.tsx:38-49 | the shown cards are a subsequence of the held cards, order kept |
| App.FilterTwiceIsOnce | project/src/App.tsx:38-49 | filtering twice is filtering once |
| App.Searched | project/src/App.tsx:40-43 | the searched texts are the name first, then the summary and overview when present |
| App.SearchIsSubstringOfSearched | project/src/App.tsx:40-43 | a non-empty term matches exactly when a searched text contains it ignoring case; an absent summary or overview never matches |
| App.SearchIgnoresCase | project/src/App.tsx:40-43 | lower-casing the term or the card's name does not change whether it matches |
| App.ThreatIsExact | project/src/App.tsx:45-47 | a set threat level shows exactly the held cards with that exact (case-sensitive) level |
| App.Inserts | project/src/App.tsx:72-85 | one insert per card to create, in order |
| App.Refetched | project/src/App.tsx:92-105 | one update and one refetch per card to update, in order |
| App.CreateRunShape | project/src/App.tsx:72-85 | creates go one at a time in order; the requests sent are the inserts of a prefix; the run completes exactly when every card was created; a failure stops it at that card |
| App.UpdateRunShape | project/src/App.tsx:92-105 | updates go one at a time in order, each followed by its refetch; the run completes exactly when every card was updated; a failure stops it having sent that card's update |
| App.UpdateFailure | project/src/App.tsx:103 | the thrown update error starts with `Failed to update battlecard for <name>: ` |
| App.ImportRunShape | project/src/App.tsx:60-111 | an import sends every insert, update and refetch planned and then the final refetch, and counts all cards; or it stops part-way, having sent a prefix of them. A stop while creating sends only inserts and no update, with an error naming the card; a stop while updating names that card |
| App.UpdatePhaseShaped | project/src/App.tsx:88-111 | the update phase sends all updates and then the refetch, or a prefix ending at the failed update, with an error naming that card |
| App.CreateFailureSendsNoUpdate | project/src/App.tsx:79-84 | a failed create ends the import with no update and no refetch sent |
| App.AppController.constructor | project/src/App.tsx:28-36 | the app starts on the grid with nothing selected or edited and empty filters, fetches once on mount, and holds the rows read or, when the select fails, its error |
| App.AppController.Visible | project/src/App.tsx:38-49 | the grid shows exactly the held cards that pass the filters |
| App.AppController.SetFilters | project/src/App.tsx:225 | changing filters changes nothing else |
| App.AppController.CreateNew | project/src/App.tsx:51-54 | create-new opens the form with nothing edited |
| App.AppController.OpenImport | project/src/App.tsx:56-58 | the importer opens; nothing else changes |
| App.AppController.Select | project/src/App.tsx:142-145 | selecting a card opens its detail view |
| App.AppController.Edit | project/src/App.tsx:147-150 | editing a card opens the form on it |
| App.AppController.BackToGrid | project/src/App.tsx:172-176 | back-to-grid shows the grid and clears both the selected and the edited card |
| App.AppController.Delete | project/src/App.tsx:152-156 | a delete is issued only with the user's confirmation; without it nothing is sent and list, error and loading flag stay; with it one delete is sent, and the card leaves the list on success or the list stays and the error is set on failure |
| App.AppController.Save | project/src/App.tsx:158-170 | save updates when a card is being edited and creates otherwise, with the exact requests sent and the held list and error after each outcome; success returns to the grid with nothing edited; failure leaves the view as it was |
| App.AppController.CreateAll | project/src/App.tsx:72-85 | the create loop sends and counts exactly what `CreateRun` does and stops where it stops; the held list and loading flag are untouched, and a stop leaves the hook's error naming the card that failed |
| App.AppController.UpdateAll | project/src/App.tsx:92-105 | the update loop sends and counts exactly what `UpdateRun` does and stops where it stops; a stop leaves the hook's error as the thrown message or `Failed to update battlecard` |
| App.AppController.UpdateAndRefetch | project/src/App.tsx:88-111 | the update phase and the final refetch send and count what `UpdatePhase` does; on success the held state is what the refetch left, on failure the hook's error is that of the failed update |
| App.AppController.HandleCsvImport | project/src/App.tsx:60-139 | the import's outcome, counters and requests are those of `ImportRun`; after a complete import the held list is what the final refetch read; every failed import leaves the hook's error set, and a stop while creating leaves it equal to the reported text with the list and loading flag untouched |
| App.AppController.ImportUpdates | project/src/App.tsx:88-111 | once every create went through, the rest of the import sends, counts and ends as `ImportRun` says; on success the held state is what the refetch left, on failure the hook's error is set |
| App.AppController.ImportFile | project/src/components/CSVImporter.tsx:397-541 | an upload that fails to prepare sends nothing and reports the failure; otherwise the import runs and the report is that of its outcome |
| Form.OrEmpty | project/src/components/BattlecardForm.tsx:19-21 | `value \|\| ''` keeps a present text (even an empty one) and turns an absent one into `''` |
| Form.OrNone | project/src/components/BattlecardForm.tsx:37-53 | `value \|\| []` and `value \|\| {}` keep a present list or mapping and give the default for an absent one |
| Form.InitialForm | project/src/components/BattlecardForm.tsx:16-96 | the form never carries the timestamps; a new card starts with an empty identifier and name |
| Form.InitialFormCarries | project/src/components/BattlecardForm.tsx:16-96 | editing a card carries every present attribute, gives the default for every absent one, keeps the flag only when true, and drops the timestamps |
| Form.InitialFormDefaults | project/src/components/BattlecardForm.tsx:16-96 | a new card starts with empty texts and lists, an empty mapping and `false` |
| Form.InitialFormFixpoint | project/src/components/BattlecardForm.tsx:16-96 | reopening the form on what it would submit unedited gives the same state |
| Form.Replaced | project/src/components/BattlecardForm.tsx:98-103 | replacing item `i` keeps the length, sets item `i` and leaves every other item |
| Form.Appended | project/src/components/BattlecardForm.tsx:105-108 | appending adds exactly one `''` at the end |
| Form.RemovedAt | project/src/components/BattlecardForm.tsx:110-114 | the length drops by one exactly when the index is in range |
| Form.RemovedAtFilters | project/src/components/BattlecardForm.tsx:110-114 | removal is the positional filter `i !== index`: the items at every other position, in order |
| Form.RemovedAtSlices | project/src/components/BattlecardForm.tsx:110-114 | in range, removal drops exactly that position; out of range the list is unchanged |
| Form.AddThenRemoveLast | project/src/components/BattlecardForm.tsx:105-114 | appending a blank item and removing it restores the list |
| Form.ReplaceBack | project/src/components/BattlecardForm.tsx:98-103 | replacing an item and replacing it back restores the list |
| Form.ListingShown | project/src/components/BattlecardForm.tsx:311 | the listed select shows `'true'` or `'false'` |
| Form.ListingRoundTrip | project/src/components/BattlecardForm.tsx:311-312 | choosing the shown option keeps the flag, and showing a choice gives back its option |
| Form.FormState.constructor | project/src/components/BattlecardForm.tsx:16-96 | the form state starts as `InitialForm` of the incoming card |
| Form.FormState.ArrayChange | project/src/components/BattlecardForm.tsx:98-103 | copying the list into an array, assigning in place and storing the copy sets only that item of that list |
| Form.FormState.AddArrayItem | project/src/components/BattlecardForm.tsx:105-108 | the list gets one blank item; nothing else changes |
| Form.FormState.RemoveArrayItem | project/src/components/BattlecardForm.tsx:110-114 | the list loses the item at the index; nothing else changes |
| Form.FormState.SetCompanyName | project/src/components/BattlecardForm.tsx:192 | the name input replaces exactly the name |
| Form.FormState.SetThreatLevel | project/src/components/BattlecardForm.tsx:202 | the threat select replaces exactly the level |
| Form.FormState.SetOneLineSummary | project/src/components/BattlecardForm.tsx:234 | the summary input replaces exactly the summary |
| Form.FormState.SetProductPortfolioOverview | project/src/components/BattlecardForm.tsx:403 | the overview input replaces exactly the overview |
| Form.FormState.SetPubliclyListed | project/src/components/BattlecardForm.tsx:311-312 | the listed select stores whether the choice was `'true'`; nothing else changes |
| Form.FormState.Submit | project/src/components/BattlecardForm.tsx:116-190 | the form reaches the save handler exactly when the `required` name input is non-empty, and then with the state as it stands |
| Form.BlankItemSubmitted | project/src/components/BattlecardForm.tsx:105-119 | a blank item added and left empty is still the last item when the form is submitted |
| Form.ListEditIsolated | project/src/components/BattlecardForm.tsx:98-114 | editing one list leaves the other list and every scalar attribute and timestamp as they were |
| Form.AddAndFill | project/src/components/BattlecardForm.tsx:98-190 | opening, appending an item, typing into it and submitting reaches the save handler exactly when the opened form has a name, and then gives the opened list plus the typed value |
| Card.ThreatColor | project/src/components/BattlecardCard.tsx:12-27 | no level or an empty one gives the white class |
| Card.ThreatColorCases | project/src/components/BattlecardCard.tsx:15-25 | each coloured class belongs to exactly one lower-cased level (high green, medium yellow, low amber, very low red); every other level is white |
| Card.ThreatColorIgnoresCase | project/src/components/BattlecardCard.tsx:15 | levels equal up to case get the same class |
| Card.ThreatColorHighAnyCase | project/src/components/BattlecardCard.tsx:15-17 | `HIGH`, `High` and `high` all get the green class |
| Card.ThreatColorFormOnlyLevels | project/src/components/BattlecardCard.tsx:24-25 | `Critical` and `Minimal` get the default white class |
| Card.CardBadge | project/src/components/BattlecardCard.tsx:44-54 | the badge is shown exactly when the level is present and non-empty |
| Card.CardBadgeCases | project/src/components/BattlecardCard.tsx:46-53 | red exactly for `High`/`Critical`, yellow for `Medium`, green for `Low`/`Minimal`, gray for anything else (case matters) |
| Card.HighTileGreenBadgeRed | project/src/components/BattlecardCard.tsx:12-54 | a `High` tile is green while its badge is red |
| Dashboard.TallyIsPerCard | project/src/components/Dashboard.tsx:10-21 | the four filter counts equal one pass adding each card to at most one bucket |
| Dashboard.BucketsBounded | project/src/components/Dashboard.tsx:10-21 | the buckets are disjoint: the four counts sum to at most the number of cards |
| Dashboard.UnbucketedUncounted | project/src/components/Dashboard.tsx:10-21 | a card whose level lower-cases to none of the four names changes no count |
| Dashboard.LevelExamples | project/src/components/Dashboard.tsx:11 | no level, `Critical` and `Minimal` fall in no bucket; `HIGH` counts as high |
| Dashboard.TallyIgnoresCase | project/src/components/Dashboard.tsx:10-21 | cards whose levels agree once lower-cased give the same counts |
| Dashboard.FilteredTallyBounded | project/src/App.tsx:220 | the dashboard counts the full list, so no count is below what the filtered list would give |
| Detail.RenderFieldValue | project/src/components/BattlecardDetail.tsx:97-130 | a boolean renders as Yes/No of its value, and a non-empty text is drawn as itself |
| Detail.NoDataCases | project/src/components/BattlecardDetail.tsx:98-126 | "no data" exactly for null, undefined, `''` and `[]`; `false` shows "No"; any object, `{}` included, shows a JSON block |
| Detail.ChipsPerElement | project/src/components/BattlecardDetail.tsx:106-113 | a non-empty array gives one chip per element in order; object (and null) elements are stringified, strings shown as they are |
| Detail.DisplayedFields | project/src/components/BattlecardDetail.tsx:207-208 | the displayed fields are never more than the labelled ones |
| Detail.DisplayedFieldsSelection | project/src/components/BattlecardDetail.tsx:207-208 | the displayed fields are the labelled ones in declaration order, less exactly `companyName` |
| Detail.DetailRows | project/src/components/BattlecardDetail.tsx:207-221 | the rows are the displayed fields among the labels, no more than the labels: every listed label has its row (its label and the rendering of the card's value), and every row is such a field's row |
| Detail.DetailRowsInOrder | project/src/components/BattlecardDetail.tsx:207-221 | the rows keep the labels' order: they are the rows of the kept labels, a subsequence of the rows of all labels |
| Detail.RowsSkipCompanyName | project/src/components/BattlecardDetail.tsx:125-208 | no row is the company name, and a false listed flag shows "No" |
| Detail.DetailBadge | project/src/components/BattlecardDetail.tsx:154-166 | the header badge is shown exactly when the level is present and non-empty |
| Detail.BadgesDisagree | project/src/components/BattlecardDetail.tsx:156-162 | the header badge differs from the tile badge exactly for `Minimal` and `Very Low` |
| Text.Trim | project/src/components/CSVImporter.tsx:272 | the trim is a middle slice of the string with no white space at either end |
| Text.TrimCutsOnlySpace | project/src/components/CSVImporter.tsx:272 | the trim cuts only white space: everything before and after the slice it keeps is white space |
| Text.BlankIffTrimmedEmpty | project/src/components/CSVImporter.tsx:445 | a string is blank exactly when its trim is empty |

## Left out

- The record has about 80 attributes. The model keeps the identifier, the
  name, three optional texts, the flag, two lists, one mapping and the three
  timestamps. Every other attribute repeats the treatment of one of these.
  The detail page's value lookup gives `undefined` for the others.
- JSON syntax is not modelled. `JSON.parse` and `JSON.stringify` are a codec
  passed in as a parameter; "lawful" means decode inverts encode. Mapping
  cells and columns that fail to parse read as `{}`. The detail page's two
  uses of `JSON.stringify` are a separate pair of parameters (`Detail.Stringify`):
  the compact form `JSON.stringify(item)` for a list chip and the indented
  form `JSON.stringify(value, null, 2)` for a block.
- Numbers are not among the detail page's value shapes, and no modelled
  attribute holds one.
- The remote table is an oracle keyed by request position. Server-side
  ordering by `updated_at`, identifier and timestamp assignment, and network
  errors are its replies, not modelled logic.
- Asynchrony is not modelled: `await` is sequential.
- `handleDeleteBattlecard` does not await the delete. The model runs it to
  completion; a caller sees the same requests.
- Toasts, progress strings, console logging and `setTimeout` are not modelled.
- The importer's file handling (`file.text()`, the MIME check), the
  Blob/anchor download and `window.confirm` are left out. The confirmation is
  a boolean parameter and the file text a string parameter.
- `recentlyUpdated` and `toLocaleDateString` depend on the clock and the
  locale, and are left out.
- Lower-casing covers ASCII letters only; JavaScript's Unicode case mapping
  is not modelled. Trimming is not reduced: it removes the same white space
  and line terminators as JavaScript's `trim`.
- CsvCodec.RowRoundTrip: proved for rows of safe cells. The downloadable
  template's own 73-cell sample row is not checked cell by cell against that
  condition.
- Form.FormState.ArrayChange: requires an index inside the list. The form only
  passes indices of rendered items. An out-of-range index in JavaScript
  would grow the array with holes, which the model does not represent.
- Form.FormState.Submit: of the browser's own checks on the form, only the
  `required` name input is modelled. The `type="url"` check on the website
  input is left out with the website attribute.
- Form.FormState: the other ~70 scalar inputs repeat `SetCompanyName` on
  other attributes and are not modelled one by one.
- The badges' CSS class strings (`Card.ToneClass`) are given but not proved
  anything about.
