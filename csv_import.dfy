/**
 * The bulk importer: turning a parsed row into a battlecard, sorting the rows
 * into cards to create, cards to update and rejected rows, and the report the
 * import shows afterwards.
 */
module CsvImport {
  import opened Wrappers
  import opened Text
  import opened Seqs
  import opened Types
  import opened CsvCodec

  // ---------------------------------------------------------------------------
  // One row to one battlecard

  /** `row[key] || ''`: the value of a column, `''` when the column is absent. */
  function Cell(row: Row, key: string): string {
    if key in row then row[key] else ""
  }

  /** The row names a company (`(row['company_name'] || '').trim()` is non-empty). */
  predicate Named(row: Row) {
    !IsBlank(Cell(row, "company_name"))
  }

  predicate Unnamed(row: Row) {
    !Named(row)
  }

  /** `cell ? cell.split('|').map(trim).filter(Boolean) : []`. */
  function ListCell(cell: string): (items: seq<string>)
    ensures forall k :: 0 <= k < |items| ==> items[k] != [] && NoEdgeSpace(items[k]) && '|' !in items[k]
  {
    if cell == [] then []
    else
      var pieces := Split(cell, '|');
      var trimmed := TrimAll(pieces);
      assert forall k :: 0 <= k < |trimmed| ==> '|' !in trimmed[k] by {
        forall k | 0 <= k < |trimmed|
          ensures '|' !in trimmed[k]
        {
          var a, b :| 0 <= a <= b <= |pieces[k]| && trimmed[k] == pieces[k][a..b];
        }
      }
      FilterMembers(NonEmpty, trimmed);
      Filter(NonEmpty, trimmed)
  }

  /** `(cell || '').toLowerCase() === 'yes' || ... === 'true'`. */
  function ListedCell(cell: string): bool {
    Lower(cell) == "yes" || Lower(cell) == "true"
  }

  /** `JSON.parse(cell)` when the cell is non-empty, `{}` when it is empty or does not parse. */
  function MappingCell(json: JsonCodec, cell: string): Mapping {
    if cell == [] then map[] else json.decode(cell).GetOr(map[])
  }

  /** `convertRowToBattlecard`: a new card, without identifier or timestamps, holding the row's values. */
  function Convert(json: JsonCodec, row: Row): (card: Battlecard)
    ensures card.id == [] && card.createdAt == None && card.updatedAt == None && card.lastUpdated == None
    ensures card.companyName == Cell(row, "company_name")
    ensures card.threatLevel.Some? && card.oneLineSummary.Some? && card.productPortfolioOverview.Some?
    ensures card.publiclyListed.Some? && card.marqueeCustomers.Some? && card.strongestVerticals.Some?
    ensures card.socialMediaPlatforms.Some?
  {
    Battlecard(
      id := [],
      companyName := Cell(row, "company_name"),
      threatLevel := Some(Cell(row, "threat_level")),
      oneLineSummary := Some(Cell(row, "one_line_summary")),
      productPortfolioOverview := Some(Cell(row, "product_portfolio_overview")),
      publiclyListed := Some(ListedCell(Cell(row, "publicly_listed"))),
      marqueeCustomers := Some(ListCell(Cell(row, "marquee_customers"))),
      strongestVerticals := Some(ListCell(Cell(row, "strongest_verticals"))),
      socialMediaPlatforms := Some(MappingCell(json, Cell(row, "social_media_platforms"))),
      createdAt := None,
      updatedAt := None,
      lastUpdated := None)
  }

  /** A list item the pipe-separated cell format can carry unchanged. */
  predicate PlainItem(item: string) {
    item != [] && NoEdgeSpace(item) && '|' !in item
  }

  /** Round trip of a list cell: items joined with `|` come back as the same items. */
  lemma ListCellRoundTrip(items: seq<string>)
    requires forall k :: 0 <= k < |items| ==> PlainItem(items[k])
    ensures ListCell(Join(items, "|")) == items
  {
    if items != [] {
      var cell := Join(items, "|");
      JoinedItemsNotEmpty(items);
      SplitJoin(items, '|');
      assert Split(cell, '|') == items;
      TrimAllPlain(items);
      FilterAllKept(NonEmpty, items);
    }
  }

  lemma JoinedItemsNotEmpty(items: seq<string>)
    requires |items| >= 1 && items[0] != []
    ensures Join(items, "|") != []
  {
    if |items| > 1 {
      assert Join(items, "|") == items[0] + "|" + Join(items[1..], "|");
    }
  }

  lemma TrimAllPlain(items: seq<string>)
    requires forall k :: 0 <= k < |items| ==> PlainItem(items[k])
    ensures TrimAll(items) == items
  {
    forall k | 0 <= k < |items|
      ensures TrimAll(items)[k] == items[k]
    {
      TrimIdentity(items[k]);
    }
  }

  /** Reading a list cell twice changes nothing: its items are already trimmed, non-empty and pipe-free. */
  lemma ListCellIdempotent(cell: string)
    ensures ListCell(Join(ListCell(cell), "|")) == ListCell(cell)
  {
    ListCellRoundTrip(ListCell(cell));
  }

  /** The listed flag ignores letter case. */
  lemma ListedCellIgnoresCase(cell: string)
    ensures ListedCell(Lower(cell)) == ListedCell(cell)
  {
    LowerIdempotent(cell);
  }

  // ---------------------------------------------------------------------------
  // Sorting the rows

  /** An entry of the import report's error list: a file line number and a message. */
  datatype RowError = RowError(row: nat, error: string)

  /** What the importer does with one row. */
  datatype Verdict = Reject(problem: RowError) | Create(card: Battlecard) | Update(card: Battlecard)

  /** The rows sorted: cards to create, cards to update (carrying the matched identifier), rejected rows. */
  datatype Batch = Batch(creates: seq<Battlecard>, updates: seq<Battlecard>, errors: seq<RowError>)

  /** The two names are equal once lower-cased. */
  predicate SameName(a: string, b: string) {
    Lower(a) == Lower(b)
  }

  /** `existing.find(bc => lower(bc.companyName) === lower(name))`, as the position of the first match from `from` on. */
  function FirstMatch(existing: seq<Battlecard>, name: string, from: nat := 0): (r: Option<nat>)
    requires from <= |existing|
    ensures r.Some? ==> from <= r.value < |existing| && SameName(existing[r.value].companyName, name)
    ensures r.Some? ==> forall j :: from <= j < r.value ==> !SameName(existing[j].companyName, name)
    ensures r.None? <==> forall j :: from <= j < |existing| ==> !SameName(existing[j].companyName, name)
    decreases |existing| - from
  {
    if from == |existing| then None
    else if SameName(existing[from].companyName, name) then Some(from)
    else FirstMatch(existing, name, from + 1)
  }

  /** The verdict on the row at position `index` (line `index + 2` of the file, after the header). */
  function Classify(json: JsonCodec, existing: seq<Battlecard>, index: nat, row: Row): Verdict {
    var name := Cell(row, "company_name");
    if IsBlank(name) then Reject(RowError(index + 2, "Company name is required"))
    else
      var card := Convert(json, row);
      match FirstMatch(existing, name)
      case None => Create(card)
      case Some(i) => Update(card.(id := existing[i].id))
  }

  /** Adds one verdict to a batch. */
  function Record(b: Batch, v: Verdict): Batch {
    match v
    case Reject(e) => b.(errors := b.errors + [e])
    case Create(c) => b.(creates := b.creates + [c])
    case Update(c) => b.(updates := b.updates + [c])
  }

  /** The batch for the rows, in row order. */
  function Sort(json: JsonCodec, existing: seq<Battlecard>, rows: seq<Row>): Batch
    decreases |rows|
  {
    if rows == [] then Batch([], [], [])
    else
      var n := |rows| - 1;
      Record(Sort(json, existing, rows[..n]), Classify(json, existing, n, rows[n]))
  }

  /** The `rows.forEach` loop of the importer. */
  method SortRows(json: JsonCodec, existing: seq<Battlecard>, rows: seq<Row>) returns (batch: Batch)
    ensures batch == Sort(json, existing, rows)
  {
    var creates: seq<Battlecard> := [];
    var updates: seq<Battlecard> := [];
    var errors: seq<RowError> := [];
    var i := 0;
    while i < |rows|
      invariant 0 <= i <= |rows|
      invariant Batch(creates, updates, errors) == Sort(json, existing, rows[..i])
    {
      assert rows[..i + 1][..i] == rows[..i];
      var row := rows[i];
      var name := Cell(row, "company_name");
      if IsBlank(name) {
        errors := errors + [RowError(i + 2, "Company name is required")];
      } else {
        var card := Convert(json, row);
        var found := FirstMatch(existing, name);
        if found.Some? {
          card := card.(id := existing[found.value].id);
          updates := updates + [card];
        } else {
          creates := creates + [card];
        }
      }
      i := i + 1;
    }
    assert rows[..i] == rows;
    batch := Batch(creates, updates, errors);
  }

  /** The verdict on every row, in row order. */
  function Verdicts(json: JsonCodec, existing: seq<Battlecard>, rows: seq<Row>): (vs: seq<Verdict>)
    ensures |vs| == |rows|
  {
    seq(|rows|, k requires 0 <= k < |rows| => Classify(json, existing, k, rows[k]))
  }

  predicate IsCreate(v: Verdict) { v.Create? }
  predicate IsUpdate(v: Verdict) { v.Update? }
  predicate IsReject(v: Verdict) { v.Reject? }

  /** The cards carried by create or update verdicts. */
  function Cards(vs: seq<Verdict>): seq<Battlecard>
    requires forall k :: 0 <= k < |vs| ==> !vs[k].Reject?
  {
    seq(|vs|, k requires 0 <= k < |vs| => vs[k].card)
  }

  /** The row errors carried by reject verdicts. */
  function Problems(vs: seq<Verdict>): seq<RowError>
    requires forall k :: 0 <= k < |vs| ==> vs[k].Reject?
  {
    seq(|vs|, k requires 0 <= k < |vs| => vs[k].problem)
  }

  /** The batch holds, in order, the cards of the create and update verdicts and the errors of the rejects. */
  predicate Follows(b: Batch, vs: seq<Verdict>) {
    && b.creates == Cards(Filter(IsCreate, vs))
    && b.updates == Cards(Filter(IsUpdate, vs))
    && b.errors == Problems(Filter(IsReject, vs))
  }

  /**
   * Every row lands in exactly one of the three lists, in row order: the
   * creates are the cards of the rows judged new, the updates those of the
   * rows that matched, the errors those of the unnamed rows.
   */
  lemma {:induction false} SortPartitions(json: JsonCodec, existing: seq<Battlecard>, rows: seq<Row>)
    ensures var b, vs := Sort(json, existing, rows), Verdicts(json, existing, rows);
            && b.creates == Cards(Filter(IsCreate, vs))
            && b.updates == Cards(Filter(IsUpdate, vs))
            && b.errors == Problems(Filter(IsReject, vs))
    ensures var b := Sort(json, existing, rows);
            |b.creates| + |b.updates| + |b.errors| == |rows|
    decreases |rows|
  {
    var vs := Verdicts(json, existing, rows);
    if rows != [] {
      var n := |rows| - 1;
      var front := Verdicts(json, existing, rows[..n]);
      SortPartitions(json, existing, rows[..n]);
      VerdictsSnoc(json, existing, rows);
      RecordFollows(Sort(json, existing, rows[..n]), front, vs[n]);
    }
    VerdictCounts(vs);
  }

  lemma VerdictsSnoc(json: JsonCodec, existing: seq<Battlecard>, rows: seq<Row>)
    requires rows != []
    ensures Verdicts(json, existing, rows)
         == Verdicts(json, existing, rows[..|rows| - 1]) + [Classify(json, existing, |rows| - 1, rows[|rows| - 1])]
  {
    var n := |rows| - 1;
    assert forall k :: 0 <= k < n ==> rows[..n][k] == rows[k];
  }

  /** Recording one more verdict keeps the batch in step with the verdicts. */
  lemma RecordFollows(b: Batch, vs: seq<Verdict>, v: Verdict)
    requires Follows(b, vs)
    ensures Follows(Record(b, v), vs + [v])
  {
    FilterAppend(IsCreate, vs, [v]);
    FilterAppend(IsUpdate, vs, [v]);
    FilterAppend(IsReject, vs, [v]);
    CardsAppend(Filter(IsCreate, vs), Filter(IsCreate, [v]));
    CardsAppend(Filter(IsUpdate, vs), Filter(IsUpdate, [v]));
    ProblemsAppend(Filter(IsReject, vs), Filter(IsReject, [v]));
  }

  lemma CardsAppend(a: seq<Verdict>, b: seq<Verdict>)
    requires forall k :: 0 <= k < |a| ==> !a[k].Reject?
    requires forall k :: 0 <= k < |b| ==> !b[k].Reject?
    ensures Cards(a + b) == Cards(a) + Cards(b)
  {
  }

  lemma ProblemsAppend(a: seq<Verdict>, b: seq<Verdict>)
    requires forall k :: 0 <= k < |a| ==> a[k].Reject?
    requires forall k :: 0 <= k < |b| ==> b[k].Reject?
    ensures Problems(a + b) == Problems(a) + Problems(b)
  {
  }

  /** Each verdict is of exactly one kind, so the three filters share the verdicts out. */
  lemma {:induction false} VerdictCounts(vs: seq<Verdict>)
    ensures |Filter(IsCreate, vs)| + |Filter(IsUpdate, vs)| + |Filter(IsReject, vs)| == |vs|
  {
    if vs != [] {
      VerdictCounts(vs[1..]);
    }
  }

  /** Rejected rows carry the one message and line numbers from 2 up to `bound + 1`, increasing. */
  predicate ErrorsNumbered(errors: seq<RowError>, bound: nat) {
    && (forall k :: 0 <= k < |errors| ==> 2 <= errors[k].row < bound + 2)
    && (forall k :: 0 <= k < |errors| ==> errors[k].error == "Company name is required")
    && (forall k, l :: 0 <= k < l < |errors| ==> errors[k].row < errors[l].row)
  }

  /** Cards to create have a name, no identifier, and match no existing card. */
  predicate CreatesAreNew(existing: seq<Battlecard>, creates: seq<Battlecard>) {
    forall c :: c in creates ==>
      !IsBlank(c.companyName) && c.id == [] &&
      forall j :: 0 <= j < |existing| ==> !SameName(existing[j].companyName, c.companyName)
  }

  /** Cards to update have a name and the identifier of an existing card of that name. */
  predicate Matches(existing: seq<Battlecard>, c: Battlecard) {
    exists j :: 0 <= j < |existing| && SameName(existing[j].companyName, c.companyName) && c.id == existing[j].id
  }

  predicate UpdatesMatch(existing: seq<Battlecard>, updates: seq<Battlecard>) {
    forall c :: c in updates ==> !IsBlank(c.companyName) && Matches(existing, c)
  }

  /** What the verdict on one row is, by cases. */
  lemma ClassifyCases(json: JsonCodec, existing: seq<Battlecard>, index: nat, row: Row)
    ensures var v := Classify(json, existing, index, row);
            var name := Cell(row, "company_name");
            && (v.Reject? <==> IsBlank(name))
            && (v.Reject? ==> v.problem == RowError(index + 2, "Company name is required"))
            && (v.Create? ==> v.card == Convert(json, row)
                              && forall j :: 0 <= j < |existing| ==> !SameName(existing[j].companyName, name))
            && (v.Update? ==> v.card.companyName == name && Matches(existing, v.card))
  {
    var name := Cell(row, "company_name");
    var found := FirstMatch(existing, name);
    if !IsBlank(name) && found.Some? {
      var card := Convert(json, row).(id := existing[found.value].id);
      assert SameName(existing[found.value].companyName, card.companyName);
    }
  }

  /**
   * What the lists hold: rejected rows are numbered in increasing order from 2
   * and carry the one message; created cards have a name matching no existing
   * card; updated cards carry the identifier of an existing card of the same
   * name (ignoring case).
   */
  lemma {:induction false} SortContents(json: JsonCodec, existing: seq<Battlecard>, rows: seq<Row>)
    ensures ErrorsNumbered(Sort(json, existing, rows).errors, |rows|)
    ensures CreatesAreNew(existing, Sort(json, existing, rows).creates)
    ensures UpdatesMatch(existing, Sort(json, existing, rows).updates)
    decreases |rows|
  {
    if rows != [] {
      var n := |rows| - 1;
      SortContents(json, existing, rows[..n]);
      RecordKeeps(json, existing, Sort(json, existing, rows[..n]), n, rows[n]);
    }
  }

  lemma RecordKeeps(json: JsonCodec, existing: seq<Battlecard>, b: Batch, n: nat, row: Row)
    requires ErrorsNumbered(b.errors, n) && CreatesAreNew(existing, b.creates) && UpdatesMatch(existing, b.updates)
    ensures var r := Record(b, Classify(json, existing, n, row));
            ErrorsNumbered(r.errors, n + 1) && CreatesAreNew(existing, r.creates) && UpdatesMatch(existing, r.updates)
  {
    var v := Classify(json, existing, n, row);
    ClassifyCases(json, existing, n, row);
    match v
    case Reject(e) =>
      RecordReject(b.errors, e, n);
    case Create(c) =>
      RecordCreate(existing, b.creates, c);
      WidenBound(b.errors, n);
    case Update(c) =>
      RecordUpdate(existing, b.updates, c);
      WidenBound(b.errors, n);
  }

  lemma WidenBound(errors: seq<RowError>, n: nat)
    requires ErrorsNumbered(errors, n)
    ensures ErrorsNumbered(errors, n + 1)
  {
  }

  lemma RecordReject(errors: seq<RowError>, e: RowError, n: nat)
    requires ErrorsNumbered(errors, n) && e == RowError(n + 2, "Company name is required")
    ensures ErrorsNumbered(errors + [e], n + 1)
  {
  }

  lemma RecordCreate(existing: seq<Battlecard>, creates: seq<Battlecard>, c: Battlecard)
    requires CreatesAreNew(existing, creates)
    requires !IsBlank(c.companyName) && c.id == []
    requires forall j :: 0 <= j < |existing| ==> !SameName(existing[j].companyName, c.companyName)
    ensures CreatesAreNew(existing, creates + [c])
  {
  }

  lemma RecordUpdate(existing: seq<Battlecard>, updates: seq<Battlecard>, c: Battlecard)
    requires UpdatesMatch(existing, updates)
    requires !IsBlank(c.companyName) && Matches(existing, c)
    ensures UpdatesMatch(existing, updates + [c])
  {
  }

  /**
   * Rows are not checked against one another: two rows naming the same new
   * company both become cards to create.
   */
  lemma RepeatedNewNameCreatedTwice(json: JsonCodec, existing: seq<Battlecard>, row: Row)
    requires !IsBlank(Cell(row, "company_name"))
    requires forall j :: 0 <= j < |existing| ==> !SameName(existing[j].companyName, Cell(row, "company_name"))
    ensures Sort(json, existing, [row, row]).creates == [Convert(json, row), Convert(json, row)]
  {
    var c := Convert(json, row);
    ClassifyNew(json, existing, 0, row);
    ClassifyNew(json, existing, 1, row);
    assert [row, row][..1] == [row];
    assert [row][..0] == [];
    assert Sort(json, existing, [row]) == Record(Batch([], [], []), Create(c));
    assert Sort(json, existing, [row, row]) == Record(Sort(json, existing, [row]), Create(c));
  }

  lemma ClassifyNew(json: JsonCodec, existing: seq<Battlecard>, index: nat, row: Row)
    requires !IsBlank(Cell(row, "company_name"))
    requires forall j :: 0 <= j < |existing| ==> !SameName(existing[j].companyName, Cell(row, "company_name"))
    ensures Classify(json, existing, index, row) == Create(Convert(json, row))
  {
    ClassifyCases(json, existing, index, row);
  }

  // ---------------------------------------------------------------------------
  // The import as a whole

  /** The counts and errors the importer shows after an import. */
  datatype ImportResults = ImportResults(success: nat, created: nat, updated: nat, errors: seq<RowError>)

  const NoRowsMessage: string := "No valid data rows found in CSV file"
  const NoCompaniesMessage: string := "No valid companies found to import"

  /**
   * The batch to hand over, given what parsing the import file gave, or the
   * message of the error thrown before the hand-over.
   */
  function Prepare(json: JsonCodec, existing: seq<Battlecard>, parsed: Result<seq<Row>, string>): Result<Batch, string> {
    match parsed
    case Err(message) => Err(message)
    case Ok(rows) =>
      if rows == [] then Err(NoRowsMessage)
      else
        var b := Sort(json, existing, rows);
        if b.creates == [] && b.updates == [] then Err(NoCompaniesMessage) else Ok(b)
  }

  /** The text shown for a thrown error: a header-mismatch text verbatim, any other behind `Import failed: `. */
  function FailureText(message: string): string {
    if Includes(message, "header mismatch") then message else "Import failed: " + message
  }

  /** The report after a failed import: nothing counted, one error on line 0. */
  function FailureReport(message: string): ImportResults {
    ImportResults(0, 0, 0, [RowError(0, FailureText(message))])
  }

  /** The report of an import, given what preparing it gave and how the hand-over ended. */
  function Report(prepared: Result<Batch, string>, handOver: Outcome<string>): (r: ImportResults)
    ensures r.success == r.created + r.updated
  {
    match prepared
    case Err(message) => FailureReport(message)
    case Ok(b) =>
      match handOver
      case Fail(message) => FailureReport(message)
      case Pass => ImportResults(|b.creates| + |b.updates|, |b.creates|, |b.updates|, b.errors)
  }

  /**
   * Preparing an import fails exactly when parsing failed, no row was read, or
   * no row names a company; a prepared batch is never empty.
   */
  lemma PrepareFails(json: JsonCodec, existing: seq<Battlecard>, parsed: Result<seq<Row>, string>)
    ensures Prepare(json, existing, parsed).Err? <==>
      (parsed.Err? || parsed == Ok([])
       || (forall k :: 0 <= k < |parsed.value| ==> Unnamed(parsed.value[k])))
    ensures Prepare(json, existing, parsed).Ok? ==>
      |Prepare(json, existing, parsed).value.creates| + |Prepare(json, existing, parsed).value.updates| >= 1
  {
    if parsed.Ok? && parsed.value != [] {
      AllBlankIffNothingKept(json, existing, parsed.value);
    }
  }

  lemma KeptStep(b: Batch, v: Verdict)
    ensures var r := Record(b, v);
            (r.creates == [] && r.updates == []) <==> (b.creates == [] && b.updates == [] && v.Reject?)
  {
  }

  lemma {:induction false} AllBlankIffNothingKept(json: JsonCodec, existing: seq<Battlecard>, rows: seq<Row>)
    ensures var b := Sort(json, existing, rows);
            (b.creates == [] && b.updates == []) <==> forall k :: 0 <= k < |rows| ==> Unnamed(rows[k])
    decreases |rows|
  {
    if rows != [] {
      var n := |rows| - 1;
      AllBlankIffNothingKept(json, existing, rows[..n]);
      ClassifyCases(json, existing, n, rows[n]);
      KeptStep(Sort(json, existing, rows[..n]), Classify(json, existing, n, rows[n]));
      AllSplitLast(Unnamed, rows, rows[..n]);
    }
  }

  /** A header mismatch is reported verbatim, without the `Import failed: ` prefix, whatever the hand-over. */
  lemma HeaderMismatchShownVerbatim(json: JsonCodec, existing: seq<Battlecard>, expected: seq<string>, text: string,
                                    handOver: Outcome<string>)
    requires ParseCsvSpec(expected, text).Err?
    ensures Report(Prepare(json, existing, ParseCsvSpec(expected, text)), handOver)
         == ImportResults(0, 0, 0, [RowError(0, ParseCsvSpec(expected, text).error)])
  {
    var lines := Lines(text);
    var headers := Fields(lines[0]);
    MismatchMessageMentions(Missing(expected, headers), Extra(expected, headers));
  }

  /**
   * Any other failure, thrown while preparing or during the hand-over, is
   * reported behind the `Import failed: ` prefix with nothing counted.
   */
  lemma OtherFailuresPrefixed(prepared: Result<Batch, string>, handOver: Outcome<string>, message: string)
    requires (prepared == Err(message) && handOver == Pass) || (prepared.Ok? && handOver == Fail(message))
    requires !Includes(message, "header mismatch")
    ensures Report(prepared, handOver).errors == [RowError(0, "Import failed: " + message)]
    ensures Report(prepared, handOver).success == 0
  {
  }
}
