/**
 * The battlecard store: the mapping between a record and a table row (both
 * directions), and the hook's state (the held list, the loading flag, the
 * last error) updated by fetch, create, update and delete against the remote
 * table.
 */
module Storage {
  import opened Wrappers
  import opened Text
  import opened Seqs
  import opened Types

  // ---------------------------------------------------------------------------
  // What a failed call throws

  /** A thrown value: an `Error` object with its message, or anything else. */
  datatype Thrown = ErrorObject(message: string) | OtherValue

  /** `err instanceof Error ? err.message : fallback`. */
  function MessageOr(t: Thrown, fallback: string): (m: string)
    ensures t.ErrorObject? ==> m == t.message
    ensures t.OtherValue? ==> m == fallback
  {
    match t
    case ErrorObject(message) => message
    case OtherValue => fallback
  }

  // ---------------------------------------------------------------------------
  // Record to row (the object passed to insert and update)

  /**
   * The columns written by insert and update. An optional text column holds
   * `None` when the record leaves it `undefined`: the key is then dropped from
   * the request, so an insert stores `null` there and an update leaves the
   * column as it was. The boolean, list and mapping columns always hold text.
   */
  datatype Columns = Columns(
    companyName: string,
    threatLevel: Option<string>,
    oneLineSummary: Option<string>,
    productPortfolioOverview: Option<string>,
    publiclyListed: string,
    marqueeCustomers: string,
    strongestVerticals: string,
    socialMediaPlatforms: string)

  /** `list?.join('|') || ''`. */
  function ListText(items: Option<seq<string>>): string {
    Join(items.GetOr([]), "|")
  }

  /** `flag ? 'true' : 'false'`. */
  function FlagText(flag: Option<bool>): string {
    if flag == Some(true) then "true" else "false"
  }

  /** `JSON.stringify(mapping || {})`. */
  function MappingText(json: JsonCodec, m: Option<Mapping>): string {
    json.encode(m.GetOr(map[]))
  }

  /** The column object built from a record by `createBattlecard` and `updateBattlecard` alike. */
  function ToColumns(json: JsonCodec, card: Battlecard): (cols: Columns)
  {
    Columns(
      companyName := card.companyName,
      threatLevel := card.threatLevel,
      oneLineSummary := card.oneLineSummary,
      productPortfolioOverview := card.productPortfolioOverview,
      publiclyListed := FlagText(card.publiclyListed),
      marqueeCustomers := ListText(card.marqueeCustomers),
      strongestVerticals := ListText(card.strongestVerticals),
      socialMediaPlatforms := MappingText(json, card.socialMediaPlatforms))
  }

  // ---------------------------------------------------------------------------
  // Row to record (the mapping applied to every fetched row)

  /** A row of the table as the select returns it; `None` is SQL `null`. */
  datatype StoredRow = StoredRow(
    id: string,
    companyName: string,
    threatLevel: Option<string>,
    oneLineSummary: Option<string>,
    productPortfolioOverview: Option<string>,
    publiclyListed: Option<string>,
    marqueeCustomers: Option<string>,
    strongestVerticals: Option<string>,
    socialMediaPlatforms: Option<string>,
    createdAt: Option<string>,
    updatedAt: Option<string>,
    lastUpdated: Option<string>)

  /** The column holds a truthy string (neither `null` nor `''`). */
  predicate Filled(col: Option<string>) {
    col.Some? && col.value != []
  }

  /** `column || undefined`: an empty or missing text reads as absent. */
  function OrUndefined(col: Option<string>): (r: Option<string>)
    ensures r == None <==> !Filled(col)
    ensures r.Some? ==> r == col
  {
    if Filled(col) then col else None
  }

  /** `column ? column.split('|').filter(Boolean) : []` (the pieces are not trimmed). */
  function ListColumn(col: Option<string>): (items: seq<string>)
    ensures forall k :: 0 <= k < |items| ==> items[k] != [] && '|' !in items[k]
    ensures !Filled(col) ==> items == []
  {
    if Filled(col) then
      FilterMembers(NonEmpty, Split(col.value, '|'));
      Filter(NonEmpty, Split(col.value, '|'))
    else []
  }

  /** `column === 'true'`. */
  function FlagColumn(col: Option<string>): bool {
    col == Some("true")
  }

  /** `column ? (JSON.parse(column), or {} when it throws) : {}`. */
  function MappingColumn(json: JsonCodec, col: Option<string>): Mapping {
    if Filled(col) then json.decode(col.value).GetOr(map[]) else map[]
  }

  /** The record built from a fetched row. */
  function FromRow(json: JsonCodec, row: StoredRow): (card: Battlecard)
    ensures card.id == row.id && card.companyName == row.companyName
    ensures card.createdAt == row.createdAt && card.updatedAt == row.updatedAt
    ensures card.lastUpdated == row.lastUpdated
    ensures card.publiclyListed == Some(true) <==> row.publiclyListed == Some("true")
    ensures card.publiclyListed.Some? && card.marqueeCustomers.Some?
    ensures card.strongestVerticals.Some? && card.socialMediaPlatforms.Some?
    ensures card.threatLevel != Some("") && card.oneLineSummary != Some("")
    ensures card.productPortfolioOverview != Some("")
  {
    Battlecard(
      id := row.id,
      companyName := row.companyName,
      threatLevel := OrUndefined(row.threatLevel),
      oneLineSummary := OrUndefined(row.oneLineSummary),
      productPortfolioOverview := OrUndefined(row.productPortfolioOverview),
      publiclyListed := Some(FlagColumn(row.publiclyListed)),
      marqueeCustomers := Some(ListColumn(row.marqueeCustomers)),
      strongestVerticals := Some(ListColumn(row.strongestVerticals)),
      socialMediaPlatforms := Some(MappingColumn(json, row.socialMediaPlatforms)),
      createdAt := row.createdAt,
      updatedAt := row.updatedAt,
      lastUpdated := row.lastUpdated)
  }

  /** `data.map(...)`: every fetched row read in order. */
  function FromRows(json: JsonCodec, rows: seq<StoredRow>): seq<Battlecard>
  {
    seq(|rows|, k requires 0 <= k < |rows| => FromRow(json, rows[k]))
  }

  // ---------------------------------------------------------------------------
  // Writing a record and reading it back

  /**
   * The row the table holds after an insert: every written column as given,
   * `null` for a dropped text column, with the identifier and the timestamps
   * the table assigns.
   */
  function Inserted(id: string, cols: Columns, createdAt: Option<string>, updatedAt: Option<string>,
                    lastUpdated: Option<string>): StoredRow {
    StoredRow(id, cols.companyName, cols.threatLevel, cols.oneLineSummary, cols.productPortfolioOverview,
              Some(cols.publiclyListed), Some(cols.marqueeCustomers), Some(cols.strongestVerticals),
              Some(cols.socialMediaPlatforms), createdAt, updatedAt, lastUpdated)
  }

  /** A text column after an update: the written text, or the previous column when the key was dropped. */
  function Patch(written: Option<string>, before: Option<string>): Option<string> {
    if written.Some? then written else before
  }

  /**
   * The row the table holds after an update of row `before`: every written
   * column as given, a dropped text column as it was, the identifier and the
   * creation time kept, and the update times the table assigns.
   */
  function Patched(before: StoredRow, cols: Columns, updatedAt: Option<string>, lastUpdated: Option<string>): StoredRow {
    StoredRow(before.id, cols.companyName,
              Patch(cols.threatLevel, before.threatLevel),
              Patch(cols.oneLineSummary, before.oneLineSummary),
              Patch(cols.productPortfolioOverview, before.productPortfolioOverview),
              Some(cols.publiclyListed), Some(cols.marqueeCustomers), Some(cols.strongestVerticals),
              Some(cols.socialMediaPlatforms), before.createdAt, updatedAt, lastUpdated)
  }

  /** The JSON library reads back what it writes, and never writes the empty text. */
  ghost predicate Lawful(json: JsonCodec) {
    forall m :: json.decode(json.encode(m)) == Some(m) && json.encode(m) != []
  }

  /** List items the pipe-joined column can carry: none contains a pipe. */
  predicate PipeFree(items: Option<seq<string>>) {
    forall k :: 0 <= k < |items.GetOr([])| ==> '|' !in items.GetOr([])[k]
  }

  /** Every list attribute of the record is pipe-free. */
  predicate Storable(card: Battlecard) {
    PipeFree(card.marqueeCustomers) && PipeFree(card.strongestVerticals)
  }

  /**
   * The record a written record reads back as: empty texts become absent, the
   * flag becomes a plain boolean, empty list items vanish, absent lists and
   * mappings become empty ones.
   */
  function ReadBack(card: Battlecard): Battlecard {
    card.(threatLevel := OrUndefined(card.threatLevel),
          oneLineSummary := OrUndefined(card.oneLineSummary),
          productPortfolioOverview := OrUndefined(card.productPortfolioOverview),
          publiclyListed := Some(card.publiclyListed == Some(true)),
          marqueeCustomers := Some(Filter(NonEmpty, card.marqueeCustomers.GetOr([]))),
          strongestVerticals := Some(Filter(NonEmpty, card.strongestVerticals.GetOr([]))),
          socialMediaPlatforms := Some(card.socialMediaPlatforms.GetOr(map[])))
  }

  /** A pipe-joined list column reads back as the items, less the empty ones. */
  lemma {:induction false} ListColumnRoundTrip(items: Option<seq<string>>)
    requires PipeFree(items)
    ensures ListColumn(Some(ListText(items))) == Filter(NonEmpty, items.GetOr([]))
  {
    var l := items.GetOr([]);
    if ListText(items) == [] {
      EmptyJoin(l);
      FilterNone(NonEmpty, l);
    } else {
      SplitJoin(l, '|');
    }
  }

  /** Items joining to the empty text are all empty (there are none, or one empty one). */
  lemma {:induction false} EmptyJoin(items: seq<string>)
    requires Join(items, "|") == []
    ensures forall k :: 0 <= k < |items| ==> !NonEmpty(items[k])
  {
    if |items| == 1 {
      assert Join(items, "|") == items[0];
    }
  }

  /** The flag column reads back as the truthiness of the written flag. */
  lemma FlagColumnRoundTrip(flag: Option<bool>)
    ensures FlagColumn(Some(FlagText(flag))) <==> flag == Some(true)
    ensures !FlagColumn(None)
  {
  }

  /** Under a lawful codec the mapping column reads back as the written mapping, `{}` for absent. */
  lemma MappingColumnRoundTrip(json: JsonCodec, m: Option<Mapping>)
    requires Lawful(json)
    ensures MappingColumn(json, Some(MappingText(json, m))) == m.GetOr(map[])
  {
    var written := json.encode(m.GetOr(map[]));
    assert json.decode(written) == Some(m.GetOr(map[])) && written != [];
  }

  /**
   * A record inserted and fetched again equals `ReadBack` of the record, with
   * the table's identifier and timestamps.
   */
  lemma InsertThenRead(json: JsonCodec, card: Battlecard, id: string,
                       createdAt: Option<string>, updatedAt: Option<string>, lastUpdated: Option<string>)
    requires Lawful(json) && Storable(card)
    ensures FromRow(json, Inserted(id, ToColumns(json, card), createdAt, updatedAt, lastUpdated))
         == ReadBack(card).(id := id, createdAt := createdAt, updatedAt := updatedAt, lastUpdated := lastUpdated)
  {
    ListColumnRoundTrip(card.marqueeCustomers);
    ListColumnRoundTrip(card.strongestVerticals);
    MappingColumnRoundTrip(json, card.socialMediaPlatforms);
  }

  /**
   * A record written over row `before` by an update and fetched again equals
   * `ReadBack` of the record in which every absent text is taken from the
   * previous row; with every text present that is `ReadBack` of the record
   * itself, and an absent text reads as it did before the update.
   */
  lemma UpdateThenRead(json: JsonCodec, before: StoredRow, card: Battlecard,
                       updatedAt: Option<string>, lastUpdated: Option<string>)
    requires Lawful(json) && Storable(card)
    ensures var fetched := FromRow(json, Patched(before, ToColumns(json, card), updatedAt, lastUpdated));
      var merged := card.(threatLevel := Patch(card.threatLevel, before.threatLevel),
                          oneLineSummary := Patch(card.oneLineSummary, before.oneLineSummary),
                          productPortfolioOverview := Patch(card.productPortfolioOverview, before.productPortfolioOverview));
      fetched == ReadBack(merged).(id := before.id, createdAt := before.createdAt,
                                   updatedAt := updatedAt, lastUpdated := lastUpdated)
    ensures var fetched := FromRow(json, Patched(before, ToColumns(json, card), updatedAt, lastUpdated));
      card.threatLevel.Some? && card.oneLineSummary.Some? && card.productPortfolioOverview.Some? ==>
        fetched == ReadBack(card).(id := before.id, createdAt := before.createdAt,
                                   updatedAt := updatedAt, lastUpdated := lastUpdated)
    ensures var fetched := FromRow(json, Patched(before, ToColumns(json, card), updatedAt, lastUpdated));
      && (card.threatLevel == None ==> fetched.threatLevel == FromRow(json, before).threatLevel)
      && (card.oneLineSummary == None ==> fetched.oneLineSummary == FromRow(json, before).oneLineSummary)
      && (card.productPortfolioOverview == None ==>
            fetched.productPortfolioOverview == FromRow(json, before).productPortfolioOverview)
  {
    ListColumnRoundTrip(card.marqueeCustomers);
    ListColumnRoundTrip(card.strongestVerticals);
    MappingColumnRoundTrip(json, card.socialMediaPlatforms);
  }

  /** A record already in read-back form: no empty text, no empty item, nothing absent that reads as empty. */
  predicate Settled(card: Battlecard) {
    card.threatLevel != Some("") && card.oneLineSummary != Some("") && card.productPortfolioOverview != Some("")
    && card.publiclyListed.Some? && card.marqueeCustomers.Some? && card.strongestVerticals.Some?
    && card.socialMediaPlatforms.Some?
    && (forall k :: 0 <= k < |card.marqueeCustomers.GetOr([])| ==> card.marqueeCustomers.GetOr([])[k] != [])
    && (forall k :: 0 <= k < |card.strongestVerticals.GetOr([])| ==> card.strongestVerticals.GetOr([])[k] != [])
  }

  /** Every fetched record is settled, and a settled record reads back unchanged. */
  lemma {:induction false} ReadBackSettles(json: JsonCodec, row: StoredRow, card: Battlecard)
    ensures Settled(FromRow(json, row))
    ensures Settled(card) ==> ReadBack(card) == card
  {
    var fetched := FromRow(json, row);
    var m := ListColumn(row.marqueeCustomers);
    var v := ListColumn(row.strongestVerticals);
    assert fetched.marqueeCustomers.GetOr([]) == m && fetched.strongestVerticals.GetOr([]) == v;
    assert forall k :: 0 <= k < |m| ==> m[k] != [];
    assert forall k :: 0 <= k < |v| ==> v[k] != [];
    if Settled(card) {
      var cm := card.marqueeCustomers.value;
      var cv := card.strongestVerticals.value;
      assert card.marqueeCustomers.GetOr([]) == cm && card.strongestVerticals.GetOr([]) == cv;
      assert forall k :: 0 <= k < |cm| ==> NonEmpty(cm[k]);
      assert forall k :: 0 <= k < |cv| ==> NonEmpty(cv[k]);
      FilterAllKept(NonEmpty, cm);
      FilterAllKept(NonEmpty, cv);
      assert OrUndefined(card.threatLevel) == card.threatLevel;
      assert OrUndefined(card.oneLineSummary) == card.oneLineSummary;
      assert OrUndefined(card.productPortfolioOverview) == card.productPortfolioOverview;
      assert card.publiclyListed.Some?;
      var flag := card.publiclyListed.value;
      assert card.publiclyListed == Some(flag);
      assert (Some(flag) == Some(true)) == flag;
    }
  }

  /**
   * A fetched record, saved unedited by an update of its row and re-fetched,
   * comes back as it was, apart from the update times the table assigns.
   */
  lemma FetchedRecordSurvivesSave(json: JsonCodec, row: StoredRow, updatedAt: Option<string>, lastUpdated: Option<string>)
    requires Lawful(json)
    ensures FromRow(json, Patched(row, ToColumns(json, FromRow(json, row)), updatedAt, lastUpdated))
         == FromRow(json, row).(updatedAt := updatedAt, lastUpdated := lastUpdated)
  {
    var card := FromRow(json, row);
    ReadBackSettles(json, row, card);
    UpdateThenRead(json, row, card, updatedAt, lastUpdated);
    var merged := card.(threatLevel := Patch(card.threatLevel, row.threatLevel),
                        oneLineSummary := Patch(card.oneLineSummary, row.oneLineSummary),
                        productPortfolioOverview := Patch(card.productPortfolioOverview, row.productPortfolioOverview));
    assert ReadBack(merged) == ReadBack(card);
  }

  /** An item containing a pipe does not survive: it reads back as two items. */
  lemma PipeInsideItemSplits(a: char, b: char)
    requires a != '|' && b != '|'
    ensures ListColumn(Some(ListText(Some([[a, '|', b]])))) == [[a], [b]]
  {
    var cell := [a, '|', b];
    assert ListText(Some([cell])) == cell;
    SplitAfterPiece([a], [b], '|');
    assert [a] + ['|'] + [b] == cell;
    SplitNoSeparator([b], '|');
    assert Split(cell, '|') == [[a], [b]];
    var pieces := [[a], [b]];
    assert forall k :: 0 <= k < |pieces| ==> NonEmpty(pieces[k]);
    FilterAllKept(NonEmpty, pieces);
  }

  // ---------------------------------------------------------------------------
  // The remote table

  /** A request sent to the table, in the order sent. */
  datatype Request = SelectAll | Insert(cols: Columns) | UpdateRow(id: string, cols: Columns) | DeleteRow(id: string)

  /**
   * The remote table, seen from the client: it logs every request, and what it
   * answers to the n-th request is given by its reply functions.
   */
  class Remote {
    var log: seq<Request>
    const selectReply: nat -> Result<seq<StoredRow>, Thrown>
    const insertReply: (nat, Columns) -> Result<StoredRow, Thrown>
    const updateReply: (nat, string, Columns) -> Result<StoredRow, Thrown>
    const deleteReply: (nat, string) -> Outcome<Thrown>

    constructor(selectReply: nat -> Result<seq<StoredRow>, Thrown>,
                insertReply: (nat, Columns) -> Result<StoredRow, Thrown>,
                updateReply: (nat, string, Columns) -> Result<StoredRow, Thrown>,
                deleteReply: (nat, string) -> Outcome<Thrown>)
      ensures log == []
      ensures this.selectReply == selectReply && this.insertReply == insertReply
      ensures this.updateReply == updateReply && this.deleteReply == deleteReply
    {
      log := [];
      this.selectReply := selectReply;
      this.insertReply := insertReply;
      this.updateReply := updateReply;
      this.deleteReply := deleteReply;
    }

    /** `select('*')`, ordered by the table. */
    method Select() returns (r: Result<seq<StoredRow>, Thrown>)
      modifies this
      ensures log == old(log) + [SelectAll]
      ensures r == selectReply(|old(log)|)
    {
      r := selectReply(|log|);
      log := log + [SelectAll];
    }

    /** `insert(cols).select().single()`. */
    method Insert(cols: Columns) returns (r: Result<StoredRow, Thrown>)
      modifies this
      ensures log == old(log) + [Request.Insert(cols)]
      ensures r == insertReply(|old(log)|, cols)
    {
      r := insertReply(|log|, cols);
      log := log + [Request.Insert(cols)];
    }

    /** `update(cols).eq('id', id).select().single()`. */
    method Update(id: string, cols: Columns) returns (r: Result<StoredRow, Thrown>)
      modifies this
      ensures log == old(log) + [UpdateRow(id, cols)]
      ensures r == updateReply(|old(log)|, id, cols)
    {
      r := updateReply(|log|, id, cols);
      log := log + [UpdateRow(id, cols)];
    }

    /** `delete().eq('id', id)`. */
    method Delete(id: string) returns (r: Outcome<Thrown>)
      modifies this
      ensures log == old(log) + [DeleteRow(id)]
      ensures r == deleteReply(|old(log)|, id)
    {
      r := deleteReply(|log|, id);
      log := log + [DeleteRow(id)];
    }
  }

  // ---------------------------------------------------------------------------
  // The store

  /** The held list after a deletion: every card but those with the identifier, in order. */
  function Without(cards: seq<Battlecard>, id: string): (r: seq<Battlecard>)
    ensures forall c :: c in r <==> c in cards && c.id != id
    ensures |r| <= |cards|
  {
    FilterMembers((c: Battlecard) => c.id != id, cards);
    Filter((c: Battlecard) => c.id != id, cards)
  }

  /** Deleting an identifier twice removes no more than deleting it once. */
  lemma {:induction false} WithoutIdempotent(cards: seq<Battlecard>, id: string)
    ensures Without(Without(cards, id), id) == Without(cards, id)
  {
    FilterIdempotent((c: Battlecard) => c.id != id, cards);
  }

  /** Deleting an identifier not held leaves the list as it was. */
  lemma {:induction false} WithoutAbsent(cards: seq<Battlecard>, id: string)
    requires forall k :: 0 <= k < |cards| ==> cards[k].id != id
    ensures Without(cards, id) == cards
  {
    FilterAllKept((c: Battlecard) => c.id != id, cards);
  }

  const FetchFallback := "An error occurred"
  const CreateFallback := "Unknown error"
  const UpdateFallback := "Failed to update battlecard"
  const DeleteFallback := "Failed to delete battlecard"
  const NameRequired := "Company name is required"
  const CreateFailurePrefix := "Failed to create battlecard for "

  /** The error text `createBattlecard` records when creating the card named `name` threw `t`. */
  function CreateFailure(name: string, t: Thrown): (text: string)
    ensures StartsWith(text, CreateFailurePrefix + name + ": ")
  {
    var head := CreateFailurePrefix + name + ": ";
    assert (head + MessageOr(t, CreateFallback))[..|head|] == head;
    head + MessageOr(t, CreateFallback)
  }

  /** The requests `createBattlecard` sends for a card: none for a blank name, one insert otherwise. */
  function CreateRequests(json: JsonCodec, card: Battlecard): (sent: seq<Request>)
    ensures |sent| <= 1
    ensures sent == [] <==> IsBlank(card.companyName)
  {
    if IsBlank(card.companyName) then [] else [Request.Insert(ToColumns(json, card))]
  }

  /** What `createBattlecard` returns, or throws, for a card when the table's log is at position `at`. */
  function CreateReply(remote: Remote, json: JsonCodec, at: nat, card: Battlecard): (r: Result<StoredRow, Thrown>)
    ensures IsBlank(card.companyName) ==> r == Err(ErrorObject(NameRequired))
  {
    if IsBlank(card.companyName) then Err(ErrorObject(NameRequired)) else remote.insertReply(at, ToColumns(json, card))
  }

  /** The hook: the held list, the loading flag and the last error, with the table behind them. */
  class BattlecardStore {
    var battlecards: seq<Battlecard>
    var loading: bool
    var error: Option<string>
    const remote: Remote
    const json: JsonCodec

    /** The hook's initial state: nothing held, loading, no error. */
    constructor(remote: Remote, json: JsonCodec)
      ensures battlecards == [] && loading && error == None
      ensures this.remote == remote && this.json == json
    {
      battlecards := [];
      loading := true;
      error := None;
      this.remote := remote;
      this.json := json;
    }

    /**
     * `fetchBattlecards`: one select; on success the held list is the rows
     * read in order (a stale error is left in place), on failure the list is
     * kept and the error recorded. Loading is off afterwards either way.
     */
    method Fetch()
      modifies this, remote
      ensures remote.log == old(remote.log) + [SelectAll]
      ensures !loading
      ensures match remote.selectReply(|old(remote.log)|)
        case Ok(rows) => battlecards == FromRows(json, rows) && error == old(error)
        case Err(t) => battlecards == old(battlecards) && error == Some(MessageOr(t, FetchFallback))
      ensures ShowsLastSelect()
    {
      loading := true;
      var r := remote.Select();
      if r.Ok? {
        battlecards := FromRows(json, r.value);
      } else {
        error := Some(MessageOr(r.error, FetchFallback));
      }
      loading := false;
    }

    /** The held list and error are what the last request, a select, left: the rows read, or its error. */
    predicate ShowsLastSelect()
      reads this, remote
    {
      && |remote.log| >= 1 && remote.log[|remote.log| - 1] == SelectAll
      && match remote.selectReply(|remote.log| - 1)
         case Ok(rows) => battlecards == FromRows(json, rows)
         case Err(t) => error == Some(MessageOr(t, FetchFallback))
    }

    /**
     * `createBattlecard`: a blank name is refused before any request; otherwise
     * one insert. A failure records the error naming the company and is
     * rethrown; the held list is never changed (no refetch).
     */
    method Create(card: Battlecard) returns (r: Result<StoredRow, Thrown>)
      modifies this, remote
      ensures battlecards == old(battlecards) && loading == old(loading)
      ensures remote.log == old(remote.log) + CreateRequests(json, card)
      ensures r == CreateReply(remote, json, |old(remote.log)|, card)
      ensures r.Ok? ==> error == old(error)
      ensures r.Err? ==> error == Some(CreateFailure(card.companyName, r.error))
    {
      if IsBlank(card.companyName) {
        r := Err(ErrorObject(NameRequired));
      } else {
        r := remote.Insert(ToColumns(json, card));
      }
      if r.Err? {
        error := Some(CreateFailure(card.companyName, r.error));
      }
    }

    /**
     * `updateBattlecard`: one update; on success a refetch, on failure the
     * error is recorded (its message, or a fixed text) and rethrown.
     */
    method Update(card: Battlecard) returns (r: Result<StoredRow, Thrown>)
      modifies this, remote
      ensures r == remote.updateReply(|old(remote.log)|, card.id, ToColumns(json, card))
      ensures r.Err? ==>
        (remote.log == old(remote.log) + [UpdateRow(card.id, ToColumns(json, card))]
         && battlecards == old(battlecards) && loading == old(loading)
         && error == Some(MessageOr(r.error, UpdateFallback)))
      ensures r.Ok? ==>
        (remote.log == old(remote.log) + [UpdateRow(card.id, ToColumns(json, card)), SelectAll]
         && !loading
         && match remote.selectReply(|old(remote.log)| + 1)
            case Ok(rows) => battlecards == FromRows(json, rows) && error == old(error)
            case Err(t) => battlecards == old(battlecards) && error == Some(MessageOr(t, FetchFallback)))
    {
      r := remote.Update(card.id, ToColumns(json, card));
      if r.Err? {
        error := Some(MessageOr(r.error, UpdateFallback));
      } else {
        Fetch();
      }
    }

    /**
     * `deleteBattlecard`: one delete; on success the held list loses every
     * card with the identifier, on failure the error is recorded and rethrown.
     */
    method Delete(id: string) returns (r: Outcome<Thrown>)
      modifies this, remote
      ensures remote.log == old(remote.log) + [DeleteRow(id)]
      ensures r == remote.deleteReply(|old(remote.log)|, id)
      ensures loading == old(loading)
      ensures r.Pass? ==> battlecards == Without(old(battlecards), id) && error == old(error)
      ensures r.Fail? ==> battlecards == old(battlecards) && error == Some(MessageOr(r.error, DeleteFallback))
    {
      r := remote.Delete(id);
      match r
      case Pass =>
        battlecards := Without(battlecards, id);
      case Fail(t) =>
        error := Some(MessageOr(t, DeleteFallback));
    }
  }
}
