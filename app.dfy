/**
 * The application shell: the search and threat filter over the held list,
 * the bulk import that creates and then updates cards one at a time, and the
 * handlers that move between the grid, the detail view, the form and the
 * importer.
 */
module App {
  import opened Wrappers
  import opened Text
  import opened Seqs
  import opened Types
  import opened Storage
  import CsvCodec
  import CsvImport

  // ---------------------------------------------------------------------------
  // The filter

  /** The filter bar's state: a search text and an optional threat level. */
  datatype Filters = Filters(searchTerm: string, threatLevel: Option<string>)

  /** An optional text attribute that is present, non-empty and contains `term`, ignoring case. */
  predicate Mentions(field: Option<string>, term: string) {
    Filled(field) && Includes(Lower(field.value), Lower(term))
  }

  /** The search test: an empty term matches everything; otherwise the name, summary or overview contains it. */
  predicate MatchesSearch(card: Battlecard, term: string) {
    term == []
    || Includes(Lower(card.companyName), Lower(term))
    || Mentions(card.oneLineSummary, term)
    || Mentions(card.productPortfolioOverview, term)
  }

  /** The threat test: no level (or an empty one) matches everything; otherwise the level must be equal. */
  predicate MatchesThreat(card: Battlecard, level: Option<string>) {
    !Filled(level) || card.threatLevel == level
  }

  predicate Shown(filters: Filters, card: Battlecard) {
    MatchesSearch(card, filters.searchTerm) && MatchesThreat(card, filters.threatLevel)
  }

  /** `filteredBattlecards`: the held cards passing both tests, in their order. */
  function FilterCards(cards: seq<Battlecard>, filters: Filters): (r: seq<Battlecard>)
    ensures forall c :: c in r <==> c in cards && Shown(filters, c)
  {
    FilterMembers(c => Shown(filters, c), cards);
    Filter(c => Shown(filters, c), cards)
  }

  /** With no search term and no threat level every card is shown, in the original order. */
  lemma {:induction false} EmptyFiltersShowAll(cards: seq<Battlecard>, level: Option<string>)
    requires !Filled(level)
    ensures FilterCards(cards, Filters([], level)) == cards
  {
    var f := Filters([], level);
    assert forall k :: 0 <= k < |cards| ==> Shown(f, cards[k]);
    FilterAllKept(c => Shown(f, c), cards);
  }

  /** The shown cards are the held cards with some left out, the rest in their order. */
  lemma FilterKeepsOrder(cards: seq<Battlecard>, filters: Filters)
    ensures IsSubsequence(FilterCards(cards, filters), cards)
  {
    FilterIsSubsequence(c => Shown(filters, c), cards);
  }

  /** Filtering the shown cards again shows the same cards. */
  lemma FilterTwiceIsOnce(cards: seq<Battlecard>, filters: Filters)
    ensures FilterCards(FilterCards(cards, filters), filters) == FilterCards(cards, filters)
  {
    FilterIdempotent(c => Shown(filters, c), cards);
  }

  /** The texts the search looks in: the name, and the summary and overview when present and non-empty. */
  function Searched(card: Battlecard): (texts: seq<string>)
    ensures 1 <= |texts| <= 3 && texts[0] == card.companyName
  {
    [card.companyName]
    + (if Filled(card.oneLineSummary) then [card.oneLineSummary.value] else [])
    + (if Filled(card.productPortfolioOverview) then [card.productPortfolioOverview.value] else [])
  }

  /**
   * A non-empty term matches exactly when one of the searched texts contains
   * it, ignoring case; an absent or empty summary or overview is never searched.
   */
  lemma SearchIsSubstringOfSearched(card: Battlecard, term: string)
    requires term != []
    ensures MatchesSearch(card, term) <==>
      exists k :: 0 <= k < |Searched(card)| && Includes(Lower(Searched(card)[k]), Lower(term))
  {
    var texts := Searched(card);
    if MatchesSearch(card, term) {
      if Includes(Lower(card.companyName), Lower(term)) {
        assert Includes(Lower(texts[0]), Lower(term));
      } else if Mentions(card.oneLineSummary, term) {
        assert texts[1] == card.oneLineSummary.value;
        assert Includes(Lower(texts[1]), Lower(term));
      } else {
        assert texts[|texts| - 1] == card.productPortfolioOverview.value;
        assert Includes(Lower(texts[|texts| - 1]), Lower(term));
      }
    }
  }

  /** The search ignores case on both sides: lower-casing the term or the card's texts changes nothing. */
  lemma SearchIgnoresCase(card: Battlecard, term: string)
    ensures MatchesSearch(card, Lower(term)) <==> MatchesSearch(card, term)
    ensures MatchesSearch(card.(companyName := Lower(card.companyName)), term) <==> MatchesSearch(card, term)
  {
    LowerIdempotent(term);
    LowerIdempotent(card.companyName);
  }

  /** A set threat level shows exactly the cards with that level, compared exactly. */
  lemma ThreatIsExact(cards: seq<Battlecard>, level: string, card: Battlecard)
    requires level != []
    ensures card in FilterCards(cards, Filters([], Some(level))) <==> card in cards && card.threatLevel == Some(level)
  {
  }

  // ---------------------------------------------------------------------------
  // The bulk import against the table

  /** The requests and progress of a run of creates or of updates, and the error that stopped it. */
  datatype Run = Run(sent: seq<Request>, done: nat, failure: Option<Thrown>)

  /** One insert per card, in order. */
  function Inserts(json: JsonCodec, cards: seq<Battlecard>): (reqs: seq<Request>)
    ensures |reqs| == |cards|
  {
    seq(|cards|, k requires 0 <= k < |cards| => Request.Insert(ToColumns(json, cards[k])))
  }

  /** One update per card, in order, each followed by the refetch the update performs. */
  function Refetched(json: JsonCodec, cards: seq<Battlecard>): (reqs: seq<Request>)
    ensures |reqs| == 2 * |cards|
  {
    if cards == [] then []
    else [UpdateRow(cards[0].id, ToColumns(json, cards[0])), SelectAll] + Refetched(json, cards[1..])
  }

  /**
   * The creates of an import from the `i`-th card on, at log position `n`,
   * with `sent` already sent: one card at a time, in order, stopping at the
   * first that throws. A blank name is refused before its insert is sent.
   */
  function CreatesFrom(remote: Remote, json: JsonCodec, n: nat, cards: seq<Battlecard>, i: nat, sent: seq<Request>)
    : Run
    requires i <= |cards|
    decreases |cards| - i
  {
    if i == |cards| then Run(sent, i, None)
    else
      var now := CreateRequests(json, cards[i]);
      match CreateReply(remote, json, n, cards[i])
      case Err(t) => Run(sent + now, i, Some(t))
      case Ok(_) => CreatesFrom(remote, json, n + |now|, cards, i + 1, sent + now)
  }

  /** The creates of an import, from log position `n`. */
  function CreateRun(remote: Remote, json: JsonCodec, n: nat, cards: seq<Battlecard>): Run {
    CreatesFrom(remote, json, n, cards, 0, [])
  }

  /** The insert a failed run sent last: the one for the card at `k`, if there is such a card with a name. */
  function Attempted(json: JsonCodec, cards: seq<Battlecard>, k: nat): seq<Request> {
    if k < |cards| then CreateRequests(json, cards[k]) else []
  }

  /** A run ends at or after its starting card, and completes exactly when it reaches the last. */
  lemma {:induction false} CreatesFromDone(remote: Remote, json: JsonCodec, n: nat, cards: seq<Battlecard>, i: nat,
                                           sent: seq<Request>)
    requires i <= |cards|
    ensures var run := CreatesFrom(remote, json, n, cards, i, sent);
      i <= run.done <= |cards| && (run.failure == None <==> run.done == |cards|)
    decreases |cards| - i
  {
    if i < |cards| && CreateReply(remote, json, n, cards[i]).Ok? {
      CreatesFromOk(remote, json, n, cards, i, sent);
      CreatesFromDone(remote, json, n + 1, cards, i + 1, sent + [Request.Insert(ToColumns(json, cards[i]))]);
    } else {
      CreatesFromStop(remote, json, n, cards, i, sent);
    }
  }

  /** A run sends one insert per card it created, then the failed card's insert if it had a name. */
  lemma {:induction false} CreatesFromShape(remote: Remote, json: JsonCodec, n: nat, cards: seq<Battlecard>, i: nat,
                                            sent: seq<Request>)
    requires i <= |cards|
    ensures var run := CreatesFrom(remote, json, n, cards, i, sent);
      i <= run.done <= |cards|
      && run.sent == sent + Inserts(json, cards[i..run.done]) + Attempted(json, cards, run.done)
    decreases |cards| - i
  {
    CreatesFromDone(remote, json, n, cards, i, sent);
    if i < |cards| && CreateReply(remote, json, n, cards[i]).Ok? {
      var now := [Request.Insert(ToColumns(json, cards[i]))];
      CreatesFromOk(remote, json, n, cards, i, sent);
      var run := CreatesFrom(remote, json, n + 1, cards, i + 1, sent + now);
      CreatesFromShape(remote, json, n + 1, cards, i + 1, sent + now);
      InsertsStep(json, cards, i, run.done, sent, Attempted(json, cards, run.done));
    } else {
      CreatesFromStop(remote, json, n, cards, i, sent);
      assert cards[i..i] == [];
    }
  }

  /** A create that succeeds sent exactly its insert, and the run goes on with the next card. */
  lemma CreatesFromOk(remote: Remote, json: JsonCodec, n: nat, cards: seq<Battlecard>, i: nat, sent: seq<Request>)
    requires i < |cards| && CreateReply(remote, json, n, cards[i]).Ok?
    ensures CreatesFrom(remote, json, n, cards, i, sent)
            == CreatesFrom(remote, json, n + 1, cards, i + 1, sent + [Request.Insert(ToColumns(json, cards[i]))])
  {
  }

  /** A run stops at its end or at a create that throws, having sent that create's request if any. */
  lemma CreatesFromStop(remote: Remote, json: JsonCodec, n: nat, cards: seq<Battlecard>, i: nat, sent: seq<Request>)
    requires i <= |cards| && (i == |cards| || CreateReply(remote, json, n, cards[i]).Err?)
    ensures var run := CreatesFrom(remote, json, n, cards, i, sent);
      run.done == i && run.sent == sent + Attempted(json, cards, i) && (run.failure == None <==> i == |cards|)
  {
  }

  /** One more successful create: its insert joins those already sent, ahead of the rest. */
  lemma InsertsStep(json: JsonCodec, cards: seq<Battlecard>, i: nat, j: nat, sent: seq<Request>, tail: seq<Request>)
    requires i < j <= |cards|
    ensures (sent + [Request.Insert(ToColumns(json, cards[i]))]) + Inserts(json, cards[i + 1..j]) + tail
            == sent + Inserts(json, cards[i..j]) + tail
  {
    assert Inserts(json, cards[i..j]) == [Request.Insert(ToColumns(json, cards[i]))] + Inserts(json, cards[i + 1..j]);
  }

  /**
   * A run of creates sends one insert per card, in order, up to and
   * including the failed one unless that one had no name; it completes
   * exactly when every card was created.
   */
  lemma CreateRunShape(remote: Remote, json: JsonCodec, n: nat, cards: seq<Battlecard>)
    ensures var run := CreateRun(remote, json, n, cards);
      run.done <= |run.sent| <= |cards|
      && run.sent == Inserts(json, cards[..|run.sent|])
      && (run.failure == None <==> run.done == |cards|)
      && (run.failure.Some? ==> |run.sent| == run.done + (if IsBlank(cards[run.done].companyName) then 0 else 1))
  {
    CreatesFromDone(remote, json, n, cards, 0, []);
    CreatesFromShape(remote, json, n, cards, 0, []);
    var run := CreateRun(remote, json, n, cards);
    assert cards[0..run.done] == cards[..run.done];
    AttemptedExtends(json, cards, run.done);
  }

  /** The inserts before card `k` and the one attempted for it are the inserts of a prefix. */
  lemma AttemptedExtends(json: JsonCodec, cards: seq<Battlecard>, k: nat)
    requires k <= |cards|
    ensures var s := Inserts(json, cards[..k]) + Attempted(json, cards, k);
      |s| <= |cards| && s == Inserts(json, cards[..|s|])
      && (k < |cards| ==> |s| == k + (if IsBlank(cards[k].companyName) then 0 else 1))
  {
    if k < |cards| && !IsBlank(cards[k].companyName) {
      assert Inserts(json, cards[..k + 1]) == Inserts(json, cards[..k]) + [Request.Insert(ToColumns(json, cards[k]))];
    }
  }

  /**
   * The updates of an import from the `i`-th card on, at log position `n`,
   * with `sent` already sent: one card at a time, in order, each success
   * followed by the update's refetch, stopping at the first that throws.
   */
  function UpdatesFrom(remote: Remote, json: JsonCodec, n: nat, cards: seq<Battlecard>, i: nat, sent: seq<Request>)
    : Run
    requires i <= |cards|
    decreases |cards| - i
  {
    if i == |cards| then Run(sent, i, None)
    else
      var update := UpdateRow(cards[i].id, ToColumns(json, cards[i]));
      match remote.updateReply(n, cards[i].id, ToColumns(json, cards[i]))
      case Err(t) => Run(sent + [update], i, Some(t))
      case Ok(_) => UpdatesFrom(remote, json, n + 2, cards, i + 1, sent + [update, SelectAll])
  }

  /** The updates of an import, from log position `n`. */
  function UpdateRun(remote: Remote, json: JsonCodec, n: nat, cards: seq<Battlecard>): Run {
    UpdatesFrom(remote, json, n, cards, 0, [])
  }

  /** The update a failed run sent last: the one for the card at `k`, if there is such a card. */
  function Pending(json: JsonCodec, cards: seq<Battlecard>, k: nat): seq<Request> {
    if k < |cards| then [UpdateRow(cards[k].id, ToColumns(json, cards[k]))] else []
  }

  /** An update that succeeds sent its update and the refetch, and the run goes on with the next card. */
  lemma UpdatesFromOk(remote: Remote, json: JsonCodec, n: nat, cards: seq<Battlecard>, i: nat, sent: seq<Request>)
    requires i < |cards| && remote.updateReply(n, cards[i].id, ToColumns(json, cards[i])).Ok?
    ensures UpdatesFrom(remote, json, n, cards, i, sent)
            == UpdatesFrom(remote, json, n + 2, cards, i + 1,
                           sent + [UpdateRow(cards[i].id, ToColumns(json, cards[i])), SelectAll])
  {
  }

  /** A run stops at its end or at an update that throws, having sent that update. */
  lemma UpdatesFromStop(remote: Remote, json: JsonCodec, n: nat, cards: seq<Battlecard>, i: nat, sent: seq<Request>)
    requires i <= |cards| && (i == |cards| || remote.updateReply(n, cards[i].id, ToColumns(json, cards[i])).Err?)
    ensures var run := UpdatesFrom(remote, json, n, cards, i, sent);
      run.done == i && run.sent == sent + Pending(json, cards, i) && (run.failure == None <==> i == |cards|)
  {
  }

  /** A run ends at or after its starting card, and completes exactly when it reaches the last. */
  lemma {:induction false} UpdatesFromDone(remote: Remote, json: JsonCodec, n: nat, cards: seq<Battlecard>, i: nat,
                                           sent: seq<Request>)
    requires i <= |cards|
    ensures var run := UpdatesFrom(remote, json, n, cards, i, sent);
      i <= run.done <= |cards| && (run.failure == None <==> run.done == |cards|)
    decreases |cards| - i
  {
    if i < |cards| && remote.updateReply(n, cards[i].id, ToColumns(json, cards[i])).Ok? {
      UpdatesFromOk(remote, json, n, cards, i, sent);
      UpdatesFromDone(remote, json, n + 2, cards, i + 1,
                      sent + [UpdateRow(cards[i].id, ToColumns(json, cards[i])), SelectAll]);
    } else {
      UpdatesFromStop(remote, json, n, cards, i, sent);
    }
  }

  /** A run sends an update and a refetch per card it updated, then the failed card's update. */
  lemma {:induction false} UpdatesFromShape(remote: Remote, json: JsonCodec, n: nat, cards: seq<Battlecard>, i: nat,
                                            sent: seq<Request>)
    requires i <= |cards|
    ensures var run := UpdatesFrom(remote, json, n, cards, i, sent);
      i <= run.done <= |cards|
      && run.sent == sent + Refetched(json, cards[i..run.done]) + Pending(json, cards, run.done)
    decreases |cards| - i
  {
    UpdatesFromDone(remote, json, n, cards, i, sent);
    if i < |cards| && remote.updateReply(n, cards[i].id, ToColumns(json, cards[i])).Ok? {
      var now := [UpdateRow(cards[i].id, ToColumns(json, cards[i])), SelectAll];
      UpdatesFromOk(remote, json, n, cards, i, sent);
      var run := UpdatesFrom(remote, json, n + 2, cards, i + 1, sent + now);
      UpdatesFromShape(remote, json, n + 2, cards, i + 1, sent + now);
      RefetchedStep(json, cards, i, run.done, sent, Pending(json, cards, run.done));
    } else {
      UpdatesFromStop(remote, json, n, cards, i, sent);
      assert cards[i..i] == [];
    }
  }

  /** One more successful update: its update and refetch join those already sent, ahead of the rest. */
  lemma RefetchedStep(json: JsonCodec, cards: seq<Battlecard>, i: nat, j: nat, sent: seq<Request>, tail: seq<Request>)
    requires i < j <= |cards|
    ensures (sent + [UpdateRow(cards[i].id, ToColumns(json, cards[i])), SelectAll]) + Refetched(json, cards[i + 1..j]) + tail
            == sent + Refetched(json, cards[i..j]) + tail
  {
    assert cards[i..j][0] == cards[i] && cards[i..j][1..] == cards[i + 1..j];
  }

  /**
   * A run of updates sends, for each card updated, its update and the refetch,
   * in order; it completes exactly when every card was updated, and a failure
   * stops it at the failed card's update.
   */
  lemma UpdateRunShape(remote: Remote, json: JsonCodec, n: nat, cards: seq<Battlecard>)
    ensures var run := UpdateRun(remote, json, n, cards);
      run.done <= |cards|
      && (run.failure == None <==> run.done == |cards|)
      && (run.failure == None ==> run.sent == Refetched(json, cards))
      && (run.failure.Some? ==>
            run.sent == Refetched(json, cards[..run.done]) + [UpdateRow(cards[run.done].id, ToColumns(json, cards[run.done]))])
  {
    UpdatesFromDone(remote, json, n, cards, 0, []);
    UpdatesFromShape(remote, json, n, cards, 0, []);
    var run := UpdateRun(remote, json, n, cards);
    assert cards[0..run.done] == cards[..run.done];
    assert run.done == |cards| ==> cards[..run.done] == cards;
  }

  const UpdateFailurePrefix := "Failed to update battlecard for "
  const ImportFallback := "Unknown error"

  /** The text thrown when updating the card named `name` threw `t`. */
  function UpdateFailure(name: string, t: Thrown): (text: string)
    ensures StartsWith(text, UpdateFailurePrefix + name + ": ")
  {
    var head := UpdateFailurePrefix + name + ": ";
    assert (head + MessageOr(t, ImportFallback))[..|head|] == head;
    head + MessageOr(t, ImportFallback)
  }

  /** What an import run did: how it ended, what it sent, and the two counters. */
  datatype ImportTrace = ImportTrace(outcome: Outcome<string>, sent: seq<Request>, created: nat, updated: nat)

  /** The requests of an import in which every call succeeds, before the final refetch. */
  function Planned(json: JsonCodec, creates: seq<Battlecard>, updates: seq<Battlecard>): seq<Request> {
    Inserts(json, creates) + Refetched(json, updates)
  }

  /**
   * `handleCSVImport` from log position `n`: all creates, then all updates,
   * then a refetch; the first failure ends the run with an error naming the
   * card and the step.
   */
  function ImportRun(remote: Remote, json: JsonCodec, n: nat, creates: seq<Battlecard>, updates: seq<Battlecard>)
    : ImportTrace
  {
    var c := CreateRun(remote, json, n, creates);
    CreateRunShape(remote, json, n, creates);
    if c.failure.Some? then
      ImportTrace(Fail(CreateFailure(creates[c.done].companyName, c.failure.value)), c.sent, c.done, 0)
    else
      var rest := UpdatePhase(remote, json, n + |c.sent|, updates);
      ImportTrace(rest.outcome, c.sent + rest.sent, c.done, rest.updated)
  }

  /** The import once every create went through, from log position `n`: the updates, then the refetch. */
  function UpdatePhase(remote: Remote, json: JsonCodec, n: nat, updates: seq<Battlecard>): ImportTrace {
    var u := UpdateRun(remote, json, n, updates);
    UpdateRunShape(remote, json, n, updates);
    if u.failure.Some? then
      ImportTrace(Fail(UpdateFailure(updates[u.done].companyName, u.failure.value)), u.sent, 0, u.done)
    else
      ImportTrace(Pass, u.sent + [SelectAll], 0, u.done)
  }

  /**
   * An import either sends every planned request and the final refetch, or
   * stops part-way having sent a prefix of them: while creating, only
   * inserts and no update, with an error naming the card whose create
   * failed; once every card is created, with an error naming the card whose
   * update failed.
   */
  lemma ImportRunShape(remote: Remote, json: JsonCodec, n: nat, creates: seq<Battlecard>, updates: seq<Battlecard>)
    ensures ImportShaped(json, creates, updates, ImportRun(remote, json, n, creates, updates))
  {
    var c := CreateRun(remote, json, n, creates);
    CreateRunShape(remote, json, n, creates);
    if c.failure.Some? {
      ImportStoppedCreating(remote, json, n, creates, updates);
    } else {
      ImportPastCreates(remote, json, n, creates, updates);
    }
  }

  /** The shape of an import's trace, as `ImportRunShape` states it. */
  ghost predicate ImportShaped(json: JsonCodec, creates: seq<Battlecard>, updates: seq<Battlecard>, r: ImportTrace) {
      && r.created <= |creates| && r.updated <= |updates|
      && (r.outcome.Pass? ==>
            r.created == |creates| && r.updated == |updates| && r.sent == Planned(json, creates, updates) + [SelectAll])
      && (r.outcome.Fail? ==> r.sent <= Planned(json, creates, updates))
      && (r.created < |creates| ==>
            r.outcome.Fail? && r.updated == 0 && (forall k :: 0 <= k < |r.sent| ==> r.sent[k].Insert?)
            && StartsWith(r.outcome.error, CreateFailurePrefix + creates[r.created].companyName + ": "))
      && (r.created == |creates| && r.outcome.Fail? ==>
            r.updated < |updates|
            && StartsWith(r.outcome.error, UpdateFailurePrefix + updates[r.updated].companyName + ": "))
  }

  lemma ImportStoppedCreating(remote: Remote, json: JsonCodec, n: nat, creates: seq<Battlecard>, updates: seq<Battlecard>)
    requires CreateRun(remote, json, n, creates).failure.Some?
    ensures ImportShaped(json, creates, updates, ImportRun(remote, json, n, creates, updates))
  {
    var c := CreateRun(remote, json, n, creates);
    CreateRunShape(remote, json, n, creates);
    PrefixInserts(json, creates, |c.sent|);
  }

  lemma ImportPastCreates(remote: Remote, json: JsonCodec, n: nat, creates: seq<Battlecard>, updates: seq<Battlecard>)
    requires CreateRun(remote, json, n, creates).failure.None?
    ensures ImportShaped(json, creates, updates, ImportRun(remote, json, n, creates, updates))
  {
    var c := CreateRun(remote, json, n, creates);
    CreateRunShape(remote, json, n, creates);
    assert creates[..|c.sent|] == creates;
    UpdatePhaseShaped(remote, json, n + |c.sent|, updates);
  }

  /** The update phase alone: every update and the refetch, or a prefix ending at the failed update. */
  lemma UpdatePhaseShaped(remote: Remote, json: JsonCodec, n: nat, updates: seq<Battlecard>)
    ensures var r := UpdatePhase(remote, json, n, updates);
      && r.created == 0 && r.updated <= |updates|
      && (r.outcome.Pass? ==> r.updated == |updates| && r.sent == Refetched(json, updates) + [SelectAll])
      && (r.outcome.Fail? ==>
            r.sent <= Refetched(json, updates) && r.updated < |updates|
            && StartsWith(r.outcome.error, UpdateFailurePrefix + updates[r.updated].companyName + ": "))
  {
    var u := UpdateRun(remote, json, n, updates);
    UpdateRunShape(remote, json, n, updates);
    if u.failure.Some? {
      PrefixRefetched(json, updates, u.done);
    }
  }

  lemma PrefixInserts(json: JsonCodec, cards: seq<Battlecard>, m: nat)
    requires m <= |cards|
    ensures Inserts(json, cards[..m]) <= Inserts(json, cards)
  {
  }

  /** Stopping at the update of `cards[i]` sent a prefix of all the updates and refetches. */
  lemma {:induction false} PrefixRefetched(json: JsonCodec, cards: seq<Battlecard>, i: nat)
    requires i < |cards|
    ensures Refetched(json, cards[..i]) + [UpdateRow(cards[i].id, ToColumns(json, cards[i]))] <= Refetched(json, cards)
  {
    if i > 0 {
      PrefixRefetched(json, cards[1..], i - 1);
      assert cards[..i][1..] == cards[1..][..i - 1];
      assert cards[..i][0] == cards[0];
    }
  }

  /** A failed create stops the import before any update: nothing but inserts was sent, and no refetch. */
  lemma CreateFailureSendsNoUpdate(remote: Remote, json: JsonCodec, n: nat, creates: seq<Battlecard>,
                                   updates: seq<Battlecard>)
    requires CreateRun(remote, json, n, creates).failure.Some?
    ensures var r := ImportRun(remote, json, n, creates, updates);
      r.outcome.Fail? && r.updated == 0 && |r.sent| <= |creates|
      && forall k :: 0 <= k < |r.sent| ==> !r.sent[k].UpdateRow? && !r.sent[k].SelectAll?
  {
    var r := ImportRun(remote, json, n, creates, updates);
    var c := CreateRun(remote, json, n, creates);
    CreateRunShape(remote, json, n, creates);
    assert r.sent == Inserts(json, creates[..|c.sent|]);
  }

  // ---------------------------------------------------------------------------
  // The application state

  datatype ViewMode = Grid | Detail | Form | Import

  class AppController {
    var viewMode: ViewMode
    var selected: Option<Battlecard>
    var editing: Option<Battlecard>
    var filters: Filters
    const store: BattlecardStore

    /** The first render: the grid, nothing selected or edited, an empty search, and the mount-time fetch. */
    constructor(store: BattlecardStore)
      modifies store, store.remote
      ensures this.store == store
      ensures viewMode == Grid && selected == None && editing == None && filters == Filters([], None)
      ensures store.remote.log == old(store.remote.log) + [SelectAll] && !store.loading
      ensures match store.remote.selectReply(|old(store.remote.log)|)
        case Ok(rows) => store.battlecards == FromRows(store.json, rows) && store.error == old(store.error)
        case Err(t) => store.battlecards == old(store.battlecards) && store.error == Some(MessageOr(t, FetchFallback))
    {
      viewMode := Grid;
      selected := None;
      editing := None;
      filters := Filters([], None);
      this.store := store;
      new;
      store.Fetch();
    }

    /** The cards the grid shows. */
    function Visible(): (cards: seq<Battlecard>)
      reads this, store
      ensures forall c :: c in cards <==> c in store.battlecards && Shown(filters, c)
    {
      FilterCards(store.battlecards, filters)
    }

    /** `onFiltersChange`. */
    method SetFilters(f: Filters)
      modifies this
      ensures filters == f
      ensures viewMode == old(viewMode) && selected == old(selected) && editing == old(editing)
    {
      filters := f;
    }

    /** `handleCreateNew`: an empty form. */
    method CreateNew()
      modifies this
      ensures viewMode == Form && editing == None
      ensures selected == old(selected) && filters == old(filters)
    {
      editing := None;
      viewMode := Form;
    }

    /** `handleImportCSV`: the importer. */
    method OpenImport()
      modifies this
      ensures viewMode == Import
      ensures selected == old(selected) && editing == old(editing) && filters == old(filters)
    {
      viewMode := Import;
    }

    /** `handleSelectBattlecard`: the detail view of a card. */
    method Select(card: Battlecard)
      modifies this
      ensures viewMode == Detail && selected == Some(card)
      ensures editing == old(editing) && filters == old(filters)
    {
      selected := Some(card);
      viewMode := Detail;
    }

    /** `handleEditBattlecard`: the form for a card. */
    method Edit(card: Battlecard)
      modifies this
      ensures viewMode == Form && editing == Some(card)
      ensures selected == old(selected) && filters == old(filters)
    {
      editing := Some(card);
      viewMode := Form;
    }

    /** `handleBackToGrid`: the grid, with nothing selected or edited. */
    method BackToGrid()
      modifies this
      ensures viewMode == Grid && selected == None && editing == None
      ensures filters == old(filters)
    {
      viewMode := Grid;
      selected := None;
      editing := None;
    }

    /**
     * `handleDeleteBattlecard`: with the user's confirmation the delete is
     * started and its outcome not awaited; without it nothing happens.
     */
    method Delete(id: string, confirmed: bool)
      modifies store, store.remote
      ensures store.loading == old(store.loading)
      ensures !confirmed ==>
        && store.remote.log == old(store.remote.log)
        && store.battlecards == old(store.battlecards) && store.error == old(store.error)
      ensures confirmed ==> store.remote.log == old(store.remote.log) + [DeleteRow(id)]
      ensures confirmed ==> match store.remote.deleteReply(|old(store.remote.log)|, id)
        case Pass => store.battlecards == Without(old(store.battlecards), id) && store.error == old(store.error)
        case Fail(t) => store.battlecards == old(store.battlecards) && store.error == Some(MessageOr(t, DeleteFallback))
    {
      if confirmed {
        var _ := store.Delete(id);
      }
    }

    /**
     * `handleSaveBattlecard`: an update when a card is being edited, a create
     * otherwise. Success returns to the grid with nothing edited; a failure is
     * only logged and the view stays. `r` is what the awaited call gave.
     */
    method Save(card: Battlecard) returns (r: Result<StoredRow, Thrown>)
      modifies this, store, store.remote
      ensures old(editing).Some? ==>
        r == store.remote.updateReply(|old(store.remote.log)|, card.id, ToColumns(store.json, card))
      ensures old(editing).Some? && r.Err? ==>
        && store.remote.log == old(store.remote.log) + [UpdateRow(card.id, ToColumns(store.json, card))]
        && store.battlecards == old(store.battlecards) && store.loading == old(store.loading)
        && store.error == Some(MessageOr(r.error, UpdateFallback))
      ensures old(editing).Some? && r.Ok? ==>
        && store.remote.log == old(store.remote.log) + [UpdateRow(card.id, ToColumns(store.json, card)), SelectAll]
        && !store.loading
        && match store.remote.selectReply(|old(store.remote.log)| + 1)
           case Ok(rows) => store.battlecards == FromRows(store.json, rows) && store.error == old(store.error)
           case Err(t) => store.battlecards == old(store.battlecards) && store.error == Some(MessageOr(t, FetchFallback))
      ensures old(editing).None? ==>
        && store.battlecards == old(store.battlecards) && store.loading == old(store.loading)
        && (r.Ok? ==> store.error == old(store.error))
        && (r.Err? ==> store.error == Some(CreateFailure(card.companyName, r.error)))
      ensures old(editing).None? && IsBlank(card.companyName) ==>
        r == Err(ErrorObject(NameRequired)) && store.remote.log == old(store.remote.log)
      ensures old(editing).None? && !IsBlank(card.companyName) ==>
        r == store.remote.insertReply(|old(store.remote.log)|, ToColumns(store.json, card))
        && store.remote.log == old(store.remote.log) + [Request.Insert(ToColumns(store.json, card))]
      ensures r.Ok? ==> viewMode == Grid && editing == None
      ensures r.Err? ==> viewMode == old(viewMode) && editing == old(editing)
      ensures selected == old(selected) && filters == old(filters)
    {
      if editing.Some? {
        r := store.Update(card);
      } else {
        r := store.Create(card);
      }
      if r.Ok? {
        viewMode := Grid;
        editing := None;
      }
    }

    /**
     * `handleCSVImport`: every create in order, then every update in order,
     * then a refetch, stopping at the first call that throws with an error
     * naming the card. The requests sent, the counters and the outcome are
     * those of `ImportRun`.
     */
    method HandleCsvImport(creates: seq<Battlecard>, updates: seq<Battlecard>)
      returns (r: Outcome<string>, createdCount: nat, updatedCount: nat)
      modifies store, store.remote
      ensures var run := ImportRun(store.remote, store.json, |old(store.remote.log)|, creates, updates);
        r == run.outcome && createdCount == run.created && updatedCount == run.updated
        && store.remote.log == old(store.remote.log) + run.sent
      ensures r.Pass? ==> !store.loading
      ensures r.Pass? ==> store.ShowsLastSelect()
      ensures r.Fail? ==> store.error.Some?
      ensures createdCount < |creates| ==>
        && r.Fail? && store.error == Some(r.error)
        && store.battlecards == old(store.battlecards) && store.loading == old(store.loading)
    {
      var stopped;
      stopped, createdCount := CreateAll(creates);
      if stopped.Some? {
        r, updatedCount := Fail(CreateFailure(creates[createdCount].companyName, stopped.value)), 0;
        assert ImportRun(store.remote, store.json, |old(store.remote.log)|, creates, updates).outcome == r;
        assert store.error == Some(r.error);
        return;
      }
      r, updatedCount := ImportUpdates(old(store.remote.log), creates, updates);
    }

    /** `handleCSVImport` once every create went through: the rest of `ImportRun`. */
    method ImportUpdates(ghost log0: seq<Request>, creates: seq<Battlecard>, updates: seq<Battlecard>)
      returns (r: Outcome<string>, updatedCount: nat)
      requires CreateRun(store.remote, store.json, |log0|, creates).failure.None?
      requires store.remote.log == log0 + CreateRun(store.remote, store.json, |log0|, creates).sent
      modifies store, store.remote
      ensures var run := ImportRun(store.remote, store.json, |log0|, creates, updates);
        r == run.outcome && updatedCount == run.updated && store.remote.log == log0 + run.sent
      ensures r.Pass? ==> !store.loading
      ensures r.Pass? ==> store.ShowsLastSelect()
      ensures r.Fail? ==> store.error.Some?
    {
      ghost var c := CreateRun(store.remote, store.json, |log0|, creates);
      ghost var rest := UpdatePhase(store.remote, store.json, |store.remote.log|, updates);
      assert ImportRun(store.remote, store.json, |log0|, creates, updates)
          == ImportTrace(rest.outcome, c.sent + rest.sent, c.done, rest.updated);
      ghost var created := store.remote.log;
      r, updatedCount := UpdateAndRefetch(updates);
      assert store.remote.log == created + rest.sent;
      assert created + rest.sent == log0 + (c.sent + rest.sent);
    }

    /** The second half of `handleCSVImport`, once every create went through: that of `UpdatePhase`. */
    method UpdateAndRefetch(updates: seq<Battlecard>) returns (r: Outcome<string>, updatedCount: nat)
      modifies store, store.remote
      ensures var rest := UpdatePhase(store.remote, store.json, |old(store.remote.log)|, updates);
        r == rest.outcome && updatedCount == rest.updated && store.remote.log == old(store.remote.log) + rest.sent
      ensures r.Pass? ==> !store.loading
      ensures r.Pass? ==> store.ShowsLastSelect()
      ensures r.Fail? ==> var u := UpdateRun(store.remote, store.json, |old(store.remote.log)|, updates);
        u.failure.Some? && store.error == Some(MessageOr(u.failure.value, UpdateFallback))
    {
      var stopped;
      stopped, updatedCount := UpdateAll(updates);
      if stopped.Some? {
        r := Fail(UpdateFailure(updates[updatedCount].companyName, stopped.value));
        return;
      }
      store.Fetch();
      r := Pass;
    }

    /** The loop over the cards to create: the requests, the counter and the stopping error of `CreateRun`. */
    method CreateAll(creates: seq<Battlecard>) returns (stopped: Option<Thrown>, createdCount: nat)
      modifies store, store.remote
      ensures var run := CreateRun(store.remote, store.json, |old(store.remote.log)|, creates);
        stopped == run.failure && createdCount == run.done && store.remote.log == old(store.remote.log) + run.sent
      ensures stopped.None? ==> createdCount == |creates|
      ensures stopped.Some? ==> createdCount < |creates|
      ensures stopped.Some? ==> store.error == Some(CreateFailure(creates[createdCount].companyName, stopped.value))
      ensures store.battlecards == old(store.battlecards) && store.loading == old(store.loading)
    {
      ghost var log0 := store.remote.log;
      ghost var whole := CreateRun(store.remote, store.json, |log0|, creates);
      ghost var sent: seq<Request> := [];
      createdCount := 0;
      while createdCount < |creates|
        invariant createdCount <= |creates|
        invariant store.remote.log == log0 + sent
        invariant store.battlecards == old(store.battlecards) && store.loading == old(store.loading)
        invariant whole == CreatesFrom(store.remote, store.json, |store.remote.log|, creates, createdCount, sent)
      {
        var card := creates[createdCount];
        var reply := store.Create(card);
        if reply.Err? {
          assert store.error == Some(CreateFailure(card.companyName, reply.error));
          return Some(reply.error), createdCount;
        }
        sent := sent + CreateRequests(store.json, card);
        createdCount := createdCount + 1;
      }
      stopped := None;
    }

    /** The loop over the cards to update: the requests, the counter and the stopping error of `UpdateRun`. */
    method UpdateAll(updates: seq<Battlecard>) returns (stopped: Option<Thrown>, updatedCount: nat)
      modifies store, store.remote
      ensures var run := UpdateRun(store.remote, store.json, |old(store.remote.log)|, updates);
        stopped == run.failure && updatedCount == run.done && store.remote.log == old(store.remote.log) + run.sent
      ensures stopped.Some? ==> updatedCount < |updates|
      ensures stopped.Some? ==> store.error == Some(MessageOr(stopped.value, UpdateFallback))
    {
      ghost var log0 := store.remote.log;
      ghost var whole := UpdateRun(store.remote, store.json, |log0|, updates);
      ghost var sent: seq<Request> := [];
      updatedCount := 0;
      while updatedCount < |updates|
        invariant updatedCount <= |updates|
        invariant store.remote.log == log0 + sent
        invariant whole == UpdatesFrom(store.remote, store.json, |store.remote.log|, updates, updatedCount, sent)
      {
        var card := updates[updatedCount];
        var reply := store.Update(card);
        if reply.Err? {
          return Some(reply.error), updatedCount;
        }
        sent := sent + [UpdateRow(card.id, ToColumns(store.json, card)), SelectAll];
        updatedCount := updatedCount + 1;
      }
      stopped := None;
    }

    /**
     * The importer's upload handler, wired to `HandleCsvImport`: parse the
     * file against the expected columns, sort the rows against the held
     * cards, hand the batch over, and report.
     */
    method ImportFile(text: string) returns (results: CsvImport.ImportResults)
      modifies store, store.remote
      ensures var prepared := CsvImport.Prepare(store.json, old(store.battlecards),
                                                CsvCodec.ParseCsvSpec(CsvCodec.CsvHeaders, text));
        (prepared.Err? ==> results == CsvImport.FailureReport(prepared.error) && store.remote.log == old(store.remote.log))
        && (prepared.Ok? ==>
              var run := ImportRun(store.remote, store.json, |old(store.remote.log)|,
                                   prepared.value.creates, prepared.value.updates);
              results == CsvImport.Report(prepared, run.outcome) && store.remote.log == old(store.remote.log) + run.sent)
    {
      var parsed := CsvCodec.ParseCsv(CsvCodec.CsvHeaders, text);
      var prepared := CsvImport.Prepare(store.json, store.battlecards, parsed);
      var handOver: Outcome<string> := Pass;
      if prepared.Ok? {
        var created, updated;
        handOver, created, updated := HandleCsvImport(prepared.value.creates, prepared.value.updates);
      }
      results := CsvImport.Report(prepared, handOver);
    }
  }
}
