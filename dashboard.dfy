/** The dashboard's four threat-level counts, taken over every held card. */
module Dashboard {
  import opened Wrappers
  import opened Text
  import opened Seqs
  import opened Types
  import App

  /** `bc.threatLevel?.toLowerCase()`: the level lower-cased, or `undefined`. */
  function LowerLevel(card: Battlecard): Option<string> {
    if card.threatLevel.Some? then Some(Lower(card.threatLevel.value)) else None
  }

  /** `bc.threatLevel?.toLowerCase() === name`: an absent level is in no bucket. */
  predicate LevelIs(card: Battlecard, name: string) {
    LowerLevel(card) == Some(name)
  }

  /** The filter test of the bucket `name`. */
  function Counted(name: string): Battlecard -> bool {
    card => LevelIs(card, name)
  }

  /** The four numbers the dashboard shows. */
  datatype Stats = Stats(high: nat, medium: nat, low: nat, veryLow: nat)

  const NoCards := Stats(0, 0, 0, 0)

  /** `battlecards.filter(...).length` for each of the four buckets. */
  function Tally(cards: seq<Battlecard>): Stats {
    Stats(Count(Counted("high"), cards), Count(Counted("medium"), cards),
          Count(Counted("low"), cards), Count(Counted("very low"), cards))
  }

  /** What one card adds to the counts. */
  function OneCard(card: Battlecard): (s: Stats)
    ensures Total(s) <= 1
  {
    Stats(if LevelIs(card, "high") then 1 else 0, if LevelIs(card, "medium") then 1 else 0,
          if LevelIs(card, "low") then 1 else 0, if LevelIs(card, "very low") then 1 else 0)
  }

  function Plus(a: Stats, b: Stats): Stats {
    Stats(a.high + b.high, a.medium + b.medium, a.low + b.low, a.veryLow + b.veryLow)
  }

  function Total(s: Stats): nat {
    s.high + s.medium + s.low + s.veryLow
  }

  /** A reference count: one pass over the cards, each card adding to at most one bucket. */
  function TallyEach(cards: seq<Battlecard>): Stats {
    if cards == [] then NoCards else Plus(OneCard(cards[0]), TallyEach(cards[1..]))
  }

  /** The four filters count the same as the single pass. */
  lemma {:induction false} TallyIsPerCard(cards: seq<Battlecard>)
    ensures Tally(cards) == TallyEach(cards)
  {
    if cards != [] {
      TallyIsPerCard(cards[1..]);
      TallyStep(cards);
    }
  }

  /** The counts of a list are its first card's share plus the counts of the rest. */
  lemma TallyStep(cards: seq<Battlecard>)
    requires cards != []
    ensures Tally(cards) == Plus(OneCard(cards[0]), Tally(cards[1..]))
  {
    BucketStep("high", cards);
    BucketStep("medium", cards);
    BucketStep("low", cards);
    BucketStep("very low", cards);
  }

  lemma BucketStep(name: string, cards: seq<Battlecard>)
    requires cards != []
    ensures Count(Counted(name), cards) == (if LevelIs(cards[0], name) then 1 else 0) + Count(Counted(name), cards[1..])
  {
    CountStep(Counted(name), cards);
  }

  /** The buckets are disjoint, so the four counts together are at most the number of cards. */
  lemma {:induction false} BucketsBounded(cards: seq<Battlecard>)
    ensures Total(Tally(cards)) <= |cards|
  {
    TallyIsPerCard(cards);
    EachBounded(cards);
  }

  lemma {:induction false} EachBounded(cards: seq<Battlecard>)
    ensures Total(TallyEach(cards)) <= |cards|
  {
    if cards != [] {
      EachBounded(cards[1..]);
    }
  }

  /** A card in no bucket: no level, or one that lower-cases to none of the four names. */
  predicate Unbucketed(card: Battlecard) {
    LowerLevel(card) !in [Some("high"), Some("medium"), Some("low"), Some("very low")]
  }

  /** A card in no bucket changes no count. */
  lemma UnbucketedUncounted(card: Battlecard, cards: seq<Battlecard>)
    requires Unbucketed(card)
    ensures Tally([card] + cards) == Tally(cards)
  {
    var all := [card] + cards;
    TallyIsPerCard(all);
    TallyIsPerCard(cards);
    assert all[0] == card && all[1..] == cards;
    assert OneCard(card) == NoCards;
  }

  /** `Critical` and `Minimal`, which the form offers, are in no bucket; `HIGH` is in the high one. */
  lemma LevelExamples(card: Battlecard)
    ensures card.threatLevel in {None, Some("Critical"), Some("Minimal")} ==> Unbucketed(card)
    ensures card.threatLevel == Some("HIGH") ==> LevelIs(card, "high")
  {
    assert Lower("Critical") == "critical";
    assert Lower("Minimal") == "minimal";
    assert Lower("HIGH") == "high";
  }

  /** Counting ignores case: cards whose levels agree once lower-cased give the same counts. */
  lemma {:induction false} TallyIgnoresCase(a: seq<Battlecard>, b: seq<Battlecard>)
    requires |a| == |b|
    requires forall k :: 0 <= k < |a| ==> LowerLevel(a[k]) == LowerLevel(b[k])
    ensures Tally(a) == Tally(b)
  {
    TallyIsPerCard(a);
    TallyIsPerCard(b);
    EachIgnoresCase(a, b);
  }

  lemma {:induction false} EachIgnoresCase(a: seq<Battlecard>, b: seq<Battlecard>)
    requires |a| == |b|
    requires forall k :: 0 <= k < |a| ==> LowerLevel(a[k]) == LowerLevel(b[k])
    ensures TallyEach(a) == TallyEach(b)
  {
    if a != [] {
      assert LowerLevel(a[0]) == LowerLevel(b[0]);
      EachIgnoresCase(a[1..], b[1..]);
    }
  }

  /**
   * The page gives the dashboard every held card, not the filtered ones, so
   * no count it shows is below what the filtered grid would give.
   */
  lemma FilteredTallyBounded(cards: seq<Battlecard>, filters: App.Filters)
    ensures var shown, all := Tally(App.FilterCards(cards, filters)), Tally(cards);
      shown.high <= all.high && shown.medium <= all.medium && shown.low <= all.low && shown.veryLow <= all.veryLow
  {
    CountOfFilterBounded(Counted("high"), c => App.Shown(filters, c), cards);
    CountOfFilterBounded(Counted("medium"), c => App.Shown(filters, c), cards);
    CountOfFilterBounded(Counted("low"), c => App.Shown(filters, c), cards);
    CountOfFilterBounded(Counted("very low"), c => App.Shown(filters, c), cards);
  }
}
