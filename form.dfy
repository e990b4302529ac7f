/**
 * The create/edit form: the state it starts from, the list editors
 * (replace an item, append a blank one, remove one), the scalar inputs and
 * the submission, which hands the state over unchanged.
 */
module Form {
  import opened Wrappers
  import opened Seqs
  import opened Types

  /** `value || ''` on an optional text: a present text is kept (the empty one too), an absent one becomes `''`. */
  function OrEmpty(t: Option<string>): (r: Option<string>)
    ensures r.Some?
    ensures t.Some? ==> r == t
    ensures t == None ==> r == Some("")
  {
    Some(t.GetOr(""))
  }

  /** `value || []` and `value || {}`: an array or object is always truthy, so only an absent one is replaced. */
  function OrNone<T>(v: Option<T>, default: T): (r: Option<T>)
    ensures r.Some?
    ensures v.Some? ==> r == v
    ensures v == None ==> r == Some(default)
  {
    Some(v.GetOr(default))
  }

  /** The state the form opens with, for a card being edited or for none (a new card). */
  function InitialForm(incoming: Option<Battlecard>): (form: Battlecard)
    ensures form.createdAt == None && form.updatedAt == None && form.lastUpdated == None
    ensures incoming == None ==> form.id == "" && form.companyName == ""
  {
    if incoming.None? then
      Battlecard("", "", Some(""), Some(""), Some(""), Some(false), Some([]), Some([]), Some(map[]), None, None, None)
    else
      var c := incoming.value;
      Battlecard(
        c.id,
        c.companyName,
        OrEmpty(c.threatLevel),
        OrEmpty(c.oneLineSummary),
        OrEmpty(c.productPortfolioOverview),
        Some(c.publiclyListed == Some(true)),
        OrNone(c.marqueeCustomers, []),
        OrNone(c.strongestVerticals, []),
        OrNone(c.socialMediaPlatforms, map[]),
        None, None, None)
  }

  /** Editing a card: every present attribute is carried, every absent one gets its default, and the timestamps are dropped. */
  lemma InitialFormCarries(c: Battlecard)
    ensures var form := InitialForm(Some(c));
      form.id == c.id && form.companyName == c.companyName
      && form.threatLevel == Some(c.threatLevel.GetOr(""))
      && form.oneLineSummary == Some(c.oneLineSummary.GetOr(""))
      && form.productPortfolioOverview == Some(c.productPortfolioOverview.GetOr(""))
      && (form.publiclyListed == Some(true) <==> c.publiclyListed == Some(true))
      && form.publiclyListed.Some?
      && form.marqueeCustomers == Some(c.marqueeCustomers.GetOr([]))
      && form.strongestVerticals == Some(c.strongestVerticals.GetOr([]))
      && form.socialMediaPlatforms == Some(c.socialMediaPlatforms.GetOr(map[]))
      && form.createdAt == None && form.updatedAt == None && form.lastUpdated == None
  {
  }

  /** A new card starts from the defaults: empty texts and lists, an empty mapping, not listed, no identifier. */
  lemma InitialFormDefaults()
    ensures InitialForm(None) == Battlecard("", "", Some(""), Some(""), Some(""), Some(false), Some([]), Some([]), Some(map[]), None, None, None)
  {
  }

  /** Reopening the form on what it would submit unedited gives the same state back. */
  lemma InitialFormFixpoint(incoming: Option<Battlecard>)
    ensures InitialForm(Some(InitialForm(incoming))) == InitialForm(incoming)
  {
  }

  /** The list after `handleArrayChange`: item `index` becomes `value`, nothing else moves. */
  function Replaced(list: seq<string>, index: nat, value: string): (r: seq<string>)
    requires index < |list|
    ensures |r| == |list| && r[index] == value
    ensures forall k :: 0 <= k < |r| && k != index ==> r[k] == list[k]
  {
    list[index := value]
  }

  /** The list after `addArrayItem`: one blank item at the end. */
  function Appended(list: seq<string>): (r: seq<string>)
    ensures |r| == |list| + 1 && r[..|list|] == list && r[|list|] == ""
  {
    list + [""]
  }

  /** The list after `removeArrayItem`: every item whose position is not `index`, in order. */
  function RemovedAt(list: seq<string>, index: int): (r: seq<string>)
    ensures |r| == if 0 <= index < |list| then |list| - 1 else |list|
  {
    if list == [] then []
    else if index == 0 then list[1..]
    else [list[0]] + RemovedAt(list[1..], index - 1)
  }

  /** The flags of `filter((_, i) => i !== index)`: set at every position but `index`. */
  function OtherPositions(n: nat, index: int): (keep: seq<bool>)
    ensures |keep| == n
  {
    seq(n, k => k != index)
  }

  lemma {:induction false} KeptAll(list: seq<string>)
    ensures Kept(OtherPositions(|list|, -1), list) == list
  {
    if list != [] {
      assert OtherPositions(|list|, -1)[1..] == OtherPositions(|list| - 1, -1);
      KeptAll(list[1..]);
    }
  }

  /** Removal is the positional filter: the items kept are those at every position other than `index`, in order. */
  lemma {:induction false} RemovedAtFilters(list: seq<string>, index: int)
    ensures RemovedAt(list, index) == Kept(OtherPositions(|list|, index), list)
    ensures IsSubsequence(RemovedAt(list, index), list)
  {
    var keep := OtherPositions(|list|, index);
    if list != [] {
      if index == 0 {
        assert keep[1..] == OtherPositions(|list| - 1, -1);
        KeptAll(list[1..]);
      } else {
        assert keep[1..] == OtherPositions(|list| - 1, index - 1);
        RemovedAtFilters(list[1..], index - 1);
      }
    }
  }

  /** Removal in range drops exactly that position; out of range the list is unchanged. */
  lemma {:induction false} RemovedAtSlices(list: seq<string>, index: int)
    ensures 0 <= index < |list| ==> RemovedAt(list, index) == list[..index] + list[index + 1..]
    ensures !(0 <= index < |list|) ==> RemovedAt(list, index) == list
  {
    if list != [] && index != 0 {
      RemovedAtSlices(list[1..], index - 1);
      if 0 <= index < |list| {
        assert list[1..][..index - 1] == list[1..index];
        assert list[1..][index..] == list[index + 1..];
        assert [list[0]] + list[1..index] == list[..index];
      } else {
        assert [list[0]] + list[1..] == list;
      }
    }
  }

  /** Appending a blank item and removing it again restores the list. */
  lemma AddThenRemoveLast(list: seq<string>)
    ensures RemovedAt(Appended(list), |list|) == list
  {
    RemovedAtSlices(Appended(list), |list|);
  }

  /** Replacing an item and replacing it back restores the list. */
  lemma ReplaceBack(list: seq<string>, index: nat, value: string)
    requires index < |list|
    ensures Replaced(Replaced(list, index, value), index, list[index]) == list
  {
  }

  /** The form's "Publicly Listed?" select shows `'true'` or `'false'`. */
  function ListingShown(listed: Option<bool>): (shown: string)
    ensures shown in {"true", "false"}
  {
    if listed == Some(true) then "true" else "false"
  }

  /** Choosing an option of that select stores whether it was `'true'`. */
  function ListingChosen(selection: string): bool {
    selection == "true"
  }

  /** The select round-trips: choosing the shown option keeps a present value, and showing a choice gives back its option. */
  lemma ListingRoundTrip(listed: bool, selection: string)
    ensures ListingChosen(ListingShown(Some(listed))) == listed
    ensures selection in {"true", "false"} ==> ListingShown(Some(ListingChosen(selection))) == selection
  {
  }

  /** The form's state, replaced as a whole by every edit. */
  class FormState {
    var data: Battlecard

    /** `useState(...)` on the incoming card. */
    constructor(incoming: Option<Battlecard>)
      ensures data == InitialForm(incoming)
    {
      data := InitialForm(incoming);
    }

    /** `handleArrayChange`: copy the list, assign the item in place, store the copy. */
    method ArrayChange(field: ListField, index: nat, value: string)
      requires index < |ListOf(data, field)|
      modifies this
      ensures data == WithList(old(data), field, Replaced(ListOf(old(data), field), index, value))
    {
      var current := ListOf(data, field);
      var copy := new string[|current|](k requires 0 <= k < |current| => current[k]);
      copy[index] := value;
      assert copy[..] == Replaced(current, index, value);
      data := WithList(data, field, copy[..]);
    }

    /** `addArrayItem`. */
    method AddArrayItem(field: ListField)
      modifies this
      ensures data == WithList(old(data), field, Appended(ListOf(old(data), field)))
    {
      data := WithList(data, field, ListOf(data, field) + [""]);
    }

    /** `removeArrayItem`. */
    method RemoveArrayItem(field: ListField, index: int)
      modifies this
      ensures data == WithList(old(data), field, RemovedAt(ListOf(old(data), field), index))
    {
      data := WithList(data, field, RemovedAt(ListOf(data, field), index));
    }

    /** The company-name input. */
    method SetCompanyName(value: string)
      modifies this
      ensures data == old(data).(companyName := value)
    {
      data := data.(companyName := value);
    }

    /** The threat-level select. */
    method SetThreatLevel(value: string)
      modifies this
      ensures data == old(data).(threatLevel := Some(value))
    {
      data := data.(threatLevel := Some(value));
    }

    /** The one-line-summary input. */
    method SetOneLineSummary(value: string)
      modifies this
      ensures data == old(data).(oneLineSummary := Some(value))
    {
      data := data.(oneLineSummary := Some(value));
    }

    /** The product-portfolio input. */
    method SetProductPortfolioOverview(value: string)
      modifies this
      ensures data == old(data).(productPortfolioOverview := Some(value))
    {
      data := data.(productPortfolioOverview := Some(value));
    }

    /** The "Publicly Listed?" select. */
    method SetPubliclyListed(selection: string)
      modifies this
      ensures data == old(data).(publiclyListed := Some(ListingChosen(selection)))
    {
      data := data.(publiclyListed := Some(selection == "true"));
    }

    /**
     * Pressing the submit button. The browser first checks the `required`
     * name input and fires no submit event while it is empty; otherwise
     * `handleSubmit` hands the state to the save handler as it stands.
     */
    method Submit() returns (saved: Option<Battlecard>)
      ensures saved.Some? <==> data.companyName != ""
      ensures saved.Some? ==> saved.value == data
    {
      if data.companyName == "" {
        saved := None;
      } else {
        saved := Some(data);
      }
    }
  }

  /** A blank item added and left empty is still in the submitted list, at the end. */
  lemma BlankItemSubmitted(card: Battlecard, field: ListField)
    ensures var items := ListOf(WithList(card, field, Appended(ListOf(card, field))), field);
      |items| > 0 && items[|items| - 1] == ""
  {
  }

  /** Editing one list leaves the other list and every scalar attribute as they were. */
  lemma ListEditIsolated(card: Battlecard, field: ListField, other: ListField, items: seq<string>)
    requires other != field
    ensures ListOf(WithList(card, field, items), other) == ListOf(card, other)
    ensures var r := WithList(card, field, items);
      && r.id == card.id && r.companyName == card.companyName && r.threatLevel == card.threatLevel
      && r.oneLineSummary == card.oneLineSummary && r.productPortfolioOverview == card.productPortfolioOverview
      && r.publiclyListed == card.publiclyListed && r.socialMediaPlatforms == card.socialMediaPlatforms
      && r.createdAt == card.createdAt && r.updatedAt == card.updatedAt && r.lastUpdated == card.lastUpdated
  {
  }

  /**
   * A form session: the opened state, an append, then an edit of the new
   * item, submitted. It reaches the save handler exactly when the opened
   * form has a name, so never for a new card whose name was not typed.
   */
  method AddAndFill(incoming: Option<Battlecard>, field: ListField, value: string) returns (saved: Option<Battlecard>)
    ensures saved.Some? <==> InitialForm(incoming).companyName != ""
    ensures saved.Some? ==> ListOf(saved.value, field) == ListOf(InitialForm(incoming), field) + [value]
    ensures saved.Some? ==> saved.value.companyName == InitialForm(incoming).companyName
  {
    var form := new FormState(incoming);
    var before := ListOf(form.data, field);
    form.AddArrayItem(field);
    form.ArrayChange(field, |before|, value);
    assert form.data.companyName == InitialForm(incoming).companyName;
    assert ListOf(form.data, field) == Replaced(Appended(before), |before|, value);
    saved := form.Submit();
  }
}
