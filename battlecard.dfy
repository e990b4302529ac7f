/**
 * The battlecard record (one competitor profile), reduced to the attributes
 * whose treatment differs: the identifier and the required name, three
 * optional text attributes, the one boolean, two text lists, one mapping and
 * the three timestamps. Every other attribute of the record repeats the
 * treatment of one of these.
 */
module Types {
  import opened Wrappers

  /** One entry of the social-media mapping: a follower count and a strategy. */
  datatype Platform = Platform(followers: string, strategy: string)

  /** A mapping-valued attribute (platform name to entry); the model never looks inside it. */
  type Mapping = map<string, Platform>

  /**
   * The JSON library, which the model takes as given: `encode` is
   * `JSON.stringify` and `decode` is `JSON.parse`, `None` when it throws.
   */
  datatype JsonCodec = JsonCodec(encode: Mapping -> string, decode: string -> Option<Mapping>)

  /** The record. Optional attributes are `Option`s: `None` is `undefined`. */
  datatype Battlecard = Battlecard(
    id: string,
    companyName: string,
    threatLevel: Option<string>,
    oneLineSummary: Option<string>,
    productPortfolioOverview: Option<string>,
    publiclyListed: Option<bool>,
    marqueeCustomers: Option<seq<string>>,
    strongestVerticals: Option<seq<string>>,
    socialMediaPlatforms: Option<Mapping>,
    createdAt: Option<string>,
    updatedAt: Option<string>,
    lastUpdated: Option<string>)

  /** The two list-valued attributes the form edits item by item. */
  datatype ListField = MarqueeCustomers | StrongestVerticals

  /** The list held in `field`, `[]` when absent (the form's `formData[field] as string[]`). */
  function ListOf(card: Battlecard, field: ListField): seq<string> {
    match field
    case MarqueeCustomers => card.marqueeCustomers.GetOr([])
    case StrongestVerticals => card.strongestVerticals.GetOr([])
  }

  /** `{ ...card, [field]: items }`. */
  function WithList(card: Battlecard, field: ListField, items: seq<string>): (r: Battlecard)
    ensures ListOf(r, field) == items
    ensures forall f :: f != field ==> ListOf(r, f) == ListOf(card, f)
    ensures r == card.(marqueeCustomers := r.marqueeCustomers, strongestVerticals := r.strongestVerticals)
  {
    match field
    case MarqueeCustomers => card.(marqueeCustomers := Some(items))
    case StrongestVerticals => card.(strongestVerticals := Some(items))
  }
}
