/**
 * The detail page: how a value is rendered according to its shape, which
 * fields are listed, and the header's threat badge.
 */
module Detail {
  import opened Wrappers
  import opened Seqs
  import opened Types
  import Card

  /** A value as the page sees it at run time. */
  datatype JsValue =
    | Undefined
    | Null
    | Str(s: string)
    | Bool(b: bool)
    | Arr(items: seq<JsValue>)
    | Obj(fields: map<string, JsValue>)

  /** What the page draws for a value. */
  datatype Rendered =
    | NoData                    // "No data available"
    | Chips(texts: seq<string>) // one chip per array element, in order
    | JsonBlock(text: string)   // a preformatted JSON block
    | YesNo(yes: bool)          // "Yes" or "No"
    | Plain(text: string)       // the value's text

  /**
   * `JSON.stringify` as the page calls it: `compact` is `JSON.stringify(item)`
   * on a chip, `pretty` is `JSON.stringify(value, null, 2)` on a block. The
   * model takes both as given.
   */
  datatype Stringify = Stringify(compact: JsValue -> string, pretty: JsValue -> string)

  /** The text of one chip: objects (and `null`) are stringified, a string is itself, anything else draws nothing. */
  function ChipText(json: Stringify, item: JsValue): string {
    match item
    case Obj(_) => json.compact(item)
    case Arr(_) => json.compact(item)
    case Null => json.compact(item)
    case Str(s) => s
    case _ => ""
  }

  /** `renderFieldValue`. */
  function RenderFieldValue(json: Stringify, v: JsValue): (r: Rendered)
    ensures v.Bool? ==> r == YesNo(v.b)
    ensures v.Str? && v.s != "" ==> r == Plain(v.s)
  {
    if v == Null || v == Undefined || v == Str("") then NoData
    else if v.Arr? then
      if |v.items| == 0 then NoData
      else Chips(seq(|v.items|, k requires 0 <= k < |v.items| => ChipText(json, v.items[k])))
    else if v.Obj? then JsonBlock(json.pretty(v))
    else if v.Bool? then YesNo(v.b)
    else Plain(v.s)
  }

  /**
   * "No data" exactly for `null`, `undefined`, the empty string and the
   * empty array; `false` shows "No" and `{}` a JSON block.
   */
  lemma NoDataCases(json: Stringify, v: JsValue)
    ensures RenderFieldValue(json, v) == NoData <==> v in {Undefined, Null, Str(""), Arr([])}
    ensures v == Bool(false) ==> RenderFieldValue(json, v) == YesNo(false)
    ensures v.Obj? ==> RenderFieldValue(json, v) == JsonBlock(json.pretty(v))
  {
  }

  /** A non-empty array gives one chip per element, in order; object elements are stringified. */
  lemma ChipsPerElement(json: Stringify, items: seq<JsValue>)
    requires items != []
    ensures var r := RenderFieldValue(json, Arr(items));
      r.Chips? && |r.texts| == |items|
      && forall k :: 0 <= k < |items| ==>
           r.texts[k] == (if items[k].Obj? || items[k].Arr? || items[k] == Null then json.compact(items[k])
                          else if items[k].Str? then items[k].s else "")
  {
  }

  /** A labelled field of the page. */
  datatype Field = Field(key: string, caption: string)

  /** `fieldLabels`, in declaration order. */
  const FieldLabels: seq<Field> := [
    Field("companyName", "Company Name"),
    Field("threatLevel", "Threat Level"),
    Field("website", "Website"),
    Field("oneLineSummary", "One-Line Summary"),
    Field("overallMarketPosition", "Overall Market Position"),
    Field("parentCompany", "Parent Company"),
    Field("headquarters", "Headquarters"),
    Field("yearFounded", "Year Founded"),
    Field("yearsInMarket", "Years in Market"),
    Field("publiclyListed", "Publicly Listed?"),
    Field("employeeCount", "Employee Count"),
    Field("annualRevenue", "Annual Revenue"),
    Field("mergersAcquisitions", "Mergers & Acquisitions"),
    Field("strategicAlliances", "Strategic Alliances/Partnerships"),
    Field("majorNewsLitigation", "Major News & Litigation"),
    Field("analystRecognition", "Analyst Recognition"),
    Field("productPortfolioOverview", "Product Portfolio Overview"),
    Field("coreOfferings", "Core Offerings / Use Cases"),
    Field("augmentingTools", "Augmenting Tools"),
    Field("marqueeCustomers", "Marquee Customers"),
    Field("strongestVerticals", "Strongest Verticals"),
    Field("strongestRegions", "Strongest Regions"),
    Field("idealCustomerProfile", "Ideal Customer Profile (ICP)"),
    Field("salesModel", "Sales Model"),
    Field("salesTeamFocus", "Sales Team Focus"),
    Field("partnerEcosystem", "Partner Ecosystem"),
    Field("primaryValueProposition", "Primary Value Proposition / Slogan"),
    Field("positioningStatement", "Positioning Statement"),
    Field("positioningWithAI", "Positioning with AI"),
    Field("keyMessagingThemes", "Key Messaging Themes"),
    Field("guaranteesBoldClaims", "Guarantees / Bold Claims"),
    Field("primaryTargetAudience", "Primary Target Audience"),
    Field("targetAudienceRelevance", "Target Audience Relevance"),
    Field("promotedAssets", "Promoted Assets"),
    Field("contentThemes", "Content Themes"),
    Field("socialMediaPlatforms", "Social Media - Platforms & Follower Counts"),
    Field("socialMediaContentStrategy", "Social Media - Content Strategy"),
    Field("socialMediaEngagement", "Social Media - Audience Engagement"),
    Field("paidMarketingCountries", "Paid Marketing - Focus Countries"),
    Field("paidMarketingFocus", "Paid Marketing - Ad Focus & Language"),
    Field("seoPerformance", "SEO Performance Metrics"),
    Field("rankingPerformance", "Ranking Performance"),
    Field("flagshipEvents", "Flagship Events"),
    Field("eventTypesThemes", "Event Types & Themes"),
    Field("cloudVsOnPremise", "Cloud vs. On-Premise"),
    Field("hosting", "Hosting"),
    Field("techStack", "Tech Stack"),
    Field("proprietaryLanguage", "Proprietary Language"),
    Field("architectureNotes", "Architecture Notes"),
    Field("uiUxNotes", "UI/UX"),
    Field("workflowRuleEngine", "Workflow & Rule Engine"),
    Field("extensibilityCustomization", "Extensibility & Customization"),
    Field("aiMlCapabilities", "AI/ML Capabilities"),
    Field("dataIntegration", "Data & Integration"),
    Field("governanceSecurity", "Governance & Security"),
    Field("developmentLifecycle", "Development Lifecycle"),
    Field("whoBuildsOnPlatform", "Who Builds on the Platform?"),
    Field("learningCurve", "Learning Curve"),
    Field("implementationModel", "Implementation Model"),
    Field("trainingCommunity", "Training & Community"),
    Field("featureComparison", "Feature Comparison Table"),
    Field("pricingModel", "Pricing Model"),
    Field("pricingTiers", "Pricing Tiers"),
    Field("licensingComplexity", "Licensing Complexity Analysis"),
    Field("whatCustomersLove", "What Customers Love"),
    Field("whatCustomersComplainAbout", "What Customers Complain About"),
    Field("summaryOfReviews", "Summary of Reviews"),
    Field("howCompetitorsViewThem", "How Other Competitors View Them"),
    Field("dealsWeWon", "Deals We Won (with reason)"),
    Field("dealsWeLost", "Deals We Lost (with reason)"),
    Field("marketInsiderNotes", "Market Insider Notes"),
    Field("customersUsingAlongsideKissflow", "Customers using alongside Kissflow"),
    Field("customersWhoReplacedThem", "Customers who replaced them with Kissflow"),
    Field("kissflowPositioningStrategy", "Kissflow's Positioning Strategy"),
    Field("keyTalkingPoints", "Key Talking Points / Battlecard"),
    Field("conversationsWeCanWin", "Conversations We Can Win"),
    Field("coexistenceStrategy", "Co-existence Strategy"),
    Field("pricingComparison", "Pricing Structure Comparison Table")
  ]

  /** A field is listed below the header unless it is the company name, which heads the page. */
  predicate Listed(f: Field) {
    f.key != "companyName"
  }

  /** The fields listed below the header, taken from a label table in its order. */
  function DisplayedFields(labels: seq<Field>): (fields: seq<Field>)
    ensures |fields| <= |labels|
  {
    Filter(Listed, labels)
  }

  /** The listed fields are the labelled ones in declaration order, less exactly the company name. */
  lemma DisplayedFieldsSelection(labels: seq<Field>)
    ensures IsSubsequence(DisplayedFields(labels), labels)
    ensures forall f :: f in DisplayedFields(labels) <==> f in labels && f.key != "companyName"
  {
    FilterIsSubsequence(Listed, labels);
    FilterMembers(Listed, labels);
  }

  /** A platform entry as an object. */
  function PlatformValue(p: Platform): JsValue {
    Obj(map["followers" := Str(p.followers), "strategy" := Str(p.strategy)])
  }

  function TextValue(t: Option<string>): JsValue {
    if t.Some? then Str(t.value) else Undefined
  }

  function ListValue(l: Option<seq<string>>): JsValue {
    if l.Some? then Arr(seq(|l.value|, k requires 0 <= k < |l.value| => Str(l.value[k]))) else Undefined
  }

  /** `battlecard[fieldKey]` for the attributes of the record. */
  function ValueOf(card: Battlecard, key: string): JsValue {
    match key
    case "companyName" => Str(card.companyName)
    case "threatLevel" => TextValue(card.threatLevel)
    case "oneLineSummary" => TextValue(card.oneLineSummary)
    case "productPortfolioOverview" => TextValue(card.productPortfolioOverview)
    case "publiclyListed" => if card.publiclyListed.Some? then Bool(card.publiclyListed.value) else Undefined
    case "marqueeCustomers" => ListValue(card.marqueeCustomers)
    case "strongestVerticals" => ListValue(card.strongestVerticals)
    case "socialMediaPlatforms" =>
      if card.socialMediaPlatforms.Some? then
        var m := card.socialMediaPlatforms.value;
        Obj(map k | k in m :: PlatformValue(m[k]))
      else Undefined
    case _ => Undefined
  }

  /** One row of the page body: a field's label and what is drawn for the card's value of it. */
  function FieldRow(json: Stringify, card: Battlecard, f: Field): (string, Rendered) {
    (f.caption, RenderFieldValue(json, ValueOf(card, f.key)))
  }

  /** The row of every field of a table, in the table's order. */
  function AllRows(json: Stringify, card: Battlecard, fields: seq<Field>): (rows: seq<(string, Rendered)>)
    ensures |rows| == |fields|
  {
    seq(|fields|, k requires 0 <= k < |fields| => FieldRow(json, card, fields[k]))
  }

  /**
   * The page body: every listed field of the label table gives its row, and
   * every row is the row of a listed field of the table.
   */
  function DetailRows(json: Stringify, labels: seq<Field>, card: Battlecard): (rows: seq<(string, Rendered)>)
    ensures |rows| <= |labels|
    ensures forall f :: f in labels && Listed(f) ==> FieldRow(json, card, f) in rows
    ensures forall k :: 0 <= k < |rows| ==>
      exists f :: f in labels && Listed(f) && rows[k] == FieldRow(json, card, f)
  {
    var fields := DisplayedFields(labels);
    FilterMembers(Listed, labels);
    assert forall k :: 0 <= k < |fields| ==> fields[k] in labels && Listed(fields[k]);
    assert forall f :: f in fields ==> FieldRow(json, card, f) in AllRows(json, card, fields) by {
      forall f | f in fields
        ensures FieldRow(json, card, f) in AllRows(json, card, fields)
      {
        var k :| 0 <= k < |fields| && fields[k] == f;
        assert AllRows(json, card, fields)[k] == FieldRow(json, card, f);
      }
    }
    AllRows(json, card, fields)
  }

  /**
   * The rows keep the label table's order: they are the rows of the whole
   * table taken at exactly the listed positions.
   */
  lemma DetailRowsInOrder(json: Stringify, labels: seq<Field>, card: Battlecard)
    ensures DetailRows(json, labels, card) == Kept(Flags(Listed, labels), AllRows(json, card, labels))
    ensures IsSubsequence(DetailRows(json, labels, card), AllRows(json, card, labels))
  {
    FilterIsKept(Listed, labels);
    RowsOfKept(json, card, Flags(Listed, labels), labels);
  }

  lemma {:induction false} RowsOfKept(json: Stringify, card: Battlecard, keep: seq<bool>, fields: seq<Field>)
    requires |keep| == |fields|
    ensures AllRows(json, card, Kept(keep, fields)) == Kept(keep, AllRows(json, card, fields))
  {
    if fields != [] {
      RowsOfKept(json, card, keep[1..], fields[1..]);
      assert AllRows(json, card, fields)[1..] == AllRows(json, card, fields[1..]);
      var head := if keep[0] then [fields[0]] else [];
      var rest := Kept(keep[1..], fields[1..]);
      assert AllRows(json, card, head + rest) == AllRows(json, card, head) + AllRows(json, card, rest);
    }
  }

  /** The body of the page for a card, over the page's own label table. */
  function PageRows(json: Stringify, card: Battlecard): seq<(string, Rendered)> {
    DetailRows(json, FieldLabels, card)
  }

  /** The company name never appears among the rows, and `false` in a listed field shows "No". */
  lemma RowsSkipCompanyName(json: Stringify, labels: seq<Field>, card: Battlecard, k: nat)
    requires k < |DisplayedFields(labels)|
    ensures DisplayedFields(labels)[k].key != "companyName"
    ensures DisplayedFields(labels)[k].key == "publiclyListed" && card.publiclyListed == Some(false) ==>
      DetailRows(json, labels, card)[k].1 == YesNo(false)
  {
  }

  /** The header's badge: as on the tile, except that `Very Low` is green and `Minimal` gray. */
  function DetailBadge(level: Option<string>): (badge: Option<Card.Tone>)
    ensures badge == None <==> level == None || level == Some("")
  {
    if level == None || level == Some("") then None
    else
      var t := level.value;
      Some(if t == "High" || t == "Critical" then Card.Red
           else if t == "Medium" then Card.Yellow
           else if t == "Low" || t == "Very Low" then Card.Green
           else Card.Gray)
  }

  /** The header badge and the tile badge disagree on exactly two levels, `Minimal` and `Very Low`. */
  lemma BadgesDisagree(level: Option<string>)
    ensures DetailBadge(level) != Card.CardBadge(level) <==> level in {Some("Minimal"), Some("Very Low")}
  {
  }
}
