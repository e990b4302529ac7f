/**
 * The two threat-level classifications of a battlecard tile: the tile's
 * colour, chosen case-insensitively, and the badge's tone, chosen by exact
 * comparison.
 */
module Card {
  import opened Wrappers
  import opened Text

  const WhiteCard := "bg-white border-gray-200"
  const GreenCard := "bg-green-50 border-green-200"
  const YellowCard := "bg-yellow-50 border-yellow-200"
  const AmberCard := "bg-amber-50 border-amber-200"
  const RedCard := "bg-red-50 border-red-200"

  /** `getThreatLevelColor`: no level or an empty one is white; otherwise a switch on the lower-cased level. */
  function ThreatColor(level: Option<string>): (cls: string)
    ensures level == None || level == Some("") ==> cls == WhiteCard
  {
    if level == None || level == Some("") then WhiteCard
    else
      match Lower(level.value)
      case "high" => GreenCard
      case "medium" => YellowCard
      case "low" => AmberCard
      case "very low" => RedCard
      case _ => WhiteCard
  }

  /**
   * Each coloured class belongs to exactly one lower-cased level, and every
   * other level, present or not, gets the white class.
   */
  lemma ThreatColorCases(t: string)
    ensures ThreatColor(Some(t)) == GreenCard <==> Lower(t) == "high"
    ensures ThreatColor(Some(t)) == YellowCard <==> Lower(t) == "medium"
    ensures ThreatColor(Some(t)) == AmberCard <==> Lower(t) == "low"
    ensures ThreatColor(Some(t)) == RedCard <==> Lower(t) == "very low"
    ensures ThreatColor(Some(t)) == WhiteCard <==> Lower(t) !in ["high", "medium", "low", "very low"]
  {
    if t == "" {
      assert Lower(t) == "";
    }
  }

  /** The colour ignores case: levels equal up to case get the same class. */
  lemma ThreatColorIgnoresCase(s: string, t: string)
    requires Lower(s) == Lower(t)
    ensures ThreatColor(Some(s)) == ThreatColor(Some(t))
  {
    if s == "" || t == "" {
      assert |s| == |Lower(s)| == |Lower(t)| == |t|;
    }
  }

  /** `HIGH`, `High` and `high` get one class. */
  lemma ThreatColorHighAnyCase()
    ensures ThreatColor(Some("HIGH")) == ThreatColor(Some("High")) == ThreatColor(Some("high")) == GreenCard
  {
    assert Lower("HIGH") == "high";
    assert Lower("High") == "high";
    assert Lower("high") == "high";
  }

  /** `Critical` and `Minimal`, which the form offers, fall to the default class. */
  lemma ThreatColorFormOnlyLevels()
    ensures ThreatColor(Some("Critical")) == ThreatColor(Some("Minimal")) == WhiteCard
  {
    assert Lower("Critical") == "critical";
    assert Lower("Minimal") == "minimal";
  }

  /** The tone of a threat badge. */
  datatype Tone = Red | Yellow | Green | Gray

  /** The class a badge of each tone is drawn with. */
  function ToneClass(tone: Tone): string {
    match tone
    case Red => "bg-red-100 text-red-800 border border-red-200"
    case Yellow => "bg-yellow-100 text-yellow-800 border border-yellow-200"
    case Green => "bg-green-100 text-green-800 border border-green-200"
    case Gray => "bg-gray-100 text-gray-800 border border-gray-200"
  }

  /** The tile's badge: none unless the level is a non-empty text, then a case-sensitive choice of tone. */
  function CardBadge(level: Option<string>): (badge: Option<Tone>)
    ensures badge == None <==> level == None || level == Some("")
  {
    if level == None || level == Some("") then None
    else
      var t := level.value;
      Some(if t == "High" || t == "Critical" then Red
           else if t == "Medium" then Yellow
           else if t == "Low" || t == "Minimal" then Green
           else Gray)
  }

  /** The badge tones, level by level, both ways; case matters, so `high` and `Very Low` are gray. */
  lemma CardBadgeCases(t: string)
    requires t != ""
    ensures CardBadge(Some(t)) == Some(Red) <==> t in ["High", "Critical"]
    ensures CardBadge(Some(t)) == Some(Yellow) <==> t == "Medium"
    ensures CardBadge(Some(t)) == Some(Green) <==> t in ["Low", "Minimal"]
    ensures CardBadge(Some(t)) == Some(Gray) <==> t !in ["High", "Critical", "Medium", "Low", "Minimal"]
  {
  }

  /** The colour and the badge disagree: a `High` tile is green while its badge is red. */
  lemma HighTileGreenBadgeRed()
    ensures ThreatColor(Some("High")) == GreenCard && CardBadge(Some("High")) == Some(Red)
  {
    assert Lower("High") == "high";
  }
}
