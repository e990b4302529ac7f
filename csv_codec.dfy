/**
 * The delimited-text codec of the bulk importer: the fixed column manifest,
 * the quote-aware line tokenizer, the whole-file parser with its header check,
 * and the template writer.
 */
module CsvCodec {
  import opened Wrappers
  import opened Text
  import opened Seqs

  /** The column manifest an import file's header must match, as a set. */
  const CsvHeaders: seq<string> := [
    "company_name",
    "threat_level",
    "website",
    "one_line_summary",
    "overall_market_position",
    "parent_company",
    "headquarters",
    "year_founded",
    "years_in_market",
    "publicly_listed",
    "employee_count",
    "annual_revenue",
    "mergers_acquisitions",
    "strategic_alliances",
    "major_news_litigation",
    "analyst_recognition",
    "product_portfolio_overview",
    "core_offerings",
    "augmenting_tools",
    "marquee_customers",
    "strongest_verticals",
    "strongest_regions",
    "ideal_customer_profile",
    "sales_model",
    "sales_team_focus",
    "partner_ecosystem",
    "primary_value_proposition",
    "positioning_statement",
    "positioning_with_ai",
    "key_messaging_themes",
    "guarantees_bold_claims",
    "primary_target_audience",
    "target_audience_relevance",
    "promoted_assets",
    "content_themes",
    "social_media_platforms",
    "social_media_content_strategy",
    "social_media_engagement",
    "paid_marketing_countries",
    "paid_marketing_focus",
    "seo_performance",
    "ranking_performance",
    "flagship_events",
    "event_types_themes",
    "cloud_vs_onpremise",
    "hosting",
    "tech_stack",
    "proprietary_language",
    "architecture_notes",
    "ui_ux_notes",
    "workflow_rule_engine",
    "extensibility_customization",
    "ai_ml_capabilities",
    "data_integration",
    "governance_security",
    "development_lifecycle",
    "who_builds_on_platform",
    "learning_curve",
    "implementation_model",
    "training_community",
    "pricing_model",
    "licensing_complexity",
    "what_customers_love",
    "what_customers_complain_about",
    "summary_of_reviews",
    "how_competitors_view_them",
    "market_insider_notes",
    "customers_using_alongside_kissflow",
    "customers_who_replaced_them",
    "kissflow_positioning_strategy",
    "key_talking_points",
    "conversations_we_can_win",
    "coexistence_strategy"
  ]

  /** The example data row of the downloadable template, one value per manifest column. */
  const SampleRow: seq<string> := [
    "TechCorp Solutions",
    "High",
    "https://techcorp.com",
    "Leading enterprise software provider with strong market presence",
    "Leader",
    "TechCorp Holdings",
    "San Francisco, CA",
    "2010",
    "14",
    "true",
    "5000+",
    "$500M",
    "Acquired DataFlow Inc in 2022 for $100M",
    "Partnership with Microsoft, AWS",
    "Patent litigation with CompetitorX settled in 2023",
    "Gartner Leader in Magic Quadrant 2024",
    "Comprehensive suite of business management tools",
    "Workflow automation, Process management, Analytics",
    "Third-party integrations, Mobile apps",
    "Fortune 500 Company A|Enterprise Corp B|Global Tech C",
    "Manufacturing|Healthcare|Financial Services",
    "North America|Europe|Asia Pacific",
    "Large enterprises (1000+ employees) in regulated industries",
    "Direct sales with channel partners",
    "Enterprise accounts, Strategic partnerships",
    "Microsoft, Salesforce, AWS partnerships",
    "Streamline your business processes with AI-powered automation",
    "The leading platform for enterprise process automation",
    "AI-first approach to business process optimization",
    "Digital Transformation|Process Excellence|AI Innovation",
    "99.9% uptime guarantee, ROI within 6 months",
    "CIOs, IT Directors, Process Owners",
    "Addresses digital transformation initiatives",
    "Whitepapers, Case studies, Webinars",
    "Thought Leadership|Customer Success|Industry Insights",
    "{\"linkedin\": {\"followers\": \"50000\", \"strategy\": \"B2B content\"}}",
    "B2B focused content, thought leadership articles",
    "High engagement on LinkedIn, moderate on Twitter",
    "United States|United Kingdom|Germany|Australia",
    "Google Ads, LinkedIn Ads, industry publications",
    "High domain authority, ranks for key industry terms",
    "Top 3 for enterprise workflow automation",
    "TechCorp Summit|Process Excellence Conference",
    "Enterprise conferences, user training events",
    "Cloud-first with on-premise options",
    "AWS, Azure multi-cloud deployment",
    "React, Node.js, PostgreSQL, Kubernetes",
    "TechCorp Workflow Language (TWL)",
    "Microservices architecture, API-first design",
    "Modern, intuitive interface with drag-drop builder",
    "Advanced workflow engine with conditional logic",
    "Custom fields, API integrations, white-labeling",
    "Machine learning for process optimization",
    "REST APIs, webhooks, 500+ pre-built connectors",
    "SOC2, GDPR compliant, enterprise security",
    "Agile development, quarterly releases",
    "IT teams, business analysts, citizen developers",
    "Moderate - requires some technical knowledge",
    "Professional services, self-service options",
    "Comprehensive documentation, active community",
    "Subscription-based, per-user pricing",
    "Complex enterprise licensing with multiple tiers",
    "Powerful features, reliable platform, good support",
    "Steep learning curve, expensive for small teams",
    "Users praise reliability but note complexity",
    "Seen as established but less innovative",
    "Internal insights on competitive positioning",
    "Customer A|Customer B|Customer C",
    "Former TechCorp Customer D|Enterprise E",
    "Position as more user-friendly alternative",
    "Emphasize ease of use and faster implementation",
    "SMB market|User experience|Implementation speed",
    "Partner in enterprise accounts, compete in mid-market"
  ]

  // ---------------------------------------------------------------------------
  // Tokenizing one line

  /** A field as the tokenizer collected it: its raw characters, and whether a quote opened in it. */
  datatype RawField = RawField(text: string, quoted: bool)

  /** The tokenizer's variables between two characters of the line (the finished fields kept raw). */
  datatype ScanState = ScanState(done: seq<RawField>, current: string, inQuotes: bool, wasQuoted: bool)

  /** The state before the first character. */
  const Start := ScanState([], [], false, false)

  /** `s.replace(/^"|"$/g, '')`: drops one leading and one trailing quote, if present. */
  function StripOuterQuotes(s: string): string {
    var a := if |s| > 0 && s[0] == '"' then s[1..] else s;
    if |a| > 0 && a[|a| - 1] == '"' then a[..|a| - 1] else a
  }

  /** `s.replace(/""/g, '"')`: each doubled quote, matched left to right, becomes one. */
  function CollapseQuotes(s: string): string {
    if |s| >= 2 && s[0] == '"' && s[1] == '"' then ['"'] + CollapseQuotes(s[2..])
    else if s == [] then []
    else [s[0]] + CollapseQuotes(s[1..])
  }

  /** The value pushed for a finished field: trimmed, then unquoted again if the field was quoted. */
  function FinishField(current: string, wasQuoted: bool): string {
    var t := Trim(current);
    if wasQuoted then CollapseQuotes(StripOuterQuotes(t)) else t
  }

  /** The values pushed for a sequence of collected fields. */
  function FinishAll(fields: seq<RawField>): seq<string> {
    seq(|fields|, k requires 0 <= k < |fields| => FinishField(fields[k].text, fields[k].quoted))
  }

  /**
   * One move of the tokenizer at the front of `rest`: the number of characters
   * it consumes and the state after them.
   */
  function Step(rest: string, st: ScanState): (r: (nat, ScanState))
    requires rest != []
    ensures 1 <= r.0 <= |rest| && r.0 <= 2
  {
    if rest[0] == '"' then
      if st.inQuotes then
        if |rest| > 1 && rest[1] == '"' then (2, st.(current := st.current + ['"']))
        else (1, st.(inQuotes := false))
      else (1, st.(inQuotes := true, wasQuoted := true))
    else if rest[0] == ',' && !st.inQuotes then
      (1, ScanState(st.done + [RawField(st.current, st.wasQuoted)], [], false, false))
    else (1, st.(current := st.current + [rest[0]]))
  }

  /** The fields the tokenizer collects from the rest of a line, starting in state `st`. */
  function Scan(rest: string, st: ScanState): seq<RawField>
    decreases |rest|
  {
    if rest == [] then st.done + [RawField(st.current, st.wasQuoted)]
    else Scan(rest[Step(rest, st).0..], Step(rest, st).1)
  }

  lemma ScanOpenQuote(rest: string, st: ScanState)
    requires !st.inQuotes
    ensures Scan(['"'] + rest, st) == Scan(rest, st.(inQuotes := true, wasQuoted := true))
  {
    assert (['"'] + rest)[1..] == rest;
  }

  lemma ScanCloseQuote(rest: string, st: ScanState)
    requires st.inQuotes && (rest == [] || rest[0] != '"')
    ensures Scan(['"'] + rest, st) == Scan(rest, st.(inQuotes := false))
  {
    assert (['"'] + rest)[1..] == rest;
  }

  lemma ScanDoubledQuote(rest: string, st: ScanState)
    requires st.inQuotes
    ensures Scan(['"', '"'] + rest, st) == Scan(rest, st.(current := st.current + ['"']))
  {
    assert (['"', '"'] + rest)[2..] == rest;
  }

  lemma ScanSeparator(rest: string, st: ScanState)
    requires !st.inQuotes
    ensures Scan([','] + rest, st)
         == Scan(rest, ScanState(st.done + [RawField(st.current, st.wasQuoted)], [], false, false))
  {
    assert ([','] + rest)[1..] == rest;
  }

  lemma ScanOther(c: char, rest: string, st: ScanState)
    requires c != '"' && (c != ',' || st.inQuotes)
    ensures Scan([c] + rest, st) == Scan(rest, st.(current := st.current + [c]))
  {
    assert ([c] + rest)[1..] == rest;
  }

  /** The values of one line. */
  function Fields(line: string): seq<string> {
    FinishAll(Scan(line, Start))
  }

  /** `parseCSVLine`: one pass over the characters of `line`. */
  method ParseLine(line: string) returns (values: seq<string>)
    ensures values == Fields(line)
  {
    values := [];
    ghost var done: seq<RawField> := [];
    var current: string := [];
    var inQuotes, wasQuoted := false, false;
    var i := 0;
    while i < |line|
      invariant 0 <= i <= |line|
      invariant values == FinishAll(done)
      invariant Scan(line[i..], ScanState(done, current, inQuotes, wasQuoted)) == Scan(line, Start)
      decreases |line| - i
    {
      var c := line[i];
      ScanAt(line, i, ScanState(done, current, inQuotes, wasQuoted));
      if c == '"' {
        if inQuotes {
          if i + 1 < |line| && line[i + 1] == '"' {
            current := current + ['"'];
            i := i + 2;
            continue;
          } else {
            inQuotes := false;
          }
        } else {
          inQuotes := true;
          wasQuoted := true;
        }
      } else if c == ',' && !inQuotes {
        FinishAllSnoc(done, RawField(current, wasQuoted));
        values := values + [FinishField(current, wasQuoted)];
        done := done + [RawField(current, wasQuoted)];
        current := [];
        wasQuoted := false;
      } else {
        current := current + [c];
      }
      i := i + 1;
    }
    FinishAllSnoc(done, RawField(current, wasQuoted));
    values := values + [FinishField(current, wasQuoted)];
    done := done + [RawField(current, wasQuoted)];
  }

  /** Scanning from position `i` is one move of the tokenizer, then scanning from where it stopped. */
  lemma ScanAt(line: string, i: nat, st: ScanState)
    requires i < |line|
    ensures var r := Step(line[i..], st);
      i + r.0 <= |line| && Scan(line[i..], st) == Scan(line[i + r.0..], r.1)
      && r == Step([line[i]] + (if i + 1 < |line| then [line[i + 1]] else []), st)
  {
    var r := Step(line[i..], st);
    assert line[i..][r.0..] == line[i + r.0..];
    assert line[i..][0] == line[i];
    assert i + 1 < |line| ==> line[i..][1] == line[i + 1];
  }

  /** Finishing one more field appends its value. */
  lemma FinishAllSnoc(fields: seq<RawField>, f: RawField)
    ensures FinishAll(fields + [f]) == FinishAll(fields) + [FinishField(f.text, f.quoted)]
  {
  }

  /** The number of commas met outside quotes, following the tokenizer's quoting rules. */
  function OutsideCommas(rest: string, inQuotes: bool): nat
    decreases |rest|
  {
    if rest == [] then 0
    else if rest[0] == '"' then
      if inQuotes && |rest| > 1 && rest[1] == '"' then OutsideCommas(rest[2..], true)
      else OutsideCommas(rest[1..], !inQuotes)
    else if rest[0] == ',' && !inQuotes then 1 + OutsideCommas(rest[1..], false)
    else OutsideCommas(rest[1..], inQuotes)
  }

  lemma {:induction false} ScanCount(rest: string, st: ScanState)
    ensures |Scan(rest, st)| == |st.done| + OutsideCommas(rest, st.inQuotes) + 1
    decreases |rest|
  {
    if rest != [] {
      var next := Step(rest, st);
      ScanCount(rest[next.0..], next.1);
    }
  }

  /** A line has one value more than it has commas outside quotes; in particular it never has none. */
  lemma FieldCount(line: string)
    ensures |Fields(line)| == OutsideCommas(line, false) + 1
  {
    ScanCount(line, Start);
  }

  /** Each piece trimmed. */
  function TrimAll(pieces: seq<string>): seq<string> {
    seq(|pieces|, k requires 0 <= k < |pieces| => Trim(pieces[k]))
  }

  /** Pieces collected outside any quotes. */
  function Unquoted(pieces: seq<string>): seq<RawField> {
    seq(|pieces|, k requires 0 <= k < |pieces| => RawField(pieces[k], false))
  }

  /** Scanning quote-free text from a state outside quotes collects the comma-separated pieces, the first after `current`. */
  ghost predicate ScansUnquoted(rest: string, done: seq<RawField>, current: string) {
    var pieces := Split(rest, ',');
    Scan(rest, ScanState(done, current, false, false)) == done + Unquoted([current + pieces[0]] + pieces[1..])
  }

  lemma {:induction false} ScanQuoteFree(rest: string, done: seq<RawField>, current: string)
    requires '"' !in rest
    ensures ScansUnquoted(rest, done, current)
    decreases |rest|
  {
    if rest == [] {
      assert current + [] == current;
    } else if rest[0] == ',' {
      ScanQuoteFree(rest[1..], done + [RawField(current, false)], []);
      ScanQuoteFreeComma(rest, done, current);
    } else {
      ScanQuoteFree(rest[1..], done, current + [rest[0]]);
      ScanQuoteFreeOther(rest, done, current);
    }
  }

  lemma ScanQuoteFreeComma(rest: string, done: seq<RawField>, current: string)
    requires rest != [] && rest[0] == ','
    requires ScansUnquoted(rest[1..], done + [RawField(current, false)], [])
    ensures ScansUnquoted(rest, done, current)
  {
    var tail := Split(rest[1..], ',');
    ScanSeparator(rest[1..], ScanState(done, current, false, false));
    assert [','] + rest[1..] == rest;
    UnquotedAfterComma(current, tail);
    assert Split(rest, ',') == [[]] + tail;
  }

  lemma UnquotedAfterComma(current: string, tail: seq<string>)
    requires tail != []
    ensures Unquoted([current + []] + tail)
         == [RawField(current, false)] + Unquoted([[] + tail[0]] + tail[1..])
  {
    assert [] + tail[0] == tail[0];
    assert [tail[0]] + tail[1..] == tail;
    assert current + [] == current;
    assert Unquoted([current] + tail) == [RawField(current, false)] + Unquoted(tail);
  }

  lemma ScanQuoteFreeOther(rest: string, done: seq<RawField>, current: string)
    requires rest != [] && rest[0] != ',' && rest[0] != '"'
    requires ScansUnquoted(rest[1..], done, current + [rest[0]])
    ensures ScansUnquoted(rest, done, current)
  {
    var tail := Split(rest[1..], ',');
    ScanOther(rest[0], rest[1..], ScanState(done, current, false, false));
    assert [rest[0]] + rest[1..] == rest;
    assert current + [rest[0]] + tail[0] == current + ([rest[0]] + tail[0]);
    assert Split(rest, ',')[1..] == tail[1..];
  }

  /** Without any quote, a line is split at every comma and each piece trimmed. */
  lemma QuoteFreeLine(line: string)
    requires '"' !in line
    ensures Fields(line) == TrimAll(Split(line, ','))
  {
    var pieces := Split(line, ',');
    ScanQuoteFree(line, [], []);
    assert [] + pieces[0] == pieces[0];
    assert [pieces[0]] + pieces[1..] == pieces;
    assert [] + Unquoted(pieces) == Unquoted(pieces);
  }

  // ---------------------------------------------------------------------------
  // Writing the template

  /** `cell.replace(/"/g, '""')`. */
  function Escape(cell: string): string {
    if cell == [] then []
    else (if cell[0] == '"' then ['"', '"'] else [cell[0]]) + Escape(cell[1..])
  }

  /** One cell as the template writes it: quoted, with its quotes doubled. */
  function QuoteCell(cell: string): string {
    ['"'] + Escape(cell) + ['"']
  }

  function QuoteAll(cells: seq<string>): seq<string> {
    seq(|cells|, k requires 0 <= k < |cells| => QuoteCell(cells[k]))
  }

  /** One row of the template: its quoted cells joined by commas. */
  function SerializeRow(cells: seq<string>): string {
    Join(QuoteAll(cells), ",")
  }

  function SerializeAll(rows: seq<seq<string>>): (r: seq<string>)
    ensures |r| == |rows|
    ensures forall k :: 0 <= k < |r| ==> r[k] == SerializeRow(rows[k])
  {
    if rows == [] then [] else [SerializeRow(rows[0])] + SerializeAll(rows[1..])
  }

  /** The template file: its rows joined by line feeds (not CRLF). */
  function SerializeCsv(rows: seq<seq<string>>): string {
    Join(SerializeAll(rows), "\n")
  }

  /** The text of the downloadable template: the manifest, then the sample row. */
  function TemplateText(): string {
    SerializeCsv([CsvHeaders, SampleRow])
  }

  /** The second unquoting pass undoes the writer's escaping on its own. */
  lemma {:induction false} CollapseEscape(cell: string)
    ensures CollapseQuotes(Escape(cell)) == cell
  {
    if cell != [] {
      CollapseEscape(cell[1..]);
      if cell[0] == '"' {
        assert Escape(cell) == ['"', '"'] + Escape(cell[1..]);
      } else {
        assert Escape(cell) == [cell[0]] + Escape(cell[1..]);
      }
      assert [cell[0]] + cell[1..] == cell;
    }
  }

  /** No two quotes side by side. */
  predicate NoDoubledQuote(s: string) {
    forall k :: 0 <= k < |s| - 1 ==> !(s[k] == '"' && s[k + 1] == '"')
  }

  /** A cell the template writer and the tokenizer agree on. */
  predicate SafeCell(cell: string) {
    && NoEdgeSpace(cell)
    && (cell == [] || (cell[0] != '"' && cell[|cell| - 1] != '"'))
    && NoDoubledQuote(cell)
  }

  lemma {:induction false} CollapseIdentity(s: string)
    requires NoDoubledQuote(s)
    ensures CollapseQuotes(s) == s
  {
    if s != [] {
      CollapseIdentity(s[1..]);
      assert [s[0]] + s[1..] == s;
    }
  }

  /** A safe cell survives the tokenizer's post-processing of a quoted field unchanged. */
  lemma FinishSafeCell(cell: string)
    requires SafeCell(cell)
    ensures FinishField(cell, true) == cell
  {
    TrimIdentity(cell);
    assert StripOuterQuotes(cell) == cell;
    CollapseIdentity(cell);
  }

  /** Inside quotes, the first character of a cell, as escaped, is appended to the current field. */
  lemma ScanEscapedHead(cell: string, t: string, st: ScanState)
    requires cell != [] && st.inQuotes
    ensures Scan(Escape(cell) + t, st)
         == Scan(Escape(cell[1..]) + t, st.(current := st.current + [cell[0]]))
  {
    var rest := Escape(cell[1..]) + t;
    if cell[0] == '"' {
      assert Escape(cell) + t == ['"', '"'] + rest;
      ScanDoubledQuote(rest, st);
    } else {
      assert Escape(cell) + t == [cell[0]] + rest;
      ScanOther(cell[0], rest, st);
    }
  }

  /** Inside quotes, an escaped cell is appended to the current field exactly as the cell was. */
  lemma {:induction false} ScanEscaped(cell: string, t: string, done: seq<RawField>, current: string)
    ensures Scan(Escape(cell) + t, ScanState(done, current, true, true))
         == Scan(t, ScanState(done, current + cell, true, true))
    decreases |cell|
  {
    if cell == [] {
      assert Escape(cell) + t == t && current + cell == current;
    } else {
      ScanEscapedHead(cell, t, ScanState(done, current, true, true));
      ScanEscaped(cell[1..], t, done, current + [cell[0]]);
      assert current + [cell[0]] + cell[1..] == current + cell;
    }
  }

  /** A quoted cell followed by the end of the line or a comma is collected as that cell, marked quoted. */
  lemma ScanQuoted(cell: string, t: string, done: seq<RawField>)
    requires t == [] || t[0] == ','
    ensures Scan(QuoteCell(cell) + t, ScanState(done, [], false, false))
         == Scan(t, ScanState(done, cell, false, true))
  {
    var inner := Escape(cell) + (['"'] + t);
    assert QuoteCell(cell) + t == ['"'] + inner;
    ScanOpenQuote(inner, ScanState(done, [], false, false));
    ScanEscaped(cell, ['"'] + t, done, []);
    assert [] + cell == cell;
    ScanCloseQuote(t, ScanState(done, cell, true, true));
  }

  /** Cells collected from inside quotes. */
  function Quoted(cells: seq<string>): seq<RawField> {
    seq(|cells|, k requires 0 <= k < |cells| => RawField(cells[k], true))
  }

  lemma {:induction false} ScanRow(cells: seq<string>, done: seq<RawField>)
    requires |cells| >= 1
    ensures Scan(SerializeRow(cells), ScanState(done, [], false, false)) == done + Quoted(cells)
    decreases |cells|
  {
    if |cells| == 1 {
      assert SerializeRow(cells) == QuoteCell(cells[0]) + [];
      ScanQuoted(cells[0], [], done);
    } else {
      var tail := SerializeRow(cells[1..]);
      assert QuoteAll(cells)[1..] == QuoteAll(cells[1..]);
      assert SerializeRow(cells) == QuoteCell(cells[0]) + ([','] + tail);
      ScanQuoted(cells[0], [','] + tail, done);
      ScanSeparator(tail, ScanState(done, cells[0], false, true));
      ScanRow(cells[1..], done + [RawField(cells[0], true)]);
      assert Quoted(cells) == [RawField(cells[0], true)] + Quoted(cells[1..]);
    }
  }

  /**
   * A non-empty row as the template writes it tokenizes back to one value per
   * cell, each cell put through the quoted-field post-processing.
   */
  lemma RowFields(cells: seq<string>)
    requires |cells| >= 1
    ensures |Fields(SerializeRow(cells))| == |cells|
    ensures forall k :: 0 <= k < |cells| ==> Fields(SerializeRow(cells))[k] == FinishField(cells[k], true)
  {
    ScanRow(cells, []);
    assert [] + Quoted(cells) == Quoted(cells);
    FinishQuoted(cells);
  }

  /** Cells collected from inside quotes are each finished as quoted fields. */
  lemma FinishQuoted(cells: seq<string>)
    ensures |FinishAll(Quoted(cells))| == |cells|
    ensures forall k :: 0 <= k < |cells| ==> FinishAll(Quoted(cells))[k] == FinishField(cells[k], true)
  {
  }

  /** Round trip: a non-empty row of safe cells, as the template writes it, tokenizes back to the same cells. */
  lemma RowRoundTrip(cells: seq<string>)
    requires |cells| >= 1
    requires forall k :: 0 <= k < |cells| ==> SafeCell(cells[k])
    ensures Fields(SerializeRow(cells)) == cells
  {
    RowFields(cells);
    forall k | 0 <= k < |cells| {
      FinishSafeCell(cells[k]);
    }
  }

  /** A cell that starts with a quote loses it: `"a` is written `"""a"` and read back as `a`. */
  lemma LeadingQuoteLost(a: char)
    requires a != '"' && !IsSpace(a)
    ensures Fields(SerializeRow([['"', a]])) == [[a]]
  {
    RowFields([['"', a]]);
    TrimIdentity(['"', a]);
    assert StripOuterQuotes(['"', a]) == [a];
    CollapseIdentity([a]);
    assert FinishField(['"', a], true) == [a];
  }

  lemma CollapseOnePair(a: char, b: char)
    requires a != '"' && b != '"'
    ensures CollapseQuotes([a, '"', '"', b]) == [a, '"', b]
  {
    CollapseIdentity([b]);
    assert ['"', '"', b][2..] == [b];
    assert CollapseQuotes(['"', '"', b]) == ['"', b];
    assert [a, '"', '"', b][1..] == ['"', '"', b];
  }

  lemma StripInnerCell(s: string)
    requires s == [] || (s[0] != '"' && s[|s| - 1] != '"')
    ensures StripOuterQuotes(s) == s
  {
  }

  lemma FinishDoubledQuote(a: char, b: char)
    requires a != '"' && b != '"' && !IsSpace(a) && !IsSpace(b)
    ensures FinishField([a, '"', '"', b], true) == [a, '"', b]
  {
    var cell := [a, '"', '"', b];
    var t := Trim(cell);
    TrimIdentity(cell);
    assert t == cell;
    StripInnerCell(cell);
    var u := StripOuterQuotes(t);
    assert u == cell;
    CollapseOnePair(a, b);
    assert CollapseQuotes(u) == [a, '"', b];
  }

  /** Two adjacent quotes in a cell collapse to one: `a""b` is read back as `a"b`. */
  lemma DoubledQuoteCollapsed(a: char, b: char)
    requires a != '"' && b != '"' && !IsSpace(a) && !IsSpace(b)
    ensures Fields(SerializeRow([[a, '"', '"', b]])) == [[a, '"', b]]
  {
    RowFields([[a, '"', '"', b]]);
    FinishDoubledQuote(a, b);
  }

  /** Edge white space is trimmed even inside quotes: ` a ` is read back as `a`. */
  lemma QuotedSpaceTrimmed(a: char)
    requires a != '"' && !IsSpace(a)
    ensures Fields(SerializeRow([[' ', a, ' ']])) == [[a]]
  {
    RowFields([[' ', a, ' ']]);
    FinishSpaced(a);
  }

  lemma FinishSpaced(a: char)
    requires a != '"' && !IsSpace(a)
    ensures FinishField([' ', a, ' '], true) == [a]
  {
    assert TrimStart([' ', a, ' ']) == [a, ' '];
    assert TrimEnd([a, ' ']) == [a];
    assert StripOuterQuotes([a]) == [a];
    CollapseIdentity([a]);
  }

  /** A comma between quotes is field data, not a separator. */
  lemma QuotedCommaIsData()
    ensures Fields(SerializeRow(["a,b", "c"])) == ["a,b", "c"]
  {
    RowRoundTrip(["a,b", "c"]);
  }

  // ---------------------------------------------------------------------------
  // Reading a whole file

  /** A data row keyed by column name. */
  type Row = map<string, string>

  /** `csvText.split('\n').filter(line => line.trim())`: the non-blank lines, in order. */
  function Lines(text: string): seq<string> {
    Filter(NonBlank, Split(text, '\n'))
  }

  predicate NonBlank(line: string) {
    !IsBlank(line)
  }

  /** The expected columns the header lacks, in expected order. */
  function Missing(expected: seq<string>, headers: seq<string>): (r: seq<string>)
    ensures forall name :: name in r <==> name in expected && name !in headers
  {
    FilterMembers((name: string) => name !in headers, expected);
    Filter((name: string) => name !in headers, expected)
  }

  /** The header columns not expected, in header order. */
  function Extra(expected: seq<string>, headers: seq<string>): (r: seq<string>)
    ensures forall name :: name in r <==> name in headers && name !in expected
  {
    FilterMembers((name: string) => name !in expected, headers);
    Filter((name: string) => name !in expected, headers)
  }

  /** The header names exactly the expected columns, in any order and with any repetition. */
  ghost predicate SameColumns(expected: seq<string>, headers: seq<string>) {
    forall name :: name in headers <==> name in expected
  }

  /** The text of the error thrown on a header mismatch. */
  function MismatchMessage(missing: seq<string>, extra: seq<string>): string {
    MismatchHead + ListLine("Missing headers: ", missing) + ListLine("Extra headers: ", extra) + MismatchFoot
  }

  /** One line of the mismatch text listing some columns, or nothing when there are none. */
  function ListLine(caption: string, names: seq<string>): string {
    if |names| > 0 then caption + Join(names, ", ") + "\n" else ""
  }

  const MismatchFoot: string := "\nPlease download the sample CSV to see the correct format."

  const MismatchHead: string := "CSV header mismatch detected:\n"

  /**
   * One row object: each header keyed to the value in its position (`|| ''`
   * changes nothing, since every position holds a string); a later duplicate
   * column overwrites an earlier one.
   */
  function RowOf(headers: seq<string>, values: seq<string>): (row: Row)
    requires |headers| == |values|
    ensures forall name :: name in row <==> name in headers
    decreases |headers|
  {
    if headers == [] then map[]
    else
      var n := |headers| - 1;
      RowOf(headers[..n], values[..n])[headers[n] := values[n]]
  }

  /** A column that does not occur again later in the header holds the value in its own position. */
  lemma {:induction false} RowOfLookup(headers: seq<string>, values: seq<string>, k: nat)
    requires |headers| == |values| && k < |headers|
    requires headers[k] !in headers[k + 1..]
    ensures RowOf(headers, values)[headers[k]] == values[k]
    decreases |headers|
  {
    var n := |headers| - 1;
    if k < n {
      assert headers[k + 1..] == headers[..n][k + 1..] + [headers[n]];
      RowOfLookup(headers[..n], values[..n], k);
    }
  }

  /** `headers.forEach(...)` filling one row object. */
  method BuildRow(headers: seq<string>, values: seq<string>) returns (row: Row)
    requires |headers| == |values|
    ensures row == RowOf(headers, values)
  {
    row := map[];
    var k := 0;
    while k < |headers|
      invariant 0 <= k <= |headers|
      invariant row == RowOf(headers[..k], values[..k])
    {
      assert headers[..k + 1][..k] == headers[..k] && values[..k + 1][..k] == values[..k];
      row := row[headers[k] := values[k]];
      k := k + 1;
    }
    assert headers[..k] == headers && values[..k] == values;
  }

  /** The rows of the data lines, in order; a line whose value count differs from the header's is skipped. */
  function Rows(headers: seq<string>, lines: seq<string>): seq<Row>
    decreases |lines|
  {
    if lines == [] then []
    else
      var n := |lines| - 1;
      var values := Fields(lines[n]);
      Rows(headers, lines[..n]) + (if |values| == |headers| then [RowOf(headers, values)] else [])
  }

  /** What `parseCSV` returns, or the message of the error it throws, for the expected columns `expected`. */
  function ParseCsvSpec(expected: seq<string>, text: string): Result<seq<Row>, string> {
    var lines := Lines(text);
    if |lines| < 2 then Ok([])
    else
      var headers := Fields(lines[0]);
      var missing, extra := Missing(expected, headers), Extra(expected, headers);
      if |missing| > 0 || |extra| > 0 then Err(MismatchMessage(missing, extra))
      else Ok(Rows(headers, lines[1..]))
  }

  /** `parseCSV` (which checks the header against `csvHeaders`, passed here as `expected`). */
  method ParseCsv(expected: seq<string>, text: string) returns (r: Result<seq<Row>, string>)
    ensures r == ParseCsvSpec(expected, text)
  {
    var lines := Lines(text);
    if |lines| < 2 {
      return Ok([]);
    }
    var headers := ParseLine(lines[0]);
    var missing, extra := Missing(expected, headers), Extra(expected, headers);
    if |missing| > 0 || |extra| > 0 {
      return Err(MismatchMessage(missing, extra));
    }
    var rows := ParseRows(headers, lines[1..]);
    return Ok(rows);
  }

  /** The data-line loop of `parseCSV`. */
  method ParseRows(headers: seq<string>, lines: seq<string>) returns (rows: seq<Row>)
    ensures rows == Rows(headers, lines)
  {
    rows := [];
    var i := 0;
    while i < |lines|
      invariant 0 <= i <= |lines|
      invariant rows == Rows(headers, lines[..i])
    {
      var values := ParseLine(lines[i]);
      assert lines[..i + 1][..i] == lines[..i];
      if |values| == |headers| {
        var row := BuildRow(headers, values);
        rows := rows + [row];
      }
      i := i + 1;
    }
    assert lines[..i] == lines;
  }

  /** The header check passes exactly when the header names the expected columns and no others. */
  lemma HeaderCheck(expected: seq<string>, headers: seq<string>)
    ensures |Missing(expected, headers)| == 0 && |Extra(expected, headers)| == 0 <==> SameColumns(expected, headers)
  {
    var missing, extra := Missing(expected, headers), Extra(expected, headers);
    if !SameColumns(expected, headers) {
      var name :| !(name in headers <==> name in expected);
      if name in expected {
        assert name in missing;
      } else {
        assert name in extra;
      }
    } else {
      FilterNone((name: string) => name !in headers, expected);
      FilterNone((name: string) => name !in expected, headers);
    }
  }

  /** Parsing fails exactly when there are two non-blank lines and the first does not name the expected columns. */
  lemma ParseFailsIffHeaderMismatch(expected: seq<string>, text: string)
    ensures ParseCsvSpec(expected, text).Err?
        <==> |Lines(text)| >= 2 && !SameColumns(expected, Fields(Lines(text)[0]))
  {
    if |Lines(text)| >= 2 {
      HeaderCheck(expected, Fields(Lines(text)[0]));
    }
  }

  /** The thrown text always contains `header mismatch`, which the importer looks for. */
  lemma MismatchMessageMentions(missing: seq<string>, extra: seq<string>)
    ensures Includes(MismatchMessage(missing, extra), "header mismatch")
  {
    var m := MismatchMessage(missing, extra);
    var t := "header mismatch";
    assert MismatchHead == "CSV " + t + " detected:\n";
    assert m[4..19] == t;
    assert OccursAt(m, "header mismatch", 4);
    IncludesIffOccurs(m, "header mismatch");
  }

  /**
   * The thrown text names every missing column and every extra column, and
   * when both kinds occur the missing ones are listed first.
   */
  lemma MismatchMessageNames(missing: seq<string>, extra: seq<string>)
    ensures forall name :: name in missing ==> Includes(MismatchMessage(missing, extra), name)
    ensures forall name :: name in extra ==> Includes(MismatchMessage(missing, extra), name)
    ensures |missing| > 0 && |extra| > 0 ==>
      exists i, j :: i < j && OccursAt(MismatchMessage(missing, extra), "Missing headers: ", i)
                           && OccursAt(MismatchMessage(missing, extra), "Extra headers: ", j)
  {
    forall name | name in missing
      ensures Includes(MismatchMessage(missing, extra), name)
    {
      ListLineNames("Missing headers: ", missing, name);
      IncludesInFour(MismatchHead, ListLine("Missing headers: ", missing), ListLine("Extra headers: ", extra),
                     MismatchFoot, name);
    }
    forall name | name in extra
      ensures Includes(MismatchMessage(missing, extra), name)
    {
      ListLineNames("Extra headers: ", extra, name);
      IncludesInFour(MismatchHead, ListLine("Missing headers: ", missing), ListLine("Extra headers: ", extra),
                     MismatchFoot, name);
    }
    if |missing| > 0 && |extra| > 0 {
      MismatchLinesInOrder(missing, extra);
    }
  }

  /** A listing line names each of its columns. */
  lemma ListLineNames(caption: string, names: seq<string>, name: string)
    requires name in names
    ensures Includes(ListLine(caption, names), name)
  {
    var k :| 0 <= k < |names| && names[k] == name;
    JoinIncludes(names, ", ", k);
    IncludesMiddle(caption, Join(names, ", "), "\n", name);
  }

  lemma MismatchLinesInOrder(missing: seq<string>, extra: seq<string>)
    requires |missing| > 0 && |extra| > 0
    ensures exists i, j :: i < j && OccursAt(MismatchMessage(missing, extra), "Missing headers: ", i)
                                 && OccursAt(MismatchMessage(missing, extra), "Extra headers: ", j)
  {
    var m := MismatchMessage(missing, extra);
    var before := ListLine("Missing headers: ", missing);
    var after := ListLine("Extra headers: ", extra);
    var i := |MismatchHead|;
    var j := |MismatchHead| + |before|;
    assert m == MismatchHead + before + after + MismatchFoot;
    assert m[i..i + 17] == before[..17] == "Missing headers: ";
    assert m[j..j + 15] == after[..15] == "Extra headers: ";
    assert OccursAt(m, "Missing headers: ", i) && OccursAt(m, "Extra headers: ", j);
  }

  lemma {:induction false} RowsShape(headers: seq<string>, lines: seq<string>)
    ensures |Rows(headers, lines)| <= |lines|
    ensures forall row :: row in Rows(headers, lines) ==> forall name :: name in row <==> name in headers
    decreases |lines|
  {
    if lines != [] {
      RowsShape(headers, lines[..|lines| - 1]);
    }
  }

  /** A successful parse yields at most one row per data line, each keyed by exactly the expected columns. */
  lemma ParsedRowsShape(expected: seq<string>, text: string, rows: seq<Row>)
    requires ParseCsvSpec(expected, text) == Ok(rows)
    ensures |Lines(text)| < 2 ==> rows == []
    ensures |Lines(text)| >= 2 ==> |rows| <= |Lines(text)| - 1
    ensures forall row :: row in rows ==> forall name :: name in row <==> name in expected
  {
    var lines := Lines(text);
    if |lines| >= 2 {
      var headers := Fields(lines[0]);
      HeaderCheck(expected, headers);
      RowsShape(headers, lines[1..]);
    }
  }

  // ---------------------------------------------------------------------------
  // Writing, then reading

  /** A row the writer can emit and the reader gives back: non-empty, of safe cells without line feeds. */
  predicate WritableRow(cells: seq<string>) {
    |cells| >= 1 && forall k :: 0 <= k < |cells| ==> SafeCell(cells[k]) && '\n' !in cells[k]
  }

  /** The row objects for data rows all as wide as the header. */
  function RowsOf(header: seq<string>, rows: seq<seq<string>>): seq<Row>
    requires forall k :: 0 <= k < |rows| ==> |rows[k]| == |header|
    decreases |rows|
  {
    if rows == [] then []
    else
      var n := |rows| - 1;
      RowsOf(header, rows[..n]) + [RowOf(header, rows[n])]
  }

  lemma {:induction false} EscapeKeepsLineFeedOut(cell: string)
    requires '\n' !in cell
    ensures '\n' !in Escape(cell)
  {
    if cell != [] {
      EscapeKeepsLineFeedOut(cell[1..]);
    }
  }

  lemma RowLineHasNoLineFeed(cells: seq<string>)
    requires forall k :: 0 <= k < |cells| ==> '\n' !in cells[k]
    ensures '\n' !in SerializeRow(cells)
  {
    forall k | 0 <= k < |cells|
      ensures '\n' !in QuoteAll(cells)[k]
    {
      EscapeKeepsLineFeedOut(cells[k]);
    }
    JoinExcludes(QuoteAll(cells), ",", '\n');
  }

  lemma RowLineNotBlank(cells: seq<string>)
    requires |cells| >= 1
    ensures NonBlank(SerializeRow(cells))
  {
    var parts := QuoteAll(cells);
    var line := SerializeRow(cells);
    assert parts[0][0] == '"';
    assert line[0] == '"' by {
      if |parts| > 1 {
        assert line == parts[0] + "," + Join(parts[1..], ",");
      }
    }
    BlankIffAllSpace(line);
  }

  lemma {:induction false} RowsOfWritten(header: seq<string>, rows: seq<seq<string>>)
    requires forall k :: 0 <= k < |rows| ==> |rows[k]| == |header| && WritableRow(rows[k])
    ensures Rows(header, SerializeAll(rows)) == RowsOf(header, rows)
    decreases |rows|
  {
    if rows != [] {
      var n := |rows| - 1;
      var front := rows[..n];
      assert forall k :: 0 <= k < |front| ==> front[k] == rows[k];
      RowsOfWritten(header, front);
      assert WritableRow(rows[n]);
      RowRoundTrip(rows[n]);
      RowsOfWrittenStep(header, rows);
    }
  }

  /** The last written row reads back as itself when the rows before it do. */
  lemma RowsOfWrittenStep(header: seq<string>, rows: seq<seq<string>>)
    requires rows != [] && forall k :: 0 <= k < |rows| ==> |rows[k]| == |header|
    requires var n := |rows| - 1;
      Rows(header, SerializeAll(rows[..n])) == RowsOf(header, rows[..n]) && Fields(SerializeRow(rows[n])) == rows[n]
    ensures Rows(header, SerializeAll(rows)) == RowsOf(header, rows)
  {
    var n := |rows| - 1;
    var lines := SerializeAll(rows);
    SerializeAllPrefix(rows);
    RowsSnoc(header, lines, rows[n]);
  }

  /** The lines written for all rows but the last are those written for the rows before it. */
  lemma SerializeAllPrefix(rows: seq<seq<string>>)
    requires rows != []
    ensures SerializeAll(rows)[..|rows| - 1] == SerializeAll(rows[..|rows| - 1])
  {
  }

  /** A last line that reads as a full row adds that row after the rows of the lines before it. */
  lemma RowsSnoc(header: seq<string>, lines: seq<string>, values: seq<string>)
    requires lines != [] && Fields(lines[|lines| - 1]) == values && |values| == |header|
    ensures Rows(header, lines) == Rows(header, lines[..|lines| - 1]) + [RowOf(header, values)]
  {
  }

  /** The non-blank lines of a written file are the written rows. */
  lemma WrittenLines(all: seq<seq<string>>)
    requires |all| >= 1
    requires forall k :: 0 <= k < |all| ==> WritableRow(all[k])
    ensures Lines(SerializeCsv(all)) == SerializeAll(all)
  {
    var lines := SerializeAll(all);
    forall k | 0 <= k < |lines|
      ensures '\n' !in lines[k] && NonBlank(lines[k])
    {
      RowLineHasNoLineFeed(all[k]);
      RowLineNotBlank(all[k]);
    }
    SplitJoin(lines, '\n');
    FilterAllKept(NonBlank, lines);
  }

  /** With at least one line and a header naming the expected columns, parsing yields the rows of the data lines. */
  lemma ParseWithGoodHeader(expected: seq<string>, text: string, header: seq<string>)
    requires |Lines(text)| >= 1 && Fields(Lines(text)[0]) == header
    requires |Missing(expected, header)| == 0 && |Extra(expected, header)| == 0
    ensures ParseCsvSpec(expected, text) == Ok(Rows(header, Lines(text)[1..]))
  {
  }

  lemma ParseWritten(expected: seq<string>, header: seq<string>, rows: seq<seq<string>>)
    requires WritableRow(header) && SameColumns(expected, header)
    requires forall k :: 0 <= k < |rows| ==> |rows[k]| == |header| && WritableRow(rows[k])
    ensures ParseCsvSpec(expected, SerializeCsv([header] + rows)) == Ok(Rows(header, SerializeAll(rows)))
  {
    var all := [header] + rows;
    var lines := SerializeAll(all);
    assert forall k :: 0 <= k < |all| ==> WritableRow(all[k]);
    WrittenLines(all);
    RowRoundTrip(header);
    assert Fields(lines[0]) == header;
    HeaderCheck(expected, header);
    ParseWithGoodHeader(expected, SerializeCsv(all), header);
    assert lines[1..] == SerializeAll(rows);
  }

  /**
   * Round trip of a whole file: a header naming the expected columns and data
   * rows as wide as the header, all written as the template writer writes them,
   * parse back to one row object per data row.
   */
  lemma CsvRoundTrip(expected: seq<string>, header: seq<string>, rows: seq<seq<string>>)
    requires WritableRow(header) && SameColumns(expected, header)
    requires forall k :: 0 <= k < |rows| ==> |rows[k]| == |header| && WritableRow(rows[k])
    ensures ParseCsvSpec(expected, SerializeCsv([header] + rows)) == Ok(RowsOf(header, rows))
  {
    ParseWritten(expected, header, rows);
    RowsOfWritten(header, rows);
  }
}
