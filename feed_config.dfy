/**
 * The feed-type router: a fixed registry of five feed types, each with its
 * seven-page layout, colour theme and filename keywords, and the classifier
 * that picks a feed for an upload: an explicit `feed_type` column first,
 * then keywords in the filename, then keywords in the column names, then
 * `core_equity`.
 */
module FeedConfig {
  import opened Wrappers
  import opened Frames
  import Normalize

  datatype Feed = Feed(key: string, name: string, description: string, pages: seq<string>,
                       colorTheme: string, keywords: seq<string>)

  datatype Theme = Theme(primary: string, secondary: string, accent: string)

  const DefaultKey := "core_equity"

  /** `FEED_TYPES`, in its declaration order (the order the filename search walks). */
  const FeedTypes: seq<Feed> := [
    Feed("core_equity", "APS Core Equity Feed",
         "Refi-ready, owner-occupied records (\U{2264}80% LTV, 18\U{2013}36 mo loan age)",
         ["cover_summary", "zip_insights", "institutional_opportunity", "heat_map", "churn_triangle",
          "qa_schema", "sample_data"],
         "teal", ["core", "equity", "refi"]),
    Feed("transactional_momentum", "APS Transactional Momentum Feed",
         "3\U{2013}12 mo refi/sale velocity + ownership turnover tracking",
         ["cover_summary", "transaction_velocity", "dom_analysis", "market_activity", "velocity_curves",
          "qa_schema", "sample_data"],
         "yellow", ["transaction", "momentum", "velocity"]),
    Feed("predictive_churn", "APS Predictive Churn Feed",
         "Refi/sale prediction (90-day outlook) using equity rate + loan aging",
         ["cover_summary", "churn_models", "dual_model_framework", "risk_tiers", "prediction_matrix",
          "qa_schema", "sample_data"],
         "red", ["churn", "predictive", "forecast"]),
    Feed("market_activity", "APS Market Activity Feed",
         "DOM, listing movement, pricing trends \U{2014} for brokers/investors",
         ["cover_summary", "listing_movement", "pricing_trends", "dom_heatmap", "market_velocity",
          "qa_schema", "sample_data"],
         "blue", ["market", "activity", "dom", "listing"]),
    Feed("lender_engagement", "APS Lender Engagement Feed",
         "Lender rate patterns, volume mapping, product targeting",
         ["cover_summary", "lender_patterns", "rate_analysis", "volume_mapping", "product_targeting",
          "qa_schema", "sample_data"],
         "orange", ["lender", "engagement", "rate", "volume"])
  ]

  /** `COLOR_THEMES`. */
  const ColorThemes: seq<(string, Theme)> := [
    ("teal", Theme("#00D1D1", "#FFD166", "#FF6B6B")),
    ("yellow", Theme("#FFD166", "#00D1D1", "#FF6B6B")),
    ("red", Theme("#FF6B6B", "#FFD166", "#00D1D1")),
    ("blue", Theme("#42A5F5", "#00D1D1", "#FFD166")),
    ("orange", Theme("#FF8C42", "#00D1D1", "#FFD166"))
  ]

  const TealTheme := Theme("#00D1D1", "#FFD166", "#FF6B6B")

  predicate IsFeedKey(k: string) {
    exists i :: 0 <= i < |FeedTypes| && FeedTypes[i].key == k
  }

  // ---------------------------------------------------------------------
  // Text helpers

  /** `sub in s`: `sub` occurs in `s` as a contiguous piece. */
  predicate Contains(s: string, sub: string) {
    exists i :: 0 <= i <= |s| && sub <= s[i..]
  }

  /** `str.lower()` on the ASCII letters. */
  function Lower(s: string): (r: string)
    ensures |r| == |s|
  {
    seq(|s|, i requires 0 <= i < |s| => if 'A' <= s[i] <= 'Z' then (s[i] as int + 32) as char else s[i])
  }

  /** `' '.join(names)`. */
  function Join(names: seq<string>): string {
    if names == [] then ""
    else if |names| == 1 then names[0]
    else names[0] + " " + Join(names[1..])
  }

  // ---------------------------------------------------------------------
  // Keyword rules

  /** A keyword rule: the feed `key` wins when any of `keywords` occurs in the text. */
  datatype Rule = Rule(key: string, keywords: seq<string>)

  predicate Hits(rule: Rule, text: string) {
    exists w :: w in rule.keywords && Contains(text, w)
  }

  /** The key of the first rule that hits, walking the rules in order. */
  function FirstMatch(rules: seq<Rule>, text: string): (r: Option<string>)
    ensures r.None? <==> forall i :: 0 <= i < |rules| ==> !Hits(rules[i], text)
    ensures r.Some? ==> exists i :: 0 <= i < |rules| && Hits(rules[i], text) && r.value == rules[i].key &&
                          forall j :: 0 <= j < i ==> !Hits(rules[j], text)
  {
    if rules == [] then None
    else if Hits(rules[0], text) then Some(rules[0].key)
    else
      var rest := FirstMatch(rules[1..], text);
      assert forall i :: 1 <= i < |rules| ==> rules[i] == rules[1..][i - 1];
      if rest.Some? then
        var k :| 0 <= k < |rules[1..]| && Hits(rules[1..][k], text) && rest.value == rules[1..][k].key
          && forall j :: 0 <= j < k ==> !Hits(rules[1..][j], text);
        assert forall j :: 0 <= j < k + 1 ==> !Hits(rules[j], text) by {
          forall j | 0 <= j < k + 1 ensures !Hits(rules[j], text) {
            if j > 0 {
              assert rules[j] == rules[1..][j - 1];
            }
          }
        }
        rest
      else rest
  }

  /** Method 2's rules: each registered feed with its own keywords, in registry order. */
  function FilenameRules(): (rules: seq<Rule>)
    ensures |rules| == |FeedTypes|
    ensures forall i :: 0 <= i < |rules| ==> rules[i].key == FeedTypes[i].key
  {
    seq(|FeedTypes|, i requires 0 <= i < |FeedTypes| => Rule(FeedTypes[i].key, FeedTypes[i].keywords))
  }

  /** Method 3's rules over the column names, in the order they are tried. */
  const ColumnRules: seq<Rule> := [
    Rule("core_equity", ["refi", "equity", "ltv"]),
    Rule("transactional_momentum", ["velocity", "transaction", "turnover"]),
    Rule("predictive_churn", ["churn", "prediction", "forecast"]),
    Rule("market_activity", ["dom", "listing", "pricing"]),
    Rule("lender_engagement", ["lender", "rate", "volume"])
  ]

  const FeedTypeColumn := "feed_type"

  // ---------------------------------------------------------------------
  // Detection

  /** Method 1: the first record's `feed_type` cell, when it names a registered feed. */
  function ExplicitFeed(data: Option<Table>): (r: Option<string>)
    ensures r.Some? ==> IsFeedKey(r.value)
  {
    if data.Some? && FeedTypeColumn in data.value.names && |data.value.rows| > 0 then
      var c := Get(data.value.rows[0], FeedTypeColumn);
      if c.Text? && c.s != "" && IsFeedKey(c.s) then Some(c.s) else None
    else None
  }

  /** Method 2: a non-empty filename, lowercased, against each feed's keywords. */
  function FilenameFeed(filename: Option<string>): Option<string> {
    if filename.Some? && filename.value != "" then FirstMatch(FilenameRules(), Lower(filename.value))
    else None
  }

  /** The column names, lowercased and joined with spaces. */
  function ColumnText(names: seq<string>): string {
    Join(seq(|names|, i requires 0 <= i < |names| => Lower(names[i])))
  }

  /** Method 3: keyword groups against the joined column names. */
  function ColumnFeed(data: Option<Table>): Option<string> {
    if data.Some? then FirstMatch(ColumnRules, ColumnText(data.value.names)) else None
  }

  /**
   * `detect_feed_type(filename=..., data=...)`: total, and always a
   * registered key; an explicit feed wins, and with no method answering the
   * router falls back to core_equity.
   */
  function DetectFeedType(filename: Option<string>, data: Option<Table>): (k: string)
    ensures IsFeedKey(k)
    ensures ExplicitFeed(data).Some? ==> k == ExplicitFeed(data).value
    ensures ExplicitFeed(data).None? && FilenameFeed(filename).None? && ColumnFeed(data).None? ==> k == DefaultKey
  {
    RuleKeysRegistered();
    MatchIsRegistered(FilenameRules(), if filename.Some? then Lower(filename.value) else "");
    MatchIsRegistered(ColumnRules, if data.Some? then ColumnText(data.value.names) else "");
    assert FeedTypes[0].key == DefaultKey;
    match ExplicitFeed(data)
    case Some(k) => k
    case None =>
      match FilenameFeed(filename)
      case Some(k) => k
      case None =>
        match ColumnFeed(data)
        case Some(k) => k
        case None => DefaultKey
  }

  // ---------------------------------------------------------------------
  // Lookups

  function Lookup(feeds: seq<Feed>, key: string): Option<Feed> {
    if feeds == [] then None
    else if feeds[0].key == key then Some(feeds[0])
    else Lookup(feeds[1..], key)
  }

  /** `get_feed_config`: a registered key gets its own entry; any other key gets core_equity's. */
  function GetFeedConfig(key: string): (f: Feed)
    ensures f in FeedTypes
    ensures IsFeedKey(key) ==> f.key == key
    ensures !IsFeedKey(key) ==> f == FeedTypes[0] && f.key == DefaultKey
  {
    LookupFinds(FeedTypes, key);
    match Lookup(FeedTypes, key)
    case Some(f) => f
    case None => FeedTypes[0]
  }

  /**
   * `get_page_list`: seven pages, opening with the cover and closing with the
   * schema and the sample; an unknown key gets core_equity's pages.
   */
  function GetPageList(key: string): (pages: seq<string>)
    ensures |pages| == 7 && pages[0] == "cover_summary" && pages[5] == "qa_schema" && pages[6] == "sample_data"
    ensures IsFeedKey(key) ==> exists i :: 0 <= i < |FeedTypes| && FeedTypes[i].key == key && pages == FeedTypes[i].pages
    ensures !IsFeedKey(key) ==> pages == FeedTypes[0].pages
  {
    RegistryShape();
    LookupFinds(FeedTypes, key);
    GetFeedConfig(key).pages
  }

  function LookupTheme(themes: seq<(string, Theme)>, name: string): Option<Theme> {
    if themes == [] then None
    else if themes[0].0 == name then Some(themes[0].1)
    else LookupTheme(themes[1..], name)
  }

  /**
   * `get_color_theme`: always one of the five themes; the theme the feed
   * names, and teal for an unknown key.
   */
  function GetColorTheme(key: string): (t: Theme)
    ensures exists i :: 0 <= i < |ColorThemes| && t == ColorThemes[i].1
    ensures LookupTheme(ColorThemes, GetFeedConfig(key).colorTheme) == Some(t)
    ensures !IsFeedKey(key) ==> t == TealTheme
  {
    RegistryShape();
    ThemeFound(ColorThemes, GetFeedConfig(key).colorTheme);
    LookupTheme(ColorThemes, GetFeedConfig(key).colorTheme).GetOr(TealTheme)
  }

  /**
   * `should_render_page`: every feed renders its cover, schema and sample
   * pages; an unknown key renders exactly core_equity's pages.
   */
  predicate ShouldRenderPage(page: string, key: string)
    ensures page == "cover_summary" || page == "qa_schema" || page == "sample_data" ==> ShouldRenderPage(page, key)
    ensures !IsFeedKey(key) ==> (ShouldRenderPage(page, key) <==> page in GetPageList(DefaultKey))
  {
    assert IsFeedKey(DefaultKey) by {
      assert FeedTypes[0].key == DefaultKey;
    }
    page in GetPageList(key)
  }

  // ---------------------------------------------------------------------
  // Properties

  /**
   * The registry: five feeds with distinct keys, `core_equity` first; each
   * lists seven pages, opening with `cover_summary` and closing with
   * `qa_schema`, `sample_data`; each names a registered colour theme.
   */
  lemma RegistryShape()
    ensures |FeedTypes| == 5 && FeedTypes[0].key == DefaultKey
    ensures forall i, j :: 0 <= i < j < |FeedTypes| ==> FeedTypes[i].key != FeedTypes[j].key
    ensures forall i :: 0 <= i < |FeedTypes| ==>
      |FeedTypes[i].pages| == 7 && FeedTypes[i].pages[0] == "cover_summary"
      && FeedTypes[i].pages[5] == "qa_schema" && FeedTypes[i].pages[6] == "sample_data"
    ensures forall i :: 0 <= i < |FeedTypes| ==> LookupTheme(ColorThemes, FeedTypes[i].colorTheme).Some?
    ensures forall f :: f in FeedTypes ==>
      |f.pages| == 7 && f.pages[0] == "cover_summary" && f.pages[5] == "qa_schema" && f.pages[6] == "sample_data"
      && LookupTheme(ColorThemes, f.colorTheme).Some?
  {
  }

  /** A hit by rule `i` with no hit before it decides the match. */
  lemma FirstMatchIsFirstHit(rules: seq<Rule>, text: string, i: nat)
    requires i < |rules| && Hits(rules[i], text)
    requires forall j :: 0 <= j < i ==> !Hits(rules[j], text)
    ensures FirstMatch(rules, text) == Some(rules[i].key)
  {
    var r := FirstMatch(rules, text);
    var k :| 0 <= k < |rules| && Hits(rules[k], text) && r.value == rules[k].key &&
             forall j :: 0 <= j < k ==> !Hits(rules[j], text);
  }

  lemma {:induction false} LookupFinds(feeds: seq<Feed>, key: string)
    ensures var r := Lookup(feeds, key);
      (r.Some? ==> r.value in feeds && r.value.key == key)
      && (r.None? <==> forall i :: 0 <= i < |feeds| ==> feeds[i].key != key)
  {
    if feeds != [] {
      LookupFinds(feeds[1..], key);
      assert forall i :: 1 <= i < |feeds| ==> feeds[i] == feeds[1..][i - 1];
      if Lookup(feeds, key).None? {
        forall i | 0 <= i < |feeds| ensures feeds[i].key != key {
          if i > 0 {
            assert feeds[1..][i - 1].key != key;
          }
        }
      }
    }
  }


  /** Every rule's key is a registered feed key. */
  lemma RuleKeysRegistered()
    ensures forall i :: 0 <= i < |FilenameRules()| ==> IsFeedKey(FilenameRules()[i].key)
    ensures forall i :: 0 <= i < |ColumnRules| ==> IsFeedKey(ColumnRules[i].key)
  {
    assert FeedTypes[0].key == ColumnRules[0].key && FeedTypes[1].key == ColumnRules[1].key;
    assert FeedTypes[2].key == ColumnRules[2].key && FeedTypes[3].key == ColumnRules[3].key;
    assert FeedTypes[4].key == ColumnRules[4].key;
  }

  lemma MatchIsRegistered(rules: seq<Rule>, text: string)
    requires forall i :: 0 <= i < |rules| ==> IsFeedKey(rules[i].key)
    ensures FirstMatch(rules, text).Some? ==> IsFeedKey(FirstMatch(rules, text).value)
  {
  }


  /** An explicit `feed_type` naming a registered feed wins over the filename and the columns. */
  lemma ExplicitColumnWins(filename: Option<string>, t: Table, key: string)
    requires FeedTypeColumn in t.names && |t.rows| > 0
    requires Get(t.rows[0], FeedTypeColumn) == Text(key) && IsFeedKey(key)
    ensures DetectFeedType(filename, Some(t)) == key
  {
    assert key != "" by {
      var i :| 0 <= i < |FeedTypes| && FeedTypes[i].key == key;
    }
  }

  /**
   * Without an explicit feed, the first registered feed (in registry order)
   * with a keyword in the lowercased filename wins, whatever the columns say.
   */
  lemma FilenameFirstFeedWins(filename: string, data: Option<Table>, i: nat)
    requires ExplicitFeed(data).None? && filename != ""
    requires i < |FeedTypes| && Hits(FilenameRules()[i], Lower(filename))
    requires forall j :: 0 <= j < i ==> !Hits(FilenameRules()[j], Lower(filename))
    ensures DetectFeedType(Some(filename), data) == FeedTypes[i].key
  {
    FirstMatchIsFirstHit(FilenameRules(), Lower(filename), i);
  }

  /**
   * Without an explicit feed or a filename hit, the first keyword group
   * (core_equity's first) found in the joined column names wins.
   */
  lemma ColumnFirstGroupWins(filename: Option<string>, t: Table, i: nat)
    requires ExplicitFeed(Some(t)).None? && FilenameFeed(filename).None?
    requires i < |ColumnRules| && Hits(ColumnRules[i], ColumnText(t.names))
    requires forall j :: 0 <= j < i ==> !Hits(ColumnRules[j], ColumnText(t.names))
    ensures DetectFeedType(filename, Some(t)) == ColumnRules[i].key
  {
    FirstMatchIsFirstHit(ColumnRules, ColumnText(t.names), i);
  }

  /** With nothing to go on, the router answers core_equity. */
  lemma DefaultWhenNothingMatches(filename: Option<string>, data: Option<Table>)
    requires ExplicitFeed(data).None? && FilenameFeed(filename).None? && ColumnFeed(data).None?
    ensures DetectFeedType(filename, data) == DefaultKey
  {
  }

  /** A piece of one name is a piece of the space-joined names. */
  lemma {:induction false} JoinContains(names: seq<string>, i: nat, w: string)
    requires i < |names| && Contains(names[i], w)
    ensures Contains(Join(names), w)
  {
    var p :| 0 <= p <= |names[i]| && w <= names[i][p..];
    if |names| == 1 {
    } else if i == 0 {
      var rest := " " + Join(names[1..]);
      assert Join(names) == names[0] + rest;
      assert (names[0] + rest)[p..] == names[0][p..] + rest;
      assert w <= Join(names)[p..];
    } else {
      JoinContains(names[1..], i - 1, w);
      var q :| 0 <= q <= |Join(names[1..])| && w <= Join(names[1..])[q..];
      var head := names[0] + " ";
      assert Join(names) == head + Join(names[1..]);
      assert Join(names)[|head| + q..] == Join(names[1..])[q..];
    }
  }

  /** A column whose lowercased name holds a keyword puts that keyword in the column text. */
  lemma ColumnKeyword(names: seq<string>, i: nat, w: string)
    requires i < |names| && Contains(Lower(names[i]), w)
    ensures Contains(ColumnText(names), w)
  {
    var lowered := seq(|names|, j requires 0 <= j < |names| => Lower(names[j]));
    JoinContains(lowered, i, w);
  }

  /**
   * The normaliser's output frame, routed without a filename and without an
   * explicit feed, is a core-equity feed: its `Equity %` column holds
   * "equity".
   */
  lemma NormalizedFrameIsCoreEquity(names: seq<string>, rows: seq<Row>)
    requires ExplicitFeed(Some(Table(Normalize.NormalizedNames(names), rows))).None?
    ensures DetectFeedType(None, Some(Table(Normalize.NormalizedNames(names), rows))) == DefaultKey
  {
    var out := Normalize.NormalizedNames(names);
    var i := EquityColumnOf(names);
    EquityColumnHitsCoreEquity(out, i);
    RoutedByColumns(Table(out, rows), DefaultKey);
  }

  lemma EquityColumnOf(names: seq<string>) returns (i: nat)
    ensures i < |Normalize.NormalizedNames(names)| && Normalize.NormalizedNames(names)[i] == Normalize.EquityKey
  {
    Normalize.KeysDistinct();
    assert Normalize.EquityKey in Normalize.DerivedKeys;
    Normalize.NormalizedNamesHaveDerived(names);
    i := PositionOf(Normalize.NormalizedNames(names), Normalize.EquityKey);
  }

  /** A name in a column list sits at some position of it. */
  lemma PositionOf(names: seq<string>, name: string) returns (i: nat)
    requires name in names
    ensures i < |names| && names[i] == name
  {
    i :| 0 <= i < |names| && names[i] == name;
  }

  /** Without an explicit feed or a filename, the column rules decide. */
  lemma RoutedByColumns(t: Table, key: string)
    requires ExplicitFeed(Some(t)).None? && FirstMatch(ColumnRules, ColumnText(t.names)) == Some(key)
    ensures DetectFeedType(None, Some(t)) == key
  {
  }

  /** An `Equity %` column makes the column text hit core_equity's keyword group. */
  lemma EquityColumnHitsCoreEquity(names: seq<string>, i: nat)
    requires i < |names| && names[i] == Normalize.EquityKey
    ensures FirstMatch(ColumnRules, ColumnText(names)) == Some(DefaultKey)
  {
    EquityLowered();
    ColumnKeyword(names, i, "equity");
    assert "equity" in ColumnRules[0].keywords;
    FirstMatchIsFirstHit(ColumnRules, ColumnText(names), 0);
  }

  lemma EquityLowered()
    ensures Contains(Lower(Normalize.EquityKey), "equity")
  {
    var s := Lower(Normalize.EquityKey);
    assert s[..6] == "equity";
    assert "equity" <= s[0..];
  }


  lemma {:induction false} ThemeFound(themes: seq<(string, Theme)>, name: string)
    requires LookupTheme(themes, name).Some?
    ensures exists i :: 0 <= i < |themes| && LookupTheme(themes, name).value == themes[i].1
  {
    if themes[0].0 != name {
      ThemeFound(themes[1..], name);
      var i :| 0 <= i < |themes[1..]| && LookupTheme(themes[1..], name).value == themes[1..][i].1;
      assert themes[1..][i] == themes[i + 1];
    }
  }
}
