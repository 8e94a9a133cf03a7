/**
 * What the translator promises: sentences are translated one by one, the
 * series it targets exist, the values it extracts have the shapes the rules
 * give them, and every path it writes passes the schema gate of the chart it
 * is for, with one exception: the marker toggle it writes for scatter charts,
 * which the gate refuses.
 */
module InstructionFacts {
  import opened Wrappers
  import opened Text
  import opened JsonTree
  import opened Scanners
  import opened ChartErrors
  import opened PathGrammar
  import opened PathFacts
  import opened Schema
  import opened Instructions

  // ------------------------------------------------------------ the schema gate

  /** The path tokenizes and `validate_update_path` accepts it for the chart type. */
  predicate Editable(path: string, chartType: Option<string>) {
    Tokenize(path).Success? && ValidateUpdatePath(Tokenize(path).value, chartType).Success?
  }

  const ScatterToggle: seq<string> := ["plotOptions", "scatter", "marker", "enabled"]

  /** The marker toggle `_marker_enabled_path` gives a scatter chart. */
  predicate ScatterMarkerToggle(path: string, chartType: Option<string>) {
    chartType == Some("scatter") && path == Dotted(ScatterToggle)
  }

  /** Every update's path is editable for the chart type, or is the scatter marker toggle. */
  predicate Admissible(us: seq<Update>, chartType: Option<string>) {
    forall k :: 0 <= k < |us| ==> Editable(us[k].path, chartType) || ScatterMarkerToggle(us[k].path, chartType)
  }

  lemma GlobalEditable(k: nat, chartType: Option<string>)
    requires k < |GlobalTemplates|
    ensures Editable(Dotted(GlobalTemplates[k].0), chartType)
  {
    GlobalPathValidates(k, chartType);
  }

  lemma KindEditable(kind: string, k: nat)
    requires kind in KindTemplates && k < |KindTemplates[kind]|
    ensures Editable(Dotted(KindSegs(kind, KindTemplates[kind][k])), Some(kind))
  {
    KindPathValidatesIff(kind, k, Some(kind));
  }

  /** Per-target updates of a series template field are editable whichever series they name. */
  lemma PerTargetEditable(targets: seq<nat>, k: nat, v: Json, chartType: Option<string>)
    requires k < |SeriesTemplates|
    ensures Admissible(PerTarget(targets, SeriesTemplates[k].0, v), chartType)
  {
    var us := PerTarget(targets, SeriesTemplates[k].0, v);
    forall j | 0 <= j < |us|
      ensures Editable(us[j].path, chartType)
    {
      SeriesPathValidates(targets[j], k, chartType);
    }
  }

  lemma AdmissibleAppend(a: seq<Update>, b: seq<Update>, chartType: Option<string>)
    requires Admissible(a, chartType) && Admissible(b, chartType)
    ensures Admissible(a + b, chartType)
  {
    forall k | 0 <= k < |a + b|
      ensures Editable((a + b)[k].path, chartType) || ScatterMarkerToggle((a + b)[k].path, chartType)
    {
      if k < |a| {
        assert (a + b)[k] == a[k];
      } else {
        assert (a + b)[k] == b[k - |a|];
      }
    }
  }

  lemma StyleAdmissible(sentence: string, lowered: string, targets: seq<nat>, color: Option<string>, chartType: Option<string>)
    ensures Admissible(StyleUpdates(sentence, lowered, targets, color), chartType)
  {
    assert SeriesTemplates[1].0 == ["color"];
    assert SeriesTemplates[2].0 == ["dashStyle"];
    assert SeriesTemplates[3].0 == ["lineWidth"];
    var dash := DashStyle(lowered);
    var width := LineWidth(sentence);
    var a := if Present(color) && targets != [] then PerTarget(targets, ["color"], JStr(color.value)) else [];
    var b := if Present(dash) && targets != [] then PerTarget(targets, ["dashStyle"], JStr(dash.value)) else [];
    var c := if width.Some? && targets != [] then PerTarget(targets, ["lineWidth"], width.value) else [];
    if Present(color) && targets != [] {
      PerTargetEditable(targets, 1, JStr(color.value), chartType);
    }
    if Present(dash) && targets != [] {
      PerTargetEditable(targets, 2, JStr(dash.value), chartType);
    }
    if width.Some? && targets != [] {
      PerTargetEditable(targets, 3, width.value, chartType);
    }
    AdmissibleAppend(a, b, chartType);
    AdmissibleAppend(a + b, c, chartType);
  }

  lemma DataLabelAdmissible(lowered: string, targets: seq<nat>, chartType: Option<string>)
    ensures Admissible(DataLabelUpdates(lowered, targets), chartType)
  {
    assert SeriesTemplates[4].0 == ["dataLabels", "enabled"];
    assert GlobalTemplates[12].0 == ["plotOptions", "series", "dataLabels", "enabled"];
    if Contains(lowered, "data label") && DetectBoolean(lowered).Some? {
      var b := DetectBoolean(lowered).value;
      if targets != [] && !MentionsAllSeries(lowered) {
        PerTargetEditable(targets, 4, JBool(b), chartType);
      } else {
        GlobalEditable(12, chartType);
      }
    }
  }

  lemma LegendAdmissible(lowered: string, chartType: Option<string>)
    ensures Admissible(LegendUpdates(lowered), chartType)
  {
    assert GlobalTemplates[10].0 == ["legend", "enabled"];
    GlobalEditable(10, chartType);
  }

  /** The marker toggle is editable for every chart type except scatter, where it is the scatter toggle. */
  lemma MarkerEnabledAdmissible(chartType: Option<string>)
    ensures Editable(Dotted(MarkerEnabledSegments(chartType)), chartType)
      || ScatterMarkerToggle(Dotted(MarkerEnabledSegments(chartType)), chartType)
  {
    var segs := MarkerEnabledSegments(chartType);
    if segs == GlobalTemplates[14].0 {
      GlobalEditable(14, chartType);
    } else if chartType.value in {"line", "spline"} {
      assert segs == KindSegs(chartType.value, KindTemplates[chartType.value][0]);
      KindEditable(chartType.value, 0);
    } else if chartType.value in {"area", "areaspline"} {
      assert segs == KindSegs(chartType.value, KindTemplates[chartType.value][1]);
      KindEditable(chartType.value, 1);
    }
  }

  lemma MarkerRadiusAdmissible(sentence: string, chartType: Option<string>, targets: seq<nat>)
    ensures Admissible(MarkerRadiusUpdates(sentence, chartType, targets), chartType)
  {
    if MarkerRadius(sentence).Some? {
      if chartType == Some("scatter") {
        assert ["plotOptions", "scatter", "marker", "radius"] == KindSegs("scatter", KindTemplates["scatter"][1]);
        KindEditable("scatter", 1);
      } else {
        assert SeriesTemplates[9].0 == ["marker", "radius"];
        PerTargetEditable(targets, 9, MarkerRadius(sentence).value, chartType);
      }
    }
  }

  lemma MarkerSymbolAdmissible(lowered: string, chartType: Option<string>, targets: seq<nat>)
    ensures Admissible(MarkerSymbolUpdates(lowered, chartType, targets), chartType)
  {
    var symbol := MarkerSymbol(lowered);
    if Present(symbol) {
      if chartType == Some("scatter") {
        assert ["plotOptions", "scatter", "marker", "symbol"] == KindSegs("scatter", KindTemplates["scatter"][0]);
        KindEditable("scatter", 0);
      } else {
        assert SeriesTemplates[8].0 == ["marker", "symbol"];
        PerTargetEditable(targets, 8, JStr(symbol.value), chartType);
      }
    }
  }

  lemma MarkerAdmissible(sentence: string, lowered: string, chartType: Option<string>, targets: seq<nat>)
    ensures Admissible(MarkerUpdates(sentence, lowered, chartType, targets), chartType)
  {
    if Contains(lowered, "marker") {
      var a := MarkerToggleUpdates(lowered, chartType);
      var b := MarkerRadiusUpdates(sentence, chartType, targets);
      var c := MarkerSymbolUpdates(lowered, chartType, targets);
      MarkerEnabledAdmissible(chartType);
      MarkerRadiusAdmissible(sentence, chartType, targets);
      MarkerSymbolAdmissible(lowered, chartType, targets);
      AdmissibleAppend(a, b, chartType);
      AdmissibleAppend(a + b, c, chartType);
    }
  }

  lemma ScatterFillAdmissible(lowered: string, chartType: Option<string>, targets: seq<nat>, color: Option<string>)
    ensures Admissible(ScatterFillUpdates(lowered, chartType, targets, color), chartType)
  {
    if chartType == Some("scatter") {
      assert ["plotOptions", "scatter", "marker", "fillColor"] == KindSegs("scatter", KindTemplates["scatter"][2]);
      KindEditable("scatter", 2);
    }
  }

  lemma FillOpacityAdmissible(sentence: string, chartType: Option<string>)
    ensures Admissible(FillOpacityUpdates(sentence, chartType), chartType)
  {
    if chartType.Some? && chartType.value in AreaLike {
      assert ["plotOptions", chartType.value, "fillOpacity"] == KindSegs(chartType.value, KindTemplates[chartType.value][0]);
      KindEditable(chartType.value, 0);
    }
  }

  /** A single write to the pie template `k` of a pie chart is admissible. */
  lemma PieFieldAdmissible(k: nat, value: Json)
    requires k < |PieTemplates|
    ensures Admissible([Update(Dotted(["plotOptions", "pie"] + PieTemplates[k].0), value)], Some("pie"))
  {
    assert KindTemplates["pie"] == PieTemplates;
    KindEditable("pie", k);
    assert [Update(Dotted(["plotOptions", "pie"] + PieTemplates[k].0), value)][0].path == Dotted(KindSegs("pie", KindTemplates["pie"][k]));
  }

  /** The pie rules' writes on a pie chart are admissible, whatever the sentence's inner size and flag. */
  lemma PieWritesAdmissible(inner: Option<string>, legend: bool, labels: bool, flag: Option<bool>)
    ensures Admissible(
      (if Present(inner) then [Update(Dotted(["plotOptions", "pie", "innerSize"]), JStr(inner.value))] else [])
      + (if legend && flag.Some? then [Update(Dotted(["plotOptions", "pie", "showInLegend"]), JBool(flag.value))] else [])
      + (if labels && flag.Some? then [Update(Dotted(["plotOptions", "pie", "dataLabels", "enabled"]), JBool(flag.value))] else []),
      Some("pie"))
  {
    var a := if Present(inner) then [Update(Dotted(["plotOptions", "pie", "innerSize"]), JStr(inner.value))] else [];
    var b := if legend && flag.Some? then [Update(Dotted(["plotOptions", "pie", "showInLegend"]), JBool(flag.value))] else [];
    var c := if labels && flag.Some? then [Update(Dotted(["plotOptions", "pie", "dataLabels", "enabled"]), JBool(flag.value))] else [];
    if a != [] {
      PieFieldAdmissible(2, JStr(inner.value));
      assert ["plotOptions", "pie"] + PieTemplates[2].0 == ["plotOptions", "pie", "innerSize"];
    }
    if b != [] {
      PieFieldAdmissible(3, JBool(flag.value));
      assert ["plotOptions", "pie"] + PieTemplates[3].0 == ["plotOptions", "pie", "showInLegend"];
    }
    if c != [] {
      PieFieldAdmissible(0, JBool(flag.value));
      assert ["plotOptions", "pie"] + PieTemplates[0].0 == ["plotOptions", "pie", "dataLabels", "enabled"];
    }
    AdmissibleAppend(a, b, Some("pie"));
    AdmissibleAppend(a + b, c, Some("pie"));
  }

  lemma PieAdmissible(sentence: string, lowered: string, chartType: Option<string>)
    ensures Admissible(PieUpdates(sentence, lowered, chartType), chartType)
  {
    if chartType == Some("pie") {
      PieWritesAdmissible(InnerSize(sentence), Contains(lowered, "legend"), Contains(lowered, "data label"), DetectBoolean(lowered));
    }
  }

  lemma SentenceAdmissible(sentence: string, chartType: Option<string>, series: seq<Json>)
    ensures Admissible(SentenceUpdates(sentence, chartType, series), chartType)
  {
    var lowered := Lower(sentence);
    var targets := SeriesTargets(lowered, series);
    var color := ExtractColor(sentence, lowered);
    var a := StyleUpdates(sentence, lowered, targets, color);
    var b := DataLabelUpdates(lowered, targets);
    var c := LegendUpdates(lowered);
    var d := MarkerUpdates(sentence, lowered, chartType, targets);
    var e := ScatterFillUpdates(lowered, chartType, targets, color);
    var f := FillOpacityUpdates(sentence, chartType);
    var g := PieUpdates(sentence, lowered, chartType);
    StyleAdmissible(sentence, lowered, targets, color, chartType);
    DataLabelAdmissible(lowered, targets, chartType);
    LegendAdmissible(lowered, chartType);
    MarkerAdmissible(sentence, lowered, chartType, targets);
    ScatterFillAdmissible(lowered, chartType, targets, color);
    FillOpacityAdmissible(sentence, chartType);
    PieAdmissible(sentence, lowered, chartType);
    AdmissibleAppend(a, b, chartType);
    AdmissibleAppend(a + b, c, chartType);
    AdmissibleAppend(a + b + c, d, chartType);
    AdmissibleAppend(a + b + c + d, e, chartType);
    AdmissibleAppend(a + b + c + d + e, f, chartType);
    AdmissibleAppend(a + b + c + d + e + f, g, chartType);
  }

  lemma {:induction false} SentencesAdmissible(sentences: seq<string>, chartType: Option<string>, series: seq<Json>)
    ensures Admissible(FlatMap(sentences, Translator(chartType, series)), chartType)
    decreases |sentences|
  {
    if sentences != [] {
      SentenceAdmissible(sentences[0], chartType, series);
      SentencesAdmissible(sentences[1..], chartType, series);
      AdmissibleAppend(SentenceUpdates(sentences[0], chartType, series), FlatMap(sentences[1..], Translator(chartType, series)), chartType);
    }
  }

  /**
   * Every update the translator emits names a path the schema gate accepts
   * for the chart it reads, except the scatter marker toggle.
   */
  lemma InstructionsAdmissible(instructions: string, options: Json)
    ensures Admissible(InstructionsToUpdates(instructions, options), ChartTypeOf(options))
  {
    if instructions != "" {
      SentencesAdmissible(Sentences(instructions), ChartTypeOf(options), SeriesEntries(options));
    }
  }

  lemma ScatterToggleSegments()
    ensures DottedSegments(ScatterToggle)
  {
    assert NoDelimiters(ScatterToggle[0]) && NoDelimiters(ScatterToggle[1]);
    assert NoDelimiters(ScatterToggle[2]) && NoDelimiters(ScatterToggle[3]);
  }

  lemma ScatterToggleTail()
    ensures Join(".", ScatterToggle[1..]) == "scatter.marker.enabled"
  {
    assert Join(".", ScatterToggle[3..]) == "enabled";
    assert Join(".", ScatterToggle[2..]) == "marker" + "." + "enabled";
    assert Join(".", ScatterToggle[1..]) == "scatter" + "." + "marker.enabled";
  }

  lemma ScatterToggleText()
    ensures DottedSegments(ScatterToggle)
    ensures Dotted(ScatterToggle) == "plotOptions.scatter.marker.enabled"
  {
    ScatterToggleSegments();
    ScatterToggleTail();
    assert Join(".", ScatterToggle) == "plotOptions" + "." + "scatter.marker.enabled";
  }

  lemma ScatterToggleNotGlobal()
    ensures Dotted(ScatterToggle) !in GlobalPatterns()
  {
    ScatterToggleText();
    GlobalSegments();
    GlobalsAvoidKinds();
    forall g | 0 <= g < |GlobalTemplates| ensures TemplatePath(GlobalTemplates[g]) != Dotted(ScatterToggle) {
      JoinInjectiveWhen(GlobalTemplates[g].0, ScatterToggle);
    }
  }

  lemma ScatterToggleNotSeries()
    ensures Dotted(ScatterToggle) !in SeriesPatterns()
  {
    ScatterToggleText();
    forall s | 0 <= s < |SeriesTemplates| ensures SeriesPattern(SeriesTemplates[s]) != Dotted(ScatterToggle) {
      assert SeriesPattern(SeriesTemplates[s])[0] == 's';
    }
  }

  lemma ScatterToggleNotScatterField()
    ensures Dotted(ScatterToggle) !in KindPatterns("scatter")
  {
    ScatterToggleText();
    forall j | 0 <= j < |KindTemplates["scatter"]|
      ensures KindPath("scatter", KindTemplates["scatter"][j]) != Dotted(ScatterToggle)
    {
      KindPathSegments("scatter", j);
      JoinInjectiveWhen(KindSegs("scatter", KindTemplates["scatter"][j]), ScatterToggle);
    }
  }

  /** The scatter marker toggle tokenizes, and the gate refuses it for a scatter chart. */
  lemma ScatterToggleRefused()
    ensures Tokenize(Dotted(ScatterToggle)).Success?
    ensures ValidateUpdatePath(Tokenize(Dotted(ScatterToggle)).value, Some("scatter"))
      == Failure(NotEditable("plotOptions.scatter.marker.enabled", "scatter"))
  {
    ScatterToggleText();
    TokenizeJoin(ScatterToggle);
    ScatterToggleNotGlobal();
    ScatterToggleNotSeries();
    ScatterToggleNotScatterField();
  }

  /** So the translator can write a path no customisation of a scatter chart accepts. */
  lemma ScatterToggleNotEditable()
    ensures !Editable(Dotted(ScatterToggle), Some("scatter"))
  {
    ScatterToggleRefused();
  }

  // ------------------------------------------------------------ sentences

  /** The sentences are non-blank, stripped, and hold no `.`, `;` or newline. */
  lemma SentencesClean(instructions: string)
    ensures forall k :: 0 <= k < |Sentences(instructions)| ==> Clean(Sentences(instructions)[k], SentenceBreaks)
  {
    PiecesClean(instructions, SentenceBreaks);
  }

  lemma {:induction false} FlatMapAppend<A, B>(a: seq<A>, b: seq<A>, f: A -> seq<B>)
    ensures FlatMap(a + b, f) == FlatMap(a, f) + FlatMap(b, f)
    decreases |a|
  {
    if a == [] {
      assert a + b == b;
    } else {
      assert (a + b)[0] == a[0];
      assert (a + b)[1..] == a[1..] + b;
      FlatMapAppend(a[1..], b, f);
    }
  }

  /** Empty instructions have no sentences, so returning early for them changes nothing. */
  lemma TranslateSentences(instructions: string, options: Json)
    ensures InstructionsToUpdates(instructions, options)
      == FlatMap(Sentences(instructions), Translator(ChartTypeOf(options), SeriesEntries(options)))
  {
    if instructions == "" {
      assert Pieces(instructions, SentenceBreaks) == [""];
      assert Sentences(instructions) == [];
    }
  }

  /** Sentences are translated independently: at a sentence break the updates split in two. */
  lemma SentenceBreakSplits(a: string, c: char, b: string, options: Json)
    requires c in SentenceBreaks
    ensures InstructionsToUpdates(a + [c] + b, options)
      == InstructionsToUpdates(a, options) + InstructionsToUpdates(b, options)
  {
    TranslateSentences(a + [c] + b, options);
    TranslateSentences(a, options);
    TranslateSentences(b, options);
    PiecesAtBreak(a, c, b, SentenceBreaks);
    FlatMapAppend(Sentences(a), Sentences(b), Translator(ChartTypeOf(options), SeriesEntries(options)));
  }

  // ------------------------------------------------------------ markers

  /**
   * `_marker_enabled_path` always gives a path, `plotOptions.<kind>.marker.enabled`
   * for a kind with marker options and `plotOptions.series.marker.enabled`
   * otherwise, so the per-target marker branch is never taken.
   */
  lemma MarkerTogglePath(chartType: Option<string>)
    ensures var segs := MarkerEnabledSegments(chartType);
      && |segs| == 4 && segs[0] == "plotOptions" && segs[2..] == ["marker", "enabled"]
      && segs[1] in {"series", "line", "area", "spline", "areaspline", "scatter"}
      && (segs[1] != "series" <==> chartType.Some? && chartType.value in {"line", "area", "spline", "areaspline", "scatter"})
  {
  }

  /** Empty instructions give no updates. */
  lemma NoInstructionsNoUpdates(options: Json)
    ensures InstructionsToUpdates("", options) == []
  {
  }

  // ------------------------------------------------------------ colours

  /**
   * A hex colour anywhere in the sentence wins over `rgb(...)` and colour
   * names: the result is the leftmost one, `#` and three hex digits, upper-cased.
   */
  lemma HexColorWins(sentence: string, lowered: string, k: nat)
    requires HexAt(sentence, k).Some?
    ensures ExtractColor(sentence, lowered).Some?
    ensures exists h: nat | h <= k :: HexAt(sentence, h).Some? && ExtractColor(sentence, lowered).value == Upper(sentence[h..h + 4])
    ensures |ExtractColor(sentence, lowered).value| == 4 && ExtractColor(sentence, lowered).value[0] == '#'
    ensures forall j :: 1 <= j < 4 ==>
      (IsHexDigit(ExtractColor(sentence, lowered).value[j]) && !('a' <= ExtractColor(sentence, lowered).value[j] <= 'z'))
  {
    var m := FirstHex(sentence);
    assert m.Some?;
    var h := m.value.0;
    assert h <= k;
    var c := Upper(sentence[h..h + 4]);
    assert ExtractColor(sentence, lowered) == Some(c);
    assert forall j :: 0 <= j < 4 ==> c[j] == UpperChar(sentence[h + j]);
  }

  /** `#ff0000` is read as its first three digits: `#FF0`. */
  lemma LongHexReadShort()
    ensures ExtractColor("#ff0000", "#ff0000") == Some("#FF0")
  {
    var s := "#ff0000";
    assert HexAt(s, 0) == Some(4);
    assert Upper(s[0..4]) == "#FF0";
  }

  /** Whatever colour is found is non-empty, so a found colour is applied. */
  lemma ColorNonEmpty(sentence: string, lowered: string)
    ensures ExtractColor(sentence, lowered).Some? ==> Present(ExtractColor(sentence, lowered))
  {
    assert forall i :: 0 <= i < |ColorNames| ==> ColorNames[i].1 != "";
  }

  /** Without a hex colour or an `rgb(...)` anywhere, the first colour name in `COLOR_NAME_MAP` order decides. */
  lemma ColorByName(sentence: string, lowered: string, i: nat)
    requires forall k: nat :: HexAt(sentence, k).None? && RgbAt(Lower(sentence), k).None?
    requires FirstWord(lowered, ColorNames) == Some(i)
    ensures ExtractColor(sentence, lowered) == Some(ColorNames[i].1)
  {
    var folded := Lower(sentence);
    var f := (k: nat) => RgbAt(folded, k);
    assert FirstHex(sentence).None?;
    assert forall k: nat :: f(k).None?;
    assert Leftmost(f, 0, |sentence| + 1).None?;
  }

  // ------------------------------------------------------------ keywords

  /** A text without part of `longer` does not contain `longer`. */
  lemma WithoutPart(s: string, longer: string, i: nat, j: nat)
    requires i <= j <= |longer| && !Contains(s, longer[i..j])
    ensures !Contains(s, longer)
  {
    if Contains(s, longer) {
      ContainsPart(s, longer, i, j);
    }
  }

  /** A dash style is found exactly when a `DASH_KEYWORDS` key occurs, and it is a Highcharts dash style name. */
  lemma DashStyleNames(lowered: string)
    ensures DashStyle(lowered).Some? <==> exists i :: 0 <= i < |DashKeywords| && Contains(lowered, DashKeywords[i].0)
    ensures DashStyle(lowered).Some? ==>
      DashStyle(lowered).value in {"ShortDashDot", "ShortDash", "LongDash", "DashDot", "Dot", "Dash", "Solid"}
  {
    assert forall i :: 0 <= i < |DashKeywords| ==>
      DashKeywords[i].1 in {"ShortDashDot", "ShortDash", "LongDash", "DashDot", "Dot", "Dash", "Solid"};
  }

  /** `dashed` reads as `Dash` unless a dotted, short or long dash style is named as well. */
  lemma DashedIsDash(lowered: string)
    requires Contains(lowered, "dashed")
    requires !Contains(lowered, "dot") && !Contains(lowered, "short dash") && !Contains(lowered, "long dash")
    ensures DashStyle(lowered) == Some("Dash")
  {
    assert "short dash dot"[0..10] == "short dash";
    WithoutPart(lowered, "short dash dot", 0, 10);
    assert "dashdot"[4..7] == "dot";
    WithoutPart(lowered, "dashdot", 4, 7);
    assert "dash-dot"[5..8] == "dot";
    WithoutPart(lowered, "dash-dot", 5, 8);
    assert "dotted"[0..3] == "dot";
    WithoutPart(lowered, "dotted", 0, 3);
    assert forall i :: 0 <= i < 7 ==> !Contains(lowered, DashKeywords[i].0);
    assert DashKeywords[7].0 == "dashed";
  }

  /** `deactivate` holds the positive phrase `activate`; reading negatives first makes it false. */
  lemma DeactivateIsNegative(lowered: string)
    requires Contains(lowered, "deactivate")
    ensures ContainsAny(lowered, PositivePhrases)
    ensures DetectBoolean(lowered) == Some(false)
  {
    assert "deactivate"[2..10] == "activate";
    ContainsPart(lowered, "deactivate", 2, 10);
    assert PositivePhrases[5] == "activate";
    assert NegativePhrases[5] == "deactivate";
  }

  /** Both keys for `triangle-down` contain `triangle`, which comes first: `triangle-down` is never chosen. */
  lemma TriangleDownUnreachable(lowered: string)
    ensures MarkerSymbol(lowered) != Some("triangle-down")
  {
    var r := FirstContained(lowered, MarkerSymbols);
    if r.Some? && r.value >= 4 {
      assert MarkerSymbols[r.value].0[0..8] == MarkerSymbols[3].0;
      ContainsPart(lowered, MarkerSymbols[r.value].0, 0, 8);
      assert false;
    }
  }

  /** No keyword of the width, radius or donut alternations is a prefix of another. */
  lemma KeywordTablesPrefixFree()
    ensures PrefixFree(WidthKeywords) && PrefixFree(RadiusKeywords) && PrefixFree(DonutWords)
  {
  }

  /**
   * Wherever a keyword of one of these alternations occurs, the match ends
   * right after that keyword: taking the first alternative that occurs is
   * what the regex alternation does, whatever follows it.
   */
  lemma KeywordEnd(s: string, table: seq<string>, k: nat, a: nat)
    requires table == WidthKeywords || table == RadiusKeywords || table == DonutWords
    requires a < |table| && OccursAt(s, table[a], k)
    ensures AlternativeEnd(s, table, k) == Some(k + |table[a]|)
  {
    KeywordTablesPrefixFree();
    PrefixFreeFirstAt(s, table, k, a);
  }

  // ------------------------------------------------------------ numbers

  lemma LowerKeepsPoints(s: string)
    ensures HasPoint(Lower(s)) ==> HasPoint(s)
  {
    if HasPoint(Lower(s)) {
      var j :| 0 <= j < |s| && Lower(s)[j] == '.';
      assert s[j] == '.';
    }
  }

  /** Without a decimal point, widths and radii come out as non-negative integers. */
  lemma WholeNumbersWithoutPoint(sentence: string)
    requires !HasPoint(sentence)
    ensures LineWidth(sentence).Some? ==> LineWidth(sentence).value.JInt? && LineWidth(sentence).value.i >= 0
    ensures MarkerRadius(sentence).Some? ==> MarkerRadius(sentence).value.JInt? && MarkerRadius(sentence).value.i >= 0
  {
    LowerKeepsPoints(sentence);
  }

  /** Every sentence the instructions are cut into reads its widths and radii as non-negative integers. */
  lemma SentenceNumbersWhole(instructions: string)
    ensures forall k :: 0 <= k < |Sentences(instructions)| ==>
      (LineWidth(Sentences(instructions)[k]).Some? ==> LineWidth(Sentences(instructions)[k]).value.JInt? && LineWidth(Sentences(instructions)[k]).value.i >= 0)
    ensures forall k :: 0 <= k < |Sentences(instructions)| ==>
      (MarkerRadius(Sentences(instructions)[k]).Some? ==> MarkerRadius(Sentences(instructions)[k]).value.JInt? && MarkerRadius(Sentences(instructions)[k]).value.i >= 0)
  {
    SentencesClean(instructions);
    forall k | 0 <= k < |Sentences(instructions)|
      ensures LineWidth(Sentences(instructions)[k]).Some? ==> LineWidth(Sentences(instructions)[k]).value.JInt? && LineWidth(Sentences(instructions)[k]).value.i >= 0
      ensures MarkerRadius(Sentences(instructions)[k]).Some? ==> MarkerRadius(Sentences(instructions)[k]).value.JInt? && MarkerRadius(Sentences(instructions)[k]).value.i >= 0
    {
      var sentence := Sentences(instructions)[k];
      assert Clean(sentence, SentenceBreaks);
      assert !HasPoint(sentence) by {
        forall j | 0 <= j < |sentence|
          ensures sentence[j] != '.'
        {
          assert sentence[j] !in SentenceBreaks;
        }
      }
      WholeNumbersWithoutPoint(sentence);
    }
  }

  /** Fill opacity is a float in `[0, 1]`. */
  lemma FillOpacityInUnit(sentence: string)
    ensures FillOpacity(sentence).Some? ==>
      (FillOpacity(sentence).value.JFloat? && 0.0 <= FillOpacity(sentence).value.r <= 1.0)
  {
  }

  /** Python's `min` on two floats. */
  function Min(a: real, b: real): real {
    if a < b then a else b
  }

  /**
   * The leftmost `fill opacity` phrase decides: its number, divided by 100
   * when `%` follows it, capped at 1 (the number is never negative, so the
   * lower clamp never bites).
   */
  lemma FillOpacityReads(sentence: string, k: nat, n: Number, percent: bool)
    requires FillOpacityAt(Lower(sentence), k) == Some((n, percent))
    requires forall j :: 0 <= j < k ==> FillOpacityAt(Lower(sentence), j).None?
    ensures WellFormedNumber(n)
    ensures percent ==> FillOpacity(sentence) == Some(JFloat(Min(NumberValue(n) / 100.0, 1.0)))
    ensures !percent ==> FillOpacity(sentence) == Some(JFloat(Min(NumberValue(n), 1.0)))
  {
    var s := Lower(sentence);
    FillOpacityLeftmost(s, k, (n, percent));
    var numeric := if percent then NumberValue(n) / 100.0 else NumberValue(n);
    var capped := if numeric < 1.0 then numeric else 1.0;
    assert FillOpacity(sentence) == Some(JFloat(if capped > 0.0 then capped else 0.0));
    ClampedIsMin(numeric);
  }

  lemma FillOpacityInside(s: string, p: nat)
    requires FillOpacityAt(s, p).Some?
    ensures p < |s| + 1
  {
  }

  /** The leftmost `fill opacity` match is the one `re.search` finds. */
  lemma FillOpacityLeftmost(s: string, p: nat, x: (Number, bool))
    requires FillOpacityAt(s, p) == Some(x)
    requires forall j :: 0 <= j < p ==> FillOpacityAt(s, j).None?
    ensures Leftmost(k => FillOpacityAt(s, k), 0, |s| + 1) == Some((p, x))
  {
    FillOpacityInside(s, p);
    LeftmostIs(k => FillOpacityAt(s, k), |s| + 1, p);
  }

  /** `RADIUS_RE` decides wherever it matches: the leftmost match's number. */
  lemma MarkerRadiusBefore(sentence: string, k: nat, n: Number)
    requires RadiusBeforeAt(Lower(sentence), k) == Some(n)
    requires forall j :: 0 <= j < k ==> RadiusBeforeAt(Lower(sentence), j).None?
    ensures WellFormedNumber(n) && MarkerRadius(sentence) == Some(PyNumber(n))
  {
    var s := Lower(sentence);
    LeftmostIs(j => RadiusBeforeAt(s, j), |s| + 1, k);
  }

  /** Only when `RADIUS_RE` matches nowhere, the leftmost `RADIUS_AFTER_RE` match decides. */
  lemma MarkerRadiusAfter(sentence: string, k: nat, n: Number)
    requires forall j :: 0 <= j <= |sentence| ==> RadiusBeforeAt(Lower(sentence), j).None?
    requires RadiusAfterAt(Lower(sentence), k) == Some(n)
    requires forall j :: 0 <= j < k ==> RadiusAfterAt(Lower(sentence), j).None?
    ensures WellFormedNumber(n) && MarkerRadius(sentence) == Some(PyNumber(n))
  {
    var s := Lower(sentence);
    LeftmostNone(j => RadiusBeforeAt(s, j), |s| + 1);
    assert AnyAt(s, RadiusKeywords, k);
    LeftmostIs(j => RadiusAfterAt(s, j), |s| + 1, k);
  }

  /** The first `LINE_WIDTH_PATTERNS` pattern decides wherever it matches: the leftmost match's number. */
  lemma LineWidthBefore(sentence: string, k: nat, n: Number)
    requires WidthBeforeAt(Lower(sentence), k) == Some(n)
    requires forall j :: 0 <= j < k ==> WidthBeforeAt(Lower(sentence), j).None?
    ensures WellFormedNumber(n) && LineWidth(sentence) == Some(PyNumber(n))
  {
    var s := Lower(sentence);
    LeftmostIs(j => WidthBeforeAt(s, j), |s| + 1, k);
  }

  /** Only when the first pattern matches nowhere, the leftmost match of the second decides. */
  lemma LineWidthAfter(sentence: string, k: nat, n: Number)
    requires forall j :: 0 <= j <= |sentence| ==> WidthBeforeAt(Lower(sentence), j).None?
    requires WidthAfterAt(Lower(sentence), k) == Some(n)
    requires forall j :: 0 <= j < k ==> WidthAfterAt(Lower(sentence), j).None?
    ensures WellFormedNumber(n) && LineWidth(sentence) == Some(PyNumber(n))
  {
    var s := Lower(sentence);
    LeftmostNone(j => WidthBeforeAt(s, j), |s| + 1);
    assert AnyAt(s, WidthKeywords, k);
    LeftmostIs(j => WidthAfterAt(s, j), |s| + 1, k);
  }

  lemma ClampedIsMin(x: real)
    requires x >= 0.0
    ensures (if Min(x, 1.0) > 0.0 then Min(x, 1.0) else 0.0) == Min(x, 1.0)
  {
  }

  /** There is a fill opacity exactly when `fill opacity` is followed by a number on its line. */
  lemma FillOpacityAbsent(sentence: string)
    ensures FillOpacity(sentence).None? <==> forall k: nat :: FillOpacityAt(Lower(sentence), k).None?
  {
    var s := Lower(sentence);
    var f := (k: nat) => FillOpacityAt(s, k);
    var m := Leftmost(f, 0, |s| + 1);
    assert FillOpacity(sentence).None? <==> m.None?;
    if m.None? {
      forall k: nat
        ensures FillOpacityAt(s, k).None?
      {
        if k <= |s| {
          assert f(k).None?;
        }
      }
    } else {
      assert f(m.value.0).Some?;
    }
  }

  /** Fill opacity is written only for area-like charts, once, under the chart's kind, in `[0, 1]`. */
  lemma FillOpacityOnlyAreaLike(sentence: string, chartType: Option<string>)
    ensures FillOpacityUpdates(sentence, chartType) != [] ==>
      chartType.Some? && chartType.value in AreaLike && |FillOpacityUpdates(sentence, chartType)| == 1
      && FillOpacityUpdates(sentence, chartType)[0].path == Dotted(["plotOptions", chartType.value, "fillOpacity"])
      && FillOpacityUpdates(sentence, chartType)[0].value.JFloat?
      && 0.0 <= FillOpacityUpdates(sentence, chartType)[0].value.r <= 1.0
  {
    FillOpacityInUnit(sentence);
  }

  /** Python's `re.fullmatch(r"\d+%", v)`. */
  predicate IsPercentage(v: string) {
    |v| >= 2 && v[|v| - 1] == '%' && IsDigits(v[..|v| - 1])
  }

  lemma LowerKeepsPercent(sentence: string, r: nat, q: nat)
    requires PercentSpan(Lower(sentence), r, q)
    ensures IsPercentage(sentence[r..q])
  {
    var v := sentence[r..q];
    assert forall j :: r <= j < q ==> Lower(sentence)[j] == LowerChar(sentence[j]);
    var w := v[..|v| - 1];
    assert forall j :: 0 <= j < |w| ==> w[j] == sentence[r + j];
  }

  /** `INNER_SIZE_RE` decides wherever it matches: the leftmost match's percentage, as written. */
  lemma InnerSizeFirst(sentence: string, k: nat, r: nat, q: nat)
    requires InnerSizeAt(Lower(sentence), k) == Some((r, q))
    requires forall j :: 0 <= j < k ==> InnerSizeAt(Lower(sentence), j).None?
    ensures InnerSize(sentence) == Some(sentence[r..q])
  {
    var s := Lower(sentence);
    var f := (k: nat) => InnerSizeAt(s, k);
    assert f(k).Some? && forall j :: 0 <= j < k ==> f(j).None?;
    assert OccursAt(s, "inner size", k);
    LeftmostIs(f, |s| + 1, k);
  }

  /** Without `inner size`, the leftmost `DONUT_SIZE_RE` match decides. */
  lemma DonutSizeNext(sentence: string, k: nat, r: nat, q: nat)
    requires forall j :: InnerSizeAt(Lower(sentence), j).None?
    requires DonutSizeAt(Lower(sentence), k) == Some((r, q))
    requires forall j :: 0 <= j < k ==> DonutSizeAt(Lower(sentence), j).None?
    ensures InnerSize(sentence) == Some(sentence[r..q])
  {
    var s := Lower(sentence);
    var f := (k: nat) => DonutSizeAt(s, k);
    assert f(k).Some? && forall j :: 0 <= j < k ==> f(j).None?;
    assert AnyAt(s, DonutWords, k);
    LeftmostIs(f, |s| + 1, k);
  }

  /** Without either pattern, a donut gets `60%` and any other sentence no inner size. */
  lemma InnerSizeDefault(sentence: string)
    requires forall j :: InnerSizeAt(Lower(sentence), j).None? && DonutSizeAt(Lower(sentence), j).None?
    ensures Contains(Lower(sentence), "donut") || Contains(Lower(sentence), "doughnut") ==> InnerSize(sentence) == Some("60%")
    ensures !(Contains(Lower(sentence), "donut") || Contains(Lower(sentence), "doughnut")) ==> InnerSize(sentence).None?
  {
  }

  /** The inner size is always a percentage: the one written in the sentence, or `60%` for a donut. */
  lemma InnerSizeIsPercentage(sentence: string)
    ensures InnerSize(sentence).Some? ==> IsPercentage(InnerSize(sentence).value)
  {
    forall r: nat, q: nat | PercentSpan(Lower(sentence), r, q)
      ensures IsPercentage(sentence[r..q])
    {
      LowerKeepsPercent(sentence, r, q);
    }
    assert "60%"[..2] == "60";
  }
}
