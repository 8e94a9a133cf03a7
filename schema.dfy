/**
 * The schema gate of chart_payloads.py: three tiers of editable-field
 * templates (global, per series, per chart kind), the set of index-free
 * patterns they allow for a chart type, `validate_update_path`, and
 * `build_editable_fields`, which lists the concrete paths a chart offers.
 *
 * A template path is held as its dot-separated segments; its text is the
 * segments joined with dots (`["title", "text"]` is `title.text`).
 */
module Schema {
  import opened Wrappers
  import opened Text
  import opened JsonTree
  import opened ChartErrors
  import opened PathGrammar
  import opened PathFacts

  /** A template: its path segments and the description shown beside it. */
  type Template = (seq<string>, string)

  /** `GLOBAL_FIELD_TEMPLATES`, in order. */
  const GlobalTemplates: seq<Template> := [
    (["title", "text"], "Chart title text"),
    (["title", "style", "color"], "Title font color"),
    (["subtitle", "text"], "Subtitle text"),
    (["subtitle", "style", "color"], "Subtitle font color"),
    (["chart", "backgroundColor"], "Chart background color"),
    (["xAxis", "title", "text"], "X-axis title"),
    (["xAxis", "labels", "style"], "X-axis label styles"),
    (["yAxis", "title", "text"], "Y-axis title"),
    (["yAxis", "labels", "style"], "Y-axis label styles"),
    (["legend"], "Legend configuration"),
    (["legend", "enabled"], "Toggle legend visibility"),
    (["plotOptions", "series", "dataLabels"], "Global data label options"),
    (["plotOptions", "series", "dataLabels", "enabled"], "Enable global data labels"),
    (["plotOptions", "series", "dataLabels", "style"], "Global data label style"),
    (["plotOptions", "series", "marker", "enabled"], "Global marker visibility")
  ]

  /**
   * `SERIES_FIELD_TEMPLATES`, in order, each held as the part after
   * `series[{index}].`: `format(index=i)` gives `series[i].` followed by it,
   * `replace("[{index}]", "[]")` gives `series[].` followed by it.
   */
  const SeriesTemplates: seq<Template> := [
    (["name"], "Series display name"),
    (["color"], "Series color"),
    (["dashStyle"], "Series line/dash style"),
    (["lineWidth"], "Series line width"),
    (["dataLabels", "enabled"], "Enable series data labels"),
    (["dataLabels", "format"], "Series data label format"),
    (["dataLabels", "style"], "Series data label style"),
    (["marker", "enabled"], "Series marker visibility"),
    (["marker", "symbol"], "Series marker symbol"),
    (["marker", "radius"], "Series marker radius")
  ]

  const ColumnTemplates: seq<Template> := [
    (["colorByPoint"], "Color each column by point"),
    (["dataLabels", "enabled"], "Enable column data labels"),
    (["dataLabels", "style", "fontSize"], "Column data label font size"),
    (["borderRadius"], "Column border radius")
  ]

  const BarTemplates: seq<Template> := [
    (["dataLabels", "enabled"], "Enable bar data labels"),
    (["dataLabels", "style", "fontSize"], "Bar data label font size"),
    (["borderRadius"], "Bar border radius")
  ]

  const AreaTemplates: seq<Template> := [
    (["fillOpacity"], "Area fill opacity"),
    (["marker", "enabled"], "Area marker visibility")
  ]

  const AreasplineTemplates: seq<Template> := [
    (["fillOpacity"], "Areaspline fill opacity"),
    (["marker", "enabled"], "Areaspline marker visibility")
  ]

  const LineTemplates: seq<Template> := [
    (["marker", "enabled"], "Line marker visibility")
  ]

  const SplineTemplates: seq<Template> := [
    (["marker", "enabled"], "Spline marker visibility")
  ]

  const PieTemplates: seq<Template> := [
    (["dataLabels", "enabled"], "Pie data label toggle"),
    (["dataLabels", "distance"], "Pie data label distance"),
    (["innerSize"], "Pie inner size (donut)"),
    (["showInLegend"], "Show pie slices in legend")
  ]

  const ScatterTemplates: seq<Template> := [
    (["marker", "symbol"], "Scatter marker symbol"),
    (["marker", "radius"], "Scatter marker radius"),
    (["marker", "fillColor"], "Scatter marker fill color")
  ]

  const BubbleTemplates: seq<Template> := [
    (["minSize"], "Bubble min size"),
    (["maxSize"], "Bubble max size")
  ]

  /** `CHART_TYPE_FIELD_TEMPLATES`: for each chart kind, its templates in order. */
  const KindTemplates: map<string, seq<Template>> := map[
    "column" := ColumnTemplates,
    "bar" := BarTemplates,
    "area" := AreaTemplates,
    "areaspline" := AreasplineTemplates,
    "line" := LineTemplates,
    "spline" := SplineTemplates,
    "pie" := PieTemplates,
    "scatter" := ScatterTemplates,
    "bubble" := BubbleTemplates
  ]

  /** The text of a global template path. */
  function TemplatePath(t: Template): string {
    Join(".", t.0)
  }

  /** The segments of a template of chart kind `kind`. */
  function KindSegs(kind: string, t: Template): seq<string> {
    ["plotOptions", kind] + t.0
  }

  /** The text of a template path of chart kind `kind`: `plotOptions.<kind>.` and the rest. */
  function KindPath(kind: string, t: Template): string {
    Join(".", KindSegs(kind, t))
  }

  /** The pattern of a series template. */
  function SeriesPattern(t: Template): string {
    "series[]." + Join(".", t.0)
  }

  /** The path of a series template for the series at position `i`. */
  function SeriesPath(i: nat, t: Template): string {
    IndexedPath("series", i, Join(".", t.0))
  }

  /** Whether `chart_type and chart_type in CHART_TYPE_FIELD_TEMPLATES` holds. */
  predicate KnownKind(chartType: Option<string>) {
    chartType.Some? && chartType.value in KindTemplates
  }

  function GlobalPatterns(): set<string> {
    set k | 0 <= k < |GlobalTemplates| :: TemplatePath(GlobalTemplates[k])
  }

  function SeriesPatterns(): set<string> {
    set k | 0 <= k < |SeriesTemplates| :: SeriesPattern(SeriesTemplates[k])
  }

  function KindPatterns(kind: string): set<string>
    requires kind in KindTemplates
  {
    set k | 0 <= k < |KindTemplates[kind]| :: KindPath(kind, KindTemplates[kind][k])
  }

  /** `_allowed_path_patterns_for_chart`: global and series patterns, and the kind's when it is known. */
  function AllowedPatterns(chartType: Option<string>): set<string> {
    GlobalPatterns() + SeriesPatterns() + (if KnownKind(chartType) then KindPatterns(chartType.value) else {})
  }

  /** `chart_type or 'generic'`, as the refusal names the chart type. */
  function ChartTypeLabel(chartType: Option<string>): string {
    if chartType.Some? && chartType.value != "" then chartType.value else "generic"
  }

  /** `validate_update_path`: the path's pattern must be among the allowed ones. */
  function ValidateUpdatePath(tokens: seq<Token>, chartType: Option<string>): (r: Result<(), PayloadError>)
    ensures r.Success? <==> Pattern(tokens) in AllowedPatterns(chartType)
    ensures r.Failure? ==> r.error == NotEditable(Pattern(tokens), ChartTypeLabel(chartType))
  {
    var pattern := Pattern(tokens);
    if pattern in AllowedPatterns(chartType) then Success(())
    else Failure(NotEditable(pattern, ChartTypeLabel(chartType)))
  }

  // ------------------------------------------------------------ the tables

  lemma GlobalSegmentsBelow()
    ensures forall k :: 0 <= k < 8 ==> DottedSegments(GlobalTemplates[k].0)
  {
  }

  lemma GlobalSegmentsFrom()
    ensures forall k :: 8 <= k < |GlobalTemplates| ==> DottedSegments(GlobalTemplates[k].0)
  {
  }

  lemma GlobalSegments()
    ensures forall k :: 0 <= k < |GlobalTemplates| ==> DottedSegments(GlobalTemplates[k].0)
  {
    GlobalSegmentsBelow();
    GlobalSegmentsFrom();
  }

  lemma SeriesSegments()
    ensures forall k :: 0 <= k < |SeriesTemplates| ==> DottedSegments(SeriesTemplates[k].0)
  {
  }

  lemma ColumnSegments()
    ensures forall k :: 0 <= k < |ColumnTemplates| ==> DottedSegments(ColumnTemplates[k].0)
  {
  }

  lemma BarSegments()
    ensures forall k :: 0 <= k < |BarTemplates| ==> DottedSegments(BarTemplates[k].0)
  {
  }

  lemma AreaSegments()
    ensures forall k :: 0 <= k < |AreaTemplates| ==> DottedSegments(AreaTemplates[k].0)
  {
  }

  lemma AreasplineSegments()
    ensures forall k :: 0 <= k < |AreasplineTemplates| ==> DottedSegments(AreasplineTemplates[k].0)
  {
  }

  lemma LineSegments()
    ensures forall k :: 0 <= k < |LineTemplates| ==> DottedSegments(LineTemplates[k].0)
  {
  }

  lemma SplineSegments()
    ensures forall k :: 0 <= k < |SplineTemplates| ==> DottedSegments(SplineTemplates[k].0)
  {
  }

  lemma PieSegments()
    ensures forall k :: 0 <= k < |PieTemplates| ==> DottedSegments(PieTemplates[k].0)
  {
  }

  lemma ScatterSegments()
    ensures forall k :: 0 <= k < |ScatterTemplates| ==> DottedSegments(ScatterTemplates[k].0)
  {
  }

  lemma BubbleSegments()
    ensures forall k :: 0 <= k < |BubbleTemplates| ==> DottedSegments(BubbleTemplates[k].0)
  {
  }

  lemma KindNames()
    ensures forall kind :: kind in KindTemplates ==> kind != [] && NoDelimiters(kind)
    ensures NoDelimiters("plotOptions")
  {
  }

  /** Every kind template, after `plotOptions.<kind>.`, is a dotted path. */
  lemma KindSegments()
    ensures forall kind, k :: kind in KindTemplates && 0 <= k < |KindTemplates[kind]| ==> DottedSegments(KindTemplates[kind][k].0)
  {
    ColumnSegments();
    BarSegments();
    AreaSegments();
    AreasplineSegments();
    LineSegments();
    SplineSegments();
    PieSegments();
    ScatterSegments();
    BubbleSegments();
  }

  /** No global template has a chart kind as its second segment. */
  lemma GlobalsAvoidKinds()
    ensures forall k :: 0 <= k < |GlobalTemplates| && |GlobalTemplates[k].0| >= 2 ==> GlobalTemplates[k].0[1] !in KindTemplates
  {
  }

  lemma SeriesHead()
    ensures NoDelimiters("series")
    ensures PlainDotted("series") && forall j :: 0 <= j < |"series"| ==> "series"[j] != '.'
    ensures "series" + "[]." == "series[]."
  {
  }

  lemma KindPathSegments(kind: string, k: nat)
    requires kind in KindTemplates && k < |KindTemplates[kind]|
    ensures DottedSegments(KindSegs(kind, KindTemplates[kind][k]))
    ensures KindSegs(kind, KindTemplates[kind][k])[1] == kind
  {
    KindNames();
    KindSegments();
    var segs := KindSegs(kind, KindTemplates[kind][k]);
    assert forall j :: 2 <= j < |segs| ==> segs[j] == KindTemplates[kind][k].0[j - 2];
  }

  // ------------------------------------------------------------ validation

  /** Every global template path tokenizes and is accepted for every chart type, known, unknown or absent. */
  lemma GlobalPathValidates(k: nat, chartType: Option<string>)
    requires k < |GlobalTemplates|
    ensures Tokenize(TemplatePath(GlobalTemplates[k])).Success?
    ensures ValidateUpdatePath(Tokenize(TemplatePath(GlobalTemplates[k])).value, chartType).Success?
  {
    GlobalSegments();
    TokenizeJoin(GlobalTemplates[k].0);
  }

  /** Every series template, at any position, tokenizes to the series pattern and is accepted for every chart type. */
  lemma SeriesPathValidates(i: nat, k: nat, chartType: Option<string>)
    requires k < |SeriesTemplates|
    ensures Tokenize(SeriesPath(i, SeriesTemplates[k])).Success?
    ensures Pattern(Tokenize(SeriesPath(i, SeriesTemplates[k])).value) == SeriesPattern(SeriesTemplates[k])
    ensures ValidateUpdatePath(Tokenize(SeriesPath(i, SeriesTemplates[k])).value, chartType).Success?
  {
    SeriesSegments();
    JoinTokens(SeriesTemplates[k].0);
    SeriesHead();
    IndexedPathPattern("series", i, Join(".", SeriesTemplates[k].0));
  }

  /** A chart-kind template path is accepted exactly for its own chart kind. */
  lemma KindPathValidatesIff(kind: string, k: nat, chartType: Option<string>)
    requires kind in KindTemplates && k < |KindTemplates[kind]|
    ensures Tokenize(KindPath(kind, KindTemplates[kind][k])).Success?
    ensures ValidateUpdatePath(Tokenize(KindPath(kind, KindTemplates[kind][k])).value, chartType).Success?
      <==> chartType == Some(kind)
  {
    var segs := KindSegs(kind, KindTemplates[kind][k]);
    KindPathSegments(kind, k);
    TokenizeJoin(segs);
    var p := Join(".", segs);
    GlobalSegments();
    GlobalsAvoidKinds();
    forall g | 0 <= g < |GlobalTemplates| ensures TemplatePath(GlobalTemplates[g]) != p {
      JoinInjectiveWhen(GlobalTemplates[g].0, segs);
    }
    if KnownKind(chartType) && p in KindPatterns(chartType.value) {
      var c := chartType.value;
      var j :| 0 <= j < |KindTemplates[c]| && KindPath(c, KindTemplates[c][j]) == p;
      KindPathSegments(c, j);
      JoinInjective(KindSegs(c, KindTemplates[c][j]), segs);
    }
  }

  lemma TitleTextText()
    ensures TemplatePath(GlobalTemplates[0]) == "title.text"
  {
    assert GlobalTemplates[0].0 == ["title", "text"];
    assert Join(".", ["title", "text"]) == "title" + "." + "text";
  }

  /** `title.text` is editable on an area chart. */
  lemma TitleTextAllowedForArea()
    ensures Tokenize("title.text").Success?
    ensures ValidateUpdatePath(Tokenize("title.text").value, Some("area")).Success?
  {
    TitleTextText();
    GlobalPathValidates(0, Some("area"));
  }

  lemma UnknownFieldPath()
    ensures IndexedPath("series", 0, "unknownField") == "series[0].unknownField"
    ensures "series" + "[]." + "unknownField" == "series[].unknownField"
  {
    assert NatToString(0) == "0";
  }

  lemma UnknownNotGlobal()
    ensures "series[].unknownField" !in GlobalPatterns()
  {
    var p := "series[].unknownField";
    assert |p| > 6 && p[6] == '[';
    GlobalSegments();
    forall g | 0 <= g < |GlobalTemplates| ensures TemplatePath(GlobalTemplates[g]) != p {
      if |TemplatePath(GlobalTemplates[g])| > 6 {
        JoinHasNoBracket(GlobalTemplates[g].0, 6);
      }
    }
  }

  lemma UnknownNotSeries()
    ensures "series[].unknownField" !in SeriesPatterns()
  {
    var p := "series[].unknownField";
    SeriesSegments();
    forall s | 0 <= s < |SeriesTemplates| ensures SeriesPattern(SeriesTemplates[s]) != p {
      JoinInjectiveWhen(SeriesTemplates[s].0, ["unknownField"]);
      assert SeriesPattern(SeriesTemplates[s])[9..] == Join(".", SeriesTemplates[s].0);
    }
  }

  lemma UnknownNotArea()
    ensures "series[].unknownField" !in KindPatterns("area")
  {
    var p := "series[].unknownField";
    assert |p| > 6 && p[6] == '[';
    forall j | 0 <= j < |KindTemplates["area"]| ensures KindPath("area", KindTemplates["area"][j]) != p {
      KindPathSegments("area", j);
      if |KindPath("area", KindTemplates["area"][j])| > 6 {
        JoinHasNoBracket(KindSegs("area", KindTemplates["area"][j]), 6);
      }
    }
  }

  /** `series[0].unknownField` is refused on an area chart, under its pattern `series[].unknownField`. */
  lemma UnknownSeriesFieldRejected()
    ensures Tokenize("series[0].unknownField").Success?
    ensures ValidateUpdatePath(Tokenize("series[0].unknownField").value, Some("area"))
      == Failure(NotEditable("series[].unknownField", "area"))
  {
    var suffix := "unknownField";
    assert PlainDotted(suffix) && DottedSegments([suffix]);
    SeriesHead();
    IndexedPathPattern("series", 0, suffix);
    UnknownFieldPath();
    UnknownNotGlobal();
    UnknownNotSeries();
    UnknownNotArea();
  }

  // ------------------------------------------------------------ editable fields

  /** One entry of `build_editable_fields`: `{"path": …, "description": …}`. */
  datatype EditableField = EditableField(path: string, description: string)

  /** `options.get("chart", {}).get("type")` when `chart` is a mapping; a type that is not a string counts as none. */
  function ChartTypeOf(options: Json): Option<string> {
    match MemberOr(options, "chart", JNull)
    case JObj(fs) => (match Lookup(fs, "type") case Some(JStr(s)) => Some(s) case _ => None)
    case _ => None
  }

  /** `options.get("series", [])` when it is a sequence, else `[]`. */
  function SeriesEntries(options: Json): seq<Json> {
    AsSequence(MemberOr(options, "series", JArr([]))).GetOr([])
  }

  function GlobalFields(): (fs: seq<EditableField>)
    ensures |fs| == |GlobalTemplates|
    ensures forall k :: 0 <= k < |fs| ==> fs[k] == EditableField(TemplatePath(GlobalTemplates[k]), GlobalTemplates[k].1)
  {
    seq(|GlobalTemplates|, k requires 0 <= k < |GlobalTemplates| => EditableField(TemplatePath(GlobalTemplates[k]), GlobalTemplates[k].1))
  }

  function KindFields(kind: string): (fs: seq<EditableField>)
    requires kind in KindTemplates
    ensures |fs| == |KindTemplates[kind]|
    ensures forall k :: 0 <= k < |fs| ==> fs[k] == EditableField(KindPath(kind, KindTemplates[kind][k]), KindTemplates[kind][k].1)
  {
    var rows := KindTemplates[kind];
    seq(|rows|, k requires 0 <= k < |rows| => EditableField(KindPath(kind, rows[k]), rows[k].1))
  }

  /** The series templates for the series at position `i`, in template order. */
  function SeriesFields(i: nat): (fs: seq<EditableField>)
    ensures |fs| == |SeriesTemplates|
    ensures forall k :: 0 <= k < |fs| ==> fs[k] == EditableField(SeriesPath(i, SeriesTemplates[k]), SeriesTemplates[k].1)
  {
    seq(|SeriesTemplates|, k requires 0 <= k < |SeriesTemplates| => EditableField(SeriesPath(i, SeriesTemplates[k]), SeriesTemplates[k].1))
  }

  /** The entries numbered from `start` that are mappings, each listed by `fields` at its position. */
  function Block(series: seq<Json>, start: nat, fields: nat -> seq<EditableField>): seq<EditableField>
    decreases |series|
  {
    if series == [] then []
    else (if series[0].JObj? then fields(start) else []) + Block(series[1..], start + 1, fields)
  }

  /** The series part of the list, for entries numbered from `start`: mappings only. */
  function SeriesBlock(series: seq<Json>, start: nat): seq<EditableField> {
    Block(series, start, SeriesFields)
  }

  /**
   * `build_editable_fields`: the global templates, then the chart kind's when
   * it is known, then every series template for each series that is a mapping.
   */
  function BuildEditableFields(options: Json): seq<EditableField> {
    var chartType := ChartTypeOf(options);
    GlobalFields()
    + (if KnownKind(chartType) then KindFields(chartType.value) else [])
    + SeriesBlock(SeriesEntries(options), 0)
  }

  /** Every entry that is a mapping has its fields in the block. */
  lemma {:induction false} BlockLists(series: seq<Json>, start: nat, fields: nat -> seq<EditableField>, i: nat, f: EditableField)
    requires start <= i < start + |series| && series[i - start].JObj? && f in fields(i)
    ensures f in Block(series, start, fields)
    decreases |series|
  {
    var head := if series[0].JObj? then fields(start) else [];
    if i != start {
      BlockLists(series[1..], start + 1, fields, i, f);
    }
    assert f in head + Block(series[1..], start + 1, fields);
  }

  /** Every field in the block comes from an entry that is a mapping. */
  lemma {:induction false} BlockOnly(series: seq<Json>, start: nat, fields: nat -> seq<EditableField>, f: EditableField)
    returns (i: nat)
    requires f in Block(series, start, fields)
    ensures start <= i < start + |series| && series[i - start].JObj? && f in fields(i)
    decreases |series|
  {
    if series[0].JObj? && f in fields(start) {
      i := start;
    } else {
      assert f in Block(series[1..], start + 1, fields);
      i := BlockOnly(series[1..], start + 1, fields, f);
      assert series[1..][i - (start + 1)] == series[i - start];
    }
  }

  /** Every series entry that is a mapping gets all its series templates, at its own position. */
  lemma SeriesBlockLists(series: seq<Json>, start: nat, i: nat, k: nat)
    requires start <= i < start + |series| && series[i - start].JObj? && k < |SeriesTemplates|
    ensures EditableField(SeriesPath(i, SeriesTemplates[k]), SeriesTemplates[k].1) in SeriesBlock(series, start)
  {
    var f := EditableField(SeriesPath(i, SeriesTemplates[k]), SeriesTemplates[k].1);
    assert SeriesFields(i)[k] == f;
    BlockLists(series, start, SeriesFields, i, f);
  }

  /** Every series entry listed comes from a series that is a mapping. */
  lemma SeriesBlockOnly(series: seq<Json>, start: nat, f: EditableField) returns (i: nat, k: nat)
    requires f in SeriesBlock(series, start)
    ensures start <= i < start + |series| && series[i - start].JObj? && k < |SeriesTemplates|
    ensures f == EditableField(SeriesPath(i, SeriesTemplates[k]), SeriesTemplates[k].1)
  {
    i := BlockOnly(series, start, SeriesFields, f);
    k :| 0 <= k < |SeriesTemplates| && SeriesFields(i)[k] == f;
  }

  /** Every path `build_editable_fields` lists passes `validate_update_path` for the same chart type. */
  lemma EditableFieldsValidate(options: Json, f: EditableField)
    requires f in BuildEditableFields(options)
    ensures Tokenize(f.path).Success?
    ensures ValidateUpdatePath(Tokenize(f.path).value, ChartTypeOf(options)).Success?
  {
    var chartType := ChartTypeOf(options);
    var kinds := if KnownKind(chartType) then KindFields(chartType.value) else [];
    if f in GlobalFields() {
      var k :| 0 <= k < |GlobalTemplates| && GlobalFields()[k] == f;
      GlobalPathValidates(k, chartType);
    } else if f in kinds {
      var k :| 0 <= k < |kinds| && kinds[k] == f;
      KindPathValidatesIff(chartType.value, k, chartType);
    } else {
      assert f in SeriesBlock(SeriesEntries(options), 0);
      var i, k := SeriesBlockOnly(SeriesEntries(options), 0, f);
      SeriesPathValidates(i, k, chartType);
    }
  }

  /** A series path is not a global template path. */
  lemma SeriesPathNotGlobal(i: nat, k: nat)
    requires k < |SeriesTemplates|
    ensures EditableField(SeriesPath(i, SeriesTemplates[k]), SeriesTemplates[k].1) !in GlobalFields()
  {
    var f := EditableField(SeriesPath(i, SeriesTemplates[k]), SeriesTemplates[k].1);
    SeriesPathShape(i, k);
    GlobalSegments();
    forall g | 0 <= g < |GlobalTemplates| ensures GlobalFields()[g] != f {
      if |TemplatePath(GlobalTemplates[g])| > 6 {
        JoinHasNoBracket(GlobalTemplates[g].0, 6);
      }
    }
  }

  /** A series path is not a chart-kind template path. */
  lemma SeriesPathNotKind(i: nat, k: nat, kind: string)
    requires k < |SeriesTemplates| && kind in KindTemplates
    ensures EditableField(SeriesPath(i, SeriesTemplates[k]), SeriesTemplates[k].1) !in KindFields(kind)
  {
    var f := EditableField(SeriesPath(i, SeriesTemplates[k]), SeriesTemplates[k].1);
    SeriesPathShape(i, k);
    forall j | 0 <= j < |KindFields(kind)| ensures KindFields(kind)[j] != f {
      KindPathSegments(kind, j);
      if |KindPath(kind, KindTemplates[kind][j])| > 6 {
        JoinHasNoBracket(KindSegs(kind, KindTemplates[kind][j]), 6);
      }
    }
  }

  /** A series entry that is a mapping has every series template listed. */
  lemma SeriesFieldsListed(options: Json, i: nat, k: nat)
    requires k < |SeriesTemplates| && i < |SeriesEntries(options)| && SeriesEntries(options)[i].JObj?
    ensures EditableField(SeriesPath(i, SeriesTemplates[k]), SeriesTemplates[k].1) in BuildEditableFields(options)
  {
    var series := SeriesEntries(options);
    var f := EditableField(SeriesPath(i, SeriesTemplates[k]), SeriesTemplates[k].1);
    SeriesBlockLists(series, 0, i, k);
    var chartType := ChartTypeOf(options);
    var kinds := if KnownKind(chartType) then KindFields(chartType.value) else [];
    assert BuildEditableFields(options) == GlobalFields() + kinds + SeriesBlock(series, 0);
  }

  /** A series template path is listed only for a series entry that is a mapping. */
  lemma SeriesFieldsOnly(options: Json, i: nat, k: nat)
    requires k < |SeriesTemplates|
    requires EditableField(SeriesPath(i, SeriesTemplates[k]), SeriesTemplates[k].1) in BuildEditableFields(options)
    ensures i < |SeriesEntries(options)| && SeriesEntries(options)[i].JObj?
  {
    var series := SeriesEntries(options);
    var f := EditableField(SeriesPath(i, SeriesTemplates[k]), SeriesTemplates[k].1);
    var chartType := ChartTypeOf(options);
    var kinds := if KnownKind(chartType) then KindFields(chartType.value) else [];
    assert BuildEditableFields(options) == GlobalFields() + kinds + SeriesBlock(series, 0);
    SeriesPathNotGlobal(i, k);
    if KnownKind(chartType) {
      SeriesPathNotKind(i, k, chartType.value);
    }
    assert f in SeriesBlock(series, 0);
    var i', k' := SeriesBlockOnly(series, 0, f);
    SeriesPathShape(i, k);
    SeriesPathShape(i', k');
    var p := SeriesPath(i, SeriesTemplates[k]);
    assert SeriesPath(i', SeriesTemplates[k']) == p;
    assert Index(i') == Tokenize(p).value[1] == Index(i);
    assert series[i' - 0] == series[i];
  }

  /** The series templates are listed for exactly the series entries that are mappings. */
  lemma EditableSeriesFields(options: Json, i: nat, k: nat)
    requires k < |SeriesTemplates|
    ensures EditableField(SeriesPath(i, SeriesTemplates[k]), SeriesTemplates[k].1) in BuildEditableFields(options)
      <==> i < |SeriesEntries(options)| && SeriesEntries(options)[i].JObj?
  {
    if i < |SeriesEntries(options)| && SeriesEntries(options)[i].JObj? {
      SeriesFieldsListed(options, i, k);
    }
    if EditableField(SeriesPath(i, SeriesTemplates[k]), SeriesTemplates[k].1) in BuildEditableFields(options) {
      SeriesFieldsOnly(options, i, k);
    }
  }

  /** A series path reads `series[i]…`: its second token is the position `i`. */
  lemma SeriesPathShape(i: nat, k: nat)
    requires k < |SeriesTemplates|
    ensures Tokenize(SeriesPath(i, SeriesTemplates[k])).Success?
    ensures |Tokenize(SeriesPath(i, SeriesTemplates[k])).value| >= 2
    ensures Tokenize(SeriesPath(i, SeriesTemplates[k])).value[1] == Index(i)
    ensures |SeriesPath(i, SeriesTemplates[k])| > 6 && SeriesPath(i, SeriesTemplates[k])[6] == '['
  {
    SeriesSegments();
    JoinTokens(SeriesTemplates[k].0);
    SeriesHead();
    IndexedPathTokens("series", i, Join(".", SeriesTemplates[k].0));
  }

  /** The templates of a chart kind are listed exactly when the document is a chart of that kind. */
  lemma EditableKindFields(options: Json, kind: string, k: nat)
    requires kind in KindTemplates && k < |KindTemplates[kind]|
    ensures EditableField(KindPath(kind, KindTemplates[kind][k]), KindTemplates[kind][k].1) in BuildEditableFields(options)
      <==> ChartTypeOf(options) == Some(kind)
  {
    var f := EditableField(KindPath(kind, KindTemplates[kind][k]), KindTemplates[kind][k].1);
    if ChartTypeOf(options) == Some(kind) {
      assert KindFields(kind)[k] == f;
      assert f in GlobalFields() + KindFields(kind) + SeriesBlock(SeriesEntries(options), 0);
    }
    if f in BuildEditableFields(options) {
      EditableFieldsValidate(options, f);
      KindPathValidatesIff(kind, k, ChartTypeOf(options));
    }
  }

  lemma ColorPathExample()
    ensures SeriesPath(0, SeriesTemplates[1]) == "series[0].color"
  {
    assert NatToString(0) == "0";
    assert Join(".", SeriesTemplates[1].0) == "color";
  }

  lemma DashPathExample()
    ensures SeriesPath(1, SeriesTemplates[2]) == "series[1].dashStyle"
  {
    assert NatToString(1) == "1";
    assert Join(".", SeriesTemplates[2].0) == "dashStyle";
  }

  lemma FillPathExample()
    ensures KindPath("area", KindTemplates["area"][0]) == "plotOptions.area.fillOpacity"
  {
    var segs := KindSegs("area", KindTemplates["area"][0]);
    assert segs == ["plotOptions", "area", "fillOpacity"];
    assert segs[1..] == ["area", "fillOpacity"] && segs[1..][1..] == ["fillOpacity"];
    assert Join(".", ["fillOpacity"]) == "fillOpacity";
    assert Join(".", ["area", "fillOpacity"]) == "area" + "." + "fillOpacity";
    assert Join(".", segs) == "plotOptions" + "." + ("area" + "." + "fillOpacity");
  }

  /** An area chart with two mapping series offers `series[0].color`, `series[1].dashStyle` and `plotOptions.area.fillOpacity`. */
  lemma EditableFieldsExample()
    ensures var options := JObj([
        ("chart", JObj([("type", JStr("area"))])),
        ("series", JArr([JObj([("name", JStr("A"))]), JObj([("name", JStr("B"))])]))]);
      var paths := set f | f in BuildEditableFields(options) :: f.path;
      "series[0].color" in paths && "series[1].dashStyle" in paths && "plotOptions.area.fillOpacity" in paths
  {
    var options := JObj([
        ("chart", JObj([("type", JStr("area"))])),
        ("series", JArr([JObj([("name", JStr("A"))]), JObj([("name", JStr("B"))])]))]);
    assert ChartTypeOf(options) == Some("area");
    assert SeriesEntries(options) == [JObj([("name", JStr("A"))]), JObj([("name", JStr("B"))])];
    EditableSeriesFields(options, 0, 1);
    EditableSeriesFields(options, 1, 2);
    EditableKindFields(options, "area", 0);
    ColorPathExample();
    DashPathExample();
    FillPathExample();
  }
}
