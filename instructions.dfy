/**
 * The rule-based instruction translator of chart_instruction_parser.py:
 * plain-language instructions are cut into sentences, and each sentence is
 * searched, rule by rule, for colours, dash styles, widths, on/off phrases,
 * marker settings, fill opacity and donut sizes, each becoming an update of
 * one options path.
 *
 * Text matching is ASCII: `lower()`, `upper()`, case-insensitive matching
 * and regex `\w` and `\d` are read on ASCII letters and digits.
 */
module Instructions {
  import opened Wrappers
  import opened Text
  import opened JsonTree
  import opened Scanners
  import PathFacts
  import Schema

  /** An update record `{"path": ..., "value": ...}` as the translator emits it. */
  datatype Update = Update(path: string, value: Json)

  // ------------------------------------------------------------ tables

  /** `COLOR_NAME_MAP`, in order. */
  const ColorNames: seq<(string, string)> := [
    ("red", "#FF0000"), ("blue", "#1F77B4"), ("green", "#2CA02C"), ("orange", "#FF7F0E"),
    ("purple", "#9467BD"), ("yellow", "#F2C200"), ("black", "#000000"), ("white", "#FFFFFF"),
    ("gray", "#808080"), ("grey", "#808080"), ("pink", "#E377C2"), ("teal", "#17BECF")
  ]

  /** `DASH_KEYWORDS`, in order. */
  const DashKeywords: seq<(string, string)> := [
    ("short dash dot", "ShortDashDot"), ("short dash", "ShortDash"), ("long dash", "LongDash"),
    ("dashdot", "DashDot"), ("dash-dot", "DashDot"), ("dotted", "Dot"), ("dot", "Dot"),
    ("dashed", "Dash"), ("dash", "Dash"), ("solid", "Solid")
  ]

  /** The ordinal words of `ORDINAL_SERIES_RE`; `ORDINAL_WORD_MAP` maps each to its position here. */
  const OrdinalWords: seq<string> := ["first", "second", "third", "fourth", "fifth", "sixth", "seventh", "eighth", "ninth", "tenth"]

  /** The nouns an ordinal may qualify in `ORDINAL_SERIES_RE`. */
  const OrdinalNouns: seq<string> := ["series", "line", "bar", "column", "area"]

  const PositivePhrases: seq<string> := ["enable", "turn on", "turn it on", "show", "display", "activate", "add", "use"]

  const NegativePhrases: seq<string> := ["disable", "turn off", "turn it off", "hide", "remove", "deactivate", "suppress"]

  const WidthKeywords: seq<string> := ["line width", "linewidth", "thickness", "stroke"]

  const RadiusKeywords: seq<string> := ["radius", "size"]

  const DonutWords: seq<string> := ["donut", "doughnut"]

  /** `MARKER_SYMBOL_MAP`, in order. */
  const MarkerSymbols: seq<(string, string)> := [
    ("circle", "circle"), ("square", "square"), ("diamond", "diamond"), ("triangle", "triangle"),
    ("triangle-down", "triangle-down"), ("triangle down", "triangle-down")
  ]

  /** `AREA_LIKE_TYPES`. */
  const AreaLike: set<string> := {"area", "areaspline"}

  /** What `re.split(r"[.;\n]+", ...)` cuts at. */
  const SentenceBreaks: set<char> := {'.', ';', '\n'}

  /** Python's truthiness of a `str | None`. */
  predicate Present(o: Option<string>) {
    o.Some? && o.value != ""
  }

  // ------------------------------------------------------------ colour

  predicate IsHexDigit(c: char) {
    IsDigit(c) || ('a' <= c <= 'f') || ('A' <= c <= 'F')
  }

  /**
   * `HEX_COLOR_RE` at `k`: `#` and three hex digits. The three-digit
   * alternative is tried first, and every six-digit match begins with one, so
   * the match never takes six.
   */
  function HexAt(s: string, k: nat): (r: Option<nat>)
    ensures r.Some? ==> r.value == k + 4 <= |s|
  {
    if k + 4 <= |s| && s[k] == '#' && IsHexDigit(s[k + 1]) && IsHexDigit(s[k + 2]) && IsHexDigit(s[k + 3])
    then Some(k + 4) else None
  }

  /** Character `c` at `k`: the position after it. */
  function CharAt(s: string, c: char, k: nat): (r: Option<nat>)
    ensures r.Some? ==> r.value == k + 1 <= |s|
  {
    if k < |s| && s[k] == c then Some(k + 1) else None
  }

  /** `\s*\d+\s*` from `k`: where it ends, when there is at least one digit. */
  function SpacedDigits(s: string, k: nat): (r: Option<nat>)
    requires k <= |s|
    ensures r.Some? ==> k < r.value <= |s|
  {
    var a := Spaces(s, k);
    var b := DigitsEnd(s, a);
    if b == a then None else Some(Spaces(s, b))
  }

  /** `RGB_COLOR_RE` at `k`, on lower-cased text: `rgb(`, three numbers separated by commas, `)`; spaces allowed between. */
  function RgbAt(s: string, k: nat): (r: Option<nat>)
    ensures r.Some? ==> k < r.value <= |s|
  {
    if !OccursAt(s, "rgb", k) then None
    else match CharAt(s, '(', Spaces(s, k + 3))
      case None => None
      case Some(a) => match SpacedDigits(s, a)
        case None => None
        case Some(b) => match CharAt(s, ',', b)
          case None => None
          case Some(c) => match SpacedDigits(s, c)
            case None => None
            case Some(d) => match CharAt(s, ',', d)
              case None => None
              case Some(e) => match SpacedDigits(s, e)
                case None => None
                case Some(f) => CharAt(s, ')', f)
  }

  /** `HEX_COLOR_RE.search`: the leftmost hex colour, as a span. */
  function FirstHex(sentence: string): (r: Option<(nat, nat)>)
    ensures r.Some? ==> HexAt(sentence, r.value.0) == Some(r.value.1)
    ensures r.Some? ==> forall j :: 0 <= j < r.value.0 ==> HexAt(sentence, j).None?
    ensures r.None? ==> forall j :: 0 <= j <= |sentence| ==> HexAt(sentence, j).None?
  {
    var f := (k: nat) => HexAt(sentence, k);
    assert forall j: nat :: f(j) == HexAt(sentence, j);
    Leftmost(f, 0, |sentence| + 1)
  }

  /**
   * `_extract_color`: the leftmost hex colour, upper-cased; else the leftmost
   * `rgb(...)`, as written; else the colour of the first name of
   * `COLOR_NAME_MAP` that occurs in `lowered` as a whole word.
   */
  function ExtractColor(sentence: string, lowered: string): Option<string> {
    match FirstHex(sentence)
    case Some((k, e)) => Some(Upper(sentence[k..e]))
    case None =>
      var folded := Lower(sentence);
      match Leftmost(k => RgbAt(folded, k), 0, |sentence| + 1)
      case Some((k, e)) => Some(sentence[k..e])
      case None =>
        match FirstWord(lowered, ColorNames)
        case Some(i) => Some(ColorNames[i].1)
        case None => None
  }

  /** `_extract_dash_style`: the style of the first `DASH_KEYWORDS` entry that occurs. */
  function DashStyle(lowered: string): Option<string> {
    match FirstContained(lowered, DashKeywords)
    case Some(i) => Some(DashKeywords[i].1)
    case None => None
  }

  // ------------------------------------------------------------ numbers

  /** `float(text)`, then `int()` when the value is whole. */
  function PyNumber(n: Number): (j: Json)
    requires WellFormedNumber(n)
    ensures j.JInt? ==> j.i >= 0 && j.i as real == NumberValue(n)
    ensures j.JFloat? ==> j.r == NumberValue(n) && j.r.Floor as real != j.r
    ensures j.JInt? || j.JFloat?
    ensures n.fraction == "" ==> j == JInt(DecimalValue(n.whole))
  {
    var v := NumberValue(n);
    WholeNumberValue(n);
    if v.Floor as real == v then JInt(v.Floor) else JFloat(v)
  }

  /** The first pattern of `LINE_WIDTH_PATTERNS` at `k`: a number, `px` or `pt` if there, then a width keyword. */
  function WidthBeforeAt(s: string, k: nat): (r: Option<Number>)
    ensures r.Some? ==> WellFormedNumber(r.value)
    ensures r.Some? && r.value.fraction != "" ==> HasPoint(s)
  {
    match NumberAt(s, k)
    case None => None
    case Some((n, e)) =>
      var a := Spaces(s, e);
      var b := if OccursAt(s, "px", a) || OccursAt(s, "pt", a) then a + 2 else a;
      if AnyAt(s, WidthKeywords, Spaces(s, b)) then Some(n) else None
  }

  /** The second pattern of `LINE_WIDTH_PATTERNS` at `k`: a width keyword, `of` or `to` if there, then a number. */
  function WidthAfterAt(s: string, k: nat): (r: Option<Number>)
    ensures r.Some? ==> WellFormedNumber(r.value)
    ensures r.Some? && r.value.fraction != "" ==> HasPoint(s)
  {
    match AlternativeEnd(s, WidthKeywords, k)
    case None => None
    case Some(e) =>
      var a := Spaces(s, e);
      var b := if OccursAt(s, "of", a) || OccursAt(s, "to", a) then a + 2 else a;
      match NumberAt(s, Spaces(s, b))
      case None => None
      case Some((n, _)) => Some(n)
  }

  /** `_extract_line_width`: the number of the first pattern that matches (both are case-insensitive). */
  function LineWidth(sentence: string): Option<Json> {
    var s := Lower(sentence);
    match Leftmost(k => WidthBeforeAt(s, k), 0, |s| + 1)
    case Some((_, n)) => Some(PyNumber(n))
    case None =>
      match Leftmost(k => WidthAfterAt(s, k), 0, |s| + 1)
      case Some((_, n)) => Some(PyNumber(n))
      case None => None
  }

  /** `.*?(\d+(?:\.\d+)?)` from `e`: the number `n` starts at `p`, the first digit on the line. */
  predicate FirstNumberOnLine(s: string, e: nat, p: nat, n: Number) {
    && e <= p <= |s| && p <= LineEnd(s, e)
    && (forall j :: e <= j < p ==> !IsDigit(s[j]))
    && NumberAt(s, p).Some? && NumberAt(s, p).value.0 == n
  }

  /**
   * `.*?(\d+(?:\.\d+)?)` from `e`: the first digit on the line, the number
   * there and where it ends. What it finds is stated by `LazyNumberFinds`.
   */
  function LazyNumber(s: string, e: nat): Option<(nat, (Number, nat))>
    requires e <= |s|
    decreases |s| - e
  {
    if e == |s| || s[e] == '\n' then None
    else if IsDigit(s[e]) then Some((e, NumberAt(s, e).value))
    else LazyNumber(s, e + 1)
  }

  /** The lazy `.*?` stops at the first digit on the line, where the number is read greedily; with no digit there is no match. */
  lemma {:induction false} LazyNumberFinds(s: string, e: nat)
    requires e <= |s|
    ensures LazyNumber(s, e).Some? ==>
      var r := LazyNumber(s, e).value;
      FirstNumberOnLine(s, e, r.0, r.1.0) && NumberAt(s, r.0) == Some(r.1)
    ensures LazyNumber(s, e).None? ==> forall j :: e <= j < LineEnd(s, e) ==> !IsDigit(s[j])
    decreases |s| - e
  {
    if e < |s| && s[e] != '\n' {
      assert LineEnd(s, e) == LineEnd(s, e + 1);
      if !IsDigit(s[e]) {
        LazyNumberFinds(s, e + 1);
      }
    }
  }


  /** `RADIUS_RE` at `k`: a number, `px` if there, then `radius` or `size`. */
  function RadiusBeforeAt(s: string, k: nat): (r: Option<Number>)
    ensures r.Some? ==> WellFormedNumber(r.value)
    ensures r.Some? && r.value.fraction != "" ==> HasPoint(s)
  {
    match NumberAt(s, k)
    case None => None
    case Some((n, e)) =>
      var a := Spaces(s, e);
      var b := if OccursAt(s, "px", a) then a + 2 else a;
      if AnyAt(s, RadiusKeywords, Spaces(s, b)) then Some(n) else None
  }

  /** `RADIUS_AFTER_RE` at `k`: `radius` or `size`, then lazily the first number on the line. */
  function RadiusAfterAt(s: string, k: nat): (r: Option<Number>)
    ensures r.Some? ==> WellFormedNumber(r.value)
    ensures r.Some? && r.value.fraction != "" ==> HasPoint(s)
    ensures r.Some? ==> AnyAt(s, RadiusKeywords, k)
    ensures r.Some? ==> exists p :: FirstNumberOnLine(s, AlternativeEnd(s, RadiusKeywords, k).value, p, r.value)
    ensures r.None? && AnyAt(s, RadiusKeywords, k) ==>
      var e := AlternativeEnd(s, RadiusKeywords, k).value;
      forall j :: e <= j < LineEnd(s, e) ==> !IsDigit(s[j])
  {
    match AlternativeEnd(s, RadiusKeywords, k)
    case None => None
    case Some(e) =>
      LazyNumberFinds(s, e);
      match LazyNumber(s, e)
      case None => None
      case Some((p, (n, _))) => Some(n)
  }

  /** `_extract_marker_radius`: `RADIUS_RE`, else `RADIUS_AFTER_RE` (both case-insensitive). */
  function MarkerRadius(sentence: string): Option<Json> {
    var s := Lower(sentence);
    match Leftmost(k => RadiusBeforeAt(s, k), 0, |s| + 1)
    case Some((_, n)) => Some(PyNumber(n))
    case None =>
      match Leftmost(k => RadiusAfterAt(s, k), 0, |s| + 1)
      case Some((_, n)) => Some(PyNumber(n))
      case None => None
  }

  /** `FILL_OPACITY_RE` at `k`: `fill opacity`, then lazily the first number on the line, and whether `%` follows it. */
  function FillOpacityAt(s: string, k: nat): (r: Option<(Number, bool)>)
    ensures r.Some? ==> WellFormedNumber(r.value.0)
    ensures r.Some? && r.value.0.fraction != "" ==> HasPoint(s)
    ensures r.Some? ==> OccursAt(s, "fill opacity", k)
    ensures r.Some? ==> exists p :: FillOpacityNumber(s, k, p, r.value.0, r.value.1)
    ensures r.None? && OccursAt(s, "fill opacity", k) ==> forall j :: k + 12 <= j < LineEnd(s, k + 12) ==> !IsDigit(s[j])
  {
    if !OccursAt(s, "fill opacity", k) then None
    else
      LazyNumberFinds(s, k + 12);
      match LazyNumber(s, k + 12)
      case None => None
      case Some((p, (n, f))) =>
        assert FillOpacityNumber(s, k, p, n, f < |s| && s[f] == '%');
        Some((n, f < |s| && s[f] == '%'))
  }

  /**
   * After `fill opacity` at `k`, the number `n` starts at `p`, the first digit
   * on the line, and `percent` says whether `%` follows it.
   */
  predicate FillOpacityNumber(s: string, k: nat, p: nat, n: Number, percent: bool) {
    && FirstNumberOnLine(s, k + 12, p, n)
    && (percent <==> NumberAt(s, p).value.1 < |s| && s[NumberAt(s, p).value.1] == '%')
  }

  /** `_extract_fill_opacity`: the number, divided by 100 when it is a percentage, clamped to `[0, 1]`. */
  function FillOpacity(sentence: string): Option<Json> {
    var s := Lower(sentence);
    match Leftmost(k => FillOpacityAt(s, k), 0, |s| + 1)
    case None => None
    case Some((_, (n, percent))) =>
      var numeric := if percent then NumberValue(n) / 100.0 else NumberValue(n);
      var capped := if numeric < 1.0 then numeric else 1.0;
      Some(JFloat(if capped > 0.0 then capped else 0.0))
  }

  /** `s[r..q]` is `\d+%`. */
  predicate PercentSpan(s: string, r: nat, q: nat) {
    r + 1 < q <= |s| && s[q - 1] == '%' && forall j :: r <= j < q - 1 ==> IsDigit(s[j])
  }

  /** `\d+%` at `r`: where the percentage ends. */
  function PercentAt(s: string, r: nat): (o: Option<nat>)
    ensures o.Some? ==> PercentSpan(s, r, o.value)
  {
    if r < |s| && IsDigit(s[r]) then
      var q := DigitsEnd(s, r);
      if q < |s| && s[q] == '%' then Some(q + 1) else None
    else None
  }

  /** `.*?(\d+%)` from `e`: the lazily first percentage on the line, as a span. */
  function LazyPercent(s: string, e: nat): (o: Option<(nat, nat)>)
    requires e <= |s|
    ensures o.Some? ==> PercentSpan(s, o.value.0, o.value.1)
    ensures o.Some? ==> e <= o.value.0 <= LineEnd(s, e) && PercentAt(s, o.value.0) == Some(o.value.1)
    ensures o.Some? ==> forall r :: e <= r < o.value.0 ==> PercentAt(s, r).None?
    ensures o.None? ==> forall r :: e <= r <= LineEnd(s, e) ==> PercentAt(s, r).None?
  {
    var scan := (r: nat) => PercentAt(s, r);
    var m := Leftmost(scan, e, LineEnd(s, e) + 1);
    assert forall r: nat :: scan(r) == PercentAt(s, r);
    m
  }

  /** `INNER_SIZE_RE` at `k`. */
  function InnerSizeAt(s: string, k: nat): (o: Option<(nat, nat)>)
    ensures o.Some? ==> PercentSpan(s, o.value.0, o.value.1)
  {
    if OccursAt(s, "inner size", k) then LazyPercent(s, k + 10) else None
  }

  /** `DONUT_SIZE_RE` at `k`. */
  function DonutSizeAt(s: string, k: nat): (o: Option<(nat, nat)>)
    ensures o.Some? ==> PercentSpan(s, o.value.0, o.value.1)
  {
    match AlternativeEnd(s, DonutWords, k)
    case None => None
    case Some(e) => LazyPercent(s, e)
  }

  /** `_extract_inner_size`: after `inner size`, else after `donut`/`doughnut`, else `60%` for a donut. */
  function InnerSize(sentence: string): Option<string> {
    var s := Lower(sentence);
    match Leftmost(k => InnerSizeAt(s, k), 0, |s| + 1)
    case Some((_, (r, q))) => Some(sentence[r..q])
    case None =>
      match Leftmost(k => DonutSizeAt(s, k), 0, |s| + 1)
      case Some((_, (r, q))) => Some(sentence[r..q])
      case None => if Contains(s, "donut") || Contains(s, "doughnut") then Some("60%") else None
  }

  /** `_detect_boolean`: any negative phrase gives false, before the positive ones are looked at. */
  function DetectBoolean(lowered: string): Option<bool> {
    if ContainsAny(lowered, NegativePhrases) then Some(false)
    else if ContainsAny(lowered, PositivePhrases) then Some(true)
    else None
  }

  /** `_extract_marker_symbol`: the symbol of the first `MARKER_SYMBOL_MAP` key that occurs. */
  function MarkerSymbol(lowered: string): Option<string> {
    match FirstContained(lowered, MarkerSymbols)
    case Some(i) => Some(MarkerSymbols[i].1)
    case None => None
  }

  /** `_mentions_all_series`. */
  predicate MentionsAllSeries(s: string) {
    Contains(s, "all series") || Contains(s, "every series")
  }

  /** The segments of `_marker_enabled_path`'s path (it always returns one). */
  function MarkerEnabledSegments(chartType: Option<string>): seq<string> {
    if chartType.None? || chartType.value == "" then ["plotOptions", "series", "marker", "enabled"]
    else if chartType.value in {"line", "area", "spline", "areaspline"} then ["plotOptions", chartType.value, "marker", "enabled"]
    else if chartType.value == "scatter" then ["plotOptions", "scatter", "marker", "enabled"]
    else ["plotOptions", "series", "marker", "enabled"]
  }

  // ------------------------------------------------------------ series targets

  /**
   * `series\s+(\d+)` matches at `k` with its digits at `[a, b)`. The digits are
   * taken greedily, and the spaces cannot give any back, since a digit is not
   * a space.
   */
  predicate SeriesNumberSpan(s: string, k: nat, a: nat, b: nat) {
    && OccursAt(s, "series", k) && k + 6 < a < b <= |s|
    && (forall j :: k + 6 <= j < a ==> IsSpace(s[j]))
    && (forall j :: a <= j < b ==> IsDigit(s[j]))
    && (b == |s| || !IsDigit(s[b]))
  }

  /** `SERIES_NUMBER_RE` at `k`: the value of its digits, when it matches there. */
  function SeriesNumberAt(s: string, k: nat): (r: Option<nat>)
    ensures r.Some? ==> exists a: nat, b: nat :: SeriesNumberSpan(s, k, a, b) && r.value == DecimalValue(s[a..b])
    ensures forall a: nat, b: nat :: SeriesNumberSpan(s, k, a, b) ==> r == Some(DecimalValue(s[a..b]))
  {
    if !OccursAt(s, "series", k) then None
    else
      var a := Spaces(s, k + 6);
      var b := DigitsEnd(s, a);
      SeriesNumberSpanIs(s, k);
      if a == k + 6 || b == a then None
      else
        assert SeriesNumberSpan(s, k, a, b);
        Some(DecimalValue(s[a..b]))
  }

  /** The spaces and digits of a `SERIES_NUMBER_RE` match are the longest runs there. */
  lemma SeriesNumberSpanIs(s: string, k: nat)
    requires OccursAt(s, "series", k)
    ensures forall a: nat, b: nat :: SeriesNumberSpan(s, k, a, b) ==> a == Spaces(s, k + 6) && b == DigitsEnd(s, a)
  {
    forall a: nat, b: nat | SeriesNumberSpan(s, k, a, b)
      ensures a == Spaces(s, k + 6) && b == DigitsEnd(s, a)
    {
      assert !IsSpace(s[a]);
    }
  }

  /** One of the nouns of `ORDINAL_SERIES_RE` occurs at `a` and ends a word there. */
  predicate OrdinalNounAt(s: string, a: nat) {
    exists n: nat | n < |OrdinalNouns| ::
      OccursAt(s, OrdinalNouns[n], a) && (a + |OrdinalNouns[n]| == |s| || !IsWordChar(s[a + |OrdinalNouns[n]|]))
  }

  /**
   * `\s+(series|line|bar|column|area)\b` from `e`: at least one space, then a
   * noun that ends a word. Every noun starts with a letter, so the noun
   * starts where the run of spaces ends.
   */
  predicate OrdinalNounAfter(s: string, e: nat) {
    e <= |s| && Spaces(s, e) > e && OrdinalNounAt(s, Spaces(s, e))
  }

  /** `ORDINAL_SERIES_RE` matches at `k` with the ordinal word `OrdinalWords[w]`, which starts a word. */
  predicate OrdinalMatch(s: string, k: nat, w: nat) {
    && w < |OrdinalWords| && OccursAt(s, OrdinalWords[w], k)
    && (k == 0 || !IsWordChar(s[k - 1]))
    && OrdinalNounAfter(s, k + |OrdinalWords[w]|)
  }

  /** `ORDINAL_SERIES_RE` at `k`: the alternatives are tried in order, so the first ordinal word with which the match succeeds. */
  function OrdinalAt(s: string, k: nat): (r: Option<nat>)
    ensures r.Some? ==> OrdinalMatch(s, k, r.value)
    ensures r.Some? ==> forall w :: 0 <= w < r.value ==> !OrdinalMatch(s, k, w)
    ensures r.None? ==> forall w :: 0 <= w < |OrdinalWords| ==> !OrdinalMatch(s, k, w)
  {
    OrdinalFrom(s, k, 0)
  }

  /** The first ordinal word from `OrdinalWords[w]` on with which `ORDINAL_SERIES_RE` matches at `k`. */
  function OrdinalFrom(s: string, k: nat, w: nat): (r: Option<nat>)
    ensures r.Some? ==> w <= r.value && OrdinalMatch(s, k, r.value)
    ensures r.Some? ==> forall v :: w <= v < r.value ==> !OrdinalMatch(s, k, v)
    ensures r.None? ==> forall v :: w <= v < |OrdinalWords| ==> !OrdinalMatch(s, k, v)
    decreases |OrdinalWords| - w
  {
    if w >= |OrdinalWords| then None
    else if OrdinalMatch(s, k, w) then Some(w)
    else OrdinalFrom(s, k, w + 1)
  }

  /** `str(serie.get("name", ""))` for a mapping series, else empty. */
  function SeriesName(serie: Json): string {
    if IsMapping(serie) then PyStr(MemberOr(serie, "name", JStr(""))).GetOr("") else ""
  }

  /** The name of each series, in order. */
  function SeriesNames(series: seq<Json>): (names: seq<string>)
    ensures |names| == |series| && forall j :: 0 <= j < |series| ==> names[j] == SeriesName(series[j])
  {
    seq(|series|, j requires 0 <= j < |series| => SeriesName(series[j]))
  }

  /** `name and name.lower() in lowered`. */
  predicate NameOccurs(s: string, name: string) {
    name != "" && Contains(s, Lower(name))
  }

  /** The series has a non-empty name that occurs, lower-cased, in `s`. */
  predicate Named(s: string, serie: Json) {
    NameOccurs(s, SeriesName(serie))
  }

  /** The first name from position `i` that occurs, lower-cased, in `s`. */
  function NamedFrom(s: string, names: seq<string>, i: nat): Option<nat>
    decreases |names| - i
  {
    if i >= |names| then None
    else if NameOccurs(s, names[i]) then Some(i)
    else NamedFrom(s, names, i + 1)
  }

  /** The name `NamedFrom` picks occurs, and none between `i` and it does; with none picked, none from `i` on occurs. */
  lemma {:induction false} NamedFromReads(s: string, names: seq<string>, i: nat)
    ensures NamedFrom(s, names, i).Some? ==>
      var r := NamedFrom(s, names, i).value;
      i <= r < |names| && NameOccurs(s, names[r]) && forall j :: i <= j < r ==> !NameOccurs(s, names[j])
    ensures NamedFrom(s, names, i).None? ==> forall j :: i <= j < |names| ==> !NameOccurs(s, names[j])
    decreases |names| - i
  {
    if i < |names| && !NameOccurs(s, names[i]) {
      NamedFromReads(s, names, i + 1);
    }
  }

  function AllIndices(n: nat): (r: seq<nat>)
    ensures |r| == n && forall i :: 0 <= i < n ==> r[i] == i
  {
    seq(n, i requires 0 <= i < n => i)
  }

  /** `SERIES_NUMBER_RE.search` from `k`: the leftmost position with a `series N` phrase, and `N`. */
  function SeriesNumberSearch(s: string, k: nat): Option<(nat, nat)>
    decreases |s| + 1 - k
  {
    if k > |s| then None
    else match SeriesNumberAt(s, k)
      case Some(n) => Some((k, n))
      case None => SeriesNumberSearch(s, k + 1)
  }

  /** A `series N` phrase the search finds is at or after its start, and `N` is the number read there. */
  lemma {:induction false} SeriesNumberSearchReads(s: string, k: nat)
    ensures SeriesNumberSearch(s, k).Some? ==>
      var r := SeriesNumberSearch(s, k).value;
      k <= r.0 <= |s| && SeriesNumberAt(s, r.0) == Some(r.1)
    decreases |s| + 1 - k
  {
    if k <= |s| && SeriesNumberAt(s, k).None? {
      SeriesNumberSearchReads(s, k + 1);
    }
  }

  /** `ORDINAL_SERIES_RE.search` from `k`: the leftmost position with an ordinal phrase, and its ordinal. */
  function OrdinalSearch(s: string, k: nat): Option<(nat, nat)>
    decreases |s| + 1 - k
  {
    if k > |s| then None
    else match OrdinalAt(s, k)
      case Some(w) => Some((k, w))
      case None => OrdinalSearch(s, k + 1)
  }

  /** An ordinal phrase the search finds is at or after its start, and the ordinal is the one read there. */
  lemma {:induction false} OrdinalSearchReads(s: string, k: nat)
    ensures OrdinalSearch(s, k).Some? ==>
      var r := OrdinalSearch(s, k).value;
      k <= r.0 <= |s| && OrdinalAt(s, r.0) == Some(r.1)
    decreases |s| + 1 - k
  {
    if k <= |s| && OrdinalAt(s, k).None? {
      OrdinalSearchReads(s, k + 1);
    }
  }

  /** `_series_targets` on a lower-cased sentence: the positions of the series it speaks of. */
  function SeriesTargets(s: string, series: seq<Json>): seq<nat> {
    var total := |series|;
    if total == 0 then []
    else if MentionsAllSeries(s) then AllIndices(total)
    else
      var byNumber := SeriesNumberSearch(s, 0);
      if byNumber.Some? && 1 <= byNumber.value.1 <= total then [byNumber.value.1 - 1]
      else OrdinalTargets(s, series)
  }

  /** `_series_targets` from the ordinal rule on: the leftmost ordinal phrase, if its series exists. */
  function OrdinalTargets(s: string, series: seq<Json>): seq<nat> {
    var byOrdinal := OrdinalSearch(s, 0);
    if byOrdinal.Some? && byOrdinal.value.1 < |series| then [byOrdinal.value.1]
    else NameTargets(s, series)
  }

  /** `_series_targets` from the name rule on: the first series named, else the only series when `series` is mentioned. */
  function NameTargets(s: string, series: seq<Json>): seq<nat> {
    match NamedFrom(s, SeriesNames(series), 0)
    case Some(i) => [i]
    case None => if Contains(s, "series") && |series| == 1 then [0] else []
  }

  // ------------------------------------------------------------ updates

  /** A dotted path from its segments, e.g. `legend.enabled`. */
  function Dotted(segs: seq<string>): string {
    Join(".", segs)
  }

  /** `f"series[{idx}].<field>"`. */
  function SeriesField(i: nat, field: seq<string>): string {
    PathFacts.IndexedPath("series", i, Join(".", field))
  }

  /** One update of `field` per target, in target order. */
  function PerTarget(targets: seq<nat>, field: seq<string>, v: Json): (us: seq<Update>)
    ensures |us| == |targets|
    ensures forall k :: 0 <= k < |targets| ==> us[k] == Update(SeriesField(targets[k], field), v)
  {
    seq(|targets|, k requires 0 <= k < |targets| => Update(SeriesField(targets[k], field), v))
  }

  /** Colour, dash style and line width, for each target. */
  function StyleUpdates(sentence: string, lowered: string, targets: seq<nat>, color: Option<string>): seq<Update> {
    var dash := DashStyle(lowered);
    var width := LineWidth(sentence);
    (if Present(color) && targets != [] then PerTarget(targets, ["color"], JStr(color.value)) else [])
    + (if Present(dash) && targets != [] then PerTarget(targets, ["dashStyle"], JStr(dash.value)) else [])
    + (if width.Some? && targets != [] then PerTarget(targets, ["lineWidth"], width.value) else [])
  }

  /** Data labels: per target, or once for all series when there are no targets or all series are named. */
  function DataLabelUpdates(lowered: string, targets: seq<nat>): seq<Update> {
    if !Contains(lowered, "data label") then []
    else match DetectBoolean(lowered)
      case None => []
      case Some(b) =>
        if targets != [] && !MentionsAllSeries(lowered) then PerTarget(targets, ["dataLabels", "enabled"], JBool(b))
        else [Update(Dotted(["plotOptions", "series", "dataLabels", "enabled"]), JBool(b))]
  }

  function LegendUpdates(lowered: string): seq<Update> {
    if !Contains(lowered, "legend") then []
    else match DetectBoolean(lowered)
      case None => []
      case Some(b) => [Update(Dotted(["legend", "enabled"]), JBool(b))]
  }

  /** Marker visibility, at the path for the chart kind. */
  function MarkerToggleUpdates(lowered: string, chartType: Option<string>): seq<Update> {
    match DetectBoolean(lowered)
    case None => []
    case Some(b) => [Update(Dotted(MarkerEnabledSegments(chartType)), JBool(b))]
  }

  /** Marker radius: for all scatter markers, else per target. */
  function MarkerRadiusUpdates(sentence: string, chartType: Option<string>, targets: seq<nat>): seq<Update> {
    match MarkerRadius(sentence)
    case None => []
    case Some(r) =>
      if chartType == Some("scatter") then [Update(Dotted(["plotOptions", "scatter", "marker", "radius"]), r)]
      else if targets != [] then PerTarget(targets, ["marker", "radius"], r)
      else []
  }

  /** Marker symbol: for all scatter markers, else per target. */
  function MarkerSymbolUpdates(lowered: string, chartType: Option<string>, targets: seq<nat>): seq<Update> {
    var symbol := MarkerSymbol(lowered);
    if !Present(symbol) then []
    else if chartType == Some("scatter") then [Update(Dotted(["plotOptions", "scatter", "marker", "symbol"]), JStr(symbol.value))]
    else if targets != [] then PerTarget(targets, ["marker", "symbol"], JStr(symbol.value))
    else []
  }

  /** Sentences about markers: visibility, radius, symbol. */
  function MarkerUpdates(sentence: string, lowered: string, chartType: Option<string>, targets: seq<nat>): seq<Update> {
    if !Contains(lowered, "marker") then []
    else
      MarkerToggleUpdates(lowered, chartType)
      + MarkerRadiusUpdates(sentence, chartType, targets)
      + MarkerSymbolUpdates(lowered, chartType, targets)
  }

  /** A colour with no target on a scatter chart's markers fills them. */
  function ScatterFillUpdates(lowered: string, chartType: Option<string>, targets: seq<nat>, color: Option<string>): seq<Update> {
    if Present(color) && targets == [] && chartType == Some("scatter") && Contains(lowered, "marker")
    then [Update(Dotted(["plotOptions", "scatter", "marker", "fillColor"]), JStr(color.value))]
    else []
  }

  function FillOpacityUpdates(sentence: string, chartType: Option<string>): seq<Update> {
    if chartType.Some? && chartType.value in AreaLike then
      match FillOpacity(sentence)
      case None => []
      case Some(v) => [Update(Dotted(["plotOptions", chartType.value, "fillOpacity"]), v)]
    else []
  }

  /** Pie charts: inner size, legend entries and data labels. */
  function PieUpdates(sentence: string, lowered: string, chartType: Option<string>): seq<Update> {
    if chartType != Some("pie") then []
    else
      var inner := InnerSize(sentence);
      (if Present(inner) then [Update(Dotted(["plotOptions", "pie", "innerSize"]), JStr(inner.value))] else [])
      + (if Contains(lowered, "legend") && DetectBoolean(lowered).Some?
         then [Update(Dotted(["plotOptions", "pie", "showInLegend"]), JBool(DetectBoolean(lowered).value))] else [])
      + (if Contains(lowered, "data label") && DetectBoolean(lowered).Some?
         then [Update(Dotted(["plotOptions", "pie", "dataLabels", "enabled"]), JBool(DetectBoolean(lowered).value))] else [])
  }

  /** The updates one sentence yields, in the order the rules run. */
  function SentenceUpdates(sentence: string, chartType: Option<string>, series: seq<Json>): seq<Update> {
    var lowered := Lower(sentence);
    var targets := SeriesTargets(lowered, series);
    var color := ExtractColor(sentence, lowered);
    StyleUpdates(sentence, lowered, targets, color)
    + DataLabelUpdates(lowered, targets)
    + LegendUpdates(lowered)
    + MarkerUpdates(sentence, lowered, chartType, targets)
    + ScatterFillUpdates(lowered, chartType, targets, color)
    + FillOpacityUpdates(sentence, chartType)
    + PieUpdates(sentence, lowered, chartType)
  }

  /** The sentences of the instructions: cut at `.`, `;` and newlines, stripped, blanks dropped. */
  function Sentences(instructions: string): seq<string> {
    StrippedPieces(instructions, SentenceBreaks)
  }

  /** The translation of one sentence for a chart of the given type and series. */
  function Translator(chartType: Option<string>, series: seq<Json>): string -> seq<Update> {
    sentence => SentenceUpdates(sentence, chartType, series)
  }

  /** `f` of each item, the results concatenated in order. */
  function FlatMap<A, B>(xs: seq<A>, f: A -> seq<B>): seq<B>
    decreases |xs|
  {
    if xs == [] then [] else f(xs[0]) + FlatMap(xs[1..], f)
  }

  /** `instructions_to_updates`: the updates of the sentences, in sentence order. */
  function InstructionsToUpdates(instructions: string, options: Json): seq<Update> {
    if instructions == "" then []
    else FlatMap(Sentences(instructions), Translator(Schema.ChartTypeOf(options), Schema.SeriesEntries(options)))
  }
}
