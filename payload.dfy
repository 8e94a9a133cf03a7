/**
 * The payload helpers of chart_payloads.py: finding the options inside a
 * saved payload, the `meta` bookkeeping with its `history` list, and the
 * summary of a chart's options. The in-place dict updates are read as
 * functions from the payload before to the payload after.
 */
module Payload {
  import opened Wrappers
  import opened Text
  import opened JsonTree
  import opened ChartErrors
  import Schema

  /**
   * `extract_chart_options`: the `data` member when it is a mapping, else
   * the payload itself when it is a mapping, else an error.
   */
  function ExtractChartOptions(payload: Json): (r: Result<Json, PayloadError>)
    ensures r.Success? ==> IsMapping(r.value)
    ensures r.Failure? <==> !IsMapping(payload)
    ensures r.Failure? ==> r.error == NotChartOptions
    ensures IsMapping(payload) && IsMapping(MemberOr(payload, "data", JNull)) ==> r == Success(MemberOr(payload, "data", JNull))
    ensures IsMapping(payload) && !IsMapping(MemberOr(payload, "data", JNull)) ==> r == Success(payload)
  {
    if payload.JObj? && "data" in Keys(payload.fields) && IsMapping(MemberOr(payload, "data", JNull)) then
      Success(MemberOr(payload, "data", JNull))
    else if payload.JObj? then Success(payload)
    else Failure(NotChartOptions)
  }

  /**
   * The payload with its options replaced by `options`: the `data` member
   * when the options came from there, the whole payload otherwise (the
   * options then are the payload, as the same dict).
   */
  function WithOptions(payload: Json, options: Json): Json
    requires IsMapping(payload)
  {
    if IsMapping(MemberOr(payload, "data", JNull)) then JObj(Put(payload.fields, "data", options)) else options
  }

  /** Putting back the options that were extracted gives the payload whose options they are. */
  lemma WithOptionsExtracts(payload: Json, options: Json)
    requires IsMapping(payload) && IsMapping(options) && IsMapping(MemberOr(payload, "data", JNull))
    ensures ExtractChartOptions(WithOptions(payload, options)) == Success(options)
    ensures forall k :: k != "data" ==> Lookup(WithOptions(payload, options).fields, k) == Lookup(payload.fields, k)
  {
  }

  /** The note text for a `meta` that is not a mapping: Python's `str`, where the model renders it. */
  function Note(meta: Json): string {
    PyStr(meta).GetOr("")
  }

  /** `meta` as `ensure_metadata` leaves it: a mapping (the old one, or `{"note": str(meta)}`) with a `history` member. */
  function NormalizedMeta(meta: Option<Json>): (m: Json)
    ensures IsMapping(m) && "history" in Keys(m.fields)
    ensures meta.Some? && IsMapping(meta.value) ==> forall k :: k != "history" ==> Lookup(m.fields, k) == Lookup(meta.value.fields, k)
    ensures meta.Some? && IsMapping(meta.value) && "history" in Keys(meta.value.fields) ==> m == meta.value
  {
    var base := match meta
      case None => JObj([])
      case Some(JObj(fs)) => JObj(fs)
      case Some(other) => JObj([("note", JStr(Note(other)))]);
    if "history" in Keys(base.fields) then base else JObj(Put(base.fields, "history", JArr([])))
  }

  /** The `meta` member of a payload, when there is one. */
  function MetaOf(payload: Json): Option<Json>
    requires IsMapping(payload)
  {
    Lookup(payload.fields, "meta")
  }

  /**
   * `ensure_metadata`: the payload gains a `meta` mapping (replacing a
   * non-mapping one by `{"note": str(meta)}`), which gains a `history` member.
   * Returns the new payload and its `meta`.
   */
  function EnsureMetadata(payload: Json): (r: (Json, Json))
    requires IsMapping(payload)
    ensures IsMapping(r.0) && MetaOf(r.0) == Some(r.1)
    ensures r.1 == NormalizedMeta(MetaOf(payload))
    ensures forall k :: k != "meta" ==> Lookup(r.0.fields, k) == Lookup(payload.fields, k)
  {
    var meta := NormalizedMeta(MetaOf(payload));
    (JObj(Put(payload.fields, "meta", meta)), meta)
  }

  /** The entries of a `meta`'s `history` when that is a list, else none. */
  function HistoryItems(meta: Json): seq<Json> {
    match meta
    case JObj(fs) => (match Lookup(fs, "history") case Some(JArr(items)) => items case _ => [])
    case _ => []
  }

  /** The history a payload carries. */
  function HistoryOf(payload: Json): seq<Json> {
    HistoryItems(MemberOr(payload, "meta", JNull))
  }

  /** `ensure_metadata` keeps the history a payload carries (none, when it was not a list). */
  lemma NormalizedHistory(payload: Json)
    requires IsMapping(payload)
    ensures HistoryItems(NormalizedMeta(MetaOf(payload))) == HistoryOf(payload)
  {
    var m := MetaOf(payload);
    if m.Some? {
      assert MemberOr(payload, "meta", JNull) == m.value;
    }
  }

  /**
   * The entry `append_history_entry` records: the time (Python's
   * `utcnow().isoformat()`, passed in) with `Z` appended, the actor, the
   * action, and the details when they are truthy.
   */
  function HistoryEntry(isoTime: string, actor: string, action: string, details: Json): Json {
    var fs := [("timestamp", JStr(isoTime + "Z")), ("actor", JStr(actor)), ("action", JStr(action))];
    if Truthy(details) then JObj(fs + [("details", details)]) else JObj(fs)
  }

  /** The entry holds the stamped time, the actor and the action. */
  lemma HistoryEntryStamp(isoTime: string, actor: string, action: string, details: Json)
    ensures var e := HistoryEntry(isoTime, actor, action, details);
      && IsMapping(e)
      && Lookup(e.fields, "timestamp") == Some(JStr(isoTime + "Z"))
      && Lookup(e.fields, "actor") == Some(JStr(actor)) && Lookup(e.fields, "action") == Some(JStr(action))
  {
    var e := HistoryEntry(isoTime, actor, action, details);
    LookupFirst(e.fields, 0, "timestamp");
    LookupFirst(e.fields, 1, "actor");
    LookupFirst(e.fields, 2, "action");
  }

  /** The entry holds `details` exactly when they are truthy. */
  lemma HistoryEntryDetails(isoTime: string, actor: string, action: string, details: Json)
    ensures var e := HistoryEntry(isoTime, actor, action, details);
      && ("details" in Keys(e.fields) <==> Truthy(details))
      && (Truthy(details) ==> Lookup(e.fields, "details") == Some(details))
  {
    var e := HistoryEntry(isoTime, actor, action, details);
    if Truthy(details) {
      LookupFirst(e.fields, 3, "details");
    } else {
      assert Keys(e.fields) == ["timestamp", "actor", "action"];
    }
  }

  /** The entry holds the stamped time, the actor and the action, and `details` exactly when they are truthy. */
  lemma HistoryEntryFields(isoTime: string, actor: string, action: string, details: Json)
    ensures var e := HistoryEntry(isoTime, actor, action, details);
      && IsMapping(e)
      && Lookup(e.fields, "timestamp") == Some(JStr(isoTime + "Z"))
      && Lookup(e.fields, "actor") == Some(JStr(actor)) && Lookup(e.fields, "action") == Some(JStr(action))
      && ("details" in Keys(e.fields) <==> Truthy(details))
      && (Truthy(details) ==> Lookup(e.fields, "details") == Some(details))
  {
    HistoryEntryStamp(isoTime, actor, action, details);
    HistoryEntryDetails(isoTime, actor, action, details);
  }

  /**
   * `append_history_entry`: after `ensure_metadata`, a `history` that is
   * not a list is replaced by `[]`, and the entry is appended to it.
   */
  function AppendHistoryEntry(payload: Json, isoTime: string, actor: string, action: string, details: Json): (r: Json)
    requires IsMapping(payload)
    ensures IsMapping(r)
  {
    var (p1, meta) := EnsureMetadata(payload);
    var entry := HistoryEntry(isoTime, actor, action, details);
    JObj(Put(p1.fields, "meta", JObj(Put(meta.fields, "history", JArr(HistoryItems(meta) + [entry])))))
  }

  /** The `meta` a successful append leaves: the normalized one with the entry added to its history. */
  lemma AppendHistoryMeta(payload: Json, isoTime: string, actor: string, action: string, details: Json)
    requires IsMapping(payload)
    ensures var meta := NormalizedMeta(MetaOf(payload));
      MetaOf(AppendHistoryEntry(payload, isoTime, actor, action, details)) ==
        Some(JObj(Put(meta.fields, "history", JArr(HistoryItems(meta) + [HistoryEntry(isoTime, actor, action, details)]))))
  {
  }

  /**
   * The history grows by exactly one entry, at the end, and `history` is a
   * list inside a mapping `meta` afterwards.
   */
  lemma AppendHistoryGrows(payload: Json, isoTime: string, actor: string, action: string, details: Json)
    requires IsMapping(payload)
    ensures var r := AppendHistoryEntry(payload, isoTime, actor, action, details);
      && HistoryOf(r) == HistoryOf(payload) + [HistoryEntry(isoTime, actor, action, details)]
      && MetaOf(r).Some? && IsMapping(MetaOf(r).value)
      && Lookup(MetaOf(r).value.fields, "history") == Some(JArr(HistoryOf(r)))
  {
    var meta := NormalizedMeta(MetaOf(payload));
    var entry := HistoryEntry(isoTime, actor, action, details);
    var meta2 := JObj(Put(meta.fields, "history", JArr(HistoryItems(meta) + [entry])));
    assert HistoryItems(meta2) == HistoryItems(meta) + [entry];
    var r := AppendHistoryEntry(payload, isoTime, actor, action, details);
    AppendHistoryMeta(payload, isoTime, actor, action, details);
    assert MetaOf(r) == Some(meta2);
    assert MemberOr(r, "meta", JNull) == meta2;
    NormalizedHistory(payload);
  }

  /** Nothing outside `meta` changes, and nothing inside a mapping `meta` but its `history`. */
  lemma AppendHistoryFrame(payload: Json, isoTime: string, actor: string, action: string, details: Json)
    requires IsMapping(payload)
    ensures var r := AppendHistoryEntry(payload, isoTime, actor, action, details);
      && (forall k :: k != "meta" ==> Lookup(r.fields, k) == Lookup(payload.fields, k))
      && (MetaOf(payload).Some? && IsMapping(MetaOf(payload).value) ==>
            forall k :: k != "history" ==> Lookup(MetaOf(r).value.fields, k) == Lookup(MetaOf(payload).value.fields, k))
  {
    AppendHistoryMeta(payload, isoTime, actor, action, details);
  }

  /** `ensure_metadata` on a `meta` that is not a mapping: `{"note": str(meta), "history": []}`. */
  lemma NormalizedScalarMeta(meta: Json)
    requires !IsMapping(meta)
    ensures NormalizedMeta(Some(meta)) == JObj([("note", JStr(Note(meta))), ("history", JArr([]))])
  {
  }

  lemma PutAfterNote(note: Json, previous: Json, v: Json)
    ensures Put([("note", note), ("history", previous)], "history", v) == [("note", note), ("history", v)]
  {
    assert [("note", note), ("history", previous)][1..] == [("history", previous)];
  }

  /** A `meta` that is not a mapping becomes `{"note": str(meta), "history": [entry]}`. */
  lemma AppendHistoryReplacesScalarMeta(payload: Json, isoTime: string, actor: string, action: string, details: Json)
    requires IsMapping(payload) && MetaOf(payload).Some? && !IsMapping(MetaOf(payload).value)
    ensures MetaOf(AppendHistoryEntry(payload, isoTime, actor, action, details)) ==
      Some(JObj([("note", JStr(Note(MetaOf(payload).value))), ("history", JArr([HistoryEntry(isoTime, actor, action, details)]))]))
  {
    var note := JStr(Note(MetaOf(payload).value));
    var entry := HistoryEntry(isoTime, actor, action, details);
    NormalizedScalarMeta(MetaOf(payload).value);
    var meta := NormalizedMeta(MetaOf(payload));
    assert HistoryItems(meta) + [entry] == [entry];
    PutAfterNote(note, JArr([]), JArr([entry]));
    AppendHistoryMeta(payload, isoTime, actor, action, details);
  }

  // ------------------------------------------------------------ summary

  /** One series line of `summarize_options`. */
  datatype SeriesSummary = SeriesSummary(index: nat, name: Json, kind: Json, color: Json, dashStyle: Json, dataLabels: bool)

  /** What `summarize_options` returns. */
  datatype Summary = Summary(chartType: Json, seriesCount: nat, series: seq<SeriesSummary>)

  /** `options.get("chart", {}).get("type")` when `chart` is a mapping, else `None`; of any kind. */
  function ChartTypeValue(options: Json): Json {
    var chart := MemberOr(options, "chart", JNull);
    if IsMapping(chart) then MemberOr(chart, "type", JNull) else JNull
  }

  /** The line for the mapping series `serie` at position `idx`. */
  function Describe(idx: nat, serie: Json, chartType: Json): SeriesSummary {
    SeriesSummary(idx,
      MemberOr(serie, "name", JStr("Series " + NatToString(idx + 1))),
      MemberOr(serie, "type", chartType),
      MemberOr(serie, "color", JNull),
      MemberOr(serie, "dashStyle", JNull),
      Truthy(MemberOr(serie, "dataLabels", JNull)))
  }

  /** The lines for the entries numbered from `start`, made by `line` and skipping those that are not mappings. */
  function Lines(series: seq<Json>, start: nat, line: (nat, Json) -> SeriesSummary): seq<SeriesSummary>
    decreases |series|
  {
    if series == [] then []
    else
      (if IsMapping(series[0]) then [line(start, series[0])] else [])
      + Lines(series[1..], start + 1, line)
  }

  /** The line maker of `summarize_options`. */
  function Describer(chartType: Json): (nat, Json) -> SeriesSummary {
    (idx: nat, serie: Json) => Describe(idx, serie, chartType)
  }

  /** The lines for the entries numbered from `start`. */
  function SummariesFrom(series: seq<Json>, start: nat, chartType: Json): seq<SeriesSummary> {
    Lines(series, start, Describer(chartType))
  }

  /** `summarize_options`. */
  function SummarizeOptions(options: Json): Summary {
    var chartType := ChartTypeValue(options);
    var series := Schema.SeriesEntries(options);
    Summary(if Truthy(chartType) then chartType else JStr("unknown"), |series|, SummariesFrom(series, 0, chartType))
  }

  /** Line `j` is made from the mapping entry at its index, when every line carries the index it is made with. */
  lemma {:induction false} LineAt(series: seq<Json>, start: nat, line: (nat, Json) -> SeriesSummary, j: nat)
    requires forall n, x :: line(n, x).index == n
    requires j < |Lines(series, start, line)|
    ensures var s := Lines(series, start, line)[j];
      start <= s.index < start + |series| && IsMapping(series[s.index - start])
      && s == line(s.index, series[s.index - start])
    decreases |series|
  {
    var head := if IsMapping(series[0]) then [line(start, series[0])] else [];
    var tail := Lines(series[1..], start + 1, line);
    assert Lines(series, start, line) == head + tail;
    if j >= |head| {
      LineAt(series[1..], start + 1, line, j - |head|);
      var s := tail[j - |head|];
      assert (head + tail)[j] == s;
      assert series[1..][s.index - start - 1] == series[s.index - start];
    } else {
      assert (head + tail)[j] == line(start, series[0]);
    }
  }

  /** The lines come in the order of the entries. */
  lemma {:induction false} LineOrder(series: seq<Json>, start: nat, line: (nat, Json) -> SeriesSummary, j: nat, j': nat)
    requires forall n, x :: line(n, x).index == n
    requires j < j' < |Lines(series, start, line)|
    ensures Lines(series, start, line)[j].index < Lines(series, start, line)[j'].index
    decreases |series|
  {
    var head := if IsMapping(series[0]) then [line(start, series[0])] else [];
    var tail := Lines(series[1..], start + 1, line);
    assert Lines(series, start, line) == head + tail;
    assert (head + tail)[j'] == tail[j' - |head|];
    if j >= |head| {
      LineOrder(series[1..], start + 1, line, j - |head|, j' - |head|);
      assert (head + tail)[j] == tail[j - |head|];
    } else {
      LineAt(series[1..], start + 1, line, j' - |head|);
    }
  }

  /** Every mapping entry has its line. */
  lemma {:induction false} LinesComplete(series: seq<Json>, start: nat, line: (nat, Json) -> SeriesSummary, i: nat)
    requires start <= i < start + |series| && IsMapping(series[i - start])
    ensures line(i, series[i - start]) in Lines(series, start, line)
    decreases |series|
  {
    var head := if IsMapping(series[0]) then [line(start, series[0])] else [];
    var tail := Lines(series[1..], start + 1, line);
    assert Lines(series, start, line) == head + tail;
    if i > start {
      LinesComplete(series[1..], start + 1, line, i);
      assert series[1..][i - (start + 1)] == series[i - start];
    }
    assert line(i, series[i - start]) in head + tail;
  }

  /** Every line of `summarize_options` carries the index it is made with. */
  lemma DescriberIndex(chartType: Json)
    ensures forall n, x :: Describer(chartType)(n, x).index == n
  {
  }

  /** Every mapping entry of the series has its line in the summary. */
  lemma SummaryComplete(options: Json, i: nat)
    requires i < |Schema.SeriesEntries(options)| && IsMapping(Schema.SeriesEntries(options)[i])
    ensures Describe(i, Schema.SeriesEntries(options)[i], ChartTypeValue(options)) in SummarizeOptions(options).series
  {
    var ct := ChartTypeValue(options);
    LinesComplete(Schema.SeriesEntries(options), 0, Describer(ct), i);
  }

  /** Line `j` of the summary describes the mapping entry at its index. */
  lemma SummaryLine(options: Json, j: nat)
    requires j < |SummarizeOptions(options).series|
    ensures var s := SummarizeOptions(options).series[j];
      var series := Schema.SeriesEntries(options);
      s.index < |series| && IsMapping(series[s.index]) && s == Describe(s.index, series[s.index], ChartTypeValue(options))
  {
    var ct := ChartTypeValue(options);
    DescriberIndex(ct);
    LineAt(Schema.SeriesEntries(options), 0, Describer(ct), j);
  }

  /** The summary's lines come in the order of the entries. */
  lemma SummaryOrdered(options: Json, j: nat, j': nat)
    requires j < j' < |SummarizeOptions(options).series|
    ensures SummarizeOptions(options).series[j].index < SummarizeOptions(options).series[j'].index
  {
    var ct := ChartTypeValue(options);
    DescriberIndex(ct);
    LineOrder(Schema.SeriesEntries(options), 0, Describer(ct), j, j');
  }

  /**
   * The summary counts every series entry, and its lines describe exactly
   * the entries that are mappings, each from its own entry, in order.
   */
  lemma SummaryCharacterised(options: Json, i: nat, j: nat, j': nat)
    ensures var s := SummarizeOptions(options);
      var series := Schema.SeriesEntries(options);
      var ct := ChartTypeValue(options);
      && s.seriesCount == |series|
      && (i < |series| && IsMapping(series[i]) ==> Describe(i, series[i], ct) in s.series)
      && (j < |s.series| ==> s.series[j].index < |series| && IsMapping(series[s.series[j].index])
                              && s.series[j] == Describe(s.series[j].index, series[s.series[j].index], ct))
      && (j < j' < |s.series| ==> s.series[j].index < s.series[j'].index)
  {
    var s := SummarizeOptions(options);
    var series := Schema.SeriesEntries(options);
    if i < |series| && IsMapping(series[i]) {
      SummaryComplete(options, i);
    }
    if j < |s.series| {
      SummaryLine(options, j);
    }
    if j < j' < |s.series| {
      SummaryOrdered(options, j, j');
    }
  }
}
