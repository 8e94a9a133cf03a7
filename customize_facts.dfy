/**
 * Properties of the update orchestration: what `_normalize_updates` and
 * `_parse_key_value_lines` produce, how the apply loop composes, what its
 * change log records, where it stops, what a completed customisation leaves
 * in the payload, and which refusals the translated instructions can meet.
 */
module CustomizeFacts {
  import opened Wrappers
  import opened Text
  import opened JsonTree
  import opened ChartErrors
  import opened PathGrammar
  import opened TreePatch
  import opened Schema
  import opened Payload
  import opened Instructions
  import opened InstructionFacts
  import opened CustomizeSkill

  // ------------------------------------------------------------ collecting

  lemma {:induction false} CollectAppend<A, B>(xs: seq<A>, ys: seq<A>, f: A -> Option<B>)
    ensures Collect(xs + ys, f) == Collect(xs, f) + Collect(ys, f)
    decreases |xs|
  {
    if xs == [] {
      assert xs + ys == ys;
    } else {
      assert (xs + ys)[0] == xs[0] && (xs + ys)[1..] == xs[1..] + ys;
      CollectAppend(xs[1..], ys, f);
    }
  }

  /** When `f` accepts every element, collecting keeps one value per element, in order. */
  lemma {:induction false} CollectAllAccepted<A, B>(xs: seq<A>, f: A -> Option<B>)
    requires forall k :: 0 <= k < |xs| ==> f(xs[k]).Some?
    ensures |Collect(xs, f)| == |xs|
    ensures forall k :: 0 <= k < |xs| ==> Collect(xs, f)[k] == f(xs[k]).value
    decreases |xs|
  {
    if xs != [] {
      CollectAllAccepted(xs[1..], f);
      forall k | 0 < k < |xs|
        ensures Collect(xs, f)[k] == f(xs[k]).value
      {
        assert xs[1..][k - 1] == xs[k];
      }
    }
  }

  /** Every collected value is what `f` gives for some element; the rest are dropped. */
  lemma {:induction false} CollectFromElements<A, B>(xs: seq<A>, f: A -> Option<B>)
    ensures forall y :: y in Collect(xs, f) ==> exists k :: 0 <= k < |xs| && f(xs[k]) == Some(y)
    decreases |xs|
  {
    if xs != [] {
      CollectFromElements(xs[1..], f);
      forall y | y in Collect(xs, f)
        ensures exists k :: 0 <= k < |xs| && f(xs[k]) == Some(y)
      {
        if f(xs[0]) != Some(y) {
          var head := match f(xs[0]) case Some(x) => [x] case None => [];
          assert y in Collect(xs[1..], f) by {
            assert Collect(xs, f) == head + Collect(xs[1..], f);
          }
          var k :| 0 <= k < |xs[1..]| && f(xs[1..][k]) == Some(y);
          assert xs[1..][k] == xs[k + 1];
        }
      }
    }
  }

  // ------------------------------------------------------------ normalization

  lemma RecordRoundTrip(r: Record)
    ensures ItemRecord(RecordJson(r)) == Some(r)
  {
    var fs := [("path", r.path), ("value", r.value)];
    assert fs[1..] == [("value", r.value)];
    assert Lookup(fs, "path") == Some(r.path) && Lookup(fs, "value") == Some(r.value);
  }

  /** The records of the key-value fallback survive being turned into dicts and read back as a list. */
  lemma RecordsRoundTrip(rs: seq<Record>)
    ensures Collect(RecordsJson(rs), ItemRecord) == rs
  {
    var js := RecordsJson(rs);
    forall k | 0 <= k < |js|
      ensures ItemRecord(js[k]) == Some(rs[k])
    {
      RecordRoundTrip(rs[k]);
    }
    CollectAllAccepted(js, ItemRecord);
  }

  /**
   * `None` and blank text give nothing; decoded data (or a value given
   * directly) that is neither a mapping nor a list gives nothing; a mapping
   * gives one record per member, in order.
   */
  lemma NormalizeCases(raw: Json, decode: string -> Option<Json>)
    ensures raw == JNull ==> NormalizeUpdates(raw, decode) == []
    ensures raw.JStr? && Strip(raw.s) == "" ==> NormalizeUpdates(raw, decode) == []
    ensures raw.JStr? && Strip(raw.s) != "" && decode(Strip(raw.s)).Some? && !IsContainer(decode(Strip(raw.s)).value)
      ==> NormalizeUpdates(raw, decode) == []
    ensures (raw.JBool? || raw.JInt? || raw.JFloat?) ==> NormalizeUpdates(raw, decode) == []
    ensures raw.JObj? ==> NormalizeUpdates(raw, decode) == FieldRecords(raw.fields)
  {
  }

  /** Text that does not decode as JSON is read as `key=value` lines, and those records are the updates. */
  lemma KeyValueFallback(raw: string, decode: string -> Option<Json>)
    requires Strip(raw) != "" && decode(Strip(raw)).None?
    ensures NormalizeUpdates(JStr(raw), decode) == ParseKeyValueLines(Strip(raw), decode)
  {
    var rs := ParseKeyValueLines(Strip(raw), decode);
    RecordsRoundTrip(rs);
    assert NormalizeUpdates(JStr(raw), decode) == DataRecords(JArr(RecordsJson(rs)));
  }

  /** Text that decodes is normalized as the decoded data would be. */
  lemma DecodedText(raw: string, decode: string -> Option<Json>, data: Json)
    requires Strip(raw) != "" && decode(Strip(raw)) == Some(data) && (data.JObj? || data.JArr?)
    ensures NormalizeUpdates(JStr(raw), decode) == NormalizeUpdates(data, decode)
  {
  }

  /** A list whose every item is accepted gives one record per item, in order; otherwise records come only from accepted items. */
  lemma ListRecords(items: seq<Json>)
    ensures forall r :: r in DataRecords(JArr(items)) ==> exists k :: 0 <= k < |items| && ItemRecord(items[k]) == Some(r)
    ensures (forall k :: 0 <= k < |items| ==> ItemRecord(items[k]).Some?) ==>
      |DataRecords(JArr(items))| == |items|
      && forall k :: 0 <= k < |items| ==> DataRecords(JArr(items))[k] == ItemRecord(items[k]).value
  {
    CollectFromElements(items, ItemRecord);
    if forall k :: 0 <= k < |items| ==> ItemRecord(items[k]).Some? {
      CollectAllAccepted(items, ItemRecord);
    }
  }

  /** Which items `_normalize_updates` accepts: mappings with both keys, and sequences of exactly two. */
  lemma ItemRecordCases(item: Json)
    ensures ItemRecord(item).Some? <==>
      (item.JObj? && "path" in Keys(item.fields) && "value" in Keys(item.fields))
      || (item.JArr? && |item.items| == 2) || (item.JStr? && |item.s| == 2)
    ensures item.JArr? && |item.items| == 2 ==> ItemRecord(item) == Some(Record(item.items[0], item.items[1]))
  {
  }

  // ------------------------------------------------------------ key=value lines

  /** A line gives a record exactly when it is not a comment and has an `=`. */
  lemma LineRecordWhen(line: string, decode: string -> Option<Json>)
    ensures LineRecord(line, decode).Some? <==> !StartsWith(line, "#") && exists j :: 0 <= j < |line| && line[j] == '='
  {
    var i := BreakAt(line, {'='});
    if !StartsWith(line, "#") && exists j :: 0 <= j < |line| && line[j] == '=' {
      var j :| 0 <= j < |line| && line[j] == '=';
      assert i <= j;
    }
  }

  lemma LineRecordAtBreak(line: string, decode: string -> Option<Json>)
    requires LineRecord(line, decode).Some?
    ensures var i := BreakAt(line, {'='});
      && i < |line|
      && LineRecord(line, decode).value.path == JStr(Strip(line[..i]))
      && LineRecord(line, decode).value.value == decode(Strip(line[i + 1..])).GetOr(JStr(Strip(line[i + 1..])))
  {
  }

  /** The key is the stripped text before the first `=`, the value the stripped text after it, decoded when it decodes. */
  lemma LineRecordSplit(line: string, decode: string -> Option<Json>)
    requires LineRecord(line, decode).Some?
    ensures exists i ::
      (&& 0 <= i < |line| && line[i] == '=' && (forall j :: 0 <= j < i ==> line[j] != '=')
       && LineRecord(line, decode).value.path == JStr(Strip(line[..i]))
       && LineRecord(line, decode).value.value == decode(Strip(line[i + 1..])).GetOr(JStr(Strip(line[i + 1..]))))
  {
    var i := BreakAt(line, {'='});
    LineRecordAtBreak(line, decode);
    assert 0 <= i < |line| && line[i] == '=' && (forall j :: 0 <= j < i ==> line[j] != '=');
  }

  /** A key never holds an `=`. */
  lemma LineKeyHasNoEquals(line: string, decode: string -> Option<Json>)
    requires LineRecord(line, decode).Some?
    ensures LineRecord(line, decode).value.path.JStr?
    ensures forall j :: 0 <= j < |LineRecord(line, decode).value.path.s| ==> LineRecord(line, decode).value.path.s[j] != '='
  {
    var i := BreakAt(line, {'='});
    var key := line[..i];
    var a := LeadingSpace(key);
    var k := Strip(key);
    assert k == key[a..a + |k|];
    forall j | 0 <= j < |k|
      ensures k[j] != '='
    {
      assert k[j] == key[a + j] == line[a + j];
    }
  }

  /** Lines are independent: text split at a line break parses as its two parts. */
  lemma LineBreakSplits(a: string, c: char, b: string, decode: string -> Option<Json>)
    requires c in LineBreaks
    ensures ParseKeyValueLines(a + [c] + b, decode) == ParseKeyValueLines(a, decode) + ParseKeyValueLines(b, decode)
  {
    PiecesAtBreak(a, c, b, LineBreaks);
    CollectAppend(StrippedPieces(a, LineBreaks), StrippedPieces(b, LineBreaks), LineReader(decode));
  }

  /** A single line parses as its stripped text, and blank text gives nothing. */
  lemma OneLine(line: string, decode: string -> Option<Json>)
    requires forall j :: 0 <= j < |line| ==> line[j] !in LineBreaks
    ensures Strip(line) == "" ==> ParseKeyValueLines(line, decode) == []
    ensures Strip(line) != "" && LineRecord(Strip(line), decode).None? ==> ParseKeyValueLines(line, decode) == []
    ensures Strip(line) != "" && LineRecord(Strip(line), decode).Some? ==>
      ParseKeyValueLines(line, decode) == [LineRecord(Strip(line), decode).value]
  {
    PiecesWithoutBreak(line, LineBreaks);
    var ps := StrippedPieces(line, LineBreaks);
    var f := LineReader(decode);
    if Strip(line) != "" {
      assert ps == [Strip(line)];
      assert Collect(ps, f) == (match f(ps[0]) case Some(y) => [y] case None => []) + Collect(ps[1..], f);
      assert ps[1..] == [];
      assert f(ps[0]) == LineRecord(Strip(line), decode);
    }
  }

  // ------------------------------------------------------------ the apply loop

  /** The loop over `a + b` runs over `a`, and over `b` from where `a` left the tree only when `a` completed. */
  lemma {:induction false} RunAppend(options: Json, a: seq<Record>, b: seq<Record>, step: Step)
    ensures var p := Run(options, a, step);
      Run(options, a + b, step) == if p.halt.Completed? then Continued(p.changes, Run(p.options, b, step)) else p
    decreases |a|
  {
    if a == [] {
      assert a + b == b;
      assert [] + Run(options, b, step).changes == Run(options, b, step).changes;
    } else {
      var u := a[0];
      assert (a + b)[0] == u && (a + b)[1..] == a[1..] + b;
      if !Truthy(u.path) {
        RunAppend(options, a[1..], b, step);
      } else if u.path.JStr? {
        var r := step(options, u.path.s, u.value);
        if r.1.Success? {
          RunAppend(r.0, a[1..], b, step);
          var p := Run(r.0, a[1..], step);
          var q := Run(p.options, b, step);
          assert [r.1.value] + (p.changes + q.changes) == ([r.1.value] + p.changes) + q.changes;
        }
      }
    }
  }

  /** The loop of `customize_chart` over `a + b`. */
  lemma ApplyAppend(options: Json, a: seq<Record>, b: seq<Record>, chartType: Option<string>)
    ensures var p := ApplyFrom(options, a, chartType);
      ApplyFrom(options, a + b, chartType) ==
        if p.halt.Completed? then Continued(p.changes, ApplyFrom(p.options, b, chartType)) else p
  {
    RunAppend(options, a, b, Apply(chartType));
  }

  /** Once the loop stops with an error, no later update is applied or logged. */
  lemma StopIsFinal(options: Json, a: seq<Record>, b: seq<Record>, chartType: Option<string>)
    requires !ApplyFrom(options, a, chartType).halt.Completed?
    ensures ApplyFrom(options, a + b, chartType) == ApplyFrom(options, a, chartType)
  {
    RunAppend(options, a, b, Apply(chartType));
  }

  /** What one update does: write-then-read on success, and the error of the first step that fails. */
  lemma ApplyOneWrites(options: Json, path: string, value: Json, chartType: Option<string>)
    ensures var (doc, r) := ApplyOne(options, path, value, chartType);
      && (r.Success? <==> Editable(path, chartType) && Set(options, Tokenize(path).value, value).result.Success?)
      && (r.Success? ==>
            var ts := Tokenize(path).value;
            r.value == Change(path, GetNested(options, ts), value) && GetNested(doc, ts) == value)
      && (Tokenize(path).Failure? ==> doc == options && r == Failure(Tokenize(path).error))
      && (Tokenize(path).Success? && ValidateUpdatePath(Tokenize(path).value, chartType).Failure? ==>
            doc == options && r == Failure(ValidateUpdatePath(Tokenize(path).value, chartType).error))
      && (r.Failure? ==> doc == options)
  {
    if Editable(path, chartType) {
      var ts := Tokenize(path).value;
      EmptyPatternRefused(chartType);
      PatternOfNoTokens();
      assert ts != [];
      SetFailureLeavesTree(options, ts, value);
      if Set(options, ts, value).result.Success? {
        SetThenGet(options, ts, value);
      }
    }
  }

  lemma PatternOfNoTokens()
    ensures Pattern([]) == ""
  {
  }

  /** The empty pattern (the pattern of a path of dots only) is never editable. */
  lemma EmptyPatternRefused(chartType: Option<string>)
    ensures "" !in AllowedPatterns(chartType)
  {
    GlobalSegments();
    KindNames();
    forall k | 0 <= k < |GlobalTemplates|
      ensures TemplatePath(GlobalTemplates[k]) != ""
    {
      JoinLeads(GlobalTemplates[k].0);
    }
    if KnownKind(chartType) {
      var kind := chartType.value;
      forall k | 0 <= k < |KindTemplates[kind]|
        ensures KindPath(kind, KindTemplates[kind][k]) != ""
      {
        JoinLeads(KindSegs(kind, KindTemplates[kind][k]));
      }
    }
  }

  /** Joined segments start with the first segment. */
  lemma JoinLeads(segs: seq<string>)
    requires segs != [] && segs[0] != []
    ensures Join(".", segs) != "" && Join(".", segs)[0] == segs[0][0]
  {
  }

  /** The records whose path is truthy, which the loop does not skip. */
  function Written(updates: seq<Record>): (rs: seq<Record>)
    ensures |rs| <= |updates|
    decreases |updates|
  {
    if updates == [] then []
    else (if Truthy(updates[0].path) then [updates[0]] else []) + Written(updates[1..])
  }

  /** A change log read back as records: each change's path and the value written. */
  function Logged(changes: seq<Change>): (rs: seq<Record>)
    ensures |rs| == |changes| && forall k :: 0 <= k < |changes| ==> rs[k] == Record(JStr(changes[k].path), changes[k].after)
  {
    seq(|changes|, k requires 0 <= k < |changes| => Record(JStr(changes[k].path), changes[k].after))
  }

  /** A completed loop logs one change per truthy-path update, in order, with the value that update wrote. */
  lemma {:induction false} RunLogsEveryWrite(options: Json, updates: seq<Record>, step: Step)
    requires Run(options, updates, step).halt == Completed
    requires forall o, path, v :: step(o, path, v).1.Success? ==> step(o, path, v).1.value.path == path && step(o, path, v).1.value.after == v
    ensures Logged(Run(options, updates, step).changes) == Written(updates)
    decreases |updates|
  {
    if updates != [] {
      var u := updates[0];
      if !Truthy(u.path) {
        RunLogsEveryWrite(options, updates[1..], step);
      } else {
        var r := step(options, u.path.s, u.value);
        RunLogsEveryWrite(r.0, updates[1..], step);
        var rest := Run(r.0, updates[1..], step);
        assert Logged([r.1.value] + rest.changes) == Logged([r.1.value]) + Logged(rest.changes);
      }
    }
  }

  lemma CompletedLogsEveryWrite(options: Json, updates: seq<Record>, chartType: Option<string>)
    requires ApplyFrom(options, updates, chartType).halt == Completed
    ensures Logged(ApplyFrom(options, updates, chartType).changes) == Written(updates)
  {
    RunLogsEveryWrite(options, updates, Apply(chartType));
  }

  /**
   * Where a stopped loop stopped: the updates before `k` completed, update
   * `k` has a truthy path and either is not text or fails with the error the
   * loop reports, and the log holds only the earlier changes.
   */
  predicate StopsAt(options: Json, updates: seq<Record>, step: Step, k: nat)
    requires k < |updates|
  {
    var pre := Run(options, updates[..k], step);
    var u := updates[k];
    var p := Run(options, updates, step);
    && pre.halt == Completed && Truthy(u.path)
    && p.changes == pre.changes
    && (if u.path.JStr?
        then step(pre.options, u.path.s, u.value).1.Failure?
          && p.halt == Refusal(step(pre.options, u.path.s, u.value).1.error)
        else p.halt == PathNotText(u.path))
  }

  /** A loop that did not complete stopped at one update. */
  lemma {:induction false} StoppedSomewhere(options: Json, updates: seq<Record>, step: Step)
    requires !Run(options, updates, step).halt.Completed?
    ensures exists k: nat :: k < |updates| && StopsAt(options, updates, step, k)
    decreases |updates|
  {
    var u := updates[0];
    assert updates[..0] == [];
    var stepped := Truthy(u.path) && u.path.JStr? && step(options, u.path.s, u.value).1.Success?;
    if !Truthy(u.path) || stepped {
      var next := if stepped then step(options, u.path.s, u.value).0 else options;
      StoppedSomewhere(next, updates[1..], step);
      var k: nat :| k < |updates[1..]| && StopsAt(next, updates[1..], step, k);
      assert updates[..k + 1] == [u] + updates[1..][..k];
      RunAppend(options, [u], updates[1..][..k], step);
      assert [u][1..] == [];
      assert updates[1..][k] == updates[k + 1];
      assert StopsAt(options, updates, step, k + 1);
    } else {
      assert StopsAt(options, updates, step, 0);
    }
  }

  // ------------------------------------------------------------ refusals

  /**
   * When every path is text that the gate lets through or is the scatter
   * marker toggle, the only gate refusal the loop can meet is the toggle's;
   * every other stop comes from the tree holding a value of the wrong kind.
   */
  lemma GateRefusesOnlyScatterToggle(options: Json, updates: seq<Record>, chartType: Option<string>)
    requires forall k :: 0 <= k < |updates| ==> updates[k].path.JStr?
    requires forall k :: 0 <= k < |updates| ==>
      Editable(updates[k].path.s, chartType) || ScatterMarkerToggle(updates[k].path.s, chartType)
    ensures var h := ApplyFrom(options, updates, chartType).halt;
      && !h.PathNotText?
      && (h.Refusal? ==>
            (|| h.error.ExpectedList? || h.error.ExpectedMapping?
             || (chartType == Some("scatter") && h.error == NotEditable("plotOptions.scatter.marker.enabled", "scatter"))))
  {
    if !ApplyFrom(options, updates, chartType).halt.Completed? {
      StoppedSomewhere(options, updates, Apply(chartType));
      var k: nat :| k < |updates| && StopsAt(options, updates, Apply(chartType), k);
      var pre := ApplyFrom(options, updates[..k], chartType);
      var u := updates[k];
      AdmittedStepErrors(pre.options, u.path.s, u.value, chartType);
    }
  }

  /** One step on a path that is editable or the scatter toggle fails only at a wrong-kind node or at the toggle. */
  lemma AdmittedStepErrors(options: Json, path: string, value: Json, chartType: Option<string>)
    requires Editable(path, chartType) || ScatterMarkerToggle(path, chartType)
    ensures var r := ApplyOne(options, path, value, chartType).1;
      r.Failure? ==>
        (|| r.error.ExpectedList? || r.error.ExpectedMapping?
         || (chartType == Some("scatter") && r.error == NotEditable("plotOptions.scatter.marker.enabled", "scatter")))
  {
    if ScatterMarkerToggle(path, chartType) {
      ScatterToggleRefused();
    } else {
      SetErrorIsKind(options, Tokenize(path).value, value);
    }
  }

  /** The translated updates pass the gate, except the scatter marker toggle, which it refuses. */
  lemma TranslatedRecordsAdmissible(instructions: Json, options: Json)
    ensures var rs := InstructionRecords(instructions, options);
      forall k :: 0 <= k < |rs| ==>
        (rs[k].path.JStr?
         && (Editable(rs[k].path.s, ChartTypeOf(options)) || ScatterMarkerToggle(rs[k].path.s, ChartTypeOf(options))))
  {
    if Truthy(instructions) {
      InstructionsAdmissible(PyStr(instructions).GetOr(""), options);
    }
  }

  /** The outcome of a customisation is decided by the loop's run over all its updates. */
  lemma CustomizeConcludes(payload: Json, rawUpdates: Json, instructions: Json, isoTime: string, decode: string -> Option<Json>)
    requires ExtractChartOptions(payload).Success?
    ensures var options := ExtractChartOptions(payload).value;
      var updates := AllUpdates(rawUpdates, instructions, options, decode);
      var p := ApplyFrom(options, updates, ChartTypeOf(options));
      && IsMapping(payload) && IsMapping(p.options)
      && Customize(payload, rawUpdates, instructions, isoTime, decode) == Conclude(payload, instructions, isoTime, updates, p)
  {
    var options := ExtractChartOptions(payload).value;
    ApplyKeepsKind(options, AllUpdates(rawUpdates, instructions, options, decode), ChartTypeOf(options));
  }

  /** A customisation driven by instructions alone never raises on a path. */
  lemma InstructionsNeverRaise(payload: Json, rawUpdates: Json, instructions: Json, isoTime: string, decode: string -> Option<Json>)
    requires NormalizeUpdates(rawUpdates, decode) == []
    ensures !Customize(payload, rawUpdates, instructions, isoTime, decode).Raised?
  {
    if ExtractChartOptions(payload).Success? {
      var options := ExtractChartOptions(payload).value;
      var us := AllUpdates(rawUpdates, instructions, options, decode);
      assert us == InstructionRecords(instructions, options);
      TranslatedRecordsAdmissible(instructions, options);
      GateRefusesOnlyScatterToggle(options, us, ChartTypeOf(options));
      CustomizeConcludes(payload, rawUpdates, instructions, isoTime, decode);
    }
  }

  /**
   * A customisation driven by instructions alone is never refused by the gate
   * except for the marker toggle of a scatter chart.
   */
  lemma InstructionsGateRefusal(payload: Json, rawUpdates: Json, instructions: Json, isoTime: string, decode: string -> Option<Json>,
                                 pattern: string, chartType: string)
    requires NormalizeUpdates(rawUpdates, decode) == []
    requires Customize(payload, rawUpdates, instructions, isoTime, decode) == Refused(NotEditable(pattern, chartType))
    ensures pattern == "plotOptions.scatter.marker.enabled" && chartType == "scatter"
  {
    var options := ExtractChartOptions(payload).value;
    var us := AllUpdates(rawUpdates, instructions, options, decode);
    assert us == InstructionRecords(instructions, options);
    TranslatedRecordsAdmissible(instructions, options);
    GateRefusesOnlyScatterToggle(options, us, ChartTypeOf(options));
    CustomizeConcludes(payload, rawUpdates, instructions, isoTime, decode);
  }

  // ------------------------------------------------------------ completed customisations

  /** The loop's run in a customisation of a payload that holds chart options. */
  function Progressed(payload: Json, rawUpdates: Json, instructions: Json, decode: string -> Option<Json>): Progress
    requires ExtractChartOptions(payload).Success?
  {
    var options := ExtractChartOptions(payload).value;
    ApplyFrom(options, AllUpdates(rawUpdates, instructions, options, decode), ChartTypeOf(options))
  }

  /** The history entry a completed customisation records. */
  function CustomizeEntry(instructions: Json, isoTime: string, p: Progress): Json {
    HistoryEntry(isoTime, "Customize Chart", "apply_updates", CustomizeDetails(instructions, p.changes))
  }

  /** A completed customisation is the loop's run written back, with its history entry. */
  lemma AppliedRun(payload: Json, rawUpdates: Json, instructions: Json, isoTime: string, decode: string -> Option<Json>)
    requires Customize(payload, rawUpdates, instructions, isoTime, decode).Applied?
    ensures IsMapping(payload) && ExtractChartOptions(payload).Success?
    ensures var p := Progressed(payload, rawUpdates, instructions, decode);
      && p.halt == Completed && IsMapping(WithOptions(payload, p.options))
      && Customize(payload, rawUpdates, instructions, isoTime, decode) ==
           Applied(AppendHistoryEntry(WithOptions(payload, p.options), isoTime, "Customize Chart", "apply_updates",
                                      CustomizeDetails(instructions, p.changes)), p.changes)
  {
    var options := ExtractChartOptions(payload).value;
    ApplyKeepsKind(options, AllUpdates(rawUpdates, instructions, options, decode), ChartTypeOf(options));
  }

  /** A completed customisation logs every truthy-path update, in order, with the value it wrote. */
  lemma AppliedLogsEveryWrite(payload: Json, rawUpdates: Json, instructions: Json, isoTime: string, decode: string -> Option<Json>)
    requires Customize(payload, rawUpdates, instructions, isoTime, decode).Applied?
    ensures ExtractChartOptions(payload).Success?
    ensures var options := ExtractChartOptions(payload).value;
      var updates := AllUpdates(rawUpdates, instructions, options, decode);
      updates != [] && Logged(Customize(payload, rawUpdates, instructions, isoTime, decode).changes) == Written(updates)
  {
    AppliedRun(payload, rawUpdates, instructions, isoTime, decode);
    var options := ExtractChartOptions(payload).value;
    CompletedLogsEveryWrite(options, AllUpdates(rawUpdates, instructions, options, decode), ChartTypeOf(options));
  }

  /** A completed customisation adds exactly one history entry, recording the instructions and the change log. */
  lemma AppliedAddsOneEntry(payload: Json, rawUpdates: Json, instructions: Json, isoTime: string, decode: string -> Option<Json>)
    requires Customize(payload, rawUpdates, instructions, isoTime, decode).Applied?
    ensures ExtractChartOptions(payload).Success?
    ensures var p := Progressed(payload, rawUpdates, instructions, decode);
      IsMapping(WithOptions(payload, p.options))
      && HistoryOf(Customize(payload, rawUpdates, instructions, isoTime, decode).payload)
           == HistoryOf(WithOptions(payload, p.options)) + [CustomizeEntry(instructions, isoTime, p)]
  {
    AppliedRun(payload, rawUpdates, instructions, isoTime, decode);
    var p := Progressed(payload, rawUpdates, instructions, decode);
    AppendHistoryGrows(WithOptions(payload, p.options), isoTime, "Customize Chart", "apply_updates", CustomizeDetails(instructions, p.changes));
  }

  /** Writing options back under `data` and then adding a history entry keeps the rest of the payload and its history. */
  lemma WriteBackUnderData(payload: Json, options: Json, isoTime: string, actor: string, action: string, details: Json)
    requires IsMapping(payload) && IsMapping(options) && IsMapping(MemberOr(payload, "data", JNull))
    ensures IsMapping(WithOptions(payload, options))
    ensures var out := AppendHistoryEntry(WithOptions(payload, options), isoTime, actor, action, details);
      && ExtractChartOptions(out) == Success(options)
      && HistoryOf(out) == HistoryOf(payload) + [HistoryEntry(isoTime, actor, action, details)]
      && forall k :: k != "data" && k != "meta" ==> Lookup(out.fields, k) == Lookup(payload.fields, k)
  {
    var w := WithOptions(payload, options);
    var out := AppendHistoryEntry(w, isoTime, actor, action, details);
    WithOptionsExtracts(payload, options);
    AppendHistoryGrows(w, isoTime, actor, action, details);
    AppendHistoryFrame(w, isoTime, actor, action, details);
    assert MemberOr(out, "data", JNull) == MemberOr(w, "data", JNull) by {
      assert Lookup(out.fields, "data") == Lookup(w.fields, "data");
    }
    assert MemberOr(w, "meta", JNull) == MemberOr(payload, "meta", JNull) by {
      assert Lookup(w.fields, "meta") == Lookup(payload.fields, "meta");
    }
  }

  /**
   * When the options sit under `data`, a completed customisation leaves the
   * final options there, keeps every other member but `meta`, and extends the
   * payload's own history by the one entry.
   */
  lemma AppliedUnderData(payload: Json, rawUpdates: Json, instructions: Json, isoTime: string, decode: string -> Option<Json>)
    requires Customize(payload, rawUpdates, instructions, isoTime, decode).Applied?
    requires IsMapping(MemberOr(payload, "data", JNull))
    ensures ExtractChartOptions(payload).Success?
    ensures var p := Progressed(payload, rawUpdates, instructions, decode);
      var out := Customize(payload, rawUpdates, instructions, isoTime, decode).payload;
      && ExtractChartOptions(out) == Success(p.options)
      && HistoryOf(out) == HistoryOf(payload) + [CustomizeEntry(instructions, isoTime, p)]
      && IsMapping(out) && IsMapping(payload)
      && forall k :: k != "data" && k != "meta" ==> Lookup(out.fields, k) == Lookup(payload.fields, k)
  {
    AppliedRun(payload, rawUpdates, instructions, isoTime, decode);
    var p := Progressed(payload, rawUpdates, instructions, decode);
    var options := ExtractChartOptions(payload).value;
    ApplyKeepsKind(options, AllUpdates(rawUpdates, instructions, options, decode), ChartTypeOf(options));
    WriteBackUnderData(payload, p.options, isoTime, "Customize Chart", "apply_updates", CustomizeDetails(instructions, p.changes));
  }

  /** When the payload is the options themselves, the saved payload is the final options with the history added under `meta`. */
  lemma AppliedAtTop(payload: Json, rawUpdates: Json, instructions: Json, isoTime: string, decode: string -> Option<Json>)
    requires Customize(payload, rawUpdates, instructions, isoTime, decode).Applied?
    requires !IsMapping(MemberOr(payload, "data", JNull))
    ensures ExtractChartOptions(payload).Success?
    ensures var p := Progressed(payload, rawUpdates, instructions, decode);
      var out := Customize(payload, rawUpdates, instructions, isoTime, decode).payload;
      IsMapping(out) && IsMapping(p.options)
      && forall k :: k != "meta" ==> Lookup(out.fields, k) == Lookup(p.options.fields, k)
  {
    AppliedRun(payload, rawUpdates, instructions, isoTime, decode);
    var p := Progressed(payload, rawUpdates, instructions, decode);
    AppendHistoryFrame(WithOptions(payload, p.options), isoTime, "Customize Chart", "apply_updates", CustomizeDetails(instructions, p.changes));
  }
}
