/**
 * The update orchestration of customize_chart.py: raw updates in any of the
 * accepted shapes are normalized to path/value records, the updates
 * translated from the instructions are appended, and each record is then
 * tokenized, checked against the schema gate, read and written, in order,
 * with a change log; the first error refuses the whole customisation, and a
 * completed run adds one history entry to the payload.
 *
 * `json.loads` is the parameter `decode` (`None` where it raises); the clock
 * is the parameter `isoTime`.
 */
module CustomizeSkill {
  import opened Wrappers
  import opened Text
  import opened JsonTree
  import opened ChartErrors
  import opened PathGrammar
  import opened TreePatch
  import opened Schema
  import opened Payload
  import Instructions

  /** An update as `_normalize_updates` yields it: `{"path": ..., "value": ...}`, where the path may be any value. */
  datatype Record = Record(path: Json, value: Json)

  /** The dict of a record. */
  function RecordJson(r: Record): Json {
    JObj([("path", r.path), ("value", r.value)])
  }

  function RecordsJson(rs: seq<Record>): (js: seq<Json>)
    ensures |js| == |rs| && forall k :: 0 <= k < |rs| ==> js[k] == RecordJson(rs[k])
  {
    seq(|rs|, k requires 0 <= k < |rs| => RecordJson(rs[k]))
  }

  // ------------------------------------------------------------ key=value lines

  /** The characters `str.splitlines` breaks at. */
  const LineBreaks: set<char> := {
    '\n', '\r', '\U{000B}', '\U{000C}', '\U{001C}', '\U{001D}', '\U{001E}', '\U{0085}', '\U{2028}', '\U{2029}'
  }

  /** One stripped, non-blank line: nothing for a comment or a line without `=`, else the record split at the first `=`. */
  function LineRecord(line: string, decode: string -> Option<Json>): Option<Record> {
    if StartsWith(line, "#") then None
    else
      var i := BreakAt(line, {'='});
      if i == |line| then None
      else
        var value := Strip(line[i + 1..]);
        Some(Record(JStr(Strip(line[..i])), decode(value).GetOr(JStr(value))))
  }

  /** The values `f` gives for the elements of `xs` it accepts, in order. */
  function Collect<A, B>(xs: seq<A>, f: A -> Option<B>): seq<B>
    decreases |xs|
  {
    if xs == [] then []
    else (match f(xs[0]) case Some(y) => [y] case None => []) + Collect(xs[1..], f)
  }

  function LineReader(decode: string -> Option<Json>): string -> Option<Record> {
    line => LineRecord(line, decode)
  }

  /** `_parse_key_value_lines`. */
  function ParseKeyValueLines(raw: string, decode: string -> Option<Json>): seq<Record> {
    Collect(StrippedPieces(raw, LineBreaks), LineReader(decode))
  }

  // ------------------------------------------------------------ normalization

  /** An item of a list of updates: a mapping with both `path` and `value`, or any two-element sequence. */
  function ItemRecord(item: Json): Option<Record> {
    if IsMapping(item) then
      if "path" in Keys(item.fields) && "value" in Keys(item.fields)
      then Some(Record(MemberOr(item, "path", JNull), MemberOr(item, "value", JNull)))
      else None
    else match AsSequence(item)
      case Some(xs) => if |xs| == 2 then Some(Record(xs[0], xs[1])) else None
      case None => None
  }

  /** A mapping of updates: one record per member, in order. */
  function FieldRecords(fs: Fields): (rs: seq<Record>)
    ensures |rs| == |fs| && forall k :: 0 <= k < |fs| ==> rs[k] == Record(JStr(fs[k].0), fs[k].1)
  {
    seq(|fs|, k requires 0 <= k < |fs| => Record(JStr(fs[k].0), fs[k].1))
  }

  /** The records of decoded update data: a mapping or a list; anything else gives none. */
  function DataRecords(data: Json): seq<Record> {
    match data
    case JObj(fs) => FieldRecords(fs)
    case JArr(items) => Collect(items, ItemRecord)
    case _ => []
  }

  /** `_normalize_updates`. */
  function NormalizeUpdates(raw: Json, decode: string -> Option<Json>): seq<Record> {
    match raw
    case JNull => []
    case JStr(s) =>
      var text := Strip(s);
      if text == "" then []
      else (match decode(text)
        case Some(data) => DataRecords(data)
        case None => DataRecords(JArr(RecordsJson(ParseKeyValueLines(text, decode)))))
    case _ => DataRecords(raw)
  }

  // ------------------------------------------------------------ the apply loop

  /** One entry of the change log. */
  datatype Change = Change(path: string, before: Json, after: Json)

  /** The dict `{"path": ..., "before": ..., "after": ...}` of a change. */
  function ChangeJson(c: Change): Json {
    JObj([("path", JStr(c.path)), ("before", c.before), ("after", c.after)])
  }

  function ChangesJson(cs: seq<Change>): (js: seq<Json>)
    ensures |js| == |cs| && forall k :: 0 <= k < |cs| ==> js[k] == ChangeJson(cs[k])
  {
    seq(|cs|, k requires 0 <= k < |cs| => ChangeJson(cs[k]))
  }

  /**
   * How the loop ended: all updates applied, refused with the first
   * `ChartPayloadError`, or a truthy path that is not text, on which
   * `tokenize_path` raises out of the skill (`KeyError` for a mapping,
   * `AttributeError` for a list holding `"["`, `TypeError` for a list
   * holding a non-text item; a list of texts without `"["` is concatenated
   * by Python instead, which this model does not follow).
   */
  datatype Halt = Completed | Refusal(error: PayloadError) | PathNotText(path: Json)

  /** The options, the change log and how the loop ended. */
  datatype Progress = Progress(options: Json, changes: seq<Change>, halt: Halt)

  /** Tokenize, validate, read the value before, write: one update; the tree afterwards and its change or error. */
  function ApplyOne(options: Json, path: string, value: Json, chartType: Option<string>): (r: (Json, Result<Change, PayloadError>))
    ensures r.0.JObj? == options.JObj?
  {
    match Tokenize(path)
    case Failure(e) => (options, Failure(e))
    case Success(tokens) =>
      match ValidateUpdatePath(tokens, chartType)
      case Failure(e) => (options, Failure(e))
      case Success(_) =>
        var before := GetNested(options, tokens);
        var o := Set(options, tokens, value);
        SetKeepsRootKind(options, tokens, value);
        match o.result
        case Failure(e) => (o.tree, Failure(e))
        case Success(_) => (o.tree, Success(Change(path, before, value)))
  }

  /** How one update with text path is applied to a tree: the tree afterwards and the change or error. */
  type Step = (Json, string, Json) -> (Json, Result<Change, PayloadError>)

  /** The loop over `updates`, from `options`: records with a falsy path are skipped, the first error stops it. */
  function Run(options: Json, updates: seq<Record>, step: Step): Progress
    decreases |updates|
  {
    if updates == [] then Progress(options, [], Completed)
    else
      var u := updates[0];
      if !Truthy(u.path) then Run(options, updates[1..], step)
      else if !u.path.JStr? then Progress(options, [], PathNotText(u.path))
      else
        var r := step(options, u.path.s, u.value);
        match r.1
        case Failure(e) => Progress(r.0, [], Refusal(e))
        case Success(c) =>
          var rest := Run(r.0, updates[1..], step);
          Progress(rest.options, [c] + rest.changes, rest.halt)
  }

  /** The step of the loop of `customize_chart`. */
  function Apply(chartType: Option<string>): Step {
    (options, path, value) => ApplyOne(options, path, value, chartType)
  }

  /** The loop of `customize_chart` over `updates`. */
  function ApplyFrom(options: Json, updates: seq<Record>, chartType: Option<string>): Progress {
    Run(options, updates, Apply(chartType))
  }

  /** The loop keeps the options a mapping. */
  lemma {:induction false} ApplyKeepsKind(options: Json, updates: seq<Record>, chartType: Option<string>)
    ensures ApplyFrom(options, updates, chartType).options.JObj? == options.JObj?
    decreases |updates|
  {
    if updates != [] {
      var u := updates[0];
      if !Truthy(u.path) {
        ApplyKeepsKind(options, updates[1..], chartType);
      } else if u.path.JStr? {
        var r := ApplyOne(options, u.path.s, u.value, chartType);
        ApplyKeepsKind(r.0, updates[1..], chartType);
      }
    }
  }

  /** A run that follows changes already logged. */
  function Continued(earlier: seq<Change>, p: Progress): Progress {
    Progress(p.options, earlier + p.changes, p.halt)
  }

  /** The loop passes over a record whose path is falsy. */
  lemma RunSkips(options: Json, updates: seq<Record>, step: Step)
    requires updates != [] && !Truthy(updates[0].path)
    ensures Run(options, updates, step) == Run(options, updates[1..], step)
  {
  }

  /** The loop applies a record whose path is text, and goes on only when that succeeds. */
  lemma RunWrites(options: Json, updates: seq<Record>, step: Step)
    requires updates != [] && Truthy(updates[0].path) && updates[0].path.JStr?
    ensures var r := step(options, updates[0].path.s, updates[0].value);
      Run(options, updates, step)
        == if r.1.Failure? then Progress(r.0, [], Refusal(r.1.error)) else Continued([r.1.value], Run(r.0, updates[1..], step))
  {
  }

  /** The body of the loop of `customize_chart` for an update whose path is text: check the path, then write. */
  method ApplyUpdate(doc: Json, path: string, value: Json, chartType: Option<string>)
    returns (next: Json, r: Result<Change, PayloadError>)
    ensures (next, r) == ApplyOne(doc, path, value, chartType)
  {
    var tokens := TokenizePath(path);
    if tokens.Failure? {
      return doc, Failure(tokens.error);
    }
    var check := ValidateUpdatePath(tokens.value, chartType);
    if check.Failure? {
      return doc, Failure(check.error);
    }
    var before := GetNested(doc, tokens.value);
    var written;
    next, written := SetNestedValue(doc, tokens.value, value);
    if written.Failure? {
      return next, Failure(written.error);
    }
    r := Success(Change(path, before, value));
  }

  /** The loop of `customize_chart`, writing into `doc` update by update. */
  method ApplyUpdates(options: Json, updates: seq<Record>, chartType: Option<string>) returns (doc: Json, changes: seq<Change>, halt: Halt)
    ensures Progress(doc, changes, halt) == ApplyFrom(options, updates, chartType)
  {
    doc := options;
    changes := [];
    halt := Completed;
    var i := 0;
    while i < |updates|
      invariant 0 <= i <= |updates|
      invariant Continued(changes, ApplyFrom(doc, updates[i..], chartType)) == ApplyFrom(options, updates, chartType)
    {
      var u := updates[i];
      assert updates[i..][0] == u && updates[i..][1..] == updates[i + 1..];
      if !Truthy(u.path) {
        RunSkips(doc, updates[i..], Apply(chartType));
        i := i + 1;
        continue;
      }
      if !u.path.JStr? {
        halt := PathNotText(u.path);
        return;
      }
      RunWrites(doc, updates[i..], Apply(chartType));
      var next, r := ApplyUpdate(doc, u.path.s, u.value, chartType);
      doc := next;
      if r.Failure? {
        halt := Refusal(r.error);
        return;
      }
      var rest := ApplyFrom(doc, updates[i + 1..], chartType);
      assert changes + ([r.value] + rest.changes) == (changes + [r.value]) + rest.changes;
      changes := changes + [r.value];
      i := i + 1;
    }
    assert updates[i..] == [];
    assert changes + [] == changes;
  }

  // ------------------------------------------------------------ customize_chart

  /** The translator's updates as records. */
  function AsRecords(us: seq<Instructions.Update>): (rs: seq<Record>)
    ensures |rs| == |us| && forall k :: 0 <= k < |us| ==> rs[k] == Record(JStr(us[k].path), us[k].value)
  {
    seq(|us|, k requires 0 <= k < |us| => Record(JStr(us[k].path), us[k].value))
  }

  /** The updates translated from truthy instructions, read as text with `str`. */
  function InstructionRecords(instructions: Json, options: Json): seq<Record> {
    if Truthy(instructions)
    then AsRecords(Instructions.InstructionsToUpdates(PyStr(instructions).GetOr(""), options))
    else []
  }

  /** Explicit updates first, then those from the instructions. */
  function AllUpdates(rawUpdates: Json, instructions: Json, options: Json, decode: string -> Option<Json>): seq<Record> {
    NormalizeUpdates(rawUpdates, decode) + InstructionRecords(instructions, options)
  }

  /** The history details `{"instructions": ..., "changes": [...]}`. */
  function CustomizeDetails(instructions: Json, changes: seq<Change>): Json {
    JObj([("instructions", instructions), ("changes", JArr(ChangesJson(changes)))])
  }

  /**
   * What the skill returns: a refusal carrying the error message's error,
   * the prompt asking for updates, an escaping `TypeError`, or the payload
   * with the changes applied and its history entry, with the change log.
   */
  datatype Outcome =
    | Refused(error: PayloadError)
    | NothingToApply
    | Raised(path: Json)
    | Applied(payload: Json, changes: seq<Change>)

  /** What the skill returns once the updates are known and the loop has run over them (lines 107-135). */
  function Conclude(payload: Json, instructions: Json, isoTime: string, updates: seq<Record>, p: Progress): Outcome
    requires IsMapping(payload) && IsMapping(p.options)
  {
    if updates == [] then NothingToApply
    else match p.halt
      case Refusal(e) => Refused(e)
      case PathNotText(x) => Raised(x)
      case Completed =>
        Applied(AppendHistoryEntry(WithOptions(payload, p.options), isoTime, "Customize Chart", "apply_updates",
                                   CustomizeDetails(instructions, p.changes)), p.changes)
  }

  /** `customize_chart` from the loaded payload to the payload it would persist (lines 96-135). */
  function Customize(payload: Json, rawUpdates: Json, instructions: Json, isoTime: string, decode: string -> Option<Json>): Outcome {
    match ExtractChartOptions(payload)
    case Failure(e) => Refused(e)
    case Success(options) =>
      var updates := AllUpdates(rawUpdates, instructions, options, decode);
      ApplyKeepsKind(options, updates, ChartTypeOf(options));
      Conclude(payload, instructions, isoTime, updates, ApplyFrom(options, updates, ChartTypeOf(options)))
  }

  /** The skill's steps, with the loop run as a loop. */
  method CustomizeChart(payload: Json, rawUpdates: Json, instructions: Json, isoTime: string, decode: string -> Option<Json>)
    returns (outcome: Outcome)
    ensures outcome == Customize(payload, rawUpdates, instructions, isoTime, decode)
  {
    var extracted := ExtractChartOptions(payload);
    if extracted.Failure? {
      return Refused(extracted.error);
    }
    var options := extracted.value;
    var updates := AllUpdates(rawUpdates, instructions, options, decode);
    var chartType := ChartTypeOf(options);
    ApplyKeepsKind(options, updates, chartType);
    if updates == [] {
      outcome := NothingToApply;
    } else {
      var doc, changes, halt := ApplyUpdates(options, updates, chartType);
      outcome := Conclude(payload, instructions, isoTime, updates, Progress(doc, changes, halt));
    }
  }
}
