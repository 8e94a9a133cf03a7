/**
 * The path expression grammar of chart_payloads.py: `tokenize_path` turns
 * `series[1].dataLabels.enabled` into field and index tokens, and
 * `_normalize_tokens` turns tokens into an index-free pattern such as
 * `series[].dataLabels.enabled`.
 */
module PathGrammar {
  import opened Wrappers
  import opened Text
  import opened ChartErrors

  /** A field name (`str` token) or a list position (`int` token). */
  datatype Token = Field(name: string) | Index(i: nat)

  datatype LexError = Unmatched | NonNumeric

  predicate IsDelimiter(c: char) { c == '.' || c == '[' }

  predicate NoDelimiters(s: string) {
    forall i :: 0 <= i < |s| ==> !IsDelimiter(s[i])
  }

  /** What `tokenize_path` can emit as a field: non-empty, no `.` and no `[`. */
  predicate WellFormedToken(t: Token) {
    t.Field? ==> t.name != [] && NoDelimiters(t.name)
  }

  predicate WellFormedTokens(ts: seq<Token>) {
    forall k :: 0 <= k < |ts| ==> WellFormedToken(ts[k])
  }

  /** Python's `s.find(c, start)`: the first position at or after `start` holding `c`, or -1. */
  function Find(s: string, c: char, start: nat): (r: int)
    ensures r == -1 || (start <= r < |s| && s[r] == c)
    ensures r != -1 ==> forall j :: start <= j < r ==> s[j] != c
    ensures r == -1 ==> forall j :: start <= j < |s| ==> s[j] != c
    decreases |s| - start
  {
    if start >= |s| then -1 else if s[start] == c then start else Find(s, c, start + 1)
  }

  /** Where the field segment starting at `k` ends: the first delimiter at or after `k`, or the end. */
  function SegmentEnd(s: string, k: nat): (n: nat)
    requires k <= |s|
    ensures k <= n <= |s|
    ensures forall j :: k <= j < n ==> !IsDelimiter(s[j])
    ensures n < |s| ==> IsDelimiter(s[n])
    decreases |s| - k
  {
    if k == |s| || IsDelimiter(s[k]) then k else SegmentEnd(s, k + 1)
  }

  function Prepend(t: Token, r: Result<seq<Token>, LexError>): Result<seq<Token>, LexError> {
    match r
    case Success(ts) => Success([t] + ts)
    case Failure(e) => Failure(e)
  }

  function Then(ts: seq<Token>, r: Result<seq<Token>, LexError>): Result<seq<Token>, LexError> {
    match r
    case Success(us) => Success(ts + us)
    case Failure(e) => Failure(e)
  }

  /**
   * The grammar, read left to right from position `k`: dots separate segments
   * and produce nothing; `[digits]` is an index; anything else up to the next
   * `.` or `[` is a field.
   */
  function LexFrom(s: string, k: nat): Result<seq<Token>, LexError>
    requires k <= |s|
    decreases |s| - k, 1
  {
    if k == |s| then Success([])
    else if s[k] == '.' then LexFrom(s, k + 1)
    else if s[k] == '[' then LexIndexAt(s, k)
    else LexSegmentAt(s, k)
  }

  /** The grammar at a `[`: what lies before the next `]` must be digits, and is the index. */
  function LexIndexAt(s: string, k: nat): Result<seq<Token>, LexError>
    requires k < |s| && s[k] == '['
    decreases |s| - k, 0
  {
    var e := Find(s, ']', k);
    if e == -1 then Failure(Unmatched)
    else if !IsDigits(s[k + 1..e]) then Failure(NonNumeric)
    else Prepend(Index(DecimalValue(s[k + 1..e])), LexFrom(s, e + 1))
  }

  /** The grammar at a field: the segment runs to the next delimiter. */
  function LexSegmentAt(s: string, k: nat): Result<seq<Token>, LexError>
    requires k < |s| && !IsDelimiter(s[k])
    decreases |s| - k, 0
  {
    var n := SegmentEnd(s, k);
    Prepend(Field(s[k..n]), LexFrom(s, n))
  }

  function Lex(s: string): Result<seq<Token>, LexError> {
    LexFrom(s, 0)
  }

  /** `tokenize_path`: the empty path is refused before the grammar is consulted. */
  function Tokenize(path: string): (r: Result<seq<Token>, PayloadError>)
    ensures r == Failure(EmptyPath) <==> path == []
    ensures r.Failure? ==> r.error in {EmptyPath, UnmatchedBracket(path), NonNumericIndex(path)}
  {
    if path == [] then Failure(EmptyPath)
    else match Lex(path)
      case Success(ts) => Success(ts)
      case Failure(Unmatched) => Failure(UnmatchedBracket(path))
      case Failure(NonNumeric) => Failure(NonNumericIndex(path))
  }

  lemma ThenPrepend(ts: seq<Token>, t: Token, r: Result<seq<Token>, LexError>)
    ensures Then(ts, Prepend(t, r)) == Then(ts + [t], r)
  {
    if r.Success? {
      assert ts + ([t] + r.value) == (ts + [t]) + r.value;
    }
  }

  lemma ThenEmpty(r: Result<seq<Token>, LexError>)
    ensures Then([], r) == r
  {
    if r.Success? {
      assert [] + r.value == r.value;
    }
  }

  /** The tokens after a delimiter: a non-empty buffer is emitted as a field. */
  function Flush(tokens: seq<Token>, buffer: string): seq<Token> {
    if buffer != [] then tokens + [Field(buffer)] else tokens
  }

  /** At a delimiter, the pending segment `path[start..i]` becomes a field if it is not empty. */
  lemma FlushAt(path: string, start: nat, i: nat, tokens: seq<Token>)
    requires start <= i <= |path|
    requires i == |path| || IsDelimiter(path[i])
    requires forall j :: start <= j < i ==> !IsDelimiter(path[j])
    ensures Then(tokens, LexFrom(path, start)) == Then(Flush(tokens, path[start..i]), LexFrom(path, i))
  {
    if start < i {
      assert SegmentEnd(path, start) == i;
      ThenPrepend(tokens, Field(path[start..i]), LexFrom(path, i));
    }
  }

  /** The loop step at a `.`: flush the pending segment and move past the dot. */
  lemma DotStep(path: string, start: nat, i: nat, tokens: seq<Token>)
    requires start <= i < |path| && path[i] == '.'
    requires NoDelimiters(path[start..i])
    ensures Then(tokens, LexFrom(path, start)) == Then(Flush(tokens, path[start..i]), LexFrom(path, i + 1))
  {
    assert forall j :: start <= j < i ==> path[j] == path[start..i][j - start];
    FlushAt(path, start, i, tokens);
  }

  /** The loop step at a `[`: flush the pending segment, then the three outcomes of looking for `]`. */
  lemma BracketStep(path: string, start: nat, i: nat, tokens: seq<Token>)
    requires start <= i < |path| && path[i] == '['
    requires NoDelimiters(path[start..i])
    ensures var e := Find(path, ']', i);
      Then(tokens, LexFrom(path, start)) ==
        if e == -1 then Failure(Unmatched)
        else if !IsDigits(path[i + 1..e]) then Failure(NonNumeric)
        else Then(Flush(tokens, path[start..i]) + [Index(DecimalValue(path[i + 1..e]))], LexFrom(path, e + 1))
  {
    assert forall j :: start <= j < i ==> path[j] == path[start..i][j - start];
    FlushAt(path, start, i, tokens);
    var e := Find(path, ']', i);
    if e != -1 && IsDigits(path[i + 1..e]) {
      ThenPrepend(Flush(tokens, path[start..i]), Index(DecimalValue(path[i + 1..e])), LexFrom(path, e + 1));
    }
  }

  /** The loop step at any other character: the pending segment grows by one. */
  lemma CharStep(path: string, start: nat, i: nat)
    requires start <= i < |path|
    ensures path[start..i + 1] == path[start..i] + [path[i]]
  {
  }

  /** After the loop the pending segment, if any, is the last field. */
  lemma FinalFlush(path: string, start: nat, tokens: seq<Token>)
    requires start <= |path| && NoDelimiters(path[start..])
    ensures Then(tokens, LexFrom(path, start)) == Success(Flush(tokens, path[start..]))
  {
    assert forall j :: start <= j < |path| ==> path[j] == path[start..][j - start];
    FlushAt(path, start, |path|, tokens);
    assert path[start..|path|] == path[start..];
    var f := Flush(tokens, path[start..]);
    assert f + [] == f;
  }

  /**
   * `tokenize_path`'s own loop: a cursor `i`, a growing field `buffer` and the
   * `tokens` emitted so far. It computes exactly `Tokenize`.
   */
  method TokenizePath(path: string) returns (r: Result<seq<Token>, PayloadError>)
    ensures r == Tokenize(path)
  {
    if path == [] {
      return Failure(EmptyPath);
    }
    var tokens: seq<Token> := [];
    var buffer: string := "";
    var i := 0;
    ghost var start := 0;
    ghost var goal := Lex(path);
    ThenEmpty(goal);
    while i < |path|
      invariant 0 <= start <= i <= |path|
      invariant buffer == path[start..i]
      invariant NoDelimiters(buffer)
      invariant Then(tokens, LexFrom(path, start)) == goal
    {
      var c := path[i];
      if c == '.' {
        DotStep(path, start, i, tokens);
        tokens, buffer := Flush(tokens, buffer), "";
        i := i + 1;
        start := i;
      } else if c == '[' {
        BracketStep(path, start, i, tokens);
        tokens, buffer := Flush(tokens, buffer), "";
        var end := Find(path, ']', i);
        if end == -1 {
          return Failure(UnmatchedBracket(path));
        }
        var indexStr := path[i + 1..end];
        if !IsDigits(indexStr) {
          return Failure(NonNumericIndex(path));
        }
        tokens := tokens + [Index(DecimalValue(indexStr))];
        i := end + 1;
        start := i;
      } else {
        CharStep(path, start, i);
        buffer := buffer + [c];
        i := i + 1;
      }
    }
    assert buffer == path[start..];
    FinalFlush(path, start, tokens);
    if buffer != [] {
      tokens := tokens + [Field(buffer)];
    }
    return Success(tokens);
  }

  /**
   * One rendered token, as the templates and the instruction translator write
   * paths: a field is its name, after a dot unless it comes first; an index is
   * `[n]`, or `[]` when rendering a pattern (`blind`).
   */
  function Piece(t: Token, first: bool, blind: bool): string {
    match t
    case Field(name) => if first then name else "." + name
    case Index(i) => if blind then "[]" else "[" + NatToString(i) + "]"
  }

  function RenderFrom(ts: seq<Token>, first: bool, blind: bool): string
    decreases |ts|
  {
    if ts == [] then "" else Piece(ts[0], first, blind) + RenderFrom(ts[1..], false, blind)
  }

  /** The path text for a token list, e.g. `series[1].dataLabels.enabled`. */
  function Render(ts: seq<Token>): string {
    RenderFrom(ts, true, false)
  }

  /**
   * `_normalize_tokens` before the join: each field is a part, and each index
   * appends `[]` to the part before it (or is a part `[]` of its own when it
   * comes first). Built from the back, as the loop builds it from the front.
   */
  function NormalizeParts(ts: seq<Token>): (parts: seq<string>)
    ensures parts == [] <==> ts == []
    decreases |ts|
  {
    if ts == [] then []
    else
      var parts := NormalizeParts(ts[..|ts| - 1]);
      match ts[|ts| - 1]
      case Index(_) => if parts != [] then parts[..|parts| - 1] + [parts[|parts| - 1] + "[]"] else ["[]"]
      case Field(name) => parts + [name]
  }

  /** `_normalize_tokens`: the index-free pattern of a token list. */
  function Pattern(ts: seq<Token>): string {
    Join(".", NormalizeParts(ts))
  }
}
