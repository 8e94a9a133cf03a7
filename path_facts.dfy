/**
 * What `tokenize_path` and `_normalize_tokens` promise: the shape of the
 * tokens, the three ways a path is refused, how dots split a path, that a
 * rendered token list reads back as itself, and that a pattern forgets index
 * values and nothing else.
 */
module PathFacts {
  import opened Wrappers
  import opened Text
  import opened ChartErrors
  import opened PathGrammar

  // ---------------------------------------------------------------- shape

  /** Every token the grammar emits is well formed: fields are non-empty and hold no `.` or `[`. */
  lemma {:induction false} LexWellFormed(s: string, k: nat)
    requires k <= |s|
    ensures LexFrom(s, k).Success? ==> WellFormedTokens(LexFrom(s, k).value)
    decreases |s| - k
  {
    if k == |s| {
    } else if s[k] == '.' {
      LexWellFormed(s, k + 1);
    } else if s[k] == '[' {
      var e := Find(s, ']', k);
      if e != -1 && IsDigits(s[k + 1..e]) {
        LexWellFormed(s, e + 1);
      }
    } else {
      var n := SegmentEnd(s, k);
      LexWellFormed(s, n);
      assert forall j :: 0 <= j < n - k ==> s[k..n][j] == s[k + j];
      assert WellFormedToken(Field(s[k..n]));
    }
  }

  /** The shape of a successful `tokenize_path`: a non-empty path and well-formed tokens. */
  lemma TokenizeShape(path: string)
    ensures Tokenize(path).Success? ==> path != [] && WellFormedTokens(Tokenize(path).value)
  {
    LexWellFormed(path, 0);
  }

  // ---------------------------------------------------------------- shifting and appending

  lemma PrependThen(t: Token, ts: seq<Token>, r: Result<seq<Token>, LexError>)
    ensures Then([t] + ts, r) == Prepend(t, Then(ts, r))
  {
    if r.Success? {
      assert ([t] + ts) + r.value == [t] + (ts + r.value);
    }
  }

  /** `find` is determined by where the character first occurs. */
  lemma FindIs(s: string, c: char, start: nat, r: nat)
    requires start <= r < |s| && s[r] == c
    requires forall j :: start <= j < r ==> s[j] != c
    ensures Find(s, c, start) == r
  {
  }

  lemma FindNone(s: string, c: char, start: nat)
    requires forall j :: start <= j < |s| ==> s[j] != c
    ensures Find(s, c, start) == -1
  {
  }

  /** A segment end is determined by where the first delimiter occurs. */
  lemma SegmentEndIs(s: string, k: nat, n: nat)
    requires k <= n <= |s|
    requires forall j :: k <= j < n ==> !IsDelimiter(s[j])
    requires n < |s| ==> IsDelimiter(s[n])
    ensures SegmentEnd(s, k) == n
  {
  }

  /** Looking for `]` after a prefix finds it where it is in the rest, shifted. */
  lemma ShiftFind(a: string, b: string, j: nat)
    requires j < |b| && b[j] == '['
    ensures var e := Find(b, ']', j);
      Find(a + b, ']', |a| + j) == (if e == -1 then -1 else |a| + e)
      && (e != -1 ==> (a + b)[|a| + j + 1..|a| + e] == b[j + 1..e])
  {
    var s := a + b;
    var e := Find(b, ']', j);
    assert forall q :: |a| <= q < |s| ==> s[q] == b[q - |a|];
    if e == -1 {
      FindNone(s, ']', |a| + j);
    } else {
      FindIs(s, ']', |a| + j, |a| + e);
      assert s[|a| + j + 1..|a| + e] == b[j + 1..e];
    }
  }

  /** A field segment after a prefix ends where it ends in the rest, shifted. */
  lemma ShiftSegment(a: string, b: string, j: nat)
    requires j <= |b|
    ensures var n := SegmentEnd(b, j);
      SegmentEnd(a + b, |a| + j) == |a| + n && (a + b)[|a| + j..|a| + n] == b[j..n]
  {
    var s := a + b;
    var n := SegmentEnd(b, j);
    assert forall q :: |a| <= q < |s| ==> s[q] == b[q - |a|];
    SegmentEndIs(s, |a| + j, |a| + n);
    assert s[|a| + j..|a| + n] == b[j..n];
  }

  lemma ShiftIndexStep(a: string, b: string, j: nat)
    requires j < |b| && b[j] == '['
    requires Find(b, ']', j) != -1 ==> LexFrom(a + b, |a| + Find(b, ']', j) + 1) == LexFrom(b, Find(b, ']', j) + 1)
    ensures LexIndexAt(a + b, |a| + j) == LexIndexAt(b, j)
  {
    ShiftFind(a, b, j);
  }

  lemma ShiftSegmentStep(a: string, b: string, j: nat)
    requires j < |b| && !IsDelimiter(b[j])
    requires LexFrom(a + b, |a| + SegmentEnd(b, j)) == LexFrom(b, SegmentEnd(b, j))
    ensures LexSegmentAt(a + b, |a| + j) == LexSegmentAt(b, j)
  {
    ShiftSegment(a, b, j);
  }

  /** What follows a prefix lexes as if the prefix were not there. */
  lemma {:induction false} LexShift(a: string, b: string, j: nat)
    requires j <= |b|
    ensures LexFrom(a + b, |a| + j) == LexFrom(b, j)
    decreases |b| - j
  {
    if j < |b| {
      assert (a + b)[|a| + j] == b[j];
      if b[j] == '.' {
        LexShift(a, b, j + 1);
      } else if b[j] == '[' {
        var e := Find(b, ']', j);
        if e != -1 {
          LexShift(a, b, e + 1);
        }
        ShiftIndexStep(a, b, j);
      } else {
        LexShift(a, b, SegmentEnd(b, j));
        ShiftSegmentStep(a, b, j);
      }
    }
  }

  lemma AppendIndexStep(a: string, b: string, k: nat, e: nat)
    requires k < |a| && a[k] == '[' && e == Find(a, ']', k) && IsDigits(a[k + 1..e])
    requires LexFrom(a, e + 1).Success?
    requires LexFrom(a + b, e + 1) == Then(LexFrom(a, e + 1).value, Lex(b))
    ensures LexIndexAt(a, k).Success?
    ensures LexIndexAt(a + b, k) == Then(LexIndexAt(a, k).value, Lex(b))
  {
    var s := a + b;
    assert forall q :: k <= q <= e ==> s[q] == a[q];
    FindIs(s, ']', k, e);
    assert s[k + 1..e] == a[k + 1..e];
    PrependThen(Index(DecimalValue(a[k + 1..e])), LexFrom(a, e + 1).value, Lex(b));
  }

  lemma AppendSegmentStep(a: string, b: string, k: nat, n: nat)
    requires k < |a| && !IsDelimiter(a[k]) && n == SegmentEnd(a, k)
    requires b == [] || IsDelimiter(b[0])
    requires LexFrom(a, n).Success?
    requires LexFrom(a + b, n) == Then(LexFrom(a, n).value, Lex(b))
    ensures LexSegmentAt(a, k).Success?
    ensures LexSegmentAt(a + b, k) == Then(LexSegmentAt(a, k).value, Lex(b))
  {
    var s := a + b;
    assert forall q :: k <= q < n ==> s[q] == a[q];
    assert n < |s| ==> IsDelimiter(s[n]);
    SegmentEndIs(s, k, n);
    assert s[k..n] == a[k..n];
    PrependThen(Field(a[k..n]), LexFrom(a, n).value, Lex(b));
  }

  /**
   * A path that lexes can be continued at a delimiter: the tokens of `a + b`
   * are those of `a` followed by those of `b`.
   */
  lemma {:induction false} LexAppendFrom(a: string, b: string, k: nat)
    requires k <= |a| && LexFrom(a, k).Success?
    requires b == [] || IsDelimiter(b[0])
    ensures LexFrom(a + b, k) == Then(LexFrom(a, k).value, Lex(b))
    decreases |a| - k
  {
    if k == |a| {
      LexShift(a, b, 0);
      ThenEmpty(Lex(b));
    } else {
      assert (a + b)[k] == a[k];
      if a[k] == '.' {
        LexAppendFrom(a, b, k + 1);
      } else if a[k] == '[' {
        var e := Find(a, ']', k);
        LexAppendFrom(a, b, e + 1);
        AppendIndexStep(a, b, k, e);
      } else {
        var n := SegmentEnd(a, k);
        LexAppendFrom(a, b, n);
        AppendSegmentStep(a, b, k, n);
      }
    }
  }

  lemma LexAppend(a: string, b: string)
    requires Lex(a).Success?
    requires b == [] || IsDelimiter(b[0])
    ensures Lex(a + b) == Then(Lex(a).value, Lex(b))
  {
    LexAppendFrom(a, b, 0);
  }

  /**
   * Dots only separate: `a.b` lexes as `a` then `b`. With `a` ending in a dot
   * this is a doubled dot, and with `b` empty a trailing one; neither adds a token.
   */
  lemma DotSplit(a: string, b: string)
    requires Lex(a).Success?
    ensures Lex(a + "." + b) == Then(Lex(a).value, Lex(b))
  {
    LexAppend(a, "." + b);
    assert a + "." + b == a + ("." + b);
    LexShift(".", b, 0);
  }

  /** A leading dot produces no token. */
  lemma LeadingDot(s: string)
    requires Tokenize(s).Success?
    ensures Tokenize("." + s) == Tokenize(s)
  {
    LexShift(".", s, 0);
  }

  /** A trailing dot produces no token. */
  lemma TrailingDot(a: string)
    requires Lex(a).Success?
    ensures Lex(a + ".") == Lex(a)
  {
    DotSplit(a, "");
    assert a + "." + "" == a + ".";
    assert Lex(a).value + [] == Lex(a).value;
  }

  // ---------------------------------------------------------------- rendering reads back

  lemma RenderStartsWithDelimiter(ts: seq<Token>, x: string)
    requires x == [] || IsDelimiter(x[0])
    ensures var s := RenderFrom(ts, false, false) + x; s == [] || IsDelimiter(s[0])
  {
    if ts != [] {
      var p := Piece(ts[0], false, false);
      assert RenderFrom(ts, false, false) + x == p + (RenderFrom(ts[1..], false, false) + x);
      assert p[0] == '.' || p[0] == '[';
    }
  }

  /** A field segment followed by a delimiter (or nothing) lexes as that field. */
  lemma LexField(b: string, rest: string)
    requires b != [] && NoDelimiters(b)
    requires rest == [] || IsDelimiter(rest[0])
    ensures Lex(b + rest) == Prepend(Field(b), Lex(rest))
  {
    var s := b + rest;
    assert forall q :: 0 <= q < |b| ==> s[q] == b[q];
    assert |b| < |s| ==> s[|b|] == rest[0];
    SegmentEndIs(s, 0, |b|);
    assert s[0..|b|] == b;
    LexShift(b, rest, 0);
    assert LexFrom(s, 0) == LexSegmentAt(s, 0);
  }

  /** `[n]` lexes as the index `n`, whatever follows it. */
  lemma LexIndexPiece(i: nat, rest: string)
    ensures Lex("[" + NatToString(i) + "]" + rest) == Prepend(Index(i), Lex(rest))
  {
    var d := NatToString(i);
    var p := "[" + d + "]";
    var s := p + rest;
    assert s == "[" + d + "]" + rest;
    assert s[1 + |d|] == ']';
    assert forall j :: 0 <= j < |d| ==> s[1 + j] == d[j];
    assert forall j :: 0 <= j < |d| ==> d[j] != ']' by {
      forall j | 0 <= j < |d| ensures d[j] != ']' {
        assert IsDigit(d[j]);
      }
    }
    FindIs(s, ']', 0, 1 + |d|);
    assert s[1..1 + |d|] == d;
    DecimalValueOfNatToString(i);
    LexShift(p, rest, 0);
    assert s[0] == '[' && |p| == 2 + |d|;
    assert LexFrom(s, 0) == LexIndexAt(s, 0);
  }

  /** One rendered token, followed by a delimiter or nothing, lexes as that token. */
  lemma LexPiece(t: Token, first: bool, rest: string)
    requires WellFormedToken(t)
    requires rest == [] || IsDelimiter(rest[0])
    ensures Lex(Piece(t, first, false) + rest) == Prepend(t, Lex(rest))
  {
    match t
    case Field(name) =>
      LexField(name, rest);
      if !first {
        assert "." + name + rest == "." + (name + rest);
        LexShift(".", name + rest, 0);
      }
    case Index(i) =>
      LexIndexPiece(i, rest);
  }

  lemma WellFormedTail(ts: seq<Token>)
    requires ts != [] && WellFormedTokens(ts)
    ensures WellFormedToken(ts[0]) && WellFormedTokens(ts[1..])
  {
    assert forall k :: 0 <= k < |ts[1..]| ==> ts[1..][k] == ts[k + 1];
  }

  lemma {:induction false} LexRenderFrom(ts: seq<Token>, first: bool, x: string)
    requires WellFormedTokens(ts)
    requires x == [] || IsDelimiter(x[0])
    ensures Lex(RenderFrom(ts, first, false) + x) == Then(ts, Lex(x))
    decreases |ts|
  {
    if ts == [] {
      assert RenderFrom(ts, first, false) + x == x;
      ThenEmpty(Lex(x));
    } else {
      var rest := RenderFrom(ts[1..], false, false) + x;
      WellFormedTail(ts);
      LexRenderFrom(ts[1..], false, x);
      RenderStartsWithDelimiter(ts[1..], x);
      assert RenderFrom(ts, first, false) + x == Piece(ts[0], first, false) + rest;
      LexPiece(ts[0], first, rest);
      assert ts == [ts[0]] + ts[1..];
      PrependThen(ts[0], ts[1..], Lex(x));
    }
  }

  /** Render then tokenize is the identity on the token lists `tokenize_path` can produce. */
  lemma TokenizeRender(ts: seq<Token>)
    requires ts != [] && WellFormedTokens(ts)
    ensures Tokenize(Render(ts)) == Success(ts)
  {
    LexRenderFrom(ts, true, "");
    assert Render(ts) + "" == Render(ts);
    assert ts + [] == ts;
    assert Render(ts) == Piece(ts[0], true, false) + RenderFrom(ts[1..], false, false);
    assert Render(ts) != [] by {
      match ts[0]
      case Field(name) => assert WellFormedToken(ts[0]);
      case Index(i) =>
    }
  }

  /** Tokenize, render, tokenize gives the first tokens again (for a path with at least one token). */
  lemma TokenizeRenderTokenize(path: string)
    requires Tokenize(path).Success? && Tokenize(path).value != []
    ensures Tokenize(Render(Tokenize(path).value)) == Tokenize(path)
  {
    TokenizeShape(path);
    TokenizeRender(Tokenize(path).value);
  }

  /** A path of dots alone is accepted by `tokenize_path` and yields no tokens at all. */
  lemma OnlyDotsYieldNothing()
    ensures Tokenize("..") == Success([])
  {
    assert ".."[0] == '.' && ".."[1] == '.';
  }

  /** The documented example: `series[1].dataLabels.enabled`. */
  lemma TokenizeExample()
    ensures Tokenize("series[1].dataLabels.enabled")
      == Success([Field("series"), Index(1), Field("dataLabels"), Field("enabled")])
  {
    var ts := [Field("series"), Index(1), Field("dataLabels"), Field("enabled")];
    assert WellFormedTokens(ts) by {
      assert NoDelimiters("series") && NoDelimiters("dataLabels") && NoDelimiters("enabled");
    }
    RenderExample();
    TokenizeRender(ts);
  }

  lemma RenderExample()
    ensures Render([Field("series"), Index(1), Field("dataLabels"), Field("enabled")]) == "series[1].dataLabels.enabled"
  {
    var ts := [Field("series"), Index(1), Field("dataLabels"), Field("enabled")];
    RenderExampleTail();
    assert NatToString(1) == "1";
    assert ts[1..][1..] == ts[2..];
    assert RenderFrom(ts[1..], false, false) == "[1]" + ".dataLabels.enabled";
    assert Render(ts) == "series" + ("[1]" + ".dataLabels.enabled");
    LiteralExample();
  }

  lemma RenderExampleTail()
    ensures RenderFrom([Field("series"), Index(1), Field("dataLabels"), Field("enabled")][2..], false, false) == ".dataLabels.enabled"
  {
    var ts := [Field("dataLabels"), Field("enabled")];
    assert RenderFrom(ts[1..], false, false) == ".enabled";
    assert RenderFrom(ts, false, false) == ".dataLabels" + ".enabled";
  }

  lemma LiteralExample()
    ensures "series" + ("[1]" + ".dataLabels.enabled") == "series[1].dataLabels.enabled"
  {
  }

  // ---------------------------------------------------------------- refusals

  /** A `[` with no `]` anywhere after it makes the grammar fail. */
  lemma {:induction false} LexUnclosedFails(s: string, k: nat, i: nat)
    requires k <= i < |s| && s[i] == '['
    requires forall j :: i < j < |s| ==> s[j] != ']'
    ensures LexFrom(s, k).Failure?
    decreases |s| - k
  {
    if s[k] == '.' {
      LexUnclosedFails(s, k + 1, i);
    } else if s[k] == '[' {
      var e := Find(s, ']', k);
      if e != -1 && IsDigits(s[k + 1..e]) {
        assert e < i;
        LexUnclosedFails(s, e + 1, i);
      }
    } else {
      var n := SegmentEnd(s, k);
      assert n <= i;
      LexUnclosedFails(s, n, i);
    }
  }

  /** `tokenize_path` raises for any path with a `[` that is never closed. */
  lemma TokenizeUnclosedFails(path: string, i: nat)
    requires i < |path| && path[i] == '['
    requires forall j :: i < j < |path| ==> path[j] != ']'
    ensures Tokenize(path).Failure?
  {
    LexUnclosedFails(path, 0, i);
  }

  /** After a valid prefix, an unclosed `[` is reported as unmatched. */
  lemma UnmatchedAfterValidPrefix(ts: seq<Token>, c: string)
    requires WellFormedTokens(ts)
    requires forall j :: 0 <= j < |c| ==> c[j] != ']'
    ensures Tokenize(Render(ts) + "[" + c) == Failure(UnmatchedBracket(Render(ts) + "[" + c))
  {
    var x := "[" + c;
    LexRenderFrom(ts, true, x);
    assert Render(ts) + "[" + c == Render(ts) + x;
    assert forall j :: 1 <= j < |x| ==> x[j] == c[j - 1];
    FindNone(x, ']', 0);
    assert Lex(x) == LexIndexAt(x, 0);
  }

  /**
   * After a valid prefix, a closed bracket whose contents are not all digits
   * (the empty `[]` included) is reported as non-numeric.
   */
  lemma NonNumericAfterValidPrefix(ts: seq<Token>, c: string, rest: string)
    requires WellFormedTokens(ts)
    requires forall j :: 0 <= j < |c| ==> c[j] != ']'
    requires !IsDigits(c)
    ensures var path := Render(ts) + "[" + c + "]" + rest;
      Tokenize(path) == Failure(NonNumericIndex(path))
  {
    var x := "[" + c + "]" + rest;
    LexRenderFrom(ts, true, x);
    assert Render(ts) + "[" + c + "]" + rest == Render(ts) + x;
    assert x[1 + |c|] == ']';
    assert forall j :: 1 <= j < 1 + |c| ==> x[j] == c[j - 1];
    FindIs(x, ']', 0, 1 + |c|);
    assert x[1..1 + |c|] == c;
    assert Lex(x) == LexIndexAt(x, 0);
  }

  /** The empty brackets `[]` are refused as a non-numeric index. */
  lemma EmptyBracketsRefused(ts: seq<Token>, rest: string)
    requires WellFormedTokens(ts)
    ensures var path := Render(ts) + "[]" + rest;
      Tokenize(path) == Failure(NonNumericIndex(path))
  {
    NonNumericAfterValidPrefix(ts, "", rest);
    assert Render(ts) + "[" + "" + "]" + rest == Render(ts) + "[]" + rest;
  }

  /** Without a `[` nothing can go wrong in the grammar. */
  lemma {:induction false} LexWithoutBracketSucceeds(s: string, k: nat)
    requires k <= |s|
    requires forall j :: k <= j < |s| ==> s[j] != '['
    ensures LexFrom(s, k).Success?
    decreases |s| - k
  {
    if k == |s| {
    } else if s[k] == '.' {
      LexWithoutBracketSucceeds(s, k + 1);
    } else {
      LexWithoutBracketSucceeds(s, SegmentEnd(s, k));
    }
  }

  /** The only way `tokenize_path` refuses a bracket-free path is for being empty. */
  lemma TokenizeWithoutBracket(path: string)
    requires forall j :: 0 <= j < |path| ==> path[j] != '['
    ensures Tokenize(path).Success? <==> path != []
  {
    LexWithoutBracketSucceeds(path, 0);
  }

  // ---------------------------------------------------------------- patterns

  lemma {:induction false} RenderFromAppend(a: seq<Token>, b: seq<Token>, first: bool, blind: bool)
    ensures RenderFrom(a + b, first, blind) == RenderFrom(a, first, blind) + RenderFrom(b, first && a == [], blind)
    decreases |a|
  {
    if a == [] {
      assert a + b == b;
    } else {
      assert (a + b)[1..] == a[1..] + b;
      RenderFromAppend(a[1..], b, false, blind);
    }
  }

  lemma {:induction false} JoinSnoc(sep: string, parts: seq<string>, x: string)
    ensures Join(sep, parts + [x]) == if parts == [] then x else Join(sep, parts) + sep + x
    decreases |parts|
  {
    if |parts| > 1 {
      assert (parts + [x])[1..] == parts[1..] + [x];
      JoinSnoc(sep, parts[1..], x);
    } else if |parts| == 1 {
      assert (parts + [x])[1..] == [x];
    }
  }

  lemma {:induction false} JoinExtendLast(sep: string, parts: seq<string>, y: string)
    requires parts != []
    ensures Join(sep, parts[..|parts| - 1] + [parts[|parts| - 1] + y]) == Join(sep, parts) + y
    decreases |parts|
  {
    var init := parts[..|parts| - 1];
    var last := parts[|parts| - 1];
    if init == [] {
      assert init + [last + y] == [last + y];
    } else {
      JoinSnoc(sep, init, last + y);
      JoinSnoc(sep, init, last);
      assert init + [last] == parts;
    }
  }

  /** An index appends `[]` to the last part, or is the part `[]` when it comes first. */
  lemma PatternSnocIndex(init: seq<Token>, i: nat)
    ensures Pattern(init + [Index(i)]) == Pattern(init) + Piece(Index(i), init == [], true)
  {
    var ts := init + [Index(i)];
    assert ts[..|ts| - 1] == init && ts[|ts| - 1] == Index(i);
    var parts := NormalizeParts(init);
    if parts != [] {
      JoinExtendLast(".", parts, "[]");
    }
  }

  /** A field is a new part, after a dot unless it comes first. */
  lemma PatternSnocField(init: seq<Token>, name: string)
    ensures Pattern(init + [Field(name)]) == Pattern(init) + Piece(Field(name), init == [], true)
  {
    var ts := init + [Field(name)];
    assert ts[..|ts| - 1] == init && ts[|ts| - 1] == Field(name);
    JoinSnoc(".", NormalizeParts(init), name);
  }

  /** One more token extends the pattern as it extends the blind rendering. */
  lemma PatternSnoc(init: seq<Token>, t: Token)
    requires Pattern(init) == RenderFrom(init, true, true)
    ensures Pattern(init + [t]) == RenderFrom(init + [t], true, true)
  {
    RenderFromAppend(init, [t], true, true);
    assert RenderFrom([t], init == [], true) == Piece(t, init == [], true);
    match t
    case Index(i) => PatternSnocIndex(init, i);
    case Field(name) => PatternSnocField(init, name);
  }

  /**
   * `_normalize_tokens` agrees with rendering the path with its indices left
   * out: the pattern of `series[1].dataLabels` is `series[].dataLabels`.
   */
  lemma {:induction false} PatternIsBlindRender(ts: seq<Token>)
    ensures Pattern(ts) == RenderFrom(ts, true, true)
    decreases |ts|
  {
    if ts != [] {
      var init := ts[..|ts| - 1];
      PatternIsBlindRender(init);
      PatternSnoc(init, ts[|ts| - 1]);
      assert init + [ts[|ts| - 1]] == ts;
    }
  }

  /** Tokens of the same shape: the same fields at the same places, indices anywhere in the same places. */
  predicate SameShape(ts: seq<Token>, us: seq<Token>) {
    |ts| == |us| && forall k :: 0 <= k < |ts| ==> (ts[k].Index? <==> us[k].Index?) && (ts[k].Field? ==> ts[k] == us[k])
  }

  lemma {:induction false} BlindRenderIgnoresIndices(ts: seq<Token>, us: seq<Token>, first: bool)
    requires SameShape(ts, us)
    ensures RenderFrom(ts, first, true) == RenderFrom(us, first, true)
    decreases |ts|
  {
    if ts != [] {
      assert SameShape(ts[1..], us[1..]) by {
        forall k | 0 <= k < |ts[1..]| ensures (ts[1..][k].Index? <==> us[1..][k].Index?) && (ts[1..][k].Field? ==> ts[1..][k] == us[1..][k]) {
          assert ts[1..][k] == ts[k + 1] && us[1..][k] == us[k + 1];
        }
      }
      BlindRenderIgnoresIndices(ts[1..], us[1..], false);
      assert SameShape(ts, us);
      assert Piece(ts[0], first, true) == Piece(us[0], first, true);
    }
  }

  /** Normalisation forgets index values: token lists differing only in them have one pattern. */
  lemma PatternIgnoresIndices(ts: seq<Token>, us: seq<Token>)
    requires SameShape(ts, us)
    ensures Pattern(ts) == Pattern(us)
  {
    PatternIsBlindRender(ts);
    PatternIsBlindRender(us);
    BlindRenderIgnoresIndices(ts, us, true);
  }

  /** Only fields, the tokens of a bracket-free path. */
  predicate FieldsOnly(ts: seq<Token>) {
    forall k :: 0 <= k < |ts| ==> ts[k].Field?
  }

  /**
   * A dotted name as the editable templates are written: non-empty segments
   * joined by single dots, and no brackets.
   */
  predicate PlainDotted(s: string) {
    |s| > 0 && s[0] != '.' && s[|s| - 1] != '.'
    && (forall i :: 0 <= i < |s| ==> s[i] != '[')
    && (forall i :: 0 <= i < |s| - 1 ==> !(s[i] == '.' && s[i + 1] == '.'))
  }

  lemma PlainDottedJoin(a: string, b: string)
    requires PlainDotted(a) && PlainDotted(b)
    ensures PlainDotted(a + "." + b)
  {
    var s := a + "." + b;
    assert forall i :: 0 <= i < |a| ==> s[i] == a[i];
    assert forall i :: |a| < i < |s| ==> s[i] == b[i - |a| - 1];
  }

  lemma ShiftBlindRender(f: string, us: seq<Token>)
    requires us != [] && us[0].Field?
    ensures RenderFrom([Field(f)] + us, true, true) == f + "." + RenderFrom(us, true, true)
  {
    assert ([Field(f)] + us)[1..] == us;
    assert RenderFrom(us, false, true) == "." + us[0].name + RenderFrom(us[1..], false, true);
  }

  /** A single field name is its own pattern. */
  lemma SingleFieldPattern(s: string)
    requires s != [] && NoDelimiters(s)
    ensures Lex(s) == Success([Field(s)]) && Pattern([Field(s)]) == s
  {
    LexField(s, "");
    assert s + "" == s;
    assert Lex("") == Success([]);
    assert [Field(s)] + [] == [Field(s)];
    PatternIsBlindRender([Field(s)]);
  }

  /** A field, a dot, and a plain dotted rest: the field leads the tokens and the pattern. */
  lemma PlainDottedCons(f: string, rest: string)
    requires f != [] && NoDelimiters(f)
    requires Lex(rest).Success? && Lex(rest).value != [] && Lex(rest).value[0].Field?
    requires FieldsOnly(Lex(rest).value) && Pattern(Lex(rest).value) == rest
    ensures Lex(f + "." + rest) == Success([Field(f)] + Lex(rest).value)
    ensures FieldsOnly([Field(f)] + Lex(rest).value) && Pattern([Field(f)] + Lex(rest).value) == f + "." + rest
  {
    var us := Lex(rest).value;
    LexField(f, "." + rest);
    assert f + "." + rest == f + ("." + rest);
    LexShift(".", rest, 0);
    PatternIsBlindRender([Field(f)] + us);
    PatternIsBlindRender(us);
    ShiftBlindRender(f, us);
    var vs := [Field(f)] + us;
    assert forall k :: 1 <= k < |vs| ==> vs[k] == us[k - 1];
  }

  /** A template written as a plain dotted name lexes to fields whose pattern is the template itself. */
  lemma {:induction false} PlainDottedPattern(s: string)
    requires PlainDotted(s)
    ensures Lex(s).Success? && Lex(s).value != [] && Lex(s).value[0].Field?
    ensures FieldsOnly(Lex(s).value) && Pattern(Lex(s).value) == s
    decreases |s|
  {
    var n := SegmentEnd(s, 0);
    var f := s[..n];
    assert NoDelimiters(f) by {
      assert forall i :: 0 <= i < n ==> f[i] == s[i];
    }
    if n == |s| {
      assert f == s;
      SingleFieldPattern(s);
    } else {
      var rest := s[n + 1..];
      assert PlainDotted(rest) by {
        assert forall i :: 0 <= i < |rest| ==> rest[i] == s[n + 1 + i];
        assert n + 1 < |s|;
        assert s[n + 1] != '.';
      }
      PlainDottedPattern(rest);
      PlainDottedCons(f, rest);
      assert s == f + "." + rest;
    }
  }

  /** The same, through `tokenize_path`. */
  lemma TokenizePlainDotted(s: string)
    requires PlainDotted(s)
    ensures Tokenize(s).Success? && FieldsOnly(Tokenize(s).value) && Pattern(Tokenize(s).value) == s
  {
    PlainDottedPattern(s);
  }

  /** `series[{index}].<suffix>` rendered for one position. */
  function IndexedPath(head: string, i: nat, suffix: string): string {
    head + "[" + NatToString(i) + "]." + suffix
  }

  lemma RenderHeadIndex(head: string, i: nat)
    ensures Render([Field(head), Index(i)]) == head + "[" + NatToString(i) + "]"
    ensures RenderFrom([Field(head), Index(i)], true, true) == head + "[]"
  {
    var ts := [Field(head), Index(i)];
    assert ts[1..] == [Index(i)] && ts[1..][1..] == [];
    assert RenderFrom(ts[1..][1..], false, false) == "";
    assert RenderFrom(ts[1..], false, false) == "[" + NatToString(i) + "]" + "";
    assert RenderFrom(ts[1..], false, true) == "[]" + "";
  }

  lemma IndexedPathTokens(head: string, i: nat, suffix: string)
    requires head != [] && NoDelimiters(head) && PlainDotted(suffix)
    ensures PlainDotted(suffix) && Lex(suffix).Success?
    ensures Tokenize(IndexedPath(head, i, suffix)) == Success([Field(head), Index(i)] + Lex(suffix).value)
  {
    var ts := [Field(head), Index(i)];
    var x := "." + suffix;
    LexRenderFrom(ts, true, x);
    RenderHeadIndex(head, i);
    assert IndexedPath(head, i, suffix) == Render(ts) + x;
    PlainDottedPattern(suffix);
    LexShift(".", suffix, 0);
  }

  lemma IndexedTokensPattern(head: string, i: nat, us: seq<Token>)
    requires us != [] && us[0].Field?
    ensures Pattern([Field(head), Index(i)] + us) == head + "[]." + Pattern(us)
  {
    var ts := [Field(head), Index(i)];
    PatternIsBlindRender(ts + us);
    PatternIsBlindRender(us);
    RenderFromAppend(ts, us, true, true);
    RenderHeadIndex(head, i);
    RenderAfterHead(us);
  }

  /** After a first token, a leading field is rendered behind a dot. */
  lemma RenderAfterHead(us: seq<Token>)
    requires us != [] && us[0].Field?
    ensures RenderFrom(us, false, true) == "." + RenderFrom(us, true, true)
  {
  }

  /** A rendered indexed path tokenizes, and its pattern is `head[].suffix` whatever the position. */
  lemma IndexedPathPattern(head: string, i: nat, suffix: string)
    requires PlainDotted(head) && PlainDotted(suffix)
    requires forall j :: 0 <= j < |head| ==> head[j] != '.'
    ensures Tokenize(IndexedPath(head, i, suffix)).Success?
    ensures Pattern(Tokenize(IndexedPath(head, i, suffix)).value) == head + "[]." + suffix
  {
    IndexedPathTokens(head, i, suffix);
    PlainDottedPattern(suffix);
    IndexedTokensPattern(head, i, Lex(suffix).value);
  }

  // ------------------------------------------------------------ dotted paths

  /** The segments of a dotted path: at least one, each non-empty and free of delimiters. */
  predicate DottedSegments(segs: seq<string>) {
    segs != [] && forall k :: 0 <= k < |segs| ==> segs[k] != [] && NoDelimiters(segs[k])
  }

  /** The field tokens for the segments. */
  function FieldTokens(segs: seq<string>): (ts: seq<Token>)
    ensures |ts| == |segs| && forall k :: 0 <= k < |segs| ==> ts[k] == Field(segs[k])
  {
    seq(|segs|, k requires 0 <= k < |segs| => Field(segs[k]))
  }

  lemma FieldTokensCons(segs: seq<string>)
    requires segs != []
    ensures FieldTokens(segs) == [Field(segs[0])] + FieldTokens(segs[1..])
  {
  }

  /** Segments joined with dots tokenize to their field tokens, whose pattern is the joined text. */
  lemma {:induction false} JoinTokens(segs: seq<string>)
    requires DottedSegments(segs)
    ensures PlainDotted(Join(".", segs))
    ensures Lex(Join(".", segs)) == Success(FieldTokens(segs))
    ensures FieldsOnly(FieldTokens(segs)) && Pattern(FieldTokens(segs)) == Join(".", segs)
    decreases |segs|
  {
    FieldTokensCons(segs);
    if |segs| == 1 {
      SingleFieldPattern(segs[0]);
      assert FieldTokens(segs) == [Field(segs[0])];
    } else {
      var rest := segs[1..];
      assert DottedSegments(rest) by {
        assert forall k :: 0 <= k < |rest| ==> rest[k] == segs[k + 1];
      }
      JoinTokens(rest);
      assert PlainDotted(segs[0]);
      PlainDottedJoin(segs[0], Join(".", rest));
      PlainDottedCons(segs[0], Join(".", rest));
    }
  }

  lemma TokenizeJoin(segs: seq<string>)
    requires DottedSegments(segs)
    ensures Tokenize(Join(".", segs)) == Success(FieldTokens(segs))
    ensures Pattern(FieldTokens(segs)) == Join(".", segs)
  {
    JoinTokens(segs);
  }

  /** Two dotted paths are the same text only when they have the same segments. */
  lemma JoinInjective(a: seq<string>, b: seq<string>)
    requires DottedSegments(a) && DottedSegments(b) && Join(".", a) == Join(".", b)
    ensures a == b
  {
    JoinTokens(a);
    JoinTokens(b);
    assert forall k :: 0 <= k < |a| ==> FieldTokens(a)[k].name == a[k] && FieldTokens(b)[k].name == b[k];
  }

  /** `JoinInjective` as an implication, for callers that have not yet decided the equality. */
  lemma JoinInjectiveWhen(a: seq<string>, b: seq<string>)
    requires DottedSegments(a) && DottedSegments(b)
    ensures Join(".", a) == Join(".", b) ==> a == b
  {
    if Join(".", a) == Join(".", b) {
      JoinInjective(a, b);
    }
  }

  lemma JoinHasNoBracket(segs: seq<string>, i: nat)
    requires DottedSegments(segs) && i < |Join(".", segs)|
    ensures Join(".", segs)[i] != '['
  {
    JoinTokens(segs);
  }
}
