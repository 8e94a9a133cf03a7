/**
 * Character classes and small string utilities shared by the path grammar and
 * the instruction scanners: `str.isdigit`, `int()`, `str.lower`, `str.upper`,
 * `str.strip`, `in` on strings, `"sep".join` and regex `\s`, `\d`, `\w`, all
 * read on ASCII (the digits are `0`-`9` only).
 */
module Text {

  /** An ASCII decimal digit. Python's `str.isdigit` and regex `\d` also accept other Unicode digits. */
  predicate IsDigit(c: char) { '0' <= c <= '9' }

  /** `str.isdigit()` restricted to ASCII: non-empty and every character in `0`-`9`. */
  predicate IsDigits(s: string) {
    |s| > 0 && forall i :: 0 <= i < |s| ==> IsDigit(s[i])
  }

  function DigitValue(c: char): nat
    requires IsDigit(c)
  {
    (c as int - '0' as int) as nat
  }

  /** Python's `int(s)` on a string of decimal digits (leading zeros allowed). */
  function DecimalValue(s: string): nat
    requires forall i :: 0 <= i < |s| ==> IsDigit(s[i])
    decreases |s|
  {
    if s == [] then 0 else 10 * DecimalValue(s[..|s| - 1]) + DigitValue(s[|s| - 1])
  }

  function DigitChar(d: nat): (c: char)
    requires d < 10
    ensures IsDigit(c) && DigitValue(c) == d
  {
    ('0' as int + d) as char
  }

  /** Python's `str(n)` for a non-negative integer: decimal, no leading zeros. */
  function NatToString(n: nat): (s: string)
    ensures IsDigits(s)
    decreases n
  {
    if n < 10 then [DigitChar(n)] else NatToString(n / 10) + [DigitChar(n % 10)]
  }

  /** Python's `str(i)` for any integer. */
  function IntToString(i: int): string {
    if i < 0 then "-" + NatToString(-i) else NatToString(i)
  }

  /** `str(n)` has no leading zero, except for `0` itself. */
  lemma {:induction false} NatToStringNoLeadingZero(n: nat)
    ensures NatToString(n)[0] == '0' <==> n == 0
    decreases n
  {
    if n >= 10 {
      NatToStringNoLeadingZero(n / 10);
      assert (NatToString(n / 10) + [DigitChar(n % 10)])[0] == NatToString(n / 10)[0];
    }
  }

  /**
   * `str(i)` is decimal: an optional `-` for a negative number, then digits
   * with no leading zero whose value is `abs(i)`; so `int(str(i)) == i`.
   */
  lemma IntToStringValue(i: int)
    ensures var digits := if i < 0 then IntToString(i)[1..] else IntToString(i);
      (i < 0 <==> IntToString(i)[0] == '-')
      && IsDigits(digits) && DecimalValue(digits) == (if i < 0 then -i else i)
      && (digits[0] == '0' <==> i == 0)
  {
    var n: nat := if i < 0 then -i else i;
    DecimalValueOfNatToString(n);
    NatToStringNoLeadingZero(n);
    if i < 0 {
      assert ("-" + NatToString(n))[1..] == NatToString(n);
    }
  }

  /** Reading back a rendered number gives the number: `int(str(n)) == n`. */
  lemma {:induction false} DecimalValueOfNatToString(n: nat)
    ensures DecimalValue(NatToString(n)) == n
    decreases n
  {
    if n >= 10 {
      var s := NatToString(n / 10);
      DecimalValueOfNatToString(n / 10);
      var t := s + [DigitChar(n % 10)];
      assert t[..|t| - 1] == s;
    }
  }

  /** The ASCII letters and digits, and `_`: the model of regex `\w`. */
  predicate IsWordChar(c: char) {
    ('a' <= c <= 'z') || ('A' <= c <= 'Z') || IsDigit(c) || c == '_'
  }

  /** Python's whitespace (`str.isspace`, regex `\s`). */
  predicate IsSpace(c: char) {
    c == ' ' || ('\t' <= c <= '\r') || ('\U{1C}' <= c <= '\U{1F}')
    || c == '\U{85}' || c == '\U{A0}' || c == '\U{1680}'
    || ('\U{2000}' <= c <= '\U{200A}') || c == '\U{2028}' || c == '\U{2029}'
    || c == '\U{202F}' || c == '\U{205F}' || c == '\U{3000}'
  }

  function LowerChar(c: char): char {
    if 'A' <= c <= 'Z' then (c as int + 32) as char else c
  }

  function UpperChar(c: char): char {
    if 'a' <= c <= 'z' then (c as int - 32) as char else c
  }

  /** `str.lower()` on ASCII letters; every other character is kept. */
  function Lower(s: string): (r: string)
    ensures |r| == |s| && forall i :: 0 <= i < |s| ==> r[i] == LowerChar(s[i])
  {
    seq(|s|, i requires 0 <= i < |s| => LowerChar(s[i]))
  }

  /** `str.upper()` on ASCII letters; every other character is kept. */
  function Upper(s: string): (r: string)
    ensures |r| == |s| && forall i :: 0 <= i < |s| ==> r[i] == UpperChar(s[i])
  {
    seq(|s|, i requires 0 <= i < |s| => UpperChar(s[i]))
  }

  /** `sub` occurs in `s` starting at position `i`. */
  predicate OccursAt(s: string, sub: string, i: nat) {
    i + |sub| <= |s| && s[i..i + |sub|] == sub
  }

  /** Python's `sub in s`. */
  predicate Contains(s: string, sub: string) {
    exists i: nat | i <= |s| :: OccursAt(s, sub, i)
  }

  /** A text that contains `sub` contains every piece of it. */
  lemma ContainsPart(s: string, sub: string, i: nat, j: nat)
    requires Contains(s, sub) && i <= j <= |sub|
    ensures Contains(s, sub[i..j])
  {
    var p: nat :| p <= |s| && OccursAt(s, sub, p);
    assert forall x :: p <= x < p + |sub| ==> s[x] == sub[x - p];
    assert s[p + i..p + j] == sub[i..j];
    assert OccursAt(s, sub[i..j], p + i);
  }

  /** Python's `s.startswith(prefix)`. */
  predicate StartsWith(s: string, prefix: string) {
    |prefix| <= |s| && s[..|prefix|] == prefix
  }

  /** Number of leading whitespace characters. */
  function LeadingSpace(s: string): (n: nat)
    ensures n <= |s|
    ensures forall i :: 0 <= i < n ==> IsSpace(s[i])
    ensures n < |s| ==> !IsSpace(s[n])
    decreases |s|
  {
    if s != [] && IsSpace(s[0]) then 1 + LeadingSpace(s[1..]) else 0
  }

  /** Number of trailing whitespace characters. */
  function TrailingSpace(s: string): (n: nat)
    ensures n <= |s|
    ensures forall i :: |s| - n <= i < |s| ==> IsSpace(s[i])
    ensures n < |s| ==> !IsSpace(s[|s| - 1 - n])
    decreases |s|
  {
    if s != [] && IsSpace(s[|s| - 1]) then 1 + TrailingSpace(s[..|s| - 1]) else 0
  }

  /** Python's `str.strip()`: drop whitespace at both ends; what is left is a slice of `s`. */
  function Strip(s: string): (r: string)
    ensures r == [] || (!IsSpace(r[0]) && !IsSpace(r[|r| - 1]))
    ensures LeadingSpace(s) + |r| <= |s| && r == s[LeadingSpace(s)..LeadingSpace(s) + |r|]
    ensures forall i :: 0 <= i < |s| && !IsSpace(s[i]) ==> LeadingSpace(s) <= i < LeadingSpace(s) + |r|
  {
    var a := LeadingSpace(s);
    var t := s[a..];
    var b := TrailingSpace(t);
    t[..|t| - b]
  }

  /** Python's `sep.join(parts)`. */
  function Join(sep: string, parts: seq<string>): string
    decreases |parts|
  {
    if parts == [] then ""
    else if |parts| == 1 then parts[0]
    else parts[0] + sep + Join(sep, parts[1..])
  }

  /** The position of the first character of `s` that is in `breaks`, or `|s|`. */
  function BreakAt(s: string, breaks: set<char>): (i: nat)
    ensures i <= |s| && (i < |s| ==> s[i] in breaks)
    ensures forall j :: 0 <= j < i ==> s[j] !in breaks
    decreases |s|
  {
    if s == [] || s[0] in breaks then 0 else 1 + BreakAt(s[1..], breaks)
  }

  /** `s` cut at every break character (the breaks themselves dropped). */
  function Pieces(s: string, breaks: set<char>): (ps: seq<string>)
    ensures ps != []
    decreases |s|
  {
    var i := BreakAt(s, breaks);
    if i == |s| then [s] else [s[..i]] + Pieces(s[i + 1..], breaks)
  }

  /** The pieces stripped, the blank ones dropped. */
  function NonBlank(ps: seq<string>): seq<string>
    decreases |ps|
  {
    if ps == [] then [] else (if Strip(ps[0]) == "" then [] else [Strip(ps[0])]) + NonBlank(ps[1..])
  }

  /**
   * The text between break characters, each piece stripped and the blank ones
   * dropped: what splitting at the breaks (`re.split` on a run of them, or
   * `splitlines`), then `strip` and a test for emptiness, leave.
   */
  function StrippedPieces(s: string, breaks: set<char>): seq<string> {
    NonBlank(Pieces(s, breaks))
  }

  lemma {:induction false} NonBlankAppend(x: seq<string>, y: seq<string>)
    ensures NonBlank(x + y) == NonBlank(x) + NonBlank(y)
    decreases |x|
  {
    if x == [] {
      assert x + y == y;
    } else {
      assert (x + y)[1..] == x[1..] + y;
      NonBlankAppend(x[1..], y);
    }
  }

  /** Text without a break is one piece, or none when it is blank. */
  lemma PiecesWithoutBreak(s: string, breaks: set<char>)
    requires forall j :: 0 <= j < |s| ==> s[j] !in breaks
    ensures StrippedPieces(s, breaks) == if Strip(s) == "" then [] else [Strip(s)]
  {
    assert BreakAt(s, breaks) == |s|;
    assert Pieces(s, breaks) == [s];
    assert [s][1..] == [];
    var h := if Strip(s) == "" then [] else [Strip(s)];
    assert NonBlank([s]) == h + [];
  }

  /** The first break of a text that continues with a break is its own first break, or that one. */
  lemma {:induction false} BreakAtPrefix(a: string, s: string, breaks: set<char>)
    requires |a| < |s| && s[..|a|] == a && s[|a|] in breaks
    ensures BreakAt(s, breaks) == BreakAt(a, breaks)
    decreases |a|
  {
    if a != [] && a[0] !in breaks {
      assert s[1..][..|a| - 1] == a[1..];
      BreakAtPrefix(a[1..], s[1..], breaks);
    }
  }

  lemma {:induction false} PiecesAtBreakRaw(a: string, b: char, c: string, breaks: set<char>)
    requires b in breaks
    ensures Pieces(a + [b] + c, breaks) == Pieces(a, breaks) + Pieces(c, breaks)
    decreases |a|
  {
    var s := a + [b] + c;
    var i := BreakAt(a, breaks);
    assert s[..|a|] == a;
    BreakAtPrefix(a, s, breaks);
    if i == |a| {
      assert s[|a| + 1..] == c;
    } else {
      assert s[..i] == a[..i];
      assert s[i + 1..] == a[i + 1..] + [b] + c;
      PiecesAtBreakRaw(a[i + 1..], b, c, breaks);
    }
  }

  /** A break separates: the pieces of `a + [b] + c` are those of `a`, then those of `c`. */
  lemma PiecesAtBreak(a: string, b: char, c: string, breaks: set<char>)
    requires b in breaks
    ensures StrippedPieces(a + [b] + c, breaks) == StrippedPieces(a, breaks) + StrippedPieces(c, breaks)
  {
    PiecesAtBreakRaw(a, b, c, breaks);
    NonBlankAppend(Pieces(a, breaks), Pieces(c, breaks));
  }

  predicate Clean(p: string, breaks: set<char>) {
    p != "" && !IsSpace(p[0]) && !IsSpace(p[|p| - 1]) && forall j :: 0 <= j < |p| ==> p[j] !in breaks
  }

  /** A non-blank stripped piece free of breaks is clean. */
  lemma StripClean(p: string, breaks: set<char>)
    requires Strip(p) != "" && forall j :: 0 <= j < |p| ==> p[j] !in breaks
    ensures Clean(Strip(p), breaks)
  {
    var h := Strip(p);
    var a := LeadingSpace(p);
    assert forall j :: 0 <= j < |h| ==> h[j] == p[a + j];
  }

  lemma {:induction false} NonBlankClean(ps: seq<string>, breaks: set<char>)
    requires forall k :: 0 <= k < |ps| ==> forall j :: 0 <= j < |ps[k]| ==> ps[k][j] !in breaks
    ensures forall k :: 0 <= k < |NonBlank(ps)| ==> Clean(NonBlank(ps)[k], breaks)
    decreases |ps|
  {
    if ps != [] {
      NonBlankClean(ps[1..], breaks);
      var h := Strip(ps[0]);
      var first := if h == "" then [] else [h];
      assert NonBlank(ps) == first + NonBlank(ps[1..]);
      if h != "" {
        StripClean(ps[0], breaks);
      }
      forall k | 0 <= k < |NonBlank(ps)|
        ensures Clean(NonBlank(ps)[k], breaks)
      {
        if k >= |first| {
          assert NonBlank(ps)[k] == NonBlank(ps[1..])[k - |first|];
        }
      }
    }
  }

  lemma {:induction false} PiecesHaveNoBreak(s: string, breaks: set<char>)
    ensures forall k :: 0 <= k < |Pieces(s, breaks)| ==> forall j :: 0 <= j < |Pieces(s, breaks)[k]| ==> Pieces(s, breaks)[k][j] !in breaks
    decreases |s|
  {
    var i := BreakAt(s, breaks);
    if i < |s| {
      PiecesHaveNoBreak(s[i + 1..], breaks);
      assert forall j :: 0 <= j < i ==> s[..i][j] == s[j];
    }
  }

  /** Every piece is non-blank, stripped at both ends, and free of breaks. */
  lemma PiecesClean(s: string, breaks: set<char>)
    ensures forall k :: 0 <= k < |StrippedPieces(s, breaks)| ==> Clean(StrippedPieces(s, breaks)[k], breaks)
  {
    PiecesHaveNoBreak(s, breaks);
    NonBlankClean(Pieces(s, breaks), breaks);
  }
}
