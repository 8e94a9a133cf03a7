/**
 * Hand-written scanners for the regular expressions of
 * chart_instruction_parser.py. Each pattern is read as a matcher at one
 * position, which returns where the pattern's match from there ends (its
 * greedy choices, with the backtracking the pattern allows), and `re.search`
 * as the leftmost position at which the matcher succeeds.
 */
module Scanners {
  import opened Wrappers
  import opened Text

  /** `re.search`: the leftmost position in `[k, n)` at which `f` matches, with what it found there. */
  function Leftmost<T>(f: nat -> Option<T>, k: nat, n: nat): (r: Option<(nat, T)>)
    ensures r.Some? ==> k <= r.value.0 < n && f(r.value.0) == Some(r.value.1)
    ensures r.Some? ==> forall j :: k <= j < r.value.0 ==> f(j).None?
    ensures r.None? ==> forall j :: k <= j < n ==> f(j).None?
    decreases n - k
  {
    if k >= n then None
    else match f(k)
      case Some(x) => Some((k, x))
      case None => Leftmost(f, k + 1, n)
  }

  /** A match at `k` with none before it is the one `re.search` finds. */
  lemma LeftmostIs<T>(f: nat -> Option<T>, n: nat, k: nat)
    requires k < n && f(k).Some? && forall j :: 0 <= j < k ==> f(j).None?
    ensures Leftmost(f, 0, n) == Some((k, f(k).value))
  {
  }

  /** With no match in `[0, n)`, `re.search` finds nothing. */
  lemma LeftmostNone<T>(f: nat -> Option<T>, n: nat)
    requires forall j :: 0 <= j < n ==> f(j).None?
    ensures Leftmost(f, 0, n).None?
  {
  }

  /** The end of regex `\s*` from `k`. */
  function Spaces(s: string, k: nat): (e: nat)
    requires k <= |s|
    ensures k <= e <= |s| && (e < |s| ==> !IsSpace(s[e]))
    ensures forall j :: k <= j < e ==> IsSpace(s[j])
    decreases |s| - k
  {
    if k < |s| && IsSpace(s[k]) then Spaces(s, k + 1) else k
  }

  /** The end of regex `\d*` from `k`. */
  function DigitsEnd(s: string, k: nat): (e: nat)
    requires k <= |s|
    ensures k <= e <= |s| && (e < |s| ==> !IsDigit(s[e]))
    ensures forall j :: k <= j < e ==> IsDigit(s[j])
    decreases |s| - k
  {
    if k < |s| && IsDigit(s[k]) then DigitsEnd(s, k + 1) else k
  }

  /**
   * Where the lazy `.*?` may stop looking from `k`: `.` does not match a
   * newline, so the positions tried run up to the first newline (included).
   */
  function LineEnd(s: string, k: nat): (e: nat)
    requires k <= |s|
    ensures k <= e <= |s| && (e < |s| ==> s[e] == '\n')
    ensures forall j :: k <= j < e ==> s[j] != '\n'
    decreases |s| - k
  {
    if k < |s| && s[k] != '\n' then LineEnd(s, k + 1) else k
  }

  /** Whether one of `alternatives` occurs at `k`. */
  predicate AnyAt(s: string, alternatives: seq<string>, k: nat) {
    exists a :: 0 <= a < |alternatives| && OccursAt(s, alternatives[a], k)
  }

  /**
   * The position of the first of `alternatives` that occurs at `k`. When no
   * alternative is a prefix of another, it is the only one that occurs there
   * (`PrefixFreeFirstAt`), so taking it is what the regex does whatever
   * follows the alternation.
   */
  function FirstAt(s: string, alternatives: seq<string>, k: nat): (r: Option<nat>)
    ensures r.Some? ==> r.value < |alternatives| && OccursAt(s, alternatives[r.value], k)
    ensures r.Some? ==> forall a :: 0 <= a < r.value ==> !OccursAt(s, alternatives[a], k)
    ensures r.None? <==> !AnyAt(s, alternatives, k)
    decreases |alternatives|
  {
    if alternatives == [] then None
    else if OccursAt(s, alternatives[0], k) then Some(0)
    else match FirstAt(s, alternatives[1..], k)
      case None => None
      case Some(a) => Some(a + 1)
  }

  /** `a` is not a prefix of `b`: it is longer, or the two differ at a position both have. */
  predicate NotPrefix(a: string, b: string) {
    DiffersFrom(a, b, 0)
  }

  /** `a` is not a prefix of `b`, given that their first `i` characters agree. */
  predicate DiffersFrom(a: string, b: string, i: nat)
    decreases |a| - i
  {
    i < |a| && (i >= |b| || a[i] != b[i] || DiffersFrom(a, b, i + 1))
  }

  /** Neither `w` nor any of `rest` is a prefix of the other. */
  predicate Apart(w: string, rest: seq<string>)
    decreases |rest|
  {
    rest == [] || (NotPrefix(w, rest[0]) && NotPrefix(rest[0], w) && Apart(w, rest[1..]))
  }

  /** No alternative is a prefix of another. */
  predicate PrefixFree(alternatives: seq<string>)
    decreases |alternatives|
  {
    alternatives == [] || (Apart(alternatives[0], alternatives[1..]) && PrefixFree(alternatives[1..]))
  }

  /** Two texts occurring at one position agree on the positions both have, so the shorter is a prefix of the longer. */
  lemma {:induction false} OccurBoth(s: string, a: string, b: string, k: nat, i: nat)
    requires |a| <= |b| && OccursAt(s, a, k) && OccursAt(s, b, k)
    ensures !DiffersFrom(a, b, i)
    decreases |a| - i
  {
    if i < |a| {
      assert a[i] == s[k + i] == b[i];
      OccurBoth(s, a, b, k, i + 1);
    }
  }

  lemma {:induction false} ApartFrom(w: string, rest: seq<string>, j: nat)
    requires Apart(w, rest) && j < |rest|
    ensures NotPrefix(w, rest[j]) && NotPrefix(rest[j], w)
    decreases |rest|
  {
    if j > 0 {
      ApartFrom(w, rest[1..], j - 1);
    }
  }

  /** In a prefix-free alternation, an alternative that occurs is the one `FirstAt` finds. */
  lemma {:induction false} PrefixFreeFirstAt(s: string, alternatives: seq<string>, k: nat, a: nat)
    requires PrefixFree(alternatives) && a < |alternatives| && OccursAt(s, alternatives[a], k)
    ensures FirstAt(s, alternatives, k) == Some(a)
    decreases |alternatives|
  {
    if a > 0 {
      var w := alternatives[0];
      var x := alternatives[a];
      assert alternatives[1..][a - 1] == x;
      if OccursAt(s, w, k) {
        ApartFrom(w, alternatives[1..], a - 1);
        if |w| <= |x| {
          OccurBoth(s, w, x, k, 0);
        } else {
          OccurBoth(s, x, w, k, 0);
        }
      }
      PrefixFreeFirstAt(s, alternatives[1..], k, a - 1);
    }
  }

  /** The end of the first of `alternatives` occurring at `k`. */
  function AlternativeEnd(s: string, alternatives: seq<string>, k: nat): (r: Option<nat>)
    ensures r.Some? ==> r.value <= |s|
    ensures r.Some? <==> AnyAt(s, alternatives, k)
  {
    match FirstAt(s, alternatives, k)
    case None => None
    case Some(a) => Some(k + |alternatives[a]|)
  }

  /** Whether any of `phrases` occurs in `s`, as Python's `any(p in s for p in phrases)`. */
  predicate ContainsAny(s: string, phrases: seq<string>) {
    exists p :: 0 <= p < |phrases| && Contains(s, phrases[p])
  }

  /** The first entry of an ordered table whose key occurs in `s`. */
  function FirstContained<T>(s: string, table: seq<(string, T)>): (r: Option<nat>)
    ensures r.Some? ==> r.value < |table| && Contains(s, table[r.value].0)
    ensures r.Some? ==> forall j :: 0 <= j < r.value ==> !Contains(s, table[j].0)
    ensures r.None? ==> forall j :: 0 <= j < |table| ==> !Contains(s, table[j].0)
    decreases |table|
  {
    if table == [] then None
    else if Contains(s, table[0].0) then Some(0)
    else match FirstContained(s, table[1..])
      case None => None
      case Some(j) => Some(j + 1)
  }

  /** `\bw\b` at `k`, for a word `w` that begins and ends with word characters. */
  predicate WordAt(s: string, w: string, k: nat) {
    OccursAt(s, w, k) && (k == 0 || !IsWordChar(s[k - 1])) && (k + |w| == |s| || !IsWordChar(s[k + |w|]))
  }

  /** `re.search(rf"\b{w}\b", s)` succeeds. */
  predicate ContainsWord(s: string, w: string) {
    exists k: nat | k <= |s| :: WordAt(s, w, k)
  }

  /** The first entry of an ordered table whose key occurs in `s` as a whole word. */
  function FirstWord<T>(s: string, table: seq<(string, T)>): (r: Option<nat>)
    ensures r.Some? ==> r.value < |table| && ContainsWord(s, table[r.value].0)
    ensures r.Some? ==> forall j :: 0 <= j < r.value ==> !ContainsWord(s, table[j].0)
    ensures r.None? ==> forall j :: 0 <= j < |table| ==> !ContainsWord(s, table[j].0)
    decreases |table|
  {
    if table == [] then None
    else if ContainsWord(s, table[0].0) then Some(0)
    else match FirstWord(s, table[1..])
      case None => None
      case Some(j) => Some(j + 1)
  }

  // ------------------------------------------------------------ numbers

  /** The text of a number `\d+(?:\.\d+)?`: its digits, and those after the point (none when there is no point). */
  datatype Number = Number(whole: string, fraction: string)

  predicate AllDigits(s: string) {
    forall i :: 0 <= i < |s| ==> IsDigit(s[i])
  }

  predicate WellFormedNumber(n: Number) {
    IsDigits(n.whole) && AllDigits(n.fraction)
  }

  /** Whether `s` has a decimal point anywhere. */
  predicate HasPoint(s: string) {
    exists j :: 0 <= j < |s| && s[j] == '.'
  }

  /** Regex `\d+(?:\.\d+)?` at `k`, greedy: the number and where it ends. */
  function NumberAt(s: string, k: nat): (r: Option<(Number, nat)>)
    ensures r.Some? <==> k < |s| && IsDigit(s[k])
    ensures r.Some? ==> WellFormedNumber(r.value.0) && k < r.value.1 <= |s|
    ensures r.Some? ==> r.value.0.whole == s[k..DigitsEnd(s, k)]
    ensures r.Some? && r.value.0.fraction == "" ==> r.value.1 == DigitsEnd(s, k)
    ensures r.Some? && r.value.0.fraction != "" ==> DigitsEnd(s, k) < |s| && s[DigitsEnd(s, k)] == '.'
    ensures r.Some? && r.value.0.fraction != "" ==> HasPoint(s)
    ensures r.Some? ==> var q := DigitsEnd(s, k);
      if q + 1 < |s| && s[q] == '.' && IsDigit(s[q + 1])
      then r.value.0.fraction == s[q + 1..DigitsEnd(s, q + 1)] && r.value.1 == DigitsEnd(s, q + 1)
      else r.value.0.fraction == "" && r.value.1 == q
  {
    if k >= |s| || !IsDigit(s[k]) then None
    else
      var q := DigitsEnd(s, k);
      if q + 1 < |s| && s[q] == '.' && IsDigit(s[q + 1]) then
        var f := DigitsEnd(s, q + 1);
        Some((Number(s[k..q], s[q + 1..f]), f))
      else Some((Number(s[k..q], ""), q))
  }

  function Pow10(n: nat): (p: nat)
    ensures p > 0
  {
    if n == 0 then 1 else 10 * Pow10(n - 1)
  }

  /** The value `float()` reads from a number's text (exactly, in the model). */
  function NumberValue(n: Number): (v: real)
    requires WellFormedNumber(n)
    ensures v >= 0.0
  {
    DecimalValue(n.whole) as real + DecimalValue(n.fraction) as real / Pow10(|n.fraction|) as real
  }

  /** A number without a fractional part is the integer its digits spell. */
  lemma WholeNumberValue(n: Number)
    requires WellFormedNumber(n)
    ensures n.fraction == "" ==> NumberValue(n) == DecimalValue(n.whole) as real
  {
  }
}
