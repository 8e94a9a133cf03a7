/**
 * How `_series_targets` chooses the series a sentence speaks of: no series
 * gives none; `all series` or `every series` gives all of them; then the
 * leftmost `series N`, if series `N` exists; then the leftmost ordinal
 * phrase, if its series exists; then the first series whose name occurs;
 * and last the only series, when the sentence says `series`.
 */
module TargetFacts {
  import opened Wrappers
  import opened Text
  import opened JsonTree
  import opened Scanners
  import opened Instructions

  /** The targets are positions of existing series: at most one, or all of them in order. */
  lemma TargetsExist(s: string, series: seq<Json>)
    ensures forall k :: 0 <= k < |SeriesTargets(s, series)| ==> SeriesTargets(s, series)[k] < |series|
    ensures |SeriesTargets(s, series)| <= 1 || SeriesTargets(s, series) == AllIndices(|series|)
  {
    NamedFromReads(s, SeriesNames(series), 0);
  }

  /** No series gives no targets; `all series` or `every series` gives every position, in order. */
  lemma TargetsFirstRules(s: string, series: seq<Json>)
    ensures |series| == 0 ==> SeriesTargets(s, series) == []
    ensures |series| > 0 && MentionsAllSeries(s) ==> SeriesTargets(s, series) == AllIndices(|series|)
  {
  }

  /** `series 2` of three series targets the second one. */
  lemma SeriesNumberExample()
    ensures SeriesTargets("series 2", [JObj([]), JObj([]), JObj([])]) == [1]
  {
    var s := "series 2";
    assert !MentionsAllSeries(s) by {
      assert !Contains(s, "all series") && !Contains(s, "every series");
    }
    assert SeriesNumberAt(s, 0) == Some(2) by {
      assert OccursAt(s, "series", 0);
      assert Spaces(s, 6) == 7;
      assert DigitsEnd(s, 7) == 8;
      assert s[7..8] == "2";
    }
  }

  /** The leftmost `series N` decides when series `N` exists; otherwise the ordinal rule decides. */
  lemma SeriesNumberRule(s: string, series: seq<Json>, k: nat, a: nat, b: nat)
    requires |series| > 0 && !MentionsAllSeries(s)
    requires SeriesNumberSpan(s, k, a, b)
    requires forall j: nat, a2: nat, b2: nat :: j < k ==> !SeriesNumberSpan(s, j, a2, b2)
    ensures 1 <= DecimalValue(s[a..b]) <= |series| ==> SeriesTargets(s, series) == [DecimalValue(s[a..b]) - 1]
    ensures !(1 <= DecimalValue(s[a..b]) <= |series|) ==> SeriesTargets(s, series) == OrdinalTargets(s, series)
  {
    SeriesNumberFound(s, k, a, b);
    SeriesNumberDecides(s, series, k, DecimalValue(s[a..b]));
  }

  lemma SeriesNumberDecides(s: string, series: seq<Json>, k: nat, n: nat)
    requires |series| > 0 && !MentionsAllSeries(s)
    requires SeriesNumberSearch(s, 0) == Some((k, n))
    ensures 1 <= n <= |series| ==> SeriesTargets(s, series) == [n - 1]
    ensures !(1 <= n <= |series|) ==> SeriesTargets(s, series) == OrdinalTargets(s, series)
  {
  }

  /** `SERIES_NUMBER_RE.search` finds the leftmost match and its number. */
  lemma SeriesNumberFound(s: string, k: nat, a: nat, b: nat)
    requires SeriesNumberSpan(s, k, a, b)
    requires forall j: nat, a2: nat, b2: nat :: j < k ==> !SeriesNumberSpan(s, j, a2, b2)
    ensures SeriesNumberSearch(s, 0) == Some((k, DecimalValue(s[a..b])))
  {
    assert k < a <= |s|;
    forall j: nat | j < k
      ensures SeriesNumberAt(s, j).None?
    {
    }
    SeriesNumberSearchFinds(s, 0, k);
  }

  /** The search from `i` stops at the first position with a match. */
  lemma SeriesNumberSearchFinds(s: string, i: nat, k: nat)
    requires i <= k <= |s| && SeriesNumberAt(s, k).Some?
    requires forall j :: i <= j < k ==> SeriesNumberAt(s, j).None?
    ensures SeriesNumberSearch(s, i) == Some((k, SeriesNumberAt(s, k).value))
  {
    SeriesNumberSearchSkips(s, i, k);
  }

  /** The search from `i` finds nothing when no position from `i` has a match. */
  lemma SeriesNumberSearchMisses(s: string, i: nat)
    requires forall j :: i <= j <= |s| ==> SeriesNumberAt(s, j).None?
    ensures SeriesNumberSearch(s, i).None?
  {
    if i <= |s| {
      SeriesNumberSearchSkips(s, i, |s| + 1);
    }
  }

  /** The search passes over positions without a match. */
  lemma {:induction false} SeriesNumberSearchSkips(s: string, i: nat, k: nat)
    requires i <= k <= |s| + 1
    requires forall j :: i <= j < k ==> SeriesNumberAt(s, j).None?
    ensures SeriesNumberSearch(s, i) == SeriesNumberSearch(s, k)
    decreases k - i
  {
    if i < k {
      SeriesNumberSearchSkips(s, i + 1, k);
    }
  }

  /** Without a `series N` phrase, the ordinal rule decides. */
  lemma NoSeriesNumber(s: string, series: seq<Json>)
    requires |series| > 0 && !MentionsAllSeries(s)
    requires forall k: nat, a: nat, b: nat :: !SeriesNumberSpan(s, k, a, b)
    ensures SeriesTargets(s, series) == OrdinalTargets(s, series)
  {
    forall j: nat
      ensures SeriesNumberAt(s, j).None?
    {
    }
    SeriesNumberSearchMisses(s, 0);
  }

  /** The leftmost ordinal phrase decides when its series exists; otherwise the name rule decides. */
  lemma OrdinalRule(s: string, series: seq<Json>, k: nat, w: nat)
    requires OrdinalMatch(s, k, w) && forall v :: 0 <= v < w ==> !OrdinalMatch(s, k, v)
    requires forall j: nat, v: nat :: j < k ==> !OrdinalMatch(s, j, v)
    ensures w < |series| ==> OrdinalTargets(s, series) == [w]
    ensures w >= |series| ==> OrdinalTargets(s, series) == NameTargets(s, series)
  {
    OrdinalFound(s, k, w);
  }

  /** The first ordinal word that matches at `k` is what `ORDINAL_SERIES_RE` reads there. */
  lemma OrdinalAtIs(s: string, k: nat, w: nat)
    requires OrdinalMatch(s, k, w) && forall v :: 0 <= v < w ==> !OrdinalMatch(s, k, v)
    ensures OrdinalAt(s, k) == Some(w) && k <= |s|
  {
    assert OccursAt(s, OrdinalWords[w], k);
  }

  /** `ORDINAL_SERIES_RE.search` finds the leftmost match and the first ordinal word it succeeds with there. */
  lemma OrdinalFound(s: string, k: nat, w: nat)
    requires OrdinalMatch(s, k, w) && forall v :: 0 <= v < w ==> !OrdinalMatch(s, k, v)
    requires forall j: nat, v: nat :: j < k ==> !OrdinalMatch(s, j, v)
    ensures OrdinalSearch(s, 0) == Some((k, w))
  {
    OrdinalAtIs(s, k, w);
    forall j: nat | j < k
      ensures OrdinalAt(s, j).None?
    {
    }
    OrdinalSearchFinds(s, 0, k, w);
  }

  /** The search from `i` stops at the first position with a match. */
  lemma OrdinalSearchFinds(s: string, i: nat, k: nat, w: nat)
    requires i <= k <= |s| && OrdinalAt(s, k) == Some(w)
    requires forall j :: i <= j < k ==> OrdinalAt(s, j).None?
    ensures OrdinalSearch(s, i) == Some((k, w))
  {
    OrdinalSearchSkips(s, i, k);
  }

  /** The search from `i` finds nothing when no position from `i` has a match. */
  lemma OrdinalSearchMisses(s: string, i: nat)
    requires forall j :: i <= j <= |s| ==> OrdinalAt(s, j).None?
    ensures OrdinalSearch(s, i).None?
  {
    if i <= |s| {
      OrdinalSearchSkips(s, i, |s| + 1);
    }
  }

  /** The search passes over positions without a match. */
  lemma {:induction false} OrdinalSearchSkips(s: string, i: nat, k: nat)
    requires i <= k <= |s| + 1
    requires forall j :: i <= j < k ==> OrdinalAt(s, j).None?
    ensures OrdinalSearch(s, i) == OrdinalSearch(s, k)
    decreases k - i
  {
    if i < k {
      OrdinalSearchSkips(s, i + 1, k);
    }
  }

  /** Without an ordinal phrase, the name rule decides. */
  lemma NoOrdinal(s: string, series: seq<Json>)
    requires forall k: nat, w: nat :: !OrdinalMatch(s, k, w)
    ensures OrdinalTargets(s, series) == NameTargets(s, series)
  {
    forall j: nat
      ensures OrdinalAt(s, j).None?
    {
    }
    OrdinalSearchMisses(s, 0);
  }

  /** The first series named in the sentence decides; without one, a sole series is the target when `series` is mentioned. */
  lemma NameRule(s: string, series: seq<Json>)
    ensures forall i :: 0 <= i < |series| && Named(s, series[i]) && (forall j :: 0 <= j < i ==> !Named(s, series[j])) ==>
                NameTargets(s, series) == [i]
    ensures (forall i :: 0 <= i < |series| ==> !Named(s, series[i])) ==>
              NameTargets(s, series) == (if Contains(s, "series") && |series| == 1 then [0] else [])
  {
    var names := SeriesNames(series);
    forall i | 0 <= i < |series| && Named(s, series[i]) && (forall j :: 0 <= j < i ==> !Named(s, series[j]))
      ensures NamedFrom(s, names, 0) == Some(i)
    {
      NamedFromSkips(s, names, 0, i);
    }
    if forall i :: 0 <= i < |series| ==> !Named(s, series[i]) {
      NamedFromSkips(s, names, 0, |names|);
    }
  }

  /** The name rule passes over names that do not occur in the sentence. */
  lemma {:induction false} NamedFromSkips(s: string, names: seq<string>, i: nat, k: nat)
    requires i <= k <= |names|
    requires forall j :: i <= j < k ==> !NameOccurs(s, names[j])
    ensures NamedFrom(s, names, i) == NamedFrom(s, names, k)
    decreases k - i
  {
    if i < k {
      NamedFromSkips(s, names, i + 1, k);
    }
  }

  /** With one series, a sentence that says `series` targets it, whichever rule decides. */
  lemma SoleSeries(s: string, series: seq<Json>)
    requires |series| == 1 && Contains(s, "series")
    ensures SeriesTargets(s, series) == [0]
  {
    TargetsExist(s, series);
    NameRule(s, series);
  }

  /** `second line` of three series targets the second one. */
  lemma OrdinalExample()
    ensures SeriesTargets("second line", [JObj([]), JObj([]), JObj([])]) == [1]
  {
    var s := "second line";
    var series := [JObj([]), JObj([]), JObj([])];
    forall i: nat | i <= |s|
      ensures !OccursAt(s, "all series", i)
    {
      if i + 10 <= |s| {
        assert s[i..i + 10][0] == s[i];
      }
    }
    forall k: nat, a: nat, b: nat
      ensures !SeriesNumberSpan(s, k, a, b)
    {
      if k + 6 <= |s| {
        assert s[k..k + 6][0] == s[k] && s[k..k + 6][2] == s[k + 2];
      }
    }
    NoSeriesNumber(s, series);
    SecondLine();
    OrdinalRule(s, series, 0, 1);
  }

  /** In `second line`, `ORDINAL_SERIES_RE` matches at the start with `second` and not with `first`. */
  lemma SecondLine()
    ensures OrdinalMatch("second line", 0, 1) && !OrdinalMatch("second line", 0, 0)
  {
    var s := "second line";
    assert s[0..6] == OrdinalWords[1];
    assert Spaces(s, 6) == 7;
    assert s[7..11] == OrdinalNouns[1];
    assert s[0] != OrdinalWords[0][0];
  }
}
