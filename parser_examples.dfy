/**
 * The scenarios of tests/test_instruction_parser.py, read off the
 * extractors they exercise: each sentence of a test, and what the rule it
 * relies on finds in it.
 */
module ParserExamples {
  import opened Wrappers
  import opened Text
  import opened JsonTree
  import opened Scanners
  import opened Instructions
  import opened InstructionFacts
  import opened TargetFacts

  /** No occurrence of `w` starts in `[lo, hi)` when its first letter is not there. */
  lemma FirstLetterAbsent(s: string, w: string, lo: nat, hi: nat)
    requires |w| > 0 && hi <= |s| && forall j :: lo <= j < hi ==> s[j] != w[0]
    ensures forall j :: lo <= j < hi ==> !OccursAt(s, w, j)
  {
    forall j | lo <= j < hi
      ensures !OccursAt(s, w, j)
    {
      if j + |w| <= |s| {
        assert s[j..j + |w|][0] == s[j];
      }
    }
  }

  /** `w` does not occur at `j` when one of its letters differs there. */
  lemma LetterDiffers(s: string, w: string, j: nat, m: nat)
    requires m < |w| && j + m < |s| && s[j + m] != w[m]
    ensures !OccursAt(s, w, j)
  {
    if j + |w| <= |s| {
      assert s[j..j + |w|][m] == s[j + m];
    }
  }

  /** No occurrence of `w` starts in `[lo, hi)` when none of its first two letters follow each other there. */
  lemma PairAbsent(s: string, w: string, lo: nat, hi: nat)
    requires |w| > 1 && hi < |s| && forall j :: lo <= j < hi ==> s[j] != w[0] || s[j + 1] != w[1]
    ensures forall j :: lo <= j < hi ==> !OccursAt(s, w, j)
  {
    forall j | lo <= j < hi
      ensures !OccursAt(s, w, j)
    {
      if j + |w| <= |s| {
        assert s[j..j + |w|][0] == s[j] && s[j..j + |w|][1] == s[j + 1];
      }
    }
  }

  /** `w` occurs at `k` when its letters are there one by one. */
  lemma OccursByLetters(s: string, w: string, k: nat)
    requires k + |w| <= |s| && forall i :: k <= i < k + |w| ==> s[i] == w[i - k]
    ensures OccursAt(s, w, k)
  {
    assert s[k..k + |w|] == w;
  }

  /** `w` does not occur in `s` when its letter `m` is missing at the offset `m` of every place it could start. */
  lemma WordAbsent(s: string, w: string, m: nat)
    requires m < |w| <= |s| && forall i :: m <= i <= |s| - |w| + m ==> s[i] != w[m]
    ensures !Contains(s, w)
  {
    forall j: nat | j <= |s|
      ensures !OccursAt(s, w, j)
    {
      if j + |w| <= |s| {
        assert s[j..j + |w|][m] == s[j + m];
      }
    }
  }

  // ------------------------------------------------------------ colour, dash and width

  const StyleHead := "Make series 1 red "
  const StyleMid := "dashed lines with "
  const StyleTail := "line width 3px"

  /**
   * `Make series 1 red dashed lines with line width 3px` targets the first
   * series (whenever there is one) and gives it the colour `#FF0000`, the
   * dash style `Dash` and the line width 3.
   */
  lemma StyleExample(series: seq<Json>)
    requires |series| > 0
    ensures SeriesTargets(Lower(StyleHead + StyleMid + StyleTail), series) == [0]
    ensures ExtractColor(StyleHead + StyleMid + StyleTail, Lower(StyleHead + StyleMid + StyleTail)) == Some("#FF0000")
    ensures StyleUpdates(StyleHead + StyleMid + StyleTail, Lower(StyleHead + StyleMid + StyleTail), [0], Some("#FF0000"))
         == [Update("series[0].color", JStr("#FF0000")), Update("series[0].dashStyle", JStr("Dash")), Update("series[0].lineWidth", JInt(3))]
  {
    var sentence := StyleHead + StyleMid + StyleTail;
    StyleTargets(sentence, series);
    StyleColor(sentence);
    StyleDash(sentence);
    StyleWidth(sentence);
    StyleUpdatesForOne(sentence, Lower(sentence), 0, "#FF0000", "Dash", JInt(3));
    SeriesZeroFields();
  }

  /** With one target, the style rules give its colour, dash style and width, in that order. */
  lemma StyleUpdatesForOne(sentence: string, lowered: string, t: nat, c: string, d: string, w: Json)
    requires c != "" && d != "" && DashStyle(lowered) == Some(d) && LineWidth(sentence) == Some(w)
    ensures StyleUpdates(sentence, lowered, [t], Some(c))
         == [Update(SeriesField(t, ["color"]), JStr(c)), Update(SeriesField(t, ["dashStyle"]), JStr(d)), Update(SeriesField(t, ["lineWidth"]), w)]
  {
    PerTargetOne(t, ["color"], JStr(c));
    PerTargetOne(t, ["dashStyle"], JStr(d));
    PerTargetOne(t, ["lineWidth"], w);
  }

  lemma PerTargetOne(t: nat, field: seq<string>, v: Json)
    ensures PerTarget([t], field, v) == [Update(SeriesField(t, field), v)]
  {
  }

  lemma SeriesZeroFields()
    ensures SeriesField(0, ["color"]) == "series[0].color"
    ensures SeriesField(0, ["dashStyle"]) == "series[0].dashStyle"
    ensures SeriesField(0, ["lineWidth"]) == "series[0].lineWidth"
  {
    assert NatToString(0) == "0";
  }

  /** The letters the style sentence lacks: no `#`, `g`, `o` or `v` anywhere in it. */
  lemma StyleLacks(sentence: string, c: char)
    requires sentence == StyleHead + StyleMid + StyleTail
    requires c == '#' || c == 'g' || c == 'o' || c == 'v'
    ensures forall i :: 0 <= i < |sentence| ==> sentence[i] != c && Lower(sentence)[i] != c
  {
    var s := Lower(sentence);
    assert forall i :: 0 <= i < 18 ==> sentence[i] != c && s[i] != c;
    assert forall i :: 18 <= i < 36 ==> sentence[i] != c && s[i] != c;
    assert forall i :: 36 <= i < 50 ==> sentence[i] != c && s[i] != c;
  }

  /** `series 1` is the leftmost series number and names an existing series; the sentence names no `all series`. */
  lemma StyleTargets(sentence: string, series: seq<Json>)
    requires sentence == StyleHead + StyleMid + StyleTail && |series| > 0
    ensures SeriesTargets(Lower(sentence), series) == [0]
  {
    var s := Lower(sentence);
    StyleNotAllSeries(sentence);
    OccursByLetters(s, "series", 5);
    assert SeriesNumberSpan(s, 5, 12, 13);
    FirstLetterAbsent(s, "series", 0, 5);
    assert s[12..13] == "1";
    assert DecimalValue("1") == 1 by {
      assert "1"[..0] == [];
    }
    SeriesNumberRule(s, series, 5, 12, 13);
  }

  lemma StyleNotAllSeries(sentence: string)
    requires sentence == StyleHead + StyleMid + StyleTail
    ensures !MentionsAllSeries(Lower(sentence))
  {
    StyleNoAllSeries(sentence);
    StyleLacks(sentence, 'v');
    WordAbsent(Lower(sentence), "every series", 1);
  }

  lemma StyleNoAllSeries(sentence: string)
    requires sentence == StyleHead + StyleMid + StyleTail
    ensures !Contains(Lower(sentence), "all series")
  {
    StyleNoAl(sentence);
    PairAbsent(Lower(sentence), "all series", 0, 41);
  }

  /** Every `a` in the sentence is followed by something other than `l`. */
  lemma StyleNoAl(sentence: string)
    requires sentence == StyleHead + StyleMid + StyleTail
    ensures forall j :: 0 <= j < 41 ==> Lower(sentence)[j] != 'a' || Lower(sentence)[j + 1] != 'l'
  {
    var s := Lower(sentence);
    assert forall j :: 0 <= j < 18 ==> s[j] != 'a' || s[j + 1] != 'l';
    assert forall j :: 18 <= j < 36 ==> s[j] != 'a' || s[j + 1] != 'l';
    assert forall j :: 36 <= j < 41 ==> s[j] != 'a';
  }

  /** No `#` and no `g`, so neither a hex colour nor `rgb(...)`: the name `red` decides. */
  lemma StyleColor(sentence: string)
    requires sentence == StyleHead + StyleMid + StyleTail
    ensures ExtractColor(sentence, Lower(sentence)) == Some("#FF0000")
  {
    var s := Lower(sentence);
    StyleLacks(sentence, '#');
    StyleLacks(sentence, 'g');
    WordAbsent(s, "rgb", 2);
    forall k: nat
      ensures HexAt(sentence, k).None? && RgbAt(s, k).None?
    {
      if k <= |s| {
        assert !OccursAt(s, "rgb", k);
      }
    }
    OccursByLetters(s, "red", 14);
    assert WordAt(s, "red", 14);
    assert ColorNames[0] == ("red", "#FF0000");
    ColorByName(sentence, s, 0);
  }

  /** `dashed` occurs and, without an `o`, none of the styles before it in `DASH_KEYWORDS` does. */
  lemma StyleDash(sentence: string)
    requires sentence == StyleHead + StyleMid + StyleTail
    ensures DashStyle(Lower(sentence)) == Some("Dash")
  {
    var s := Lower(sentence);
    OccursByLetters(s, "dashed", 18);
    StyleLacks(sentence, 'o');
    WordAbsent(s, "dot", 1);
    WordAbsent(s, "short dash", 2);
    WordAbsent(s, "long dash", 1);
    DashedIsDash(s);
  }

  /** No number is followed by a width keyword, so the second pattern decides: the 3 after `line width`. */
  lemma StyleWidth(sentence: string)
    requires sentence == StyleHead + StyleMid + StyleTail
    ensures LineWidth(sentence) == Some(JInt(3))
  {
    StyleNoWidthBefore(sentence);
    StyleWidthAt(sentence);
    StyleNoKeywordBefore(sentence);
    LineWidthAfter(sentence, 36, Number("3", ""));
    assert DecimalValue("3") == 3 by {
      assert "3"[..0] == [];
    }
  }

  lemma StyleDigits(sentence: string)
    requires sentence == StyleHead + StyleMid + StyleTail
    ensures forall j :: 0 <= j < 12 ==> !IsDigit(Lower(sentence)[j])
    ensures forall j :: 13 <= j < 47 ==> !IsDigit(Lower(sentence)[j])
    ensures forall j :: 48 <= j < 50 ==> !IsDigit(Lower(sentence)[j])
  {
    var s := Lower(sentence);
    assert forall j :: 13 <= j < 18 ==> !IsDigit(s[j]);
    assert forall j :: 18 <= j < 36 ==> !IsDigit(s[j]);
    assert forall j :: 36 <= j < 47 ==> !IsDigit(s[j]);
  }

  lemma StyleNoWidthBefore(sentence: string)
    requires sentence == StyleHead + StyleMid + StyleTail
    ensures forall j :: 0 <= j <= |sentence| ==> WidthBeforeAt(Lower(sentence), j).None?
  {
    var s := Lower(sentence);
    StyleDigits(sentence);
    StyleOneNotWidth(sentence);
    StyleThreeNotWidth(sentence);
    forall j | 0 <= j <= |sentence|
      ensures WidthBeforeAt(s, j).None?
    {
      if j != 12 && j != 47 {
        assert NumberAt(s, j).None?;
      }
    }
  }

  /** `1 red`: the number is not followed by a width keyword. */
  lemma StyleOneNotWidth(sentence: string)
    requires sentence == StyleHead + StyleMid + StyleTail
    ensures WidthBeforeAt(Lower(sentence), 12).None?
  {
    var s := Lower(sentence);
    assert DigitsEnd(s, 13) == 13;
    assert DigitsEnd(s, 12) == 13;
    assert s[12..13] == "1";
    assert NumberAt(s, 12) == Some((Number("1", ""), 13));
    assert Spaces(s, 14) == 14;
    assert Spaces(s, 13) == 14;
    LetterDiffers(s, "px", 14, 0);
    LetterDiffers(s, "pt", 14, 0);
    StyleNoKeywordAtRed(sentence);
  }

  lemma StyleNoKeywordAtRed(sentence: string)
    requires sentence == StyleHead + StyleMid + StyleTail
    ensures !AnyAt(Lower(sentence), WidthKeywords, 14)
  {
    var s := Lower(sentence);
    assert WidthKeywords == ["line width", "linewidth", "thickness", "stroke"];
    LetterDiffers(s, "line width", 14, 0);
    LetterDiffers(s, "linewidth", 14, 0);
    LetterDiffers(s, "thickness", 14, 0);
    LetterDiffers(s, "stroke", 14, 0);
  }

  /** `3px` ends the sentence: nothing follows for a width keyword. */
  lemma StyleThreeNotWidth(sentence: string)
    requires sentence == StyleHead + StyleMid + StyleTail
    ensures WidthBeforeAt(Lower(sentence), 47).None?
  {
    var s := Lower(sentence);
    StyleThree(sentence);
    assert Spaces(s, 48) == 48;
    assert s[48..50] == "px";
    assert Spaces(s, 50) == 50;
    assert !AnyAt(s, WidthKeywords, 50);
  }

  lemma StyleWidthAt(sentence: string)
    requires sentence == StyleHead + StyleMid + StyleTail
    ensures WidthAfterAt(Lower(sentence), 36) == Some(Number("3", ""))
  {
    var s := Lower(sentence);
    StyleWidthKeyword(sentence);
    assert Spaces(s, 47) == 47;
    assert Spaces(s, 46) == 47;
    LetterDiffers(s, "of", 47, 0);
    LetterDiffers(s, "to", 47, 0);
    StyleThree(sentence);
  }

  lemma StyleWidthKeyword(sentence: string)
    requires sentence == StyleHead + StyleMid + StyleTail
    ensures AlternativeEnd(Lower(sentence), WidthKeywords, 36) == Some(46)
  {
    OccursByLetters(Lower(sentence), "line width", 36);
    assert WidthKeywords[0] == "line width";
  }

  lemma StyleThree(sentence: string)
    requires sentence == StyleHead + StyleMid + StyleTail
    ensures NumberAt(Lower(sentence), 47) == Some((Number("3", ""), 48))
  {
    var s := Lower(sentence);
    assert DigitsEnd(s, 48) == 48;
    assert DigitsEnd(s, 47) == 48;
    assert s[47..48] == "3";
  }

  /** No width keyword starts before 36: `lines with` is not `line width`, and `with ` is not `thickness`. */
  lemma StyleNoKeywordBefore(sentence: string)
    requires sentence == StyleHead + StyleMid + StyleTail
    ensures forall j :: 0 <= j < 36 ==> WidthAfterAt(Lower(sentence), j).None?
  {
    var s := Lower(sentence);
    StyleNoLineWord(sentence, "line width");
    StyleNoLineWord(sentence, "linewidth");
    StyleNoThickness(sentence);
    StyleNoStroke(sentence);
    assert WidthKeywords == ["line width", "linewidth", "thickness", "stroke"];
  }

  lemma StyleNoStroke(sentence: string)
    requires sentence == StyleHead + StyleMid + StyleTail
    ensures forall j :: 0 <= j < 36 ==> !OccursAt(Lower(sentence), "stroke", j)
  {
    var s := Lower(sentence);
    assert forall j :: 0 <= j < 18 ==> s[j] != 's' || s[j + 1] != 't';
    assert forall j :: 18 <= j < 36 ==> s[j] != 's' || s[j + 1] != 't';
    PairAbsent(s, "stroke", 0, 36);
  }

  lemma StyleNoLineWord(sentence: string, w: string)
    requires sentence == StyleHead + StyleMid + StyleTail
    requires w == "line width" || w == "linewidth"
    ensures forall j :: 0 <= j < 36 ==> !OccursAt(Lower(sentence), w, j)
  {
    var s := Lower(sentence);
    assert forall j :: 0 <= j < 18 ==> s[j] != 'l';
    assert forall j :: 18 <= j < 25 ==> s[j] != 'l';
    assert forall j :: 26 <= j < 36 ==> s[j] != 'l';
    FirstLetterAbsent(s, w, 0, 25);
    LetterDiffers(s, w, 25, 4);
    FirstLetterAbsent(s, w, 26, 36);
    forall j | 0 <= j < 36
      ensures !OccursAt(s, w, j)
    {
      if j < 26 {
      }
    }
  }

  lemma StyleNoThickness(sentence: string)
    requires sentence == StyleHead + StyleMid + StyleTail
    ensures forall j :: 0 <= j < 36 ==> !OccursAt(Lower(sentence), "thickness", j)
  {
    var s := Lower(sentence);
    var w := "thickness";
    assert forall j :: 0 <= j < 18 ==> s[j] != 't';
    assert forall j :: 18 <= j < 33 ==> s[j] != 't';
    FirstLetterAbsent(s, w, 0, 33);
    LetterDiffers(s, w, 33, 2);
    FirstLetterAbsent(s, w, 34, 36);
    forall j | 0 <= j < 36
      ensures !OccursAt(s, w, j)
    {
      if j < 34 {
      }
    }
  }

  // ------------------------------------------------------------ data labels

  const LabelsSentence := "Please enable data labels for all series"

  /** `Please enable data labels for all series` turns data labels on once, for all series, whatever the targets. */
  lemma DataLabelsExample(targets: seq<nat>)
    ensures DataLabelUpdates(Lower("Please enable data labels for all series"), targets)
         == [Update("plotOptions.series.dataLabels.enabled", JBool(true))]
  {
    var sentence := LabelsSentence;
    var s := Lower(sentence);
    LabelsEnable(sentence);
    LabelsMentions(sentence);
    DottedLabelsPath();
  }

  lemma DottedLabelsPath()
    ensures Dotted(["plotOptions", "series", "dataLabels", "enabled"]) == "plotOptions.series.dataLabels.enabled"
  {
    assert ["plotOptions", "series", "dataLabels", "enabled"][1..] == ["series", "dataLabels", "enabled"];
    assert ["series", "dataLabels", "enabled"][1..] == ["dataLabels", "enabled"];
    assert ["dataLabels", "enabled"][1..] == ["enabled"];
  }

  lemma LabelsMentions(sentence: string)
    requires sentence == LabelsSentence
    ensures Contains(Lower(sentence), "data label") && MentionsAllSeries(Lower(sentence))
  {
    var s := Lower(sentence);
    OccursByLetters(s, "data label", 14);
    OccursByLetters(s, "all series", 30);
  }

  lemma LabelsEnable(sentence: string)
    requires sentence == LabelsSentence
    ensures DetectBoolean(Lower(sentence)) == Some(true)
  {
    var s := Lower(sentence);
    LabelsNotNegative(sentence);
    OccursByLetters(s, "enable", 7);
    assert PositivePhrases[0] == "enable";
  }

  lemma LabelsNotNegative(sentence: string)
    requires sentence == LabelsSentence
    ensures !ContainsAny(Lower(sentence), NegativePhrases)
  {
    var s := Lower(sentence);
    LabelsNotOffOrDisabled(sentence);
    LabelsNotHidden(sentence);
    LabelsNotRemoved(sentence);
    LabelsNotSuppressed(sentence);
  }

  lemma LabelsNotOffOrDisabled(sentence: string)
    requires sentence == LabelsSentence
    ensures !Contains(Lower(sentence), "disable") && !Contains(Lower(sentence), "turn off")
  {
    WordAbsent(Lower(sentence), "disable", 1);
    WordAbsent(Lower(sentence), "turn off", 1);
  }

  lemma LabelsNotHidden(sentence: string)
    requires sentence == LabelsSentence
    ensures !Contains(Lower(sentence), "turn it off") && !Contains(Lower(sentence), "hide")
  {
    WordAbsent(Lower(sentence), "turn it off", 1);
    WordAbsent(Lower(sentence), "hide", 0);
  }

  lemma LabelsNotRemoved(sentence: string)
    requires sentence == LabelsSentence
    ensures !Contains(Lower(sentence), "remove") && !Contains(Lower(sentence), "deactivate")
  {
    WordAbsent(Lower(sentence), "remove", 2);
    WordAbsent(Lower(sentence), "deactivate", 3);
  }

  lemma LabelsNotSuppressed(sentence: string)
    requires sentence == LabelsSentence
    ensures !Contains(Lower(sentence), "suppress")
  {
    WordAbsent(Lower(sentence), "suppress", 1);
  }

  // ------------------------------------------------------------ fill opacity

  const OpacityHead := "Set the "
  const OpacityPhrase := "fill opacity"
  const OpacityTail := " to 40%"

  /** `Set the fill opacity to 40%` gives the fill opacity 0.4. */
  lemma FillOpacityExample()
    ensures FillOpacity(OpacityHead + OpacityPhrase + OpacityTail) == Some(JFloat(0.4))
  {
    var sentence := OpacityHead + OpacityPhrase + OpacityTail;
    FillOpacityFortyAt(sentence);
    FillOpacityNotBefore(sentence);
    WholeValue("40", 40);
    FillOpacityReads(sentence, 8, Number("40", ""), true);
  }

  /** A two-digit whole number has its decimal value. */
  lemma WholeValue(digits: string, v: nat)
    requires |digits| == 2 && IsDigit(digits[0]) && IsDigit(digits[1])
    requires v == 10 * DigitValue(digits[0]) + DigitValue(digits[1])
    ensures WellFormedNumber(Number(digits, "")) && NumberValue(Number(digits, "")) == v as real
  {
    var head := digits[..1];
    assert head[..0] == [] && head[0] == digits[0];
    assert DecimalValue(head) == DigitValue(digits[0]);
    assert DecimalValue(digits) == 10 * DecimalValue(head) + DigitValue(digits[1]);
    WholeNumberValue(Number(digits, ""));
  }

  lemma FillOpacityNotBefore(sentence: string)
    requires sentence == OpacityHead + OpacityPhrase + OpacityTail
    ensures forall j :: 0 <= j < 8 ==> FillOpacityAt(Lower(sentence), j).None?
  {
    FirstLetterAbsent(Lower(sentence), "fill opacity", 0, 8);
  }

  lemma FillOpacityFortyAt(sentence: string)
    requires sentence == OpacityHead + OpacityPhrase + OpacityTail
    ensures FillOpacityAt(Lower(sentence), 8) == Some((Number("40", ""), true))
  {
    var s := Lower(sentence);
    FortyPhrase(sentence);
    FortyLine(sentence);
    FortyNumber(s);
    FortyLazy(s);
  }

  lemma FortyPhrase(sentence: string)
    requires sentence == OpacityHead + OpacityPhrase + OpacityTail
    ensures OccursAt(Lower(sentence), "fill opacity", 8)
  {
    var s := Lower(sentence);
    assert s[8..20] == "fill opacity";
  }

  lemma FortyLine(sentence: string)
    requires sentence == OpacityHead + OpacityPhrase + OpacityTail
    ensures |Lower(sentence)| == 27 && Lower(sentence)[26] == '%' && Lower(sentence)[24..26] == "40"
    ensures forall j :: 20 <= j < 24 ==> Lower(sentence)[j] != '\n' && !IsDigit(Lower(sentence)[j])
    ensures Lower(sentence)[24] != '\n' && Lower(sentence)[25] != '\n'
  {
    var s := Lower(sentence);
    assert s[20] == ' ' && s[21] == 't' && s[22] == 'o' && s[23] == ' ';
    assert s[24] == '4' && s[25] == '0' && s[26] == '%';
  }

  /** The number at position 24 of a text ending in `40%` is `40`, ending at 26. */
  lemma FortyNumber(s: string)
    requires |s| == 27 && s[26] == '%' && s[24..26] == "40"
    ensures NumberAt(s, 24) == Some((Number("40", ""), 26))
  {
    assert s[24] == '4' && s[25] == '0';
    assert DigitsEnd(s, 26) == 26;
    assert DigitsEnd(s, 25) == 26;
    assert DigitsEnd(s, 24) == 26;
  }

  /** The lazy scan from 20 passes four characters that are not digits and stops at the `40`. */
  lemma FortyLazy(s: string)
    requires |s| == 27 && s[24] != '\n' && s[24..26] == "40"
    requires forall j :: 20 <= j < 24 ==> s[j] != '\n' && !IsDigit(s[j])
    requires NumberAt(s, 24) == Some((Number("40", ""), 26))
    ensures LazyNumber(s, 20) == Some((24, (Number("40", ""), 26)))
  {
    assert s[24] == '4';
    assert LazyNumber(s, 24) == Some((24, (Number("40", ""), 26)));
    assert LazyNumber(s, 23) == LazyNumber(s, 24);
    assert LazyNumber(s, 22) == LazyNumber(s, 23);
    assert LazyNumber(s, 21) == LazyNumber(s, 22);
  }

  // ------------------------------------------------------------ inner size

  const DonutHead := "Make this pie a donut with "
  const DonutSize := "inner size " + "70%"
  const DonutTail := " and hide the legend"

  /** `Make this pie a donut with inner size 70% and hide the legend` gives the inner size `70%`. */
  lemma InnerSizeExample()
    ensures InnerSize(DonutHead + DonutSize + DonutTail) == Some("70%")
  {
    var sentence := DonutHead + DonutSize + DonutTail;
    InnerSizeNotBefore(sentence);
    InnerSizeSeventyAt(sentence);
    InnerSizeFirst(sentence, 27, 38, 41);
    DonutSeventy(sentence);
  }

  lemma DonutSeventy(sentence: string)
    requires sentence == DonutHead + DonutSize + DonutTail
    ensures sentence[38..41] == "70%"
  {
    var head := DonutHead + "inner size ";
    assert sentence == head + "70%" + DonutTail;
    assert sentence[|head|..|head| + 3] == "70%";
  }

  /**
   * On a pie chart the same sentence sets the inner size to `70%` and,
   * through `hide`, turns the legend off: both the chart's legend and the
   * pie's legend entries.
   */
  lemma PieExample()
    ensures LegendUpdates(Lower(DonutHead + DonutSize + DonutTail)) == [Update("legend.enabled", JBool(false))]
    ensures PieUpdates(DonutHead + DonutSize + DonutTail, Lower(DonutHead + DonutSize + DonutTail), Some("pie"))
         == [Update("plotOptions.pie.innerSize", JStr("70%")), Update("plotOptions.pie.showInLegend", JBool(false))]
  {
    var sentence := DonutHead + DonutSize + DonutTail;
    InnerSizeExample();
    PieHidesLegend(sentence);
    PieNoDataLabel(sentence);
    DottedPiePaths();
  }

  /** There is no `b` in the sentence, so no `data label`. */
  lemma PieNoDataLabel(sentence: string)
    requires sentence == DonutHead + DonutSize + DonutTail
    ensures !Contains(Lower(sentence), "data label")
  {
    var s := Lower(sentence);
    assert forall i :: 7 <= i < 27 ==> s[i] != 'b';
    assert forall i :: 27 <= i < 41 ==> s[i] != 'b';
    assert forall i :: 41 <= i < 61 ==> s[i] != 'b';
    WordAbsent(s, "data label", 7);
  }

  lemma PieHidesLegend(sentence: string)
    requires sentence == DonutHead + DonutSize + DonutTail
    ensures Contains(Lower(sentence), "legend") && DetectBoolean(Lower(sentence)) == Some(false)
  {
    var s := Lower(sentence);
    OccursByLetters(s, "legend", 55);
    OccursByLetters(s, "hide", 46);
    assert NegativePhrases[3] == "hide";
  }

  lemma DottedPiePaths()
    ensures Dotted(["legend", "enabled"]) == "legend.enabled"
    ensures Dotted(["plotOptions", "pie", "innerSize"]) == "plotOptions.pie.innerSize"
    ensures Dotted(["plotOptions", "pie", "showInLegend"]) == "plotOptions.pie.showInLegend"
  {
    assert ["legend", "enabled"][1..] == ["enabled"];
    assert ["plotOptions", "pie", "innerSize"][1..] == ["pie", "innerSize"];
    assert ["pie", "innerSize"][1..] == ["innerSize"];
    assert ["plotOptions", "pie", "showInLegend"][1..] == ["pie", "showInLegend"];
    assert ["pie", "showInLegend"][1..] == ["showInLegend"];
  }

  /** `inner size` first occurs at 27: the earlier `i`s are not followed by `n`. */
  lemma InnerSizeNotBefore(sentence: string)
    requires sentence == DonutHead + DonutSize + DonutTail
    ensures forall j :: 0 <= j < 27 ==> InnerSizeAt(Lower(sentence), j).None?
  {
    var s := Lower(sentence);
    NoInnerSizeHead(sentence);
    NoInnerSizeMiddle(sentence);
    forall j | 0 <= j < 27
      ensures InnerSizeAt(s, j).None?
    {
      if j < 12 {
      }
    }
  }

  lemma NoInnerSizeHead(sentence: string)
    requires sentence == DonutHead + DonutSize + DonutTail
    ensures forall j :: 0 <= j < 12 ==> InnerSizeAt(Lower(sentence), j).None?
  {
    var s := Lower(sentence);
    NoInnerSizeBefore8(sentence);
    var w := "inner size";
    FirstLetterAbsent(s, w, 8, 11);
    LetterDiffers(s, w, 11, 1);
    forall j | 8 <= j < 12
      ensures InnerSizeAt(s, j).None?
    {
      if j < 11 {
      }
    }
  }

  lemma NoInnerSizeBefore8(sentence: string)
    requires sentence == DonutHead + DonutSize + DonutTail
    ensures forall j :: 0 <= j < 8 ==> InnerSizeAt(Lower(sentence), j).None?
  {
    var s := Lower(sentence);
    var w := "inner size";
    FirstLetterAbsent(s, w, 0, 7);
    LetterDiffers(s, w, 7, 1);
    forall j | 0 <= j < 8
      ensures InnerSizeAt(s, j).None?
    {
      if j < 7 {
      }
    }
  }

  lemma NoInnerSizeMiddle(sentence: string)
    requires sentence == DonutHead + DonutSize + DonutTail
    ensures forall j :: 12 <= j < 27 ==> InnerSizeAt(Lower(sentence), j).None?
  {
    var s := Lower(sentence);
    var w := "inner size";
    FirstLetterAbsent(s, w, 12, 23);
    LetterDiffers(s, w, 23, 1);
    FirstLetterAbsent(s, w, 24, 27);
    forall j | 12 <= j < 27
      ensures InnerSizeAt(s, j).None?
    {
      if j < 23 {
      } else if j == 23 {
      }
    }
  }

  lemma InnerSizeSeventyAt(sentence: string)
    requires sentence == DonutHead + DonutSize + DonutTail
    ensures InnerSizeAt(Lower(sentence), 27) == Some((38, 41))
  {
    var s := Lower(sentence);
    assert s[27..37] == "inner size";
    assert DigitsEnd(s, 40) == 40;
    assert DigitsEnd(s, 39) == 40;
    assert DigitsEnd(s, 38) == 40;
    assert PercentAt(s, 38) == Some(41);
    assert PercentAt(s, 37).None?;
    assert 38 <= LineEnd(s, 37);
  }

  // ------------------------------------------------------------ scatter markers

  const ScatterHead := "Turn off the markers "
  const ScatterTail := "and set their radius to 6px"

  /**
   * `Turn off the markers and set their radius to 6px` on a scatter chart
   * mentions markers, turns them off for all scatter series and sets their
   * radius to 6, whatever the targets.
   */
  lemma ScatterMarkersExample(targets: seq<nat>)
    ensures Contains(Lower(ScatterHead + ScatterTail), "marker")
    ensures MarkerToggleUpdates(Lower(ScatterHead + ScatterTail), Some("scatter"))
         == [Update("plotOptions.scatter.marker.enabled", JBool(false))]
    ensures MarkerRadiusUpdates(ScatterHead + ScatterTail, Some("scatter"), targets)
         == [Update("plotOptions.scatter.marker.radius", JInt(6))]
  {
    var sentence := ScatterHead + ScatterTail;
    OccursByLetters(Lower(sentence), "marker", 13);
    ScatterTurnsOff(sentence);
    ScatterRadiusUpdate(sentence, targets);
  }

  lemma ScatterTurnsOff(sentence: string)
    requires sentence == ScatterHead + ScatterTail
    ensures MarkerToggleUpdates(Lower(sentence), Some("scatter"))
         == [Update("plotOptions.scatter.marker.enabled", JBool(false))]
  {
    var s := Lower(sentence);
    OccursByLetters(s, "turn off", 0);
    assert NegativePhrases[1] == "turn off";
    assert DetectBoolean(s) == Some(false);
    DottedScatterEnabled();
  }

  lemma ScatterRadiusUpdate(sentence: string, targets: seq<nat>)
    requires sentence == ScatterHead + ScatterTail
    ensures MarkerRadiusUpdates(sentence, Some("scatter"), targets)
         == [Update("plotOptions.scatter.marker.radius", JInt(6))]
  {
    ScatterRadius(sentence);
    DottedScatterRadius();
  }

  lemma DottedScatterEnabled()
    ensures Dotted(["plotOptions", "scatter", "marker", "enabled"]) == "plotOptions.scatter.marker.enabled"
  {
    assert ["plotOptions", "scatter", "marker", "enabled"][1..] == ["scatter", "marker", "enabled"];
    assert ["scatter", "marker", "enabled"][1..] == ["marker", "enabled"];
    assert ["marker", "enabled"][1..] == ["enabled"];
  }

  lemma DottedScatterRadius()
    ensures Dotted(["plotOptions", "scatter", "marker", "radius"]) == "plotOptions.scatter.marker.radius"
  {
    assert ["plotOptions", "scatter", "marker", "radius"][1..] == ["scatter", "marker", "radius"];
    assert ["scatter", "marker", "radius"][1..] == ["marker", "radius"];
    assert ["marker", "radius"][1..] == ["radius"];
  }

  /** `6px` is not followed by `radius` or `size`, so `RADIUS_AFTER_RE` decides: the 6 after `radius`. */
  lemma ScatterRadius(sentence: string)
    requires sentence == ScatterHead + ScatterTail
    ensures MarkerRadius(sentence) == Some(JInt(6))
  {
    ScatterNoRadiusBefore(sentence);
    ScatterRadiusAt(sentence);
    ScatterNoKeywordBefore(sentence);
    MarkerRadiusAfter(sentence, 35, Number("6", ""));
    assert DecimalValue("6") == 6 by {
      assert "6"[..0] == [];
    }
  }

  lemma ScatterDigits(sentence: string)
    requires sentence == ScatterHead + ScatterTail
    ensures forall j :: 0 <= j < 45 ==> !IsDigit(Lower(sentence)[j])
    ensures forall j :: 46 <= j < 48 ==> !IsDigit(Lower(sentence)[j])
  {
  }

  lemma ScatterNoRadiusBefore(sentence: string)
    requires sentence == ScatterHead + ScatterTail
    ensures forall j :: 0 <= j <= |sentence| ==> RadiusBeforeAt(Lower(sentence), j).None?
  {
    var s := Lower(sentence);
    ScatterDigits(sentence);
    assert DigitsEnd(s, 46) == 46;
    assert DigitsEnd(s, 45) == 46;
    assert s[45..46] == "6";
    assert NumberAt(s, 45) == Some((Number("6", ""), 46));
    assert Spaces(s, 46) == 46;
    assert s[46..48] == "px";
    assert Spaces(s, 48) == 48;
    assert !AnyAt(s, RadiusKeywords, 48);
    forall j | 0 <= j <= |sentence|
      ensures RadiusBeforeAt(s, j).None?
    {
      if j != 45 {
        assert NumberAt(s, j).None?;
      }
    }
  }

  lemma ScatterRadiusAt(sentence: string)
    requires sentence == ScatterHead + ScatterTail
    ensures RadiusAfterAt(Lower(sentence), 35) == Some(Number("6", ""))
  {
    var s := Lower(sentence);
    ScatterDigits(sentence);
    OccursByLetters(s, "radius", 35);
    assert RadiusKeywords[0] == "radius";
    assert AlternativeEnd(s, RadiusKeywords, 35) == Some(41);
    assert LineEnd(s, 41) == 48;
    assert IsDigit(s[45]);
    var n := RadiusAfterAt(s, 35).value;
    var p :| FirstNumberOnLine(s, 41, p, n);
    assert p == 45;
    assert DigitsEnd(s, 46) == 46;
    assert s[45..46] == "6";
  }

  /** Neither `radius` nor `size` starts before 35: each `r` and `s` there is followed by another letter. */
  lemma ScatterNoKeywordBefore(sentence: string)
    requires sentence == ScatterHead + ScatterTail
    ensures forall j :: 0 <= j < 35 ==> RadiusAfterAt(Lower(sentence), j).None?
  {
    var s := Lower(sentence);
    ScatterNoRadiusWord(sentence);
    ScatterNoSizeWord(sentence);
    assert RadiusKeywords == ["radius", "size"];
  }

  lemma ScatterNoRadiusWord(sentence: string)
    requires sentence == ScatterHead + ScatterTail
    ensures forall j :: 0 <= j < 35 ==> !OccursAt(Lower(sentence), "radius", j)
  {
    PairAbsent(Lower(sentence), "radius", 0, 35);
  }

  lemma ScatterNoSizeWord(sentence: string)
    requires sentence == ScatterHead + ScatterTail
    ensures forall j :: 0 <= j < 35 ==> !OccursAt(Lower(sentence), "size", j)
  {
    PairAbsent(Lower(sentence), "size", 0, 35);
  }
}
