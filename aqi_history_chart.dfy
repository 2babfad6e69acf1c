/** The PM2.5 history chart: the US EPA PM2.5 concentration categories
    (breakpoints 12, 35.4, 55.4, 150.4 and 250.4 micrograms per cubic
    metre, 40 CFR Part 58 Appendix G, Table 2), the colour of the whole
    chart chosen from the average reading, the translucent variants of that
    colour, and the per-point tooltip. Rendering itself is left to the
    charting library and is not modelled. */
module AqiHistoryChart {
  import opened Wrappers
  import opened HistoryUtils

  /** A category: its name and the `r, g, b` triple of its colour. */
  datatype Category = Category(name: string, rgb: string)

  /** The colour string `rgb(r, g, b)`. */
  function Color(c: Category): string
  {
    "rgb(" + c.rgb + ")"
  }

  const PmCategories: seq<Category> := [
    Category("Good", "34, 197, 94"),
    Category("Moderate", "234, 179, 8"),
    Category("Unhealthy for Sensitive", "249, 115, 22"),
    Category("Unhealthy", "239, 68, 68"),
    Category("Very Unhealthy", "168, 85, 247"),
    Category("Hazardous", "127, 29, 29")]

  /** `getAqiCategory`: inclusive upper bounds, Hazardous above 250.4. */
  function GetAqiCategory(value: real): (c: Category)
    ensures c in PmCategories
    ensures ')' !in c.rgb
  {
    if value <= 12.0 then Category("Good", "34, 197, 94")
    else if value <= 35.4 then Category("Moderate", "234, 179, 8")
    else if value <= 55.4 then Category("Unhealthy for Sensitive", "249, 115, 22")
    else if value <= 150.4 then Category("Unhealthy", "239, 68, 68")
    else if value <= 250.4 then Category("Very Unhealthy", "168, 85, 247")
    else Category("Hazardous", "127, 29, 29")
  }

  /** The band a value falls in: the number of breakpoints it exceeds. */
  function PmBand(value: real): (b: nat)
    ensures b < |PmCategories|
  {
    (if value > 12.0 then 1 else 0) + (if value > 35.4 then 1 else 0) + (if value > 55.4 then 1 else 0) +
    (if value > 150.4 then 1 else 0) + (if value > 250.4 then 1 else 0)
  }

  /** Every value gets exactly one of the six categories, the one of its
      band, and a higher value never gets a milder category. */
  lemma GetAqiCategoryIsBand(value: real, higher: real)
    ensures forall i :: 0 <= i < |PmCategories| ==> (GetAqiCategory(value) == PmCategories[i] <==> i == PmBand(value))
    ensures value <= higher ==> PmBand(value) <= PmBand(higher)
  {
  }

  // ---------------------------------------------------------------------
  // the average that colours the chart

  /** `data.reduce((a, b) => a + b, 0)`: a `null` point adds as 0. */
  function SumNullAsZero(data: seq<Option<real>>): real
  {
    if data == [] then 0.0 else SumNullAsZero(data[..|data| - 1]) + data[|data| - 1].GetOr(0.0)
  }

  /** `avgAqi` as written: the sum with nulls as 0, divided by the number
      of points including the nulls; 0 for no points. */
  function AverageAsWritten(data: seq<Option<real>>): (avg: real)
    ensures data == [] ==> avg == 0.0
    ensures avg == if data == [] then 0.0 else Sum(Present(data)) / |data| as real
  {
    SumNullAsZeroIsSumPresent(data);
    if |data| > 0 then SumNullAsZero(data) / |data| as real else 0.0
  }

  /** Nulls add nothing to the sum. */
  lemma {:induction false} SumNullAsZeroIsSumPresent(data: seq<Option<real>>)
    ensures SumNullAsZero(data) == Sum(Present(data))
  {
    if data != [] {
      var init, last := data[..|data| - 1], data[|data| - 1];
      SumNullAsZeroIsSumPresent(init);
      if last.Some? {
        assert Present(data) == Present(init) + [last.value];
        assert Present(data)[..|Present(data)| - 1] == Present(init);
      } else {
        assert Present(data) == Present(init) + [] == Present(init);
        assert SumNullAsZero(data) == SumNullAsZero(init) + 0.0;
      }
    }
  }

  /** The average the chart evidently intends: the mean of the readings
      that are present, 0 when there are none. */
  function AverageOfReadings(data: seq<Option<real>>): (avg: real)
    ensures Present(data) == [] ==> avg == 0.0
    ensures Present(data) != [] ==> Mean(Present(data)) == Some(avg)
  {
    Mean(Present(data)).GetOr(0.0)
  }

  /** Without nulls the two averages coincide. */
  lemma {:induction false} AveragesAgreeWithoutNulls(data: seq<Option<real>>)
    requires forall k :: 0 <= k < |data| ==> data[k].Some?
    ensures AverageAsWritten(data) == AverageOfReadings(data)
  {
    NoNullKeepsLength(data);
  }

  lemma {:induction false} NoNullKeepsLength(data: seq<Option<real>>)
    requires forall k :: 0 <= k < |data| ==> data[k].Some?
    ensures |Present(data)| == |data|
  {
    if data != [] {
      NoNullKeepsLength(data[..|data| - 1]);
    }
  }

  /** As written, a gap dilutes the average: one reading of 40 and one
      `null` day average to 20, classed Moderate, although the only reading
      is Unhealthy for Sensitive. */
  lemma NullDilutesAverage()
    ensures AverageAsWritten([Some(40.0), None]) == 20.0
    ensures GetAqiCategory(AverageAsWritten([Some(40.0), None])).name == "Moderate"
    ensures AverageOfReadings([Some(40.0), None]) == 40.0
    ensures GetAqiCategory(AverageOfReadings([Some(40.0), None])).name == "Unhealthy for Sensitive"
  {
    var data: seq<Option<real>> := [Some(40.0), None];
    assert data[..1] == [Some(40.0)] && |data[..1][..0]| == 0;
    assert Present(data) == [40.0];
    assert [40.0][..0] == [];
  }

  /** Gaps do not move the intended average. */
  lemma {:induction false} GapsIgnored(before: seq<Option<real>>, after: seq<Option<real>>)
    ensures AverageOfReadings(before + [None] + after) == AverageOfReadings(before + after)
  {
    PresentAppend(before + [None], after);
    PresentAppend(before, [None]);
    PresentAppend(before, after);
    var gap: seq<Option<real>> := [None];
    assert |gap[..0]| == 0;
    assert Present(gap) == [];
    assert Present(before + gap + after) == Present(before) + [] + Present(after);
    assert Present(before) + [] + Present(after) == Present(before + after);
  }

  /** The intended average lies within the range of the readings. */
  lemma AverageWithinReadings(data: seq<Option<real>>, lo: real, hi: real)
    requires Present(data) != []
    requires forall k :: 0 <= k < |Present(data)| ==> lo <= Present(data)[k] <= hi
    ensures lo <= AverageOfReadings(data) <= hi
  {
    MeanBounds(Present(data), lo, hi);
  }

  // ---------------------------------------------------------------------
  // colour rewriting

  /** `s.replace(pattern, replacement)` with a string pattern: only the
      first occurrence is replaced (an empty pattern matches at the start). */
  function ReplaceFirst(s: string, pattern: string, replacement: string): (r: string)
    ensures pattern <= s ==> r == replacement + s[|pattern|..]
    decreases |s|
  {
    if |s| < |pattern| then s
    else if s[..|pattern|] == pattern then replacement + s[|pattern|..]
    else
      assert |pattern| > 0;
      [s[0]] + ReplaceFirst(s[1..], pattern, replacement)
  }

  /** The first occurrence of a one-character pattern is the one after a
      prefix free of it. */
  lemma {:induction false} ReplaceFirstAfter(u: string, c: char, v: string, replacement: string)
    requires c !in u
    ensures ReplaceFirst(u + [c] + v, [c], replacement) == u + replacement + v
  {
    var s := u + [c] + v;
    if u != [] {
      assert s[..1] == [u[0]] && u[0] != c;
      assert s[1..] == u[1..] + [c] + v;
      ReplaceFirstAfter(u[1..], c, v, replacement);
      assert [u[0]] + (u[1..] + replacement + v) == u + replacement + v;
    } else {
      assert [c] <= s;
      assert s[1..] == v;
    }
  }

  /** `color.replace('rgb', 'rgba').replace(')', ', ' + alpha + ')')`. */
  function WithAlpha(color: string, alpha: string): string
  {
    ReplaceFirst(ReplaceFirst(color, "rgb", "rgba"), ")", ", " + alpha + ")")
  }

  /** Rewriting `rgb(inner)` gives `rgba(inner, alpha)`. */
  lemma WithAlphaOfRgb(inner: string, alpha: string)
    requires ')' !in inner
    ensures WithAlpha("rgb(" + inner + ")", alpha) == "rgba(" + inner + ", " + alpha + ")"
  {
    var color := "rgb(" + inner + ")";
    assert "rgb" <= color;
    var once := ReplaceFirst(color, "rgb", "rgba");
    assert once == ("rgba(" + inner) + [')'] + [] by {
      assert color[3..] == "(" + inner + ")";
    }
    assert ')' !in "rgba(" + inner;
    ReplaceFirstAfter("rgba(" + inner, ')', [], ", " + alpha + ")");
  }

  // ---------------------------------------------------------------------
  // the chart

  /** The colours and point size of the single dataset and its tooltip. */
  datatype ChartStyle = ChartStyle(borderColor: string, backgroundColor: string, pointRadius: nat,
                                   pointBackgroundColor: string, tooltipBorderColor: string)

  /** The dataset's style as the chart computes it: line and points take
      the colour of the category of `avgAqi` (nulls added as 0 but counted
      in the length), the fill is that colour at alpha 0.1 and the tooltip
      border at alpha 0.5; points are smaller on the 24-hour range. */
  function ChartStyleOf(data: seq<Option<real>>, timeRange: string): (s: ChartStyle)
    ensures var c := GetAqiCategory(AverageAsWritten(data));
            && s.borderColor == Color(c)
            && s.pointBackgroundColor == Color(c)
            && s.backgroundColor == "rgba(" + c.rgb + ", 0.1)"
            && s.tooltipBorderColor == "rgba(" + c.rgb + ", 0.5)"
    ensures s.pointRadius == if timeRange == "24h" then 2 else 4
  {
    StyleFor(AverageAsWritten(data), timeRange)
  }

  /** The style the chart evidently intends: the same rules applied to the
      mean of the readings that are present. */
  function ChartStyleIntended(data: seq<Option<real>>, timeRange: string): (s: ChartStyle)
    ensures var c := GetAqiCategory(AverageOfReadings(data));
            && s.borderColor == Color(c)
            && s.pointBackgroundColor == Color(c)
            && s.backgroundColor == "rgba(" + c.rgb + ", 0.1)"
            && s.tooltipBorderColor == "rgba(" + c.rgb + ", 0.5)"
    ensures s.pointRadius == if timeRange == "24h" then 2 else 4
  {
    StyleFor(AverageOfReadings(data), timeRange)
  }

  /** The style for a given average. */
  function StyleFor(avg: real, timeRange: string): (s: ChartStyle)
    ensures var c := GetAqiCategory(avg);
            && s.borderColor == Color(c)
            && s.pointBackgroundColor == Color(c)
            && s.backgroundColor == "rgba(" + c.rgb + ", 0.1)"
            && s.tooltipBorderColor == "rgba(" + c.rgb + ", 0.5)"
    ensures s.pointRadius == if timeRange == "24h" then 2 else 4
  {
    var c := GetAqiCategory(avg);
    var color := Color(c);
    WithAlphaOfRgb(c.rgb, "0.1");
    WithAlphaOfRgb(c.rgb, "0.5");
    ChartStyle(color, WithAlpha(color, "0.1"), if timeRange == "24h" then 2 else 4, color, WithAlpha(color, "0.5"))
  }

  /** An empty chart is coloured Good. */
  lemma EmptyChartIsGood(timeRange: string)
    ensures ChartStyleOf([], timeRange).borderColor == "rgb(34, 197, 94)"
    ensures ChartStyleOf([], timeRange).backgroundColor == "rgba(34, 197, 94, 0.1)"
  {
    var none: seq<Option<real>> := [];
    var c := GetAqiCategory(AverageAsWritten(none));
    assert c == Category("Good", "34, 197, 94");
    assert "rgba(" + c.rgb + ", 0.1)" == "rgba(34, 197, 94, 0.1)";
    assert Color(c) == "rgb(34, 197, 94)";
  }

  /** As written, a day without readings changes the colour of the whole
      chart: one reading of 40 and one `null` day are drawn in Moderate
      yellow, where the intended style is Unhealthy for Sensitive orange. */
  lemma GapRecoloursChart(timeRange: string)
    ensures ChartStyleOf([Some(40.0), None], timeRange).borderColor == "rgb(234, 179, 8)"
    ensures ChartStyleIntended([Some(40.0), None], timeRange).borderColor == "rgb(249, 115, 22)"
  {
    NullDilutesAverage();
    var data: seq<Option<real>> := [Some(40.0), None];
    var moderate, sensitive := Category("Moderate", "234, 179, 8"), Category("Unhealthy for Sensitive", "249, 115, 22");
    assert AverageAsWritten(data) == 20.0 && GetAqiCategory(20.0) == moderate;
    assert AverageOfReadings(data) == 40.0 && GetAqiCategory(40.0) == sensitive;
    assert Color(moderate) == "rgb(234, 179, 8)";
    assert Color(sensitive) == "rgb(249, 115, 22)";
  }

  /** The intended style does not depend on gaps in the data. */
  lemma IntendedStyleIgnoresGaps(before: seq<Option<real>>, after: seq<Option<real>>, timeRange: string)
    ensures ChartStyleIntended(before + [None] + after, timeRange) == ChartStyleIntended(before + after, timeRange)
  {
    GapsIgnored(before, after);
  }

  /** The two lines of a point's tooltip: its value and its own category. */
  datatype Tooltip = Tooltip(value: real, quality: string)

  function PointTooltip(value: real): (t: Tooltip)
    ensures t == Tooltip(value, GetAqiCategory(value).name)
    ensures t.quality in ["Good", "Moderate", "Unhealthy for Sensitive", "Unhealthy", "Very Unhealthy", "Hazardous"]
  {
    Tooltip(value, GetAqiCategory(value).name)
  }

  /** Tooltips describe each point, not the average: with readings 5 and
      100 the chart is coloured Unhealthy for Sensitive while the points
      are labelled Good and Unhealthy. */
  lemma TooltipIsPerPoint()
    ensures GetAqiCategory(AverageAsWritten([Some(5.0), Some(100.0)])).name == "Unhealthy for Sensitive"
    ensures PointTooltip(5.0).quality == "Good"
    ensures PointTooltip(100.0).quality == "Unhealthy"
  {
    var data: seq<Option<real>> := [Some(5.0), Some(100.0)];
    assert data[..1] == [Some(5.0)] && |data[..1][..0]| == 0;
    assert Present(data) == [5.0, 100.0];
    assert [5.0, 100.0][..1] == [5.0] && [5.0][..0] == [];
  }
}
