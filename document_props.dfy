/**
 * What the structure of the document means for the figure: every series is
 * plotted exactly once, the label lines name the series one to one, every
 * legend entry refers to a plot of the document, each layer has one block per
 * configured slot in key order, and the background fill goes to the first.
 */
module DocumentProps {
  import opened Wrappers
  import opened Text
  import opened Axes
  import opened Setup
  import opened LatexOutput
  import opened LatexProps
  import opened PlotProps

  lemma SelectedSnoc(ss: seq<Series>, d: Series, ax: XAxis, ay: YAxis)
    ensures Selected(ss + [d], ax, ay) == Selected(ss, ax, ay) + (if d.ax == ax && d.ay == ay then [d] else [])
  {
    assert (ss + [d])[..|ss|] == ss;
  }

  lemma SelectedSkip(ss: seq<Series>, d: Series, ax: XAxis, ay: YAxis)
    requires d.ax != ax || d.ay != ay
    ensures Selected(ss + [d], ax, ay) == Selected(ss, ax, ay)
  {
    assert (ss + [d])[..|ss|] == ss;
  }

  lemma RowSeriesSnocLeft(ss: seq<Series>, d: Series, ax: XAxis)
    requires d.ax == ax && d.ay == L
    ensures multiset(RowSeries(ss + [d], ax)) == multiset(RowSeries(ss, ax)) + multiset{d}
  {
    var sl, sr := Selected(ss, ax, L), Selected(ss, ax, R);
    SelectedSnoc(ss, d, ax, L);
    SelectedSkip(ss, d, ax, R);
    assert RowSeries(ss + [d], ax) == sl + [d] + sr;
  }

  lemma RowSeriesSnocRight(ss: seq<Series>, d: Series, ax: XAxis)
    requires d.ax == ax && d.ay == R
    ensures multiset(RowSeries(ss + [d], ax)) == multiset(RowSeries(ss, ax)) + multiset{d}
  {
    var sl, sr := Selected(ss, ax, L), Selected(ss, ax, R);
    SelectedSkip(ss, d, ax, L);
    SelectedSnoc(ss, d, ax, R);
    assert RowSeries(ss + [d], ax) == sl + (sr + [d]);
    assert sl + (sr + [d]) == RowSeries(ss, ax) + [d];
  }

  lemma RowSeriesSnocOther(ss: seq<Series>, d: Series, ax: XAxis)
    requires d.ax != ax
    ensures RowSeries(ss + [d], ax) == RowSeries(ss, ax)
  {
    SelectedSkip(ss, d, ax, L);
    SelectedSkip(ss, d, ax, R);
  }

  /** A series added to the figure joins the row of its x slot and no other. */
  lemma RowSeriesSnoc(ss: seq<Series>, d: Series, ax: XAxis)
    ensures d.ax == ax ==> multiset(RowSeries(ss + [d], ax)) == multiset(RowSeries(ss, ax)) + multiset{d}
    ensures d.ax != ax ==> multiset(RowSeries(ss + [d], ax)) == multiset(RowSeries(ss, ax))
  {
    if d.ax != ax {
      RowSeriesSnocOther(ss, d, ax);
    } else if d.ay == L {
      RowSeriesSnocLeft(ss, d, ax);
    } else {
      RowSeriesSnocRight(ss, d, ax);
    }
  }

  lemma PlotOrderRows(ss: seq<Series>)
    ensures multiset(PlotOrder(ss)) == multiset(RowSeries(ss, T)) + multiset(RowSeries(ss, B))
  {
  }

  lemma PlotOrderSnocTop(ss: seq<Series>, d: Series)
    requires d.ax == T
    ensures multiset(PlotOrder(ss + [d])) == multiset(PlotOrder(ss)) + multiset{d}
  {
    RowSeriesSnoc(ss, d, T);
    RowSeriesSnoc(ss, d, B);
    PlotOrderRows(ss + [d]);
    PlotOrderRows(ss);
  }

  lemma PlotOrderSnocBottom(ss: seq<Series>, d: Series)
    requires d.ax == B
    ensures multiset(PlotOrder(ss + [d])) == multiset(PlotOrder(ss)) + multiset{d}
  {
    RowSeriesSnocOther(ss, d, T);
    RowSeriesSnoc(ss, d, B);
    PlotOrderRows(ss + [d]);
    PlotOrderRows(ss);
    var top, bottom := multiset(RowSeries(ss, T)), multiset(RowSeries(ss, B));
    assert multiset(PlotOrder(ss + [d])) == top + (bottom + multiset{d});
  }

  lemma PlotOrderSnoc(ss: seq<Series>, d: Series)
    ensures multiset(PlotOrder(ss + [d])) == multiset(PlotOrder(ss)) + multiset{d}
  {
    if d.ax == T {
      PlotOrderSnocTop(ss, d);
    } else {
      PlotOrderSnocBottom(ss, d);
    }
  }

  lemma MultisetCancel<T>(x: multiset<T>, y: multiset<T>, d: T)
    requires x + multiset{d} == y + multiset{d}
    ensures x == y
  {
    forall e ensures x[e] == y[e] {
      assert (x + multiset{d})[e] == (y + multiset{d})[e];
    }
  }

  /** Every series lies in exactly one plot group, so plot order is a permutation of the series. */
  lemma {:induction false} PlotOrderPermutation(ss: seq<Series>)
    ensures multiset(PlotOrder(ss)) == multiset(ss)
  {
    if ss != [] {
      var init, d := ss[..|ss| - 1], ss[|ss| - 1];
      assert ss == init + [d];
      PlotOrderPermutation(init);
      PlotOrderSnoc(init, d);
    }
  }

  lemma LabelLinesSnoc(ss: seq<Series>, d: Series)
    ensures LabelLines(ss + [d]) == LabelLines(ss) + [LabelLine(d.id)]
  {
    LabelLinesAppend(ss, [d]);
    assert Concat([d], 1, LabelOf) == [LabelLine(d.id)];
  }

  /** Taking series `k` out of `b` takes its label line out of the labels of `b`. */
  lemma LabelLinesRemove(b: seq<Series>, k: nat)
    requires k < |b|
    ensures multiset(LabelLines(b)) == multiset(LabelLines(b[..k] + b[k + 1..])) + multiset{LabelLine(b[k].id)}
  {
    var pre, post := b[..k], b[k + 1..];
    assert b == pre + [b[k]] + post;
    LabelLinesAppend(pre + [b[k]], post);
    LabelLinesSnoc(pre, b[k]);
    LabelLinesAppend(pre, post);
  }

  lemma RemoveOne<T>(b: seq<T>, k: nat)
    requires k < |b|
    ensures multiset(b) == multiset(b[..k] + b[k + 1..]) + multiset{b[k]}
  {
    assert b == b[..k] + [b[k]] + b[k + 1..];
  }

  /** The labels of the series, as a multiset, do not depend on their order. */
  lemma {:induction false} LabelLinesPermutation(a: seq<Series>, b: seq<Series>)
    requires multiset(a) == multiset(b)
    ensures multiset(LabelLines(a)) == multiset(LabelLines(b))
    decreases |a|
  {
    if a != [] {
      var init, d := a[..|a| - 1], a[|a| - 1];
      assert a == init + [d];
      assert d in multiset(b);
      var k :| 0 <= k < |b| && b[k] == d;
      var rest := b[..k] + b[k + 1..];
      RemoveOne(b, k);
      assert multiset(a) == multiset(init) + multiset{d};
      MultisetCancel(multiset(init), multiset(rest), d);
      LabelLinesPermutation(init, rest);
      LabelLinesSnoc(init, d);
      LabelLinesRemove(b, k);
    } else {
      assert b == [];
    }
  }

  /** No two entries of `s` are equal. */
  predicate Distinct<T(==)>(s: seq<T>)
  {
    forall i, j :: 0 <= i < j < |s| ==> s[i] != s[j]
  }

  lemma {:induction false} DistinctCountsAtMostOne<T>(s: seq<T>)
    requires Distinct(s)
    ensures forall x :: multiset(s)[x] <= 1
  {
    if s != [] {
      var init, y := s[..|s| - 1], s[|s| - 1];
      assert s == init + [y];
      assert Distinct(init);
      DistinctCountsAtMostOne(init);
      assert y !in init;
    }
  }

  lemma RepeatCountsTwice<T>(s: seq<T>, i: nat, j: nat)
    requires i < j < |s| && s[i] == s[j]
    ensures multiset(s)[s[i]] >= 2
  {
    assert s == s[..j] + s[j..];
    assert s[i] in s[..j] && s[j] in s[j..];
  }

  /** A sequence has no repeated entry exactly when each value occurs at most once in its multiset. */
  lemma DistinctCounts<T>(s: seq<T>)
    ensures Distinct(s) <==> forall x :: multiset(s)[x] <= 1
  {
    if Distinct(s) {
      DistinctCountsAtMostOne(s);
    } else {
      var i, j :| 0 <= i < j < |s| && s[i] == s[j];
      RepeatCountsTwice(s, i, j);
    }
  }

  lemma DistinctPermutation<T>(a: seq<T>, b: seq<T>)
    requires multiset(a) == multiset(b) && Distinct(a)
    ensures Distinct(b)
  {
    DistinctCounts(a);
    DistinctCounts(b);
  }

  /** Series with pairwise different ids have pairwise different label lines. */
  lemma SeriesLabelsDistinct(ss: seq<Series>)
    requires forall i, j :: 0 <= i < j < |ss| ==> ss[i].id != ss[j].id
    ensures Distinct(LabelLines(ss))
  {
    var labels := LabelLines(ss);
    LabelLinesMeaning(ss, |ss|);
    forall i, j | 0 <= i < j < |labels| ensures labels[i] != labels[j] {
      LabelLineInjective(ss[i].id, ss[j].id);
    }
  }

  /** The label lines of the document, in document order. */
  function DocumentLabels(v: FigureState, fmt: real -> string): seq<string>
    requires Ready(v)
  {
    Tags(Document(v, fmt)).labels
  }

  /** The document holds one label line per series: the labels of the series, in plot order. */
  lemma DocumentLabelsArePlots(v: FigureState, fmt: real -> string)
    requires Ready(v)
    ensures multiset(DocumentLabels(v, fmt)) == multiset(LabelLines(v.series))
    ensures |DocumentLabels(v, fmt)| == |v.series|
  {
    DocumentTags(v, fmt);
    PlotOrderPermutation(v.series);
    LabelLinesPermutation(PlotOrder(v.series), v.series);
    LabelLinesMeaning(v.series, |v.series|);
    assert |DocumentLabels(v, fmt)| == |multiset(DocumentLabels(v, fmt))|;
  }

  /** Every series has its label line in the document. */
  lemma EveryPlotLabelled(v: FigureState, fmt: real -> string)
    requires Ready(v)
    ensures forall i :: 0 <= i < |v.series| ==> LabelLine(v.series[i].id) in DocumentLabels(v, fmt)
  {
    DocumentLabelsArePlots(v, fmt);
    LabelLinesMeaning(v.series, |v.series|);
    forall i | 0 <= i < |v.series| ensures LabelLine(v.series[i].id) in DocumentLabels(v, fmt) {
      assert LabelLines(v.series)[i] in multiset(LabelLines(v.series));
    }
  }

  /** Series with pairwise different ids get pairwise different label lines in the document. */
  lemma DistinctLabels(v: FigureState, fmt: real -> string)
    requires Ready(v)
    requires forall i, j :: 0 <= i < j < |v.series| ==> v.series[i].id != v.series[j].id
    ensures Distinct(DocumentLabels(v, fmt))
  {
    SeriesLabelsDistinct(v.series);
    DocumentLabelsArePlots(v, fmt);
    DistinctPermutation(LabelLines(v.series), DocumentLabels(v, fmt));
  }

  /**
   * With the legend enabled, entry `i` of the document is that of series `i`,
   * which refers (`refstyle=dplot:<id>`) to a label line the document holds;
   * with the legend disabled there is no entry and no legend banner.
   */
  lemma LegendMatchesPlots(v: FigureState, fmt: real -> string)
    requires Ready(v)
    ensures v.legend.enable ==>
      && |Tags(Document(v, fmt)).entries| == |v.series|
      && |Tags(Document(v, fmt)).legends| == 1
      && forall i :: 0 <= i < |v.series| ==>
           && Tags(Document(v, fmt)).entries[i] == Entry(v.series[i])
           && LabelLine(v.series[i].id) in DocumentLabels(v, fmt)
    ensures !v.legend.enable ==> Tags(Document(v, fmt)).entries == [] && Tags(Document(v, fmt)).legends == []
  {
    DocumentTags(v, fmt);
    EveryPlotLabelled(v, fmt);
  }

  /** A label line that the document holds belongs to one of the series. */
  lemma LabelsBelongToSeries(v: FigureState, fmt: real -> string)
    requires Ready(v)
    ensures forall x :: x in DocumentLabels(v, fmt) ==> exists i :: 0 <= i < |v.series| && x == LabelLine(v.series[i].id)
  {
    DocumentLabelsArePlots(v, fmt);
    LabelLinesMeaning(v.series, |v.series|);
    forall x | x in DocumentLabels(v, fmt) ensures exists i :: 0 <= i < |v.series| && x == LabelLine(v.series[i].id) {
      assert x in multiset(LabelLines(v.series));
      var i :| 0 <= i < |LabelLines(v.series)| && LabelLines(v.series)[i] == x;
    }
  }

  // Layers.

  /** The first line of block `i` of a layer names slot `i` of the configured slots. */
  lemma {:induction false} BlockLinesMeaning(ss: seq<Slot>)
    ensures |BlockLines(ss)| == |ss|
    ensures forall i :: 0 <= i < |ss| ==> BlockLines(ss)[i] == BlockLine(ss[i])
  {
    if ss != [] {
      BlockLinesMeaning(ss[..|ss| - 1]);
    }
  }

  /** The configured slots among the first `n` come in key order. */
  lemma {:induction false} ConfiguredSlotsOrdered(v: FigureState, n: nat)
    requires n <= |AllSlots|
    ensures forall i :: 0 <= i < |ConfiguredSlots(v, n)| ==> Rank(ConfiguredSlots(v, n)[i]) < n
    ensures forall i, j :: 0 <= i < j < |ConfiguredSlots(v, n)| ==>
      Rank(ConfiguredSlots(v, n)[i]) < Rank(ConfiguredSlots(v, n)[j])
  {
    if n > 0 {
      ConfiguredSlotsOrdered(v, n - 1);
      assert Rank(AllSlots[n - 1]) == n - 1;
    }
  }

  /** The configured slots among the first `m` are the first of those among the first `n`. */
  lemma {:induction false} ConfiguredSlotsPrefix(v: FigureState, m: nat, n: nat)
    requires m <= n <= |AllSlots|
    ensures |ConfiguredSlots(v, m)| <= |ConfiguredSlots(v, n)|
    ensures ConfiguredSlots(v, n)[..|ConfiguredSlots(v, m)|] == ConfiguredSlots(v, m)
    decreases n
  {
    if m < n {
      ConfiguredSlotsPrefix(v, m, n - 1);
      var a, b := ConfiguredSlots(v, m), ConfiguredSlots(v, n - 1);
      assert ConfiguredSlots(v, n)[..|b|] == b;
      assert ConfiguredSlots(v, n)[..|a|] == b[..|a|];
    }
  }

  /** No slot before `n` is configured exactly when none of the configured slots precedes `n`. */
  lemma {:induction false} NoneConfiguredMeaning(v: FigureState, n: nat)
    requires n <= |AllSlots|
    ensures NoneConfigured(v, n) <==> ConfiguredSlots(v, n) == []
  {
    if n > 0 {
      NoneConfiguredMeaning(v, n - 1);
    }
  }

  /**
   * `__create_background` applies the fill to a configured slot exactly when
   * it is the first configured slot: the flag the layer loop hands to the
   * block of slot `AllSlots[n - 1]` is true exactly for the head of the
   * configured slots.
   */
  lemma FillGoesFirst(v: FigureState, n: nat)
    requires 0 < n <= |AllSlots| && AllSlots[n - 1] in v.axes
    ensures |ConfiguredSlots(v, |AllSlots|)| > 0
    ensures NoneConfigured(v, n - 1) <==> ConfiguredSlots(v, |AllSlots|)[0] == AllSlots[n - 1]
  {
    var s := AllSlots[n - 1];
    var before, upto, all := ConfiguredSlots(v, n - 1), ConfiguredSlots(v, n), ConfiguredSlots(v, |AllSlots|);
    NoneConfiguredMeaning(v, n - 1);
    ConfiguredSlotsPrefix(v, n, |AllSlots|);
    ConfiguredSlotsOrdered(v, n - 1);
    assert upto == before + [s];
    assert all[..|upto|] == upto;
    if before != [] {
      assert all[0] == before[0];
      assert Rank(before[0]) < n - 1 == Rank(s);
    } else {
      assert all[0] == upto[0] == s;
    }
  }

  /** The option line that paints the axis background. */
  function FillLine(v: FigureState): string
  {
    "  " + FillParam(v) + ","
  }

  lemma OptionLineInjective(a: string, b: string)
    ensures "  " + a + "," == "  " + b + "," <==> a == b
  {
    var la, lb := "  " + a + ",", "  " + b + ",";
    if la == lb {
      assert a == la[2..|la| - 1] == lb[2..|lb| - 1] == b;
    }
  }

  /** Each option contributes one option line: a line occurs as often as its option. */
  lemma {:induction false} ParamLinesCount(ps: seq<string>, x: string)
    ensures multiset(ParamLines(ps))["  " + x + ","] == multiset(ps)[x]
    decreases |ps|
  {
    if ps != [] {
      var init, last := ps[..|ps| - 1], ps[|ps| - 1];
      ParamLinesCount(init, x);
      OptionLineInjective(last, x);
      assert ps == init + [last];
      assert ParamLines(ps) == ParamLines(init) + ["  " + last + ","];
      assert multiset(ParamLines(ps)) == multiset(ParamLines(init)) + multiset{"  " + last + ","};
    }
  }

  /** An option line occurs in an `axis` environment as often as its option among the environment's options. */
  lemma ParamLineCount(s: Slot, ps: seq<string>, x: string)
    ensures multiset(AxisBlock(s, ps))["  " + x + ","] == multiset(ps)[x]
  {
    var line := "  " + x + ",";
    var head, tail := [BlockLine(s), "["], ["]", @"\end{axis}"];
    ParamLinesCount(ps, x);
    assert line[0] == ' ' && BlockLine(s)[0] == '\\' && |line| > 1;
    assert line !in head && line !in tail;
    CountBetween(head, ParamLines(ps), tail, line);
  }

  /** No size or limit option is the fill option: those start with another letter. */
  lemma FillNotSize(v: FigureState, k: Kind, lim: (real, real), fmt: real -> string)
    ensures FillParam(v) !in AxisParam(v, k, lim, fmt)
  {
    var size := AxisParam(v, k, lim, fmt);
    assert FillParam(v)[0] == 'a';
    assert forall i :: 0 <= i < |size| ==> |size[i]| > 0 && size[i][0] != 'a';
  }

  /** No other background option is the fill option: those start with another letter. */
  lemma FillNotOption(v: FigureState, s: Slot, a: AxisSetup, fmt: real -> string)
    ensures FillParam(v) !in BackgroundOptions(s, a, fmt)
  {
    FillNotScale(v, s, a);
    FillNotLabel(v, s, a);
    FillNotGrid(v, s, a);
    FillNotTick(v, s, a, fmt);
  }

  lemma FillNotScale(v: FigureState, s: Slot, a: AxisSetup)
    ensures FillParam(v) !in ScaleOptions(s, a)
  {
    var opts := ScaleOptions(s, a);
    assert FillParam(v)[0] == 'a';
    assert forall i :: 0 <= i < |opts| ==> |opts[i]| > 0 && opts[i][0] != 'a';
  }

  lemma FillNotLabel(v: FigureState, s: Slot, a: AxisSetup)
    ensures FillParam(v) !in LabelOptions(s, a)
  {
    var opts := LabelOptions(s, a);
    assert FillParam(v)[0] == 'a';
    assert forall i :: 0 <= i < |opts| ==> |opts[i]| > 0 && opts[i][0] != 'a';
  }

  lemma FillNotGrid(v: FigureState, s: Slot, a: AxisSetup)
    ensures FillParam(v) !in GridOptions(s, a)
  {
    var opts := GridOptions(s, a);
    assert FillParam(v)[0] == 'a';
    assert forall i :: 0 <= i < |opts| ==> |opts[i]| > 0 && opts[i][0] != 'a';
  }

  lemma FillNotTick(v: FigureState, s: Slot, a: AxisSetup, fmt: real -> string)
    ensures FillParam(v) !in TickOptions(s, a, fmt)
  {
    var opts := TickOptions(s, a, fmt);
    assert FillParam(v)[0] == 'a';
    assert forall i :: 0 <= i < |opts| ==> |opts[i]| > 0 && opts[i][0] != 'a';
  }

  /** Background options hold the fill option once when given the fill flag, and otherwise not at all. */
  lemma FillLineInParams(v: FigureState, s: Slot, a: AxisSetup, lim: (real, real), first: bool, fmt: real -> string)
    ensures multiset(AxisBlock(s, BackgroundParams(v, s, a, lim, first, fmt)))[FillLine(v)] == if first then 1 else 0
  {
    var size, opts := AxisParam(v, AxisKind(s), lim, fmt), BackgroundOptions(s, a, fmt);
    var fill: seq<string> := if first then [FillParam(v)] else [];
    FillNotSize(v, AxisKind(s), lim, fmt);
    FillNotOption(v, s, a, fmt);
    ParamLineCount(s, size + fill + opts, FillParam(v));
    CountBetween(size, fill, opts, FillParam(v));
  }

  /** A background block holds the fill line once when it is handed the fill flag, and otherwise not at all. */
  lemma FillLineInBlock(v: FigureState, s: Slot, first: bool, fmt: real -> string)
    requires Ready(v) && s in v.axes
    ensures multiset(BackgroundBlock(v, fmt)(s, first))[FillLine(v)] == if first then 1 else 0
  {
    var a := v.axes[s];
    FillLineInParams(v, s, a, a.limits.value, first, fmt);
  }

  lemma CountBetween(a: seq<string>, b: seq<string>, c: seq<string>, x: string)
    requires x !in a && x !in c
    ensures multiset(a + b + c)[x] == multiset(b)[x]
  {
    assert multiset(a + b + c) == multiset(a) + multiset(b) + multiset(c);
  }

  /** Over the first `n` slots, the background blocks hold the fill line once if any slot is configured. */
  lemma {:induction false} FillLineInLayer(v: FigureState, n: nat, fmt: real -> string)
    requires Ready(v) && n <= |AllSlots|
    ensures multiset(LayerBlocks(v, n, BackgroundBlock(v, fmt)))[FillLine(v)] == if NoneConfigured(v, n) then 0 else 1
  {
    if n > 0 {
      FillLineInLayer(v, n - 1, fmt);
      var s := AllSlots[n - 1];
      if s in v.axes {
        FillLineInBlock(v, s, NoneConfigured(v, n - 1), fmt);
      }
    }
  }

  /** Some slot is configured exactly when some axis is. */
  lemma SomeConfigured(v: FigureState)
    ensures !NoneConfigured(v, |AllSlots|) <==> exists s :: s in v.axes
    ensures (exists s :: s in v.axes) ==> |ConfiguredSlots(v, |AllSlots|)| > 0
  {
    NoneConfiguredMeaning(v, |AllSlots|);
    ConfiguredSlotsMeaning(v, |AllSlots|);
    assert AllSlots[..|AllSlots|] == AllSlots;
    var cs := ConfiguredSlots(v, |AllSlots|);
    if exists s :: s in v.axes {
      var s :| s in v.axes;
      assert AllSlots[Rank(s)] == s;
      assert s in cs;
    }
    if cs != [] {
      assert cs[0] in cs;
      assert cs[0] in v.axes;
    }
  }

  /**
   * The background layer `__create_background` writes holds the fill line
   * exactly once when any axis is configured, and not at all otherwise.
   */
  lemma BackgroundFillOnce(v: FigureState, fmt: real -> string)
    requires Ready(v)
    ensures multiset(Background(v, fmt))[FillLine(v)] == if exists s :: s in v.axes then 1 else 0
  {
    var x := FillLine(v);
    FillLineInLayer(v, |AllSlots|, fmt);
    SomeConfigured(v);
    assert x !in Section("background") by {
      assert x[0] == ' ' && |x| > 1;
    }
  }

  /**
   * The background block `__create_background` writes for a configured slot
   * holds the fill line exactly when that slot is the first configured one.
   */
  lemma BackgroundFillFirst(v: FigureState, s: Slot, fmt: real -> string)
    requires Ready(v) && s in v.axes
    ensures |ConfiguredSlots(v, |AllSlots|)| > 0
    ensures FillLine(v) in BackgroundBlock(v, fmt)(s, NoneConfigured(v, Rank(s)))
      <==> s == ConfiguredSlots(v, |AllSlots|)[0]
  {
    FillGoesFirst(v, Rank(s) + 1);
    FillLineInBlock(v, s, NoneConfigured(v, Rank(s)), fmt);
  }

  /**
   * Each of the three layers has exactly one block per configured slot, in the
   * key order t, b, l, r: block `i` belongs to configured slot `i`.
   */
  lemma LayersFollowSlots(v: FigureState, fmt: real -> string)
    requires Ready(v)
    ensures var cs := ConfiguredSlots(v, |AllSlots|);
      && (forall s :: s in cs <==> s in v.axes)
      && Distinct(cs)
      && (forall i, j :: 0 <= i < j < |cs| ==> Rank(cs[i]) < Rank(cs[j]))
      && Tags(Padding(v, fmt)).blocks == BlockLines(cs)
      && Tags(Background(v, fmt)).blocks == BlockLines(cs)
      && Tags(Overlay(v, fmt)).blocks == BlockLines(cs)
      && |BlockLines(cs)| == |cs|
      && forall i :: 0 <= i < |cs| ==> BlockLines(cs)[i] == BlockLine(cs[i])
  {
    var cs := ConfiguredSlots(v, |AllSlots|);
    ConfiguredSlotsMeaning(v, |AllSlots|);
    ConfiguredSlotsOrdered(v, |AllSlots|);
    assert AllSlots[..|AllSlots|] == AllSlots;
    PaddingTags(v, fmt);
    BackgroundTags(v, fmt);
    OverlayTags(v, fmt);
    BlockLinesMeaning(cs);
  }
}
