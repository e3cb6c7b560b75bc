/**
 * Properties of the options of one `\addplot`, of its table and of its label:
 * which style flags appear for which line setup, and that the y restriction
 * follows the y domain.
 */
module PlotProps {
  import opened Wrappers
  import opened Text
  import opened Axes
  import opened Setup
  import opened LatexOutput

  /** No dash pattern is written as a word that starts a flag option. */
  lemma StyleNameNotFlag(s: LineStyle)
    ensures |LineStyleName(s)| == 0 || LineStyleName(s)[0] in "sdl"
  {
  }

  /** The options every plot carries start with none of the letters of the flags and the restriction. */
  lemma LineParamsHeads(ls: LineSetup)
    ensures forall i :: 0 <= i < |LineParams(ls)| ==> |LineParams(ls)[i]| == 0 || LineParams(ls)[i][0] !in "onr"
  {
    StyleNameNotFlag(ls.lineStyle);
  }

  lemma RestrictParamsHeads(asy: AxisSetup, fmt: real -> string)
    ensures forall i :: 0 <= i < |RestrictParams(asy, fmt)| ==> RestrictParams(asy, fmt)[i][0] == 'r'
  {
  }

  /** Each flag is among the options exactly when its condition holds. */
  lemma FlagsIn(d: Series, asy: AxisSetup, fmt: real -> string)
    ensures "only marks" in PlotParams(d, asy, fmt) <==> d.ls.lineStyle == NoLine
    ensures "no markers" in PlotParams(d, asy, fmt) <==> d.ls.marker == ""
  {
    var lp, rp := LineParams(d.ls), RestrictParams(asy, fmt);
    LineParamsHeads(d.ls);
    RestrictParamsHeads(asy, fmt);
    forall flag | flag == "only marks" || flag == "no markers" ensures flag !in lp && flag !in rp {
      forall i | 0 <= i < |lp| ensures lp[i] != flag {
        assert |lp[i]| == 0 || lp[i][0] != flag[0];
      }
      forall i | 0 <= i < |rp| ensures rp[i] != flag {
        assert rp[i][0] != flag[0];
      }
    }
  }

  /** The option lines of `\addplot` as they appear in the document. */
  function PlotOptionLines(d: Series, asy: AxisSetup, fmt: real -> string): seq<string>
  {
    ParamLines(PlotParams(d, asy, fmt))
  }

  /** `only marks` is among the options exactly when the series has no line style. */
  lemma OnlyMarksIff(d: Series, asy: AxisSetup, fmt: real -> string)
    ensures "  only marks," in PlotOptionLines(d, asy, fmt) <==> d.ls.lineStyle == NoLine
  {
    ParamLineIn(PlotParams(d, asy, fmt), "only marks");
    assert "  " + "only marks" + "," == "  only marks,";
    FlagsIn(d, asy, fmt);
  }

  /** `no markers` is among the options exactly when the series has no marker. */
  lemma NoMarkersIff(d: Series, asy: AxisSetup, fmt: real -> string)
    ensures "  no markers," in PlotOptionLines(d, asy, fmt) <==> d.ls.marker == ""
  {
    ParamLineIn(PlotParams(d, asy, fmt), "no markers");
    assert "  " + "no markers" + "," == "  no markers,";
    FlagsIn(d, asy, fmt);
  }

  lemma RestrictAbsent(d: Series, asy: AxisSetup, fmt: real -> string)
    requires YDomain(asy).None?
    ensures forall line :: line in PlotOptionLines(d, asy, fmt) ==> !StartsWith(line, "  restrict")
  {
    var ps := PlotParams(d, asy, fmt);
    var lines := ParamLines(ps);
    LineParamsHeads(d.ls);
    forall i | 0 <= i < |lines| ensures !StartsWith(lines[i], "  restrict") {
      assert |ps[i]| == 0 || ps[i][0] != 'r';
      NotPrefixAt(lines[i], "  restrict", 2);
    }
  }

  /**
   * The y restriction option is present exactly when the axis has a y domain,
   * and then it names that domain, which contains the axis window.
   */
  lemma RestrictIff(d: Series, asy: AxisSetup, fmt: real -> string)
    ensures YDomain(asy).Some? ==>
      var dom := YDomain(asy).value;
      && ("  " + RestrictOption(dom, fmt) + ",") in PlotOptionLines(d, asy, fmt)
      && dom.0 <= asy.limits.value.0 && asy.limits.value.1 <= dom.1
    ensures YDomain(asy).None? ==>
      forall line :: line in PlotOptionLines(d, asy, fmt) ==> !StartsWith(line, "  restrict")
  {
    match YDomain(asy)
    case Some(dom) =>
      ParamLineIn(PlotParams(d, asy, fmt), RestrictOption(dom, fmt));
    case None =>
      RestrictAbsent(d, asy, fmt);
  }

  /**
   * The table of a series holds one row per sample pair: its length when the
   * series was built with equally long coordinates, as `Data` requires.
   */
  lemma TableRows(d: Series, fmt: real -> string)
    requires |d.dx| == |d.dy|
    ensures |Rows(d.dx, d.dy, ZipLength(d.dx, d.dy), fmt)| == |d.dx|
    ensures forall i :: 0 <= i < |d.dx| ==>
      Rows(d.dx, d.dy, ZipLength(d.dx, d.dy), fmt)[i] == "  " + fmt(d.dx[i]) + " " + fmt(d.dy[i])
  {
  }

  /** Ids are written apart: a number never reads as `None`, and distinct numbers differ. */
  lemma IdStringInjective(a: Option<nat>, b: Option<nat>)
    ensures IdString(a) == IdString(b) <==> a == b
  {
    match a
    case None =>
      if b.Some? {
        assert IsDigit(IdString(b)[0]);
        assert IdString(a)[0] != IdString(b)[0];
      }
    case Some(m) =>
      match b
      case None =>
        assert IsDigit(IdString(a)[0]);
        assert IdString(a)[0] != IdString(b)[0];
      case Some(n) =>
        NatToStringInjective(m, n);
  }

  /** Label lines name their series: two label lines agree exactly when the ids do. */
  lemma LabelLineInjective(a: Option<nat>, b: Option<nat>)
    ensures LabelLine(a) == LabelLine(b) <==> a == b
  {
    var la, lb := LabelLine(a), LabelLine(b);
    assert IdString(a) == la[|LabelPrefix|..|la| - 1];
    assert IdString(b) == lb[|LabelPrefix|..|lb| - 1];
    IdStringInjective(a, b);
  }

  /**
   * A plot group always opens with its section header; an `axis` environment
   * follows exactly when some series is drawn on `ax`/`ay`, and then closes the group.
   */
  lemma PlotGroupShape(v: FigureState, ax: XAxis, ay: YAxis, fmt: real -> string)
    requires Ready(v)
    ensures var g := PlotGroup(v, ax, ay, fmt);
      && |g| >= 4 && g[..4] == Section(GroupTitle(ax, ay))
      && (|g| > 4 <==> |Selected(v.series, ax, ay)| > 0)
      && (|Selected(v.series, ax, ay)| > 0 ==> g[4] == @"\begin{axis}" && g[|g| - 1] == @"\end{axis}")
  {
    var g := PlotGroup(v, ax, ay, fmt);
    var sel := Selected(v.series, ax, ay);
    assert |Section(GroupTitle(ax, ay))| == 4;
    if |sel| > 0 {
      assert sel[0] in sel;
      var body := GroupAxis(v, sel, v.axes[ax], v.axes[ay], fmt);
      assert g == Section(GroupTitle(ax, ay)) + body;
      assert body[0] == @"\begin{axis}";
    }
  }
}
