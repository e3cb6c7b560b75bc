/**
 * `_LatexOutput`: the LaTeX/pgfplots document emitted for a validated figure.
 *
 * Every part of the document is first defined as a function of the figure
 * snapshot (`FigureState`) and of the number formatter `fmt`, which stands for
 * `_LatexOutput.__fmt_flt` (`f'{x:.20e}'`). The methods `Create...` are the
 * loops of the source, each proved to build exactly its part.
 */
module LatexOutput {
  import opened Wrappers
  import opened Text
  import opened Axes
  import opened Setup

  /** `_LatexOutput.overscale_limit`. */
  const OverscaleLimit: real := 10000000000.0

  /**
   * What the emitter needs and `_validate` establishes: every configured axis
   * has limits, and every series uses configured axes.
   */
  predicate Ready(v: FigureState)
  {
    && (forall s :: s in v.axes ==> v.axes[s].limits.Some?)
    && (forall d :: d in v.series ==> d.ax in v.axes && d.ay in v.axes)
  }

  /**
   * `__get_y_domain`: no domain for unset limits or a log axis; otherwise the
   * limits pushed outward by the overscale factor, keeping their signs.
   */
  function YDomain(asy: AxisSetup): (r: Option<(real, real)>)
    ensures r.None? <==> asy.limits.None? || asy.log
    ensures r.Some? ==>
      && r.value.0 <= asy.limits.value.0 && asy.limits.value.1 <= r.value.1
      && (r.value.0 > 0.0 <==> asy.limits.value.0 > 0.0)
      && (r.value.1 > 0.0 <==> asy.limits.value.1 > 0.0)
  {
    match asy.limits
    case None => None
    case Some(lim) =>
      if asy.log then None
      else
        var mn := if lim.0 > 0.0 then lim.0 / OverscaleLimit else lim.0 * OverscaleLimit;
        var mx := if lim.1 > 0.0 then lim.1 * OverscaleLimit else lim.1 / OverscaleLimit;
        Some((mn, mx))
  }

  /** `str(b).lower()`. */
  function BoolName(b: bool): string
  {
    if b then "true" else "false"
  }

  function ModeName(log: bool): string
  {
    if log then "log" else "linear"
  }

  /** The value of a `tick distance=` option: the formatted distance, or nothing. */
  function Distance(t: TickSetup, fmt: real -> string): string
  {
    match t.majorDistance
    case Some(d) => fmt(d)
    case None => ""
  }

  /** `str(data._id)`: "None" for a series never added to a figure. */
  function IdString(id: Option<nat>): string
  {
    match id
    case Some(n) => NatToString(n)
    case None => "None"
  }

  /** A row of percent signs. */
  function Bar(n: nat): string
  {
    seq(n, _ => '%')
  }

  /** A framed comment `% title %` between two bars of its own width. */
  function Banner(title: string): seq<string>
  {
    [Bar(|title| + 4), "% " + title + " %", Bar(|title| + 4)]
  }

  /** The header that opens each section: an empty line and a banner. */
  function Section(title: string): seq<string>
  {
    [""] + Banner(title)
  }

  // The fixed preamble, each line written as its command followed by its arguments.

  /** A LaTeX command line: a backslash, the command's name, then its arguments. */
  function Command(name: string, args: string): string
  {
    @"\" + name + args
  }

  /** `LatexCmdsDocClass`. */
  const DocClassLines: seq<string> := [Command("documentclass", "[class=IEEEtran]{standalone}")]

  /** `LatexCmdsAfterDocClass`. */
  const AfterDocClassLines: seq<string> := [
    Command("usepackage", "{tikz,amsmath,siunitx}"),
    Command("sisetup", @"{range-units=repeat, list-units=repeat, binary-units, exponent-product = \cdot, print-unity-mantissa=false}"),
    Command("usetikzlibrary", "{arrows,snakes,backgrounds,patterns,matrix,shapes,fit,calc,shadows,plotmarks}"),
    Command("usepackage", "[graphics,tightpage,active]{preview}"),
    Command("usepackage", "{pgfplots}"),
    Command("pgfplotsset", "{compat=newest}"),
    Command("usetikzlibrary", "{shapes.geometric}"),
    Command("PreviewEnvironment", "{tikzpicture}"),
    Command("PreviewEnvironment", "{equation}"),
    Command("PreviewEnvironment", "{equation*}"),
    Command("newlength", @"\figurewidth"),
    Command("newlength", @"\figureheight")
  ]

  /** The document's start: sizes and the opening of the picture. */
  function PictureBegin(v: FigureState): seq<string>
  {
    [ @"\begin{" + "document}",
      @"\setlength" + (@"\figurewidth{" + v.width + "}"),
      @"\setlength" + (@"\figureheight{" + v.height + "}"),
      @"\begin{" + @"tikzpicture}[font=\normalsize]",
      @"\pgfplotsset" + ("{every axis/.append style={" + v.basicThickness + "},compat=1.18},")]
  }

  /** `__create_doc_begin`. */
  function DocBegin(v: FigureState): seq<string>
  {
    Banner("auto-generated using dplot") + DocClassLines + AfterDocClassLines + PictureBegin(v)
  }

  /** `__create_doc_end`. */
  const DocEnd: seq<string> := [@"\end" + "{tikzpicture}", @"\end" + "{document}"]

  /** `__get_axis_param`: size and the limits along one kind of axis. */
  function AxisParam(v: FigureState, k: Kind, lim: (real, real), fmt: real -> string): seq<string>
  {
    [ "scale only axis",
      "width=" + v.width,
      "height=" + v.height,
      KindName(k) + "min=" + fmt(lim.0),
      KindName(k) + "max=" + fmt(lim.1)]
  }

  /** How the first line of every block of the padding, background and overlay layers begins. */
  const BlockPrefix: string := @"\begin{axis}% "

  /** How the label line that closes every plot begins. */
  const LabelPrefix: string := @"\label{dplot:"

  /** How every legend entry begins. */
  const EntryPrefix: string := @"\addlegendimage{"

  /** The first line of an axis block of the padding, background and overlay layers. */
  function BlockLine(s: Slot): string
  {
    BlockPrefix + Key(s) + "-axis"
  }

  /** One `axis` environment for slot `s` with the options `ps`. */
  function AxisBlock(s: Slot, ps: seq<string>): seq<string>
  {
    [BlockLine(s), "["] + ParamLines(ps) + ["]", @"\end{axis}"]
  }

  /** The options of the padding block of slot `s`, which reserves room for its labels. */
  function PaddingParams(v: FigureState, s: Slot, a: AxisSetup, fmt: real -> string): seq<string>
  {
    var k := AxisKind(s);
    var kn := KindName(k);
    var ko := KindName(OppositeKind(k));
    AxisParam(v, k, (0.0, 1.0), fmt)
    + [ kn + "mode=linear",
        "log basis " + kn + "=" + a.logBase,
        ko + "min=0",
        ko + "max=1",
        @"xtick=\empty",
        @"ytick=\empty",
        "hide " + ko + " axis=true",
        kn + "tick style={draw=none}",
        kn + "label=" + (if k == Y then @"{\hphantom{-}}" else @"{\vphantom{-}}"),
        kn + "label shift=" + a.padding,
        kn + "ticklabel pos=" + AxisPos(s)]
  }

  /**
   * The options of the background block of slot `s`: label, grids and ticks,
   * and the background fill when `fill` holds.
   */
  function BackgroundParams(v: FigureState, s: Slot, a: AxisSetup, lim: (real, real), fill: bool,
                            fmt: real -> string): seq<string>
  {
    AxisParam(v, AxisKind(s), lim, fmt) + (if fill then [FillParam(v)] else []) + BackgroundOptions(s, a, fmt)
  }

  /** The background fill option, which only the first background block carries. */
  function FillParam(v: FigureState): string
  {
    "axis background/.style={fill=" + v.backgroundColor + "}"
  }

  /** The options of a background block after its size, limits and fill: scale, labels, grid, ticks. */
  function BackgroundOptions(s: Slot, a: AxisSetup, fmt: real -> string): seq<string>
  {
    ScaleOptions(s, a) + LabelOptions(s, a) + GridOptions(s, a) + TickOptions(s, a, fmt)
  }

  function ScaleOptions(s: Slot, a: AxisSetup): seq<string>
  {
    var kn, ko := KindName(AxisKind(s)), KindName(OppositeKind(AxisKind(s)));
    [ kn + "mode=" + ModeName(a.log),
      "log basis " + kn + "=" + a.logBase,
      ko + "min=0",
      ko + "max=1"]
  }

  function LabelOptions(s: Slot, a: AxisSetup): seq<string>
  {
    var kn := KindName(AxisKind(s));
    [ kn + "label={" + a.labelText + "}",
      kn + "label shift={" + a.labelShift + "}",
      @"xticklabel=\empty",
      @"yticklabel=\empty"]
  }

  function GridOptions(s: Slot, a: AxisSetup): seq<string>
  {
    var kn := KindName(AxisKind(s));
    [ kn + "majorgrids=" + BoolName(a.grid.majorEnable),
      "major grid style={" + a.grid.majorThickness + ",color=" + a.grid.majorColor + "}",
      kn + "minorgrids=" + BoolName(a.grid.minorEnable),
      "minor grid style={" + a.grid.minorThickness + ",color=" + a.grid.minorColor + "}"]
  }

  function TickOptions(s: Slot, a: AxisSetup, fmt: real -> string): seq<string>
  {
    var kn, ko := KindName(AxisKind(s)), KindName(OppositeKind(AxisKind(s)));
    [ kn + "tick=" + (if a.tick.enable then "" else @"\empty"),
      ko + @"tick=\empty",
      kn + "tick pos=" + (if a.tick.opposite then "both" else AxisPos(s)),
      kn + "tick distance=" + Distance(a.tick, fmt),
      "major " + kn + " tick style={" + a.tick.majorThickness + ",color=" + a.tick.majorColor + "}",
      "minor " + kn + " tick style={" + a.tick.minorThickness + ",color=" + a.tick.minorColor + "}",
      "minor " + kn + " tick num=" + IntToString(a.tick.minorNum)]
  }

  /** The options of the overlay block of slot `s`, which draws tick labels on top. */
  function OverlayParams(v: FigureState, s: Slot, a: AxisSetup, lim: (real, real), fmt: real -> string)
    : seq<string>
  {
    var k := AxisKind(s);
    var kn := KindName(k);
    var ko := KindName(OppositeKind(k));
    AxisParam(v, k, lim, fmt)
    + [ ko + "min=0",
        ko + "max=1",
        kn + "mode=" + ModeName(a.log),
        "log basis " + kn + "=" + a.logBase,
        kn + "tick style={draw=none}",
        kn + "tick distance=" + Distance(a.tick, fmt),
        "hide " + ko + " axis=true",
        kn + "ticklabel pos=" + AxisPos(s),
        "axis on top=true"]
  }

  /** None of the first `n` slots of `Figure.axes` is configured. */
  predicate NoneConfigured(v: FigureState, n: nat)
    requires n <= |AllSlots|
  {
    n == 0 || (NoneConfigured(v, n - 1) && AllSlots[n - 1] !in v.axes)
  }

  /**
   * The loop shared by the padding, background and overlay layers over the
   * first `n` slots of `Figure.axes`: a configured slot gets the block that
   * `block` builds from it and from whether it is the first configured slot,
   * and an unset slot is skipped.
   */
  function LayerBlocks(v: FigureState, n: nat, block: (Slot, bool) --> seq<string>): seq<string>
    requires n <= |AllSlots|
    requires forall s, first :: s in v.axes ==> block.requires(s, first)
  {
    if n == 0 then []
    else
      var s := AllSlots[n - 1];
      LayerBlocks(v, n - 1, block) + (if s in v.axes then block(s, NoneConfigured(v, n - 1)) else [])
  }

  /** The block `__create_padding` writes for a configured slot. */
  function PaddingBlock(v: FigureState, fmt: real -> string): (Slot, bool) --> seq<string>
  {
    (s, first) requires s in v.axes => AxisBlock(s, PaddingParams(v, s, v.axes[s], fmt))
  }

  /** The block `__create_background` writes for a configured slot; the first one carries the fill. */
  function BackgroundBlock(v: FigureState, fmt: real -> string): (Slot, bool) --> seq<string>
  {
    (s, first) requires s in v.axes && v.axes[s].limits.Some? =>
      AxisBlock(s, BackgroundParams(v, s, v.axes[s], v.axes[s].limits.value, first, fmt))
  }

  /** The block `__create_overlay` writes for a configured slot. */
  function OverlayBlock(v: FigureState, fmt: real -> string): (Slot, bool) --> seq<string>
  {
    (s, first) requires s in v.axes && v.axes[s].limits.Some? =>
      AxisBlock(s, OverlayParams(v, s, v.axes[s], v.axes[s].limits.value, fmt))
  }

  function Padding(v: FigureState, fmt: real -> string): seq<string>
  {
    Section("padding") + LayerBlocks(v, |AllSlots|, PaddingBlock(v, fmt))
  }

  function Background(v: FigureState, fmt: real -> string): seq<string>
    requires Ready(v)
  {
    Section("background") + LayerBlocks(v, |AllSlots|, BackgroundBlock(v, fmt))
  }

  function Overlay(v: FigureState, fmt: real -> string): seq<string>
    requires Ready(v)
  {
    Section("overlay") + LayerBlocks(v, |AllSlots|, OverlayBlock(v, fmt))
  }

  /** The lines `f` gives for each of the first `n` elements of `xs`, in order. */
  function Concat<T>(xs: seq<T>, n: nat, f: T --> seq<string>): seq<string>
    requires n <= |xs| && forall i :: 0 <= i < n ==> f.requires(xs[i])
  {
    if n == 0 then [] else Concat(xs, n - 1, f) + f(xs[n - 1])
  }

  /** The series drawn in plot group `ax`/`ay`, in the order they were added. */
  function Selected(ss: seq<Series>, ax: XAxis, ay: YAxis): (r: seq<Series>)
    ensures |r| <= |ss|
    ensures forall d :: d in r ==> d in ss && d.ax == ax && d.ay == ay
    ensures forall d :: d in ss && d.ax == ax && d.ay == ay ==> d in r
  {
    if ss == [] then []
    else
      var d := ss[|ss| - 1];
      Selected(ss[..|ss| - 1], ax, ay) + (if d.ax == ax && d.ay == ay then [d] else [])
  }

  /** The options of the `axis` environment of a plot group: both axes' limits, modes and bases. */
  function PlotBeginParams(v: FigureState, asx: AxisSetup, asy: AxisSetup, fmt: real -> string): seq<string>
    requires asx.limits.Some? && asy.limits.Some?
  {
    AxisParam(v, X, asx.limits.value, fmt)
    + [ "ymin=" + fmt(asy.limits.value.0),
        "ymax=" + fmt(asy.limits.value.1),
        "xmode=" + ModeName(asx.log),
        "log basis x=" + asx.logBase,
        "ymode=" + ModeName(asy.log),
        "log basis y=" + asy.logBase,
        "hide x axis=true",
        "hide y axis=true",
        @"xtick=\empty",
        @"ytick=\empty"]
  }

  /** `__create_plot_begin`. */
  function PlotBegin(v: FigureState, asx: AxisSetup, asy: AxisSetup, fmt: real -> string): seq<string>
    requires asx.limits.Some? && asy.limits.Some?
  {
    [@"\begin{axis}", "["] + ParamLines(PlotBeginParams(v, asx, asy, fmt)) + ["]"]
  }

  /** The options of one `\addplot`: colour, style, markers and the y domain. */
  function PlotParams(d: Series, asy: AxisSetup, fmt: real -> string): seq<string>
  {
    LineParams(d.ls)
    + (if d.ls.lineStyle == NoLine then ["only marks"] else [])
    + (if d.ls.marker == "" then ["no markers"] else [])
    + RestrictParams(asy, fmt)
  }

  /** The options every `\addplot` carries, taken from its line setup. */
  function LineParams(ls: LineSetup): seq<string>
  {
    [ "color=" + ls.plotColor,
      LineStyleName(ls.lineStyle),
      "line width=" + ls.lineWidth,
      "mark=" + ls.marker,
      "mark repeat=" + IntToString(ls.markerRepeat),
      "mark phase=" + IntToString(ls.markerPhase),
      "mark options={solid}"]
  }

  /** The option that clips a plot to the y domain of its axis. */
  function RestrictOption(dom: (real, real), fmt: real -> string): string
  {
    "restrict y to domain={" + fmt(dom.0) + ":" + fmt(dom.1) + "}"
  }

  function RestrictParams(asy: AxisSetup, fmt: real -> string): seq<string>
  {
    match YDomain(asy)
    case Some(dom) => [RestrictOption(dom, fmt)]
    case None => []
  }

  /** The options of the inline table: rows by newline, columns scaled by the axes' factors. */
  function TableParams(asx: AxisSetup, asy: AxisSetup, fmt: real -> string): seq<string>
  {
    [ "row sep=newline",
      @"x expr=\thisrowno{0}*" + fmt(asx.scale),
      @"y expr=\thisrowno{1}*" + fmt(asy.scale)]
  }

  /** One table row: an x sample and a y sample. */
  function Row(x: real, y: real, fmt: real -> string): string
  {
    "  " + fmt(x) + " " + fmt(y)
  }

  /** The first `n` rows of `zip(dx, dy)`. */
  function Rows(dx: seq<real>, dy: seq<real>, n: nat, fmt: real -> string): (r: seq<string>)
    requires n <= |dx| && n <= |dy|
    ensures |r| == n
    ensures forall i :: 0 <= i < n ==> r[i] == Row(dx[i], dy[i], fmt)
  {
    if n == 0 then [] else Rows(dx, dy, n - 1, fmt) + [Row(dx[n - 1], dy[n - 1], fmt)]
  }

  /** The number of pairs `zip` yields. */
  function ZipLength(dx: seq<real>, dy: seq<real>): (n: nat)
    ensures n <= |dx| && n <= |dy| && (n == |dx| || n == |dy|)
  {
    if |dx| <= |dy| then |dx| else |dy|
  }

  /** The line that names a plot, so the legend can refer to it. */
  function LabelLine(id: Option<nat>): string
  {
    LabelPrefix + IdString(id) + "}"
  }

  /** `__create_plot_content`: one `\addplot` of series `d` on the axes `asx`/`asy` of its group. */
  function PlotContent(d: Series, asx: AxisSetup, asy: AxisSetup, fmt: real -> string): seq<string>
  {
    [@"\addplot ["] + ParamLines(PlotParams(d, asy, fmt))
    + ["] table ["] + ParamLines(TableParams(asx, asy, fmt))
    + ["]{"] + Rows(d.dx, d.dy, ZipLength(d.dx, d.dy), fmt)
    + ["};", LabelLine(d.id)]
  }

  /** The plot content of each series of a group drawn on the axes `asx`/`asy`. */
  function ContentOf(asx: AxisSetup, asy: AxisSetup, fmt: real -> string): Series -> seq<string>
  {
    (d: Series) => PlotContent(d, asx, asy, fmt)
  }

  function GroupTitle(ax: XAxis, ay: YAxis): string
  {
    "plot group " + Key(ax) + "/" + Key(ay)
  }

  /** `__create_plot_group`: the section header, and one `axis` environment if any series is selected. */
  function PlotGroup(v: FigureState, ax: XAxis, ay: YAxis, fmt: real -> string): seq<string>
    requires Ready(v)
  {
    var sel := Selected(v.series, ax, ay);
    Section(GroupTitle(ax, ay))
    + if |sel| > 0 then assert sel[0] in sel; GroupAxis(v, sel, v.axes[ax], v.axes[ay], fmt) else []
  }

  /** The `axis` environment of a non-empty plot group: its options, then one plot per series. */
  function GroupAxis(v: FigureState, sel: seq<Series>, asx: AxisSetup, asy: AxisSetup, fmt: real -> string)
    : seq<string>
    requires asx.limits.Some? && asy.limits.Some?
  {
    PlotBegin(v, asx, asy, fmt) + Concat(sel, |sel|, ContentOf(asx, asy, fmt)) + [@"\end{axis}"]
  }

  /** The plot group of x slot `ax` with each y slot. */
  function GroupOf(v: FigureState, ax: XAxis, fmt: real -> string): YAxis --> seq<string>
  {
    (ay: YAxis) requires Ready(v) => PlotGroup(v, ax, ay, fmt)
  }

  /** The plot groups of each x slot with the y slots, in the nested-loop order t/l, t/r, b/l, b/r. */
  function RowOf(v: FigureState, fmt: real -> string): XAxis --> seq<string>
  {
    (ax: XAxis) requires Ready(v) => Concat(YSlots, |YSlots|, GroupOf(v, ax, fmt))
  }

  /** The legend entry of one series: a reference to its plot and its label, or its id when unlabelled. */
  function Entry(d: Series): string
  {
    EntryPrefix + "/pgfplots/refstyle=dplot:" + IdString(d.id) + @"}\addlegendentry{"
    + (if |d.labelText| > 0 then d.labelText else IdString(d.id)) + "}"
  }

  function Entries(ss: seq<Series>): (r: seq<string>)
    ensures |r| == |ss| && forall i :: 0 <= i < |ss| ==> r[i] == Entry(ss[i])
  {
    if ss == [] then [] else Entries(ss[..|ss| - 1]) + [Entry(ss[|ss| - 1])]
  }

  function LegendStyle(l: LegendSetup, fmt: real -> string): seq<string>
  {
    [ "at={(" + fmt(l.at.0) + "," + fmt(l.at.1) + ")}",
      "anchor=" + l.anchor,
      "legend cell align=" + l.cellAlign,
      "align=" + l.align,
      "nodes={scale=" + fmt(l.scale) + ", transform shape}"]
  }

  function LegendParams(v: FigureState, fmt: real -> string): seq<string>
  {
    AxisParam(v, X, (0.0, 1.0), fmt)
    + [ "ymin=0",
        "ymax=1",
        "xmode=linear",
        "hide x axis=true",
        "hide y axis=true",
        "axis on top=true",
        "legend style={" + Join(LegendStyle(v.legend, fmt), ", ") + "}"]
  }

  /** `__create_legend`: one entry per series in the order they were added. */
  function Legend(v: FigureState, fmt: real -> string): seq<string>
  {
    Section("legend") + [@"\begin{axis}", "["] + ParamLines(LegendParams(v, fmt)) + ["]"]
    + Entries(v.series) + [@"\end{axis}"]
  }

  /** `_LatexOutput.exec`: the whole document. */
  function Document(v: FigureState, fmt: real -> string): seq<string>
    requires Ready(v)
  {
    DocBegin(v) + Padding(v, fmt) + Background(v, fmt) + Concat(XSlots, |XSlots|, RowOf(v, fmt)) + Overlay(v, fmt)
    + (if v.legend.enable then Legend(v, fmt) else []) + DocEnd
  }

  // The loops of `_LatexOutput`, each building exactly its part of the document.
  // Each collects the lines its loop appends, then puts its header in front.

  method CreatePadding(v: FigureState, fmt: real -> string) returns (out: seq<string>)
    ensures out == Padding(v, fmt)
  {
    var blocks := [];
    for i := 0 to |AllSlots|
      invariant blocks == LayerBlocks(v, i, PaddingBlock(v, fmt))
    {
      var axis := AllSlots[i];
      if axis in v.axes {
        var params := PaddingParams(v, axis, v.axes[axis], fmt);
        blocks := blocks + AxisBlock(axis, params);
      }
    }
    out := Section("padding") + blocks;
  }

  method CreateBackground(v: FigureState, fmt: real -> string) returns (out: seq<string>)
    requires Ready(v)
    ensures out == Background(v, fmt)
  {
    var blocks := [];
    var applied := false;
    for i := 0 to |AllSlots|
      invariant applied == !NoneConfigured(v, i)
      invariant blocks == LayerBlocks(v, i, BackgroundBlock(v, fmt))
    {
      var axis := AllSlots[i];
      if axis in v.axes {
        var a := v.axes[axis];
        var params := BackgroundParams(v, axis, a, a.limits.value, !applied, fmt);
        applied := true;
        blocks := blocks + AxisBlock(axis, params);
      }
    }
    out := Section("background") + blocks;
  }

  method CreateOverlay(v: FigureState, fmt: real -> string) returns (out: seq<string>)
    requires Ready(v)
    ensures out == Overlay(v, fmt)
  {
    var blocks := [];
    for i := 0 to |AllSlots|
      invariant blocks == LayerBlocks(v, i, OverlayBlock(v, fmt))
    {
      var axis := AllSlots[i];
      if axis in v.axes {
        var a := v.axes[axis];
        var params := OverlayParams(v, axis, a, a.limits.value, fmt);
        blocks := blocks + AxisBlock(axis, params);
      }
    }
    out := Section("overlay") + blocks;
  }

  method CreatePlotContent(d: Series, asx: AxisSetup, asy: AxisSetup, fmt: real -> string)
    returns (out: seq<string>)
    ensures out == PlotContent(d, asx, asy, fmt)
  {
    var rows := [];
    var n := ZipLength(d.dx, d.dy);
    for i := 0 to n
      invariant rows == Rows(d.dx, d.dy, i, fmt)
    {
      rows := rows + [Row(d.dx[i], d.dy[i], fmt)];
    }
    out := [@"\addplot ["] + ParamLines(PlotParams(d, asy, fmt))
      + ["] table ["] + ParamLines(TableParams(asx, asy, fmt))
      + ["]{"] + rows + ["};", LabelLine(d.id)];
  }

  method CreatePlotGroup(v: FigureState, ax: XAxis, ay: YAxis, fmt: real -> string) returns (out: seq<string>)
    requires Ready(v)
    ensures out == PlotGroup(v, ax, ay, fmt)
  {
    var sel := Selected(v.series, ax, ay);
    out := Section(GroupTitle(ax, ay));
    if |sel| > 0 {
      assert sel[0] in sel;
      var axis := CreateGroupAxis(v, sel, v.axes[ax], v.axes[ay], fmt);
      out := out + axis;
    }
  }

  /** The part of `__create_plot_group` inside the `if`: plot begin, the loop over the selected series, plot end. */
  method CreateGroupAxis(v: FigureState, sel: seq<Series>, asx: AxisSetup, asy: AxisSetup, fmt: real -> string)
    returns (out: seq<string>)
    requires asx.limits.Some? && asy.limits.Some?
    ensures out == GroupAxis(v, sel, asx, asy, fmt)
  {
    var contents := CreatePlotContents(sel, asx, asy, fmt);
    out := PlotBegin(v, asx, asy, fmt) + contents + [@"\end{axis}"];
  }

  /** The loop of `__create_plot_group` over the selected series. */
  method CreatePlotContents(sel: seq<Series>, asx: AxisSetup, asy: AxisSetup, fmt: real -> string)
    returns (contents: seq<string>)
    ensures contents == Concat(sel, |sel|, ContentOf(asx, asy, fmt))
  {
    ghost var f := ContentOf(asx, asy, fmt);
    contents := [];
    for i := 0 to |sel|
      invariant contents == Concat(sel, i, f)
    {
      var content := CreatePlotContent(sel[i], asx, asy, fmt);
      assert f(sel[i]) == content;
      assert Concat(sel, i + 1, f) == contents + content;
      contents := contents + content;
    }
  }

  method CreateLegend(v: FigureState, fmt: real -> string) returns (out: seq<string>)
    ensures out == Legend(v, fmt)
  {
    var entries := [];
    for i := 0 to |v.series|
      invariant entries == Entries(v.series[..i])
    {
      assert v.series[..i + 1][..i] == v.series[..i];
      entries := entries + [Entry(v.series[i])];
    }
    assert v.series[..|v.series|] == v.series;
    out := Section("legend") + [@"\begin{axis}", "["] + ParamLines(LegendParams(v, fmt)) + ["]"]
      + entries + [@"\end{axis}"];
  }

  /** The nested loop of `_LatexOutput.exec` over the x slots and, inside, the y slots. */
  method CreateGroups(v: FigureState, fmt: real -> string) returns (groups: seq<string>)
    requires Ready(v)
    ensures groups == Concat(XSlots, |XSlots|, RowOf(v, fmt))
  {
    groups := [];
    for i := 0 to |XSlots|
      invariant groups == Concat(XSlots, i, RowOf(v, fmt))
    {
      var row := [];
      for j := 0 to |YSlots|
        invariant row == Concat(YSlots, j, GroupOf(v, XSlots[i], fmt))
      {
        var group := CreatePlotGroup(v, XSlots[i], YSlots[j], fmt);
        row := row + group;
      }
      groups := groups + row;
    }
  }

  /** `_LatexOutput.exec`: the document begin, the layers, the plot groups, the legend if enabled, the end. */
  method Exec(v: FigureState, fmt: real -> string) returns (out: seq<string>)
    requires Ready(v)
    ensures out == Document(v, fmt)
  {
    var padding := CreatePadding(v, fmt);
    var background := CreateBackground(v, fmt);
    var groups := CreateGroups(v, fmt);
    var overlay := CreateOverlay(v, fmt);
    var legend := [];
    if v.legend.enable {
      legend := CreateLegend(v, fmt);
    }
    out := DocBegin(v) + padding + background + groups + overlay + legend + DocEnd;
  }
}
