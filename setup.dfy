/**
 * The configuration records of a figure (grid, ticks, legend, axis and line
 * setups), the read-only snapshot of a figure that the emitter walks, and the
 * errors the model reports.
 */
module Setup {
  import opened Wrappers
  import opened Axes

  /**
   * Errors. The source raises `AssertionError` for the first three, `RuntimeError`
   * for a grid without ticks and for a missing export type, and `ZeroDivisionError`
   * for zero markers.
   */
  datatype Error =
    | UnsetAxis(slot: Slot)          // a series uses a slot whose setup is None
    | EmptyData                      // a series has no samples
    | LengthMismatch                 // len(dx) != len(dy) at construction
    | GridWithoutTicks(slot: Slot)   // major grid enabled with ticks disabled
    | ZeroMarkers                    // cfg_marker with n_markers == 0
    | NoExportType                   // export called without output types

  datatype GridSetup = GridSetup(
    majorEnable: bool, majorThickness: string, majorColor: string,
    minorEnable: bool, minorColor: string, minorThickness: string)

  datatype TickSetup = TickSetup(
    enable: bool, opposite: bool,
    majorThickness: string, majorColor: string, majorDistance: Option<real>,
    minorThickness: string, minorColor: string, minorNum: int)

  datatype LegendSetup = LegendSetup(
    enable: bool, anchor: string, align: string, cellAlign: string,
    at: (real, real), scale: real)

  datatype AxisSetup = AxisSetup(
    labelText: string, labelShift: string, scale: real, log: bool, logBase: string,
    limits: Option<(real, real)>, padding: string, grid: GridSetup, tick: TickSetup)

  /** The closed set of dash patterns of `LineStyle`; `NoLine` is the empty style ''. */
  datatype LineStyle =
    | NoLine | Solid | Dotted | DenselyDotted | LooselyDotted
    | Dashed | DenselyDashed | LooselyDashed
    | DashDotted | DenselyDashDotted | LooselyDashDotted
    | DashDotDotted | DenselyDashDotDotted | LooselyDashDotDotted

  function LineStyleName(s: LineStyle): (r: string)
    ensures r == "" <==> s == NoLine
  {
    match s
    case NoLine => ""
    case Solid => "solid"
    case Dotted => "dotted"
    case DenselyDotted => "densely dotted"
    case LooselyDotted => "loosely dotted"
    case Dashed => "dashed"
    case DenselyDashed => "densely dashed"
    case LooselyDashed => "loosely dashed"
    case DashDotted => "dashdotted"
    case DenselyDashDotted => "densely dashdotted"
    case LooselyDashDotted => "loosely dashdotted"
    case DashDotDotted => "dashdotdotted"
    case DenselyDashDotDotted => "densely dashdotdotted"
    case LooselyDashDotDotted => "loosely dashdotdotted"
  }

  datatype LineSetup = LineSetup(
    plotColor: string, lineStyle: LineStyle, lineWidth: string, marker: string,
    markerRepeat: int, markerPhase: int)

  /** Python's `int(x)` on a number: truncation toward zero. */
  function Trunc(x: real): (r: int)
    ensures 0.0 <= x ==> 0 <= r && r as real <= x < r as real + 1.0
    ensures x < 0.0 ==> r <= 0 && r as real - 1.0 < x <= r as real
  {
    if x >= 0.0 then x.Floor else -((-x).Floor)
  }

  /** `LineSetup.__init__`: the marker repeat and phase are truncated to integers. */
  function NewLineSetup(plotColor: string, lineStyle: LineStyle, lineWidth: string, marker: string,
                        markerRepeat: real, markerPhase: real): LineSetup
  {
    LineSetup(plotColor, lineStyle, lineWidth, marker, Trunc(markerRepeat), Trunc(markerPhase))
  }

  /** `LineSetup()` with its defaults, applied by `Data.__init__` when no setup is given. */
  const DefaultLineSetup: LineSetup := NewLineSetup("black", Solid, "1pt", "", 1.0, 0.0)

  /** Python's `round` on a number: to the nearest integer, ties to the even one. */
  function RoundHalfEven(x: real): (r: int)
    ensures x - 0.5 <= r as real <= x + 0.5
    ensures r as real == x - 0.5 || r as real == x + 0.5 ==> r % 2 == 0
  {
    var f := x.Floor;
    var d := x - f as real;
    if d < 0.5 then f
    else if d > 0.5 then f + 1
    else if f % 2 == 0 then f
    else f + 1
  }

  /** Python's `x % 1` on a number: the fractional part, in [0, 1). */
  function Frac(x: real): (r: real)
    ensures 0.0 <= r < 1.0
  {
    x - x.Floor as real
  }

  lemma MulLe(a: real, b: real, c: real)
    requires a <= b && 0.0 <= c
    ensures a * c <= b * c
  {
  }

  lemma MulLt(a: real, b: real, c: real)
    requires a < b && 0.0 < c
    ensures a * c < b * c
  {
  }

  /** Bounds of `math.floor(n / m)` for a positive divisor. */
  lemma FloorDivBounds(n: int, m: int)
    ensures m > 0 ==> (n as real / m as real).Floor * m <= n < ((n as real / m as real).Floor + 1) * m
  {
    if m <= 0 { return; }
    var x := n as real / m as real;
    var q := x.Floor;
    var mr := m as real;
    assert x * mr == n as real;
    MulLe(q as real, x, mr);
    assert (q * m) as real == q as real * mr;
    assert (q * m) as real <= n as real;
    MulLt(x, q as real + 1.0, mr);
    assert ((q + 1) * m) as real == (q as real + 1.0) * mr;
  }

  lemma DivNonneg(n: int, m: int)
    ensures 0 <= n && 0 < m ==> 0.0 <= n as real / m as real
  {
  }

  /** The spacing `n / n_markers` that `cfg_marker` works with. */
  function Samples(length: nat, nSamples: int): int
  {
    if nSamples == 0 then length else nSamples
  }

  /** The rounded phase lies between 0 and one past the marker spacing. */
  lemma PhaseBounds(frac: real, spacing: real)
    ensures 0.0 <= frac < 1.0 && 0.0 <= spacing ==> 0 <= RoundHalfEven(frac * spacing) <= spacing.Floor + 1
  {
    if !(0.0 <= frac < 1.0 && 0.0 <= spacing) { return; }
    var p := frac * spacing;
    MulLe(frac, 1.0, spacing);
    MulLe(0.0, frac, spacing);
    assert 0.0 <= p <= spacing;
    var r := RoundHalfEven(p);
    assert p - 0.5 <= r as real <= p + 0.5;
    assert spacing < spacing.Floor as real + 1.0;
  }

  /** `math.floor(n / n_markers)`, the marker repeat: Python's floor division of integers. */
  function Repeat(n: int, m: int): (q: int)
    requires m != 0
    ensures m > 0 ==> q * m <= n < (q + 1) * m
  {
    FloorDivBounds(n, m);
    (n as real / m as real).Floor
  }

  /** `round(phase * n / n_markers)`, the marker phase: at most one past the repeat. */
  function Phase(frac: real, n: int, m: int): (p: int)
    requires m != 0
    ensures m > 0 && n >= 0 && 0.0 <= frac < 1.0 ==> 0 <= p <= Repeat(n, m) + 1
  {
    var x := n as real / m as real;
    DivNonneg(n, m);
    PhaseBounds(frac, x);
    RoundHalfEven(frac * x)
  }

  /**
   * `Data.cfg_marker`: with `n_samples == 0` the sample count is the series
   * length; one marker every `floor(n / n_markers)` samples, starting at the
   * rounded phase fraction of that spacing. Division by zero markers fails.
   */
  function MarkerSetup(ls: LineSetup, length: nat, phaseFrac: real, nSamples: int, nMarkers: int)
    : (r: Result<LineSetup, Error>)
    ensures r.Failure? <==> nMarkers == 0
    ensures r.Failure? ==> r.error == ZeroMarkers
    ensures r.Success? ==> r.value == ls.(markerRepeat := r.value.markerRepeat, markerPhase := r.value.markerPhase)
    ensures r.Success? && nMarkers > 0 ==>
      r.value.markerRepeat * nMarkers <= Samples(length, nSamples) < (r.value.markerRepeat + 1) * nMarkers
    ensures r.Success? && nMarkers > 0 && nSamples >= 0 ==>
      0 <= r.value.markerPhase <= r.value.markerRepeat + 1
  {
    if nMarkers == 0 then Failure(ZeroMarkers)
    else
      var n := Samples(length, nSamples);
      Success(ls.(markerRepeat := Repeat(n, nMarkers),
                  markerPhase := Phase(Frac(phaseFrac), n, nMarkers)))
  }

  /** A read-only view of one `Data` object: its axes, samples, label, style and id. */
  datatype Series = Series(
    ax: XAxis, ay: YAxis, dx: seq<real>, dy: seq<real>, labelText: string,
    ls: LineSetup, id: Option<nat>)

  /** A read-only view of a `Figure` as the emitter reads it. A missing key stands for a None setup. */
  datatype FigureState = FigureState(
    width: string, height: string, basicThickness: string, backgroundColor: string,
    legend: LegendSetup, axes: map<Slot, AxisSetup>, series: seq<Series>)
}
