/**
 * The mutable objects of the library: `Data`, one series with its line setup
 * and id, and `Figure`, its axes, its series list and the id counter, with
 * `add`, `_validate` and `get_latex_code`.
 */
module Dplot {
  import opened Wrappers
  import opened Axes
  import opened Setup
  import opened Ranges
  import opened LatexOutput
  import opened DocumentProps

  /** One series: fixed axes, samples and label; a line setup `cfg_marker` edits and an id `add` assigns. */
  class Data {
    const ax: XAxis
    const ay: YAxis
    const dx: seq<real>
    const dy: seq<real>
    const labelText: string
    var ls: LineSetup
    var id: Option<nat>

    /** `Data.__init__` past its length check: no setup means the default one, and no id yet. */
    constructor (ax: XAxis, ay: YAxis, dx: seq<real>, dy: seq<real>, labelText: string, ls: Option<LineSetup>)
      requires |dx| == |dy|
      ensures this.ax == ax && this.ay == ay && this.dx == dx && this.dy == dy && this.labelText == labelText
      ensures this.ls == (if ls.Some? then ls.value else DefaultLineSetup)
      ensures id == None
    {
      this.ax := ax;
      this.ay := ay;
      this.dx := dx;
      this.dy := dy;
      this.labelText := labelText;
      this.ls := if ls.Some? then ls.value else DefaultLineSetup;
      this.id := None;
    }

    /** `Data.__init__` with its `assert len(dx) == len(dy)`. */
    static method New(ax: XAxis, ay: YAxis, dx: seq<real>, dy: seq<real>, labelText: string, ls: Option<LineSetup>)
      returns (r: Result<Data, Error>)
      ensures r.Failure? <==> |dx| != |dy|
      ensures r.Failure? ==> r.error == LengthMismatch
      ensures r.Success? ==>
        && fresh(r.value)
        && r.value.ax == ax && r.value.ay == ay && r.value.dx == dx && r.value.dy == dy
        && r.value.labelText == labelText && r.value.id == None
        && r.value.ls == (if ls.Some? then ls.value else DefaultLineSetup)
    {
      if |dx| != |dy| {
        return Failure(LengthMismatch);
      }
      var d := new Data(ax, ay, dx, dy, labelText, ls);
      r := Success(d);
    }

    /** What the validator and the emitter read of this series. */
    function View(): Series
      reads this
    {
      Series(ax, ay, dx, dy, labelText, ls, id)
    }

    /**
     * `Data.cfg_marker`: the new marker repeat and phase are those of
     * `MarkerSetup`; zero markers raise before anything is written.
     */
    method CfgMarker(phaseFrac: real, nSamples: int, nMarkers: int) returns (r: Outcome<Error>)
      modifies this
      ensures id == old(id)
      ensures match MarkerSetup(old(ls), |dx|, phaseFrac, nSamples, nMarkers)
        case Success(l) => r == Pass && ls == l
        case Failure(e) => r == Fail(e) && ls == old(ls)
    {
      var n := nSamples;
      if n == 0 {
        n := |dx|;
      }
      if nMarkers == 0 {
        return Fail(ZeroMarkers);
      }
      ls := ls.(markerRepeat := Repeat(n, nMarkers));
      ls := ls.(markerPhase := Phase(Frac(phaseFrac), n, nMarkers));
      r := Pass;
    }
  }

  /** The views of the series of a figure, in `plot_data` order. */
  function Views(ds: seq<Data>): (r: seq<Series>)
    reads set d | d in ds
    ensures |r| == |ds| && forall i :: 0 <= i < |ds| ==> r[i] == ds[i].View()
  {
    if ds == [] then [] else Views(ds[..|ds| - 1]) + [ds[|ds| - 1].View()]
  }

  /** A `Figure`: its layout, its axes (a missing key is an unset axis), its series and the id counter. */
  class Figure {
    const name: string
    const title: string
    const width: string
    const height: string
    const basicThickness: string
    const backgroundColor: string
    const legend: LegendSetup
    var axes: map<Slot, AxisSetup>
    var plotData: seq<Data>
    var dataCounter: nat

    /** `Figure.__init__`: every axis unset, no series, the counter at zero. */
    constructor (name: string, title: string, width: string, height: string, basicThickness: string,
                 backgroundColor: string, legend: LegendSetup)
      ensures this.name == name && this.title == title && this.width == width && this.height == height
      ensures this.basicThickness == basicThickness && this.backgroundColor == backgroundColor
      ensures this.legend == legend
      ensures axes == map[] && plotData == [] && dataCounter == 0
      ensures IdsAreIndices()
    {
      this.name := name;
      this.title := title;
      this.width := width;
      this.height := height;
      this.basicThickness := basicThickness;
      this.backgroundColor := backgroundColor;
      this.legend := legend;
      axes := map[];
      plotData := [];
      dataCounter := 0;
    }

    /** The invariant `add` keeps when each series is added once: the i-th series has id i, and the counter counts them. */
    predicate IdsAreIndices()
      reads this, set d | d in plotData
    {
      && dataCounter == |plotData|
      && forall i :: 0 <= i < |plotData| ==> plotData[i].id == Some(i)
    }

    /** The item assignment `fig.axes[axis] = setup` by which a user configures an axis. */
    method SetAxis(axis: Slot, setup: AxisSetup)
      modifies this
      ensures axes == old(axes)[axis := setup]
      ensures plotData == old(plotData) && dataCounter == old(dataCounter)
    {
      axes := axes[axis := setup];
    }

    /**
     * `Figure.add`: the series gets the counter as its id, the counter moves
     * on by one and the series goes to the end of `plot_data`; no other
     * series changes.
     */
    method Add(data: Data)
      modifies this, data
      ensures data.id == Some(old(dataCounter))
      ensures dataCounter == old(dataCounter) + 1
      ensures plotData == old(plotData) + [data]
      ensures axes == old(axes) && data.ls == old(data.ls)
      ensures forall d :: d in old(plotData) && d != data ==> d.id == old(d.id) && d.ls == old(d.ls)
      ensures old(IdsAreIndices()) && data !in old(plotData) ==> IdsAreIndices()
    {
      data.id := Some(dataCounter);
      dataCounter := dataCounter + 1;
      plotData := plotData + [data];
    }

    /** `Figure.plot`: build a series and add it. */
    method Plot(ax: XAxis, ay: YAxis, dx: seq<real>, dy: seq<real>, labelText: string, ls: Option<LineSetup>)
      returns (r: Result<Data, Error>)
      modifies this
      ensures r.Failure? <==> |dx| != |dy|
      ensures r.Failure? ==> r.error == LengthMismatch && plotData == old(plotData) && dataCounter == old(dataCounter)
      ensures r.Success? ==>
        && fresh(r.value)
        && r.value.View() == Series(ax, ay, dx, dy, labelText, if ls.Some? then ls.value else DefaultLineSetup, Some(old(dataCounter)))
        && plotData == old(plotData) + [r.value]
        && dataCounter == old(dataCounter) + 1
      ensures axes == old(axes)
      ensures old(IdsAreIndices()) ==> IdsAreIndices()
    {
      r := Data.New(ax, ay, dx, dy, labelText, ls);
      if r.Success? {
        Add(r.value);
      }
    }

    /** The figure as the validator and the emitter see it. */
    function State(): FigureState
      reads this, set d | d in plotData
    {
      FigureState(width, height, basicThickness, backgroundColor, legend, axes, Views(plotData))
    }

    /** The first loop of `_validate`: the first series with an unset axis or no samples stops it. */
    method CheckPlotData() returns (e: Option<Error>)
      ensures e == CheckSeries(axes, Views(plotData))
    {
      var ss := Views(plotData);
      for i := 0 to |plotData|
        invariant CheckSeries(axes, ss) == CheckSeries(axes, ss[i..])
      {
        var d := plotData[i];
        assert ss[i..][0] == d.View() && ss[i..][1..] == ss[i + 1..];
        if d.ax !in axes {
          return Some(UnsetAxis(d.ax));
        }
        if d.ay !in axes {
          return Some(UnsetAxis(d.ay));
        }
        if |d.dx| == 0 || |d.dy| == 0 {
          return Some(EmptyData);
        }
      }
      assert ss[|plotData|..] == [];
      e := None;
    }

    /** The second loop of `_validate`: each auto axis in slot order gets its scanned limits, then its grid check. */
    method ResolveAxes(ss: seq<Series>) returns (r: Outcome<Error>)
      requires AllNonEmpty(ss)
      modifies this
      ensures (r, axes) == Resolve(old(axes), ss, AllSlots)
      ensures plotData == old(plotData) && dataCounter == old(dataCounter)
    {
      for k := 0 to |AllSlots|
        invariant plotData == old(plotData) && dataCounter == old(dataCounter)
        invariant Resolve(old(axes), ss, AllSlots) == Resolve(axes, ss, AllSlots[k..])
      {
        var axis := AllSlots[k];
        assert AllSlots[k..][0] == axis && AllSlots[k..][1..] == AllSlots[k + 1..];
        if axis in axes && axes[axis].limits.None? {
          var a := axes[axis];
          var mn, mx := ScanLimits(a.scale, axis, ss);
          a := a.(limits := Some((mn, mx)));
          axes := axes[axis := a];
          if a.grid.majorEnable && !a.tick.enable {
            return Fail(GridWithoutTicks(axis));
          }
        }
      }
      r := Pass;
    }

    /**
     * `Figure._validate`: the outcome and the axes it leaves are those of
     * `Validated`; a failure raises, keeping the limits written so far.
     */
    method Validate() returns (r: Outcome<Error>)
      modifies this
      ensures (r, axes) == Validated(old(axes), Views(plotData))
      ensures plotData == old(plotData) && dataCounter == old(dataCounter)
    {
      var e := CheckPlotData();
      if e.Some? {
        return Fail(e.value);
      }
      r := ResolveAxes(Views(plotData));
    }

    /**
     * `Figure.get_latex_code`: validate, then emit. A failing validation
     * raises its error; otherwise the lines are `Document` of the validated
     * figure `v`, the lines `LatexOutput.Exec` builds. When every series was
     * added once, the plot labels of those lines are pairwise distinct.
     */
    method GetLatexCode(fmt: real -> string) returns (r: Result<seq<string>, Error>, ghost v: FigureState)
      modifies this
      ensures plotData == old(plotData) && dataCounter == old(dataCounter) && v == State()
      ensures Validated(old(axes), v.series) == (if r.Success? then Pass else Fail(r.error), v.axes)
      ensures r.Success? ==> Ready(v) && r.value == Document(v, fmt)
      ensures r.Success? && IdsAreIndices() ==> Distinct(DocumentLabels(v, fmt))
    {
      var outcome := Validate();
      var snapshot := State();
      v := snapshot;
      if outcome.Fail? {
        return Failure(outcome.error), v;
      }
      ValidatedReady(old(axes), snapshot.series, snapshot);
      var lines := Document(snapshot, fmt);
      if IdsAreIndices() {
        DistinctLabels(snapshot, fmt);
      }
      r := Success(lines);
    }
  }

  /** A figure that passed `_validate` is one the emitter can run on. */
  lemma ValidatedReady(axes: map<Slot, AxisSetup>, ss: seq<Series>, v: FigureState)
    requires Validated(axes, ss).0 == Pass
    requires v.axes == Validated(axes, ss).1 && v.series == ss
    ensures Ready(v)
  {
    ValidatedLimits(axes, ss);
    forall d | d in v.series ensures d.ax in v.axes && d.ay in v.axes {
      var i :| 0 <= i < |ss| && ss[i] == d;
    }
  }
}
