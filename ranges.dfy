/**
 * `Figure._validate`: the checks on series and axes, and the auto-range
 * resolver that fills in the limits of every configured axis that has none.
 */
module Ranges {
  import opened Wrappers
  import opened Axes
  import opened Setup

  /** `sys.float_info.max`, the largest finite double, (2 - 2^-52) * 2^1023, written out exactly. */
  const FloatMax: real := 179769313486231570814527423731704356798070567525844996598917476803157260780028538760589558632766878171540458953514382464234321326889464182768467546703537516986049910576551282076245490090389328944075868508455133942304583236903222948165808559332123348274797826204144723168738177180919299881250404026184124858368.0

  /** `sys.float_info.min`, the smallest positive normal double, 2^-1022, written out exactly. */
  const FloatMin: real := 1.0 / 44942328371557897693232629769725618340449424473557664318357520289433168951375240783177119330601884005280028469967848339414697442203604155623211857659868531094441973356216371319075554900311523529863270738021251442209537670585615720368478277635206809290837627671146574559986811484619929076208839082406056034304.0

  lemma FloatBounds()
    ensures 0.0 < FloatMin < 1.0 < 1024.0 <= FloatMax
  {
  }

  /** Python's `max(a, b)` and `min(a, b)`: the first argument unless the second is strictly better. */
  function Max(a: real, b: real): real { if b > a then b else a }
  function Min(a: real, b: real): real { if b < a then b else a }

  /** `np.max` of a non-empty sample sequence. */
  function SeqMax(s: seq<real>): (m: real)
    requires |s| > 0
    ensures m in s && forall i :: 0 <= i < |s| ==> s[i] <= m
  {
    if |s| == 1 then s[0]
    else
      var m' := SeqMax(s[..|s| - 1]);
      assert m' in s[..|s| - 1];
      Max(m', s[|s| - 1])
  }

  /** `np.min` of a non-empty sample sequence. */
  function SeqMin(s: seq<real>): (m: real)
    requires |s| > 0
    ensures m in s && forall i :: 0 <= i < |s| ==> m <= s[i]
  {
    if |s| == 1 then s[0]
    else
      var m' := SeqMin(s[..|s| - 1]);
      assert m' in s[..|s| - 1];
      Min(m', s[|s| - 1])
  }

  predicate NonEmpty(d: Series)
  {
    |d.dx| > 0 && |d.dy| > 0
  }

  predicate AllNonEmpty(ss: seq<Series>)
  {
    forall i :: 0 <= i < |ss| ==> NonEmpty(ss[i])
  }

  /** Series `d` is bound to `axis`, on its x role or on its y role. */
  predicate Bound(d: Series, axis: Slot)
  {
    d.ax == axis || d.ay == axis
  }

  /** The samples of `d` that axis `axis` shows (a series is bound to a slot on at most one role). */
  function Values(d: Series, axis: Slot): seq<real>
  {
    if d.ax == axis then d.dx else d.dy
  }

  /** The seeds of the running scan: `mn = float_info.max`, `mx = -float_info.min`. */
  const Seed: (real, real) := (FloatMax, -FloatMin)

  /** `axis_setup.scale * value`. */
  function Scaled(scale: real, v: real): real
  {
    scale * v
  }

  /** The update of the running `(mn, mx)` by the scaled extremes of one sample sequence. */
  function Widen(acc: (real, real), scale: real, vs: seq<real>): (real, real)
    requires |vs| > 0
  {
    (Min(acc.0, Scaled(scale, SeqMin(vs))), Max(acc.1, Scaled(scale, SeqMax(vs))))
  }

  /** One iteration of the scan loop of `_validate` over series `d`: its x role, then its y role. */
  function Step(acc: (real, real), scale: real, axis: Slot, d: Series): (real, real)
    requires NonEmpty(d)
  {
    var acc1 := if d.ax == axis then Widen(acc, scale, d.dx) else acc;
    if d.ay == axis then Widen(acc1, scale, d.dy) else acc1
  }

  /** The `(mn, mx)` of the scan over `ss` in order. */
  function Scan(scale: real, axis: Slot, ss: seq<Series>): (real, real)
    requires AllNonEmpty(ss)
  {
    if ss == [] then Seed
    else Step(Scan(scale, axis, ss[..|ss| - 1]), scale, axis, ss[|ss| - 1])
  }

  /** The running min/max loop of `_validate` for one axis. */
  method ScanLimits(scale: real, axis: Slot, ss: seq<Series>) returns (mn: real, mx: real)
    requires AllNonEmpty(ss)
    ensures (mn, mx) == Scan(scale, axis, ss)
  {
    mx := -FloatMin;
    mn := FloatMax;
    var i := 0;
    while i < |ss|
      invariant 0 <= i <= |ss|
      invariant (mn, mx) == Scan(scale, axis, ss[..i])
    {
      var d := ss[i];
      assert ss[..i + 1][..i] == ss[..i];
      assert Scan(scale, axis, ss[..i + 1]) == Step(Scan(scale, axis, ss[..i]), scale, axis, d);
      if d.ax == axis {
        mx := Max(mx, Scaled(scale, SeqMax(d.dx)));
        mn := Min(mn, Scaled(scale, SeqMin(d.dx)));
      }
      if d.ay == axis {
        mx := Max(mx, Scaled(scale, SeqMax(d.dy)));
        mn := Min(mn, Scaled(scale, SeqMin(d.dy)));
      }
      i := i + 1;
    }
    assert ss[..i] == ss;
  }

  /** One step either keeps the running value or replaces it by the bound series' scaled extreme. */
  lemma StepBounds(acc: (real, real), scale: real, axis: Slot, d: Series)
    requires NonEmpty(d)
    ensures var r := Step(acc, scale, axis, d);
      && r.0 <= acc.0 && acc.1 <= r.1
      && (Bound(d, axis) ==> r.0 <= Scaled(scale, SeqMin(Values(d, axis))) && Scaled(scale, SeqMax(Values(d, axis))) <= r.1)
      && (r.0 == acc.0 || (Bound(d, axis) && r.0 == Scaled(scale, SeqMin(Values(d, axis)))))
      && (r.1 == acc.1 || (Bound(d, axis) && r.1 == Scaled(scale, SeqMax(Values(d, axis)))))
  {
    assert !(d.ax == axis && d.ay == axis);
    var vs := Values(d, axis);
    if Bound(d, axis) {
      assert Step(acc, scale, axis, d) == Widen(acc, scale, vs);
    } else {
      assert Step(acc, scale, axis, d) == acc;
    }
  }

  /**
   * The scan result is min(float_info.max, the scaled minima of the bound
   * series) and max(-float_info.min, the scaled maxima of the bound series):
   * a bound on every bound series, and either the seed or attained by one.
   */
  lemma {:induction false} ScanMin(scale: real, axis: Slot, ss: seq<Series>)
    requires AllNonEmpty(ss)
    ensures var mn := Scan(scale, axis, ss).0;
      && mn <= FloatMax
      && (forall i :: 0 <= i < |ss| && Bound(ss[i], axis) ==> mn <= Scaled(scale, SeqMin(Values(ss[i], axis))))
      && (mn == FloatMax || exists i :: 0 <= i < |ss| && Bound(ss[i], axis) && mn == Scaled(scale, SeqMin(Values(ss[i], axis))))
    decreases |ss|
  {
    if ss != [] {
      var n := |ss| - 1;
      var pre := ss[..n];
      ScanMin(scale, axis, pre);
      var acc := Scan(scale, axis, pre);
      StepBounds(acc, scale, axis, ss[n]);
      assert forall i :: 0 <= i < n ==> pre[i] == ss[i];
      if acc.0 != FloatMax {
        var j :| 0 <= j < n && Bound(pre[j], axis) && acc.0 == Scaled(scale, SeqMin(Values(pre[j], axis)));
        assert Bound(ss[j], axis) && acc.0 == Scaled(scale, SeqMin(Values(ss[j], axis)));
      }
    }
  }

  lemma {:induction false} ScanMax(scale: real, axis: Slot, ss: seq<Series>)
    requires AllNonEmpty(ss)
    ensures var mx := Scan(scale, axis, ss).1;
      && -FloatMin <= mx
      && (forall i :: 0 <= i < |ss| && Bound(ss[i], axis) ==> Scaled(scale, SeqMax(Values(ss[i], axis))) <= mx)
      && (mx == -FloatMin || exists i :: 0 <= i < |ss| && Bound(ss[i], axis) && mx == Scaled(scale, SeqMax(Values(ss[i], axis))))
    decreases |ss|
  {
    if ss != [] {
      var n := |ss| - 1;
      var pre := ss[..n];
      ScanMax(scale, axis, pre);
      var acc := Scan(scale, axis, pre);
      StepBounds(acc, scale, axis, ss[n]);
      assert forall i :: 0 <= i < n ==> pre[i] == ss[i];
      if acc.1 != -FloatMin {
        var j :| 0 <= j < n && Bound(pre[j], axis) && acc.1 == Scaled(scale, SeqMax(Values(pre[j], axis)));
        assert Bound(ss[j], axis) && acc.1 == Scaled(scale, SeqMax(Values(ss[j], axis)));
      }
    }
  }

  /** The first problem of series `d`, in the order of the asserts of `_validate`. */
  function SeriesError(axes: map<Slot, AxisSetup>, d: Series): (e: Option<Error>)
    ensures e == None <==> d.ax in axes && d.ay in axes && NonEmpty(d)
  {
    if d.ax !in axes then Some(UnsetAxis(d.ax))
    else if d.ay !in axes then Some(UnsetAxis(d.ay))
    else if |d.dx| == 0 || |d.dy| == 0 then Some(EmptyData)
    else None
  }

  /** The first loop of `_validate`: the first failing series stops it. */
  function CheckSeries(axes: map<Slot, AxisSetup>, ss: seq<Series>): (e: Option<Error>)
    ensures e == None <==> forall i :: 0 <= i < |ss| ==> ss[i].ax in axes && ss[i].ay in axes && NonEmpty(ss[i])
    ensures e != None ==> exists i :: 0 <= i < |ss| && e == SeriesError(axes, ss[i])
  {
    if ss == [] then None
    else
      match SeriesError(axes, ss[0])
      case Some(e) => Some(e)
      case None =>
        var rest := CheckSeries(axes, ss[1..]);
        assert forall i :: 1 <= i < |ss| ==> ss[i] == ss[1..][i - 1];
        rest
  }

  /** An axis whose limits the resolver fills in: configured, with `limits is None`. */
  predicate Auto(axes: map<Slot, AxisSetup>, s: Slot)
  {
    s in axes && axes[s].limits.None?
  }

  /** `grid.major_enable and not tick.enable`. */
  predicate GridWithoutTick(a: AxisSetup)
  {
    a.grid.majorEnable && !a.tick.enable
  }

  /**
   * The second loop of `_validate` over `slots`: an auto axis gets the scanned
   * limits written in place, and only then is its grid/tick combination
   * checked, so a failure leaves the axes resolved so far (itself included).
   */
  function Resolve(axes: map<Slot, AxisSetup>, ss: seq<Series>, slots: seq<Slot>)
    : (r: (Outcome<Error>, map<Slot, AxisSetup>))
    requires AllNonEmpty(ss)
    ensures r.1.Keys == axes.Keys
  {
    if slots == [] then (Pass, axes)
    else
      var s := slots[0];
      if Auto(axes, s) then
        var a := axes[s].(limits := Some(Scan(axes[s].scale, s, ss)));
        if GridWithoutTick(a) then (Fail(GridWithoutTicks(s)), axes[s := a])
        else Resolve(axes[s := a], ss, slots[1..])
      else Resolve(axes, ss, slots[1..])
  }

  /** `Figure._validate` as a whole: the outcome and the axes it leaves. */
  function Validated(axes: map<Slot, AxisSetup>, ss: seq<Series>): (r: (Outcome<Error>, map<Slot, AxisSetup>))
    ensures r.1.Keys == axes.Keys
  {
    match CheckSeries(axes, ss)
    case Some(e) => (Fail(e), axes)
    case None => Resolve(axes, ss, AllSlots)
  }

  /**
   * The resolver writes nothing but the `limits` of axes that had none:
   * keys stay, axes with explicit limits and axes outside `slots` are untouched.
   */
  lemma {:induction false} ResolveFrame(axes: map<Slot, AxisSetup>, ss: seq<Series>, slots: seq<Slot>)
    requires AllNonEmpty(ss)
    ensures var after := Resolve(axes, ss, slots).1;
      && after.Keys == axes.Keys
      && (forall s :: s in axes ==> after[s] == axes[s].(limits := after[s].limits))
      && (forall s :: s in axes && (axes[s].limits.Some? || s !in slots) ==> after[s] == axes[s])
    decreases |slots|
  {
    if slots != [] {
      var s := slots[0];
      assert forall t :: t in slots[1..] ==> t in slots;
      if Auto(axes, s) {
        var a := axes[s].(limits := Some(Scan(axes[s].scale, s, ss)));
        if !GridWithoutTick(a) {
          ResolveFrame(axes[s := a], ss, slots[1..]);
        }
      } else {
        ResolveFrame(axes, ss, slots[1..]);
      }
    }
  }

  /** After a successful pass every auto axis of `slots` carries the limits of its scan. */
  lemma {:induction false} ResolveLimits(axes: map<Slot, AxisSetup>, ss: seq<Series>, slots: seq<Slot>)
    requires AllNonEmpty(ss)
    ensures var (outcome, after) := Resolve(axes, ss, slots);
      outcome == Pass ==>
        forall s :: s in slots && Auto(axes, s) ==> after[s].limits == Some(Scan(axes[s].scale, s, ss))
    decreases |slots|
  {
    if slots != [] {
      var s := slots[0];
      if Auto(axes, s) {
        var a := axes[s].(limits := Some(Scan(axes[s].scale, s, ss)));
        if !GridWithoutTick(a) {
          ResolveLimits(axes[s := a], ss, slots[1..]);
          ResolveFrame(axes[s := a], ss, slots[1..]);
        }
      } else {
        ResolveLimits(axes, ss, slots[1..]);
      }
    }
  }

  /**
   * The resolver passes exactly when no auto axis of `slots` has a major grid
   * without ticks; when it fails, it names such an axis. Axes with explicit
   * limits are never checked.
   */
  lemma {:induction false} ResolveOutcome(axes: map<Slot, AxisSetup>, ss: seq<Series>, slots: seq<Slot>)
    requires AllNonEmpty(ss)
    ensures var outcome := Resolve(axes, ss, slots).0;
      && (outcome == Pass <==> forall s :: s in slots && Auto(axes, s) ==> !GridWithoutTick(axes[s]))
      && (outcome.Fail? ==> exists s :: s in slots && Auto(axes, s) && GridWithoutTick(axes[s])
                                        && outcome == Fail(GridWithoutTicks(s)))
    decreases |slots|
  {
    if slots != [] {
      var s := slots[0];
      assert forall t :: t in slots <==> t == s || t in slots[1..];
      if Auto(axes, s) {
        var a := axes[s].(limits := Some(Scan(axes[s].scale, s, ss)));
        if !GridWithoutTick(a) {
          ResolveOutcome(axes[s := a], ss, slots[1..]);
        }
      } else {
        ResolveOutcome(axes, ss, slots[1..]);
      }
    }
  }

  lemma AllSlotsComplete(s: Slot)
    ensures s in AllSlots
  {
  }

  /**
   * `_validate` never overwrites explicit limits and writes nothing but limits,
   * whether it passes or fails.
   */
  lemma ValidatedFrame(axes: map<Slot, AxisSetup>, ss: seq<Series>)
    ensures var after := Validated(axes, ss).1;
      && after.Keys == axes.Keys
      && (forall s :: s in axes ==> after[s] == axes[s].(limits := after[s].limits))
      && (forall s :: s in axes && axes[s].limits.Some? ==> after[s] == axes[s])
  {
    if CheckSeries(axes, ss) == None {
      ResolveFrame(axes, ss, AllSlots);
    }
  }

  /**
   * `_validate` passes exactly when every series uses configured, non-empty
   * axes and no axis whose limits are auto-detected has a major grid without
   * ticks. A grid/tick failure names an auto-detected axis.
   */
  lemma ValidatedOutcome(axes: map<Slot, AxisSetup>, ss: seq<Series>)
    ensures var outcome := Validated(axes, ss).0;
      && (outcome == Pass <==>
            (forall i :: 0 <= i < |ss| ==> ss[i].ax in axes && ss[i].ay in axes && NonEmpty(ss[i]))
            && (forall s :: Auto(axes, s) ==> !GridWithoutTick(axes[s])))
      && (forall s :: outcome == Fail(GridWithoutTicks(s)) ==> Auto(axes, s) && GridWithoutTick(axes[s]))
      && (forall s :: outcome == Fail(UnsetAxis(s)) ==> s !in axes && exists i :: 0 <= i < |ss| && (ss[i].ax == s || ss[i].ay == s))
      && (outcome == Fail(EmptyData) ==> exists i :: 0 <= i < |ss| && !NonEmpty(ss[i]))
  {
    if CheckSeries(axes, ss) == None {
      ResolveOutcome(axes, ss, AllSlots);
      forall s | Auto(axes, s) ensures s in AllSlots { AllSlotsComplete(s); }
    }
  }

  /** After a successful `_validate` every configured axis has limits; the auto ones have their scan. */
  lemma ValidatedLimits(axes: map<Slot, AxisSetup>, ss: seq<Series>)
    ensures var (outcome, after) := Validated(axes, ss);
      outcome == Pass ==>
        && AllNonEmpty(ss)
        && (forall i :: 0 <= i < |ss| ==> ss[i].ax in after && ss[i].ay in after)
        && (forall s :: s in after ==> after[s].limits.Some?)
        && (forall s :: Auto(axes, s) ==> after[s].limits == Some(Scan(axes[s].scale, s, ss)))
  {
    var (outcome, after) := Validated(axes, ss);
    if outcome == Pass {
      ResolveLimits(axes, ss, AllSlots);
      ResolveFrame(axes, ss, AllSlots);
      forall s | Auto(axes, s) ensures s in AllSlots { AllSlotsComplete(s); }
    }
  }

  /** Running `_validate` again after it passed passes and changes nothing. */
  lemma ValidatedIdempotent(axes: map<Slot, AxisSetup>, ss: seq<Series>)
    ensures var (outcome, after) := Validated(axes, ss);
      outcome == Pass ==> Validated(after, ss) == (Pass, after)
  {
    var (outcome, after) := Validated(axes, ss);
    if outcome == Pass {
      ValidatedLimits(axes, ss);
      ValidatedFrame(axes, ss);
      assert CheckSeries(after, ss) == None;
      ResolveFrame(after, ss, AllSlots);
      ResolveOutcome(after, ss, AllSlots);
      var again := Resolve(after, ss, AllSlots).1;
      assert forall s :: s in after ==> again[s] == after[s];
      assert again == after;
    }
  }

  /** A configured axis that no series uses keeps the seeds: inverted limits, and no failure. */
  lemma UnusedAxisInverted(scale: real, axis: Slot, ss: seq<Series>)
    requires AllNonEmpty(ss)
    requires forall i :: 0 <= i < |ss| ==> !Bound(ss[i], axis)
    ensures Scan(scale, axis, ss) == (FloatMax, -FloatMin)
    ensures Scan(scale, axis, ss).0 > Scan(scale, axis, ss).1
  {
    ScanMin(scale, axis, ss);
    ScanMax(scale, axis, ss);
    FloatBounds();
  }

  /**
   * What `_validate` does to an auto axis no series uses: it is still
   * resolved, to the inverted seeds, and it still fails on a grid without ticks.
   */
  lemma UnusedAxisValidated(axes: map<Slot, AxisSetup>, ss: seq<Series>, axis: Slot)
    requires Auto(axes, axis)
    requires forall i :: 0 <= i < |ss| ==> !Bound(ss[i], axis)
    ensures var (outcome, after) := Validated(axes, ss);
      && (outcome == Pass ==> after[axis].limits == Some((FloatMax, -FloatMin)) && FloatMax > -FloatMin)
      && (GridWithoutTick(axes[axis]) ==> outcome != Pass)
      && (outcome == Fail(GridWithoutTicks(axis)) ==> GridWithoutTick(axes[axis]))
  {
    var (outcome, after) := Validated(axes, ss);
    ValidatedOutcome(axes, ss);
    ValidatedLimits(axes, ss);
    if outcome == Pass {
      UnusedAxisInverted(axes[axis].scale, axis, ss);
    }
  }

  /**
   * The upper seed is `-float_info.min`, not `-float_info.max`: when every bound
   * series has all its scaled samples below it, the auto maximum is that seed,
   * not the largest sample.
   */
  lemma NegativeDataMaxIsSeed(scale: real, axis: Slot, ss: seq<Series>)
    requires AllNonEmpty(ss)
    requires forall i :: 0 <= i < |ss| && Bound(ss[i], axis) ==> Scaled(scale, SeqMax(Values(ss[i], axis))) < -FloatMin
    ensures Scan(scale, axis, ss).1 == -FloatMin
  {
    ScanMax(scale, axis, ss);
  }

  /** Two series on one y axis with scale 2, samples in [0, 10] and [5, 20]: limits (0, 40). */
  lemma ScaledRangeExample()
    ensures
      var s1 := Series(B, L, [0.0, 1.0], [0.0, 10.0], "", DefaultLineSetup, Some(0));
      var s2 := Series(B, L, [0.0, 1.0], [5.0, 20.0], "", DefaultLineSetup, Some(1));
      Scan(2.0, L, [s1, s2]) == (0.0, 40.0)
  {
    var s1 := Series(B, L, [0.0, 1.0], [0.0, 10.0], "", DefaultLineSetup, Some(0));
    var s2 := Series(B, L, [0.0, 1.0], [5.0, 20.0], "", DefaultLineSetup, Some(1));
    FloatBounds();
    assert [s1, s2][..1] == [s1];
    assert [s1][..0] == [];
    assert SeqMin([0.0, 10.0]) == 0.0 && SeqMax([0.0, 10.0]) == 10.0;
    assert SeqMin([5.0, 20.0]) == 5.0 && SeqMax([5.0, 20.0]) == 20.0;
    assert Scan(2.0, L, []) == Seed;
    assert Scan(2.0, L, [s1]) == Step(Seed, 2.0, L, s1) == (0.0, 20.0);
    assert Scan(2.0, L, [s1, s2]) == Step((0.0, 20.0), 2.0, L, s2);
  }
}
