/**
 * The four axis slots of a figure and the static helpers of `Figure` that map
 * between slots, positions and axis kinds.
 */
module Axes {

  /** Axis slots: top and bottom carry x axes, left and right carry y axes. */
  datatype Slot = T | B | L | R

  /** The slots a series may use as its x axis (`XAxis = Literal['t', 'b']`). */
  type XAxis = s: Slot | s == T || s == B witness T

  /** The slots a series may use as its y axis (`YAxis = Literal['l', 'r']`). */
  type YAxis = s: Slot | s == L || s == R witness L

  /** `get_args(XAxis)`, `get_args(YAxis)` and their concatenation, the key order of `Figure.axes`. */
  const XSlots: seq<XAxis> := [T, B]
  const YSlots: seq<YAxis> := [L, R]
  const AllSlots: seq<Slot> := [T, B, L, R]

  /** The position of a slot in the key order of `Figure.axes`. */
  function Rank(s: Slot): (n: nat)
    ensures n < |AllSlots| && AllSlots[n] == s
  {
    match s
    case T => 0
    case B => 1
    case L => 2
    case R => 3
  }

  datatype Kind = X | Y

  /** The key of a slot in `Figure.axes`. */
  function Key(s: Slot): (r: string)
    ensures |r| == 1
  {
    match s
    case T => "t"
    case B => "b"
    case L => "l"
    case R => "r"
  }

  function KindName(k: Kind): (r: string)
    ensures |r| == 1 && (r[0] == 'x' || r[0] == 'y')
  {
    match k
    case X => "x"
    case Y => "y"
  }

  /** `Figure.get_axis_pos`: the pgfplots position word of a slot. */
  function AxisPos(s: Slot): (r: string)
    ensures r in {"top", "bottom", "left", "right"}
    ensures |r| > 0 && r[0] != ' '
  {
    match s
    case T => "top"
    case L => "left"
    case R => "right"
    case B => "bottom"
  }

  /** `Figure.get_axis_kind`: x for the slots of `XAxis`, y for those of `YAxis`. */
  function AxisKind(s: Slot): (k: Kind)
    ensures k == X <==> s in XSlots
    ensures k == Y <==> s in YSlots
  {
    match s
    case T => X
    case B => X
    case L => Y
    case R => Y
  }

  /** `Figure.get_opposite_axis_kind`. */
  function OppositeKind(k: Kind): (r: Kind)
    ensures r != k
  {
    match k
    case X => Y
    case Y => X
  }

  /** `Figure.get_opposite_axis`: the slot on the other side of the plot. */
  function OppositeAxis(s: Slot): (r: Slot)
    ensures r != s && AxisKind(r) == AxisKind(s)
  {
    match s
    case L => R
    case R => L
    case T => B
    case B => T
  }

  /** The helpers are consistent: opposites are involutions and positions tell slots apart. */
  lemma HelpersConsistent(s: Slot, s': Slot, k: Kind)
    ensures OppositeAxis(OppositeAxis(s)) == s
    ensures OppositeKind(OppositeKind(k)) == k
    ensures AxisPos(s) == AxisPos(s') ==> s == s'
    ensures Key(s) == Key(s') ==> s == s'
    ensures AxisPos(OppositeAxis(s)) != AxisPos(s)
  {
  }
}
