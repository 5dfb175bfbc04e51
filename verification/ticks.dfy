/**
 * The layout of the labelled coordinate system: for each axis, a tick mark
 * and a numeric label at every non-zero integer from -10 to 10, plus the
 * axis name near the positive end. Only the geometry and the label texts are
 * modelled; meshes, materials and glyphs are left to the renderer.
 */
module Ticks {
  import opened Vectors
  import Decimal

  datatype Axis = X | Y | Z

  /** A straight line segment between two points. */
  datatype Segment = Segment(from: Vec3, to: Vec3)

  /** One tick: its integer index, its mark, and its number label with the label's position. */
  datatype TickSpec = TickSpec(index: int, mark: Segment, text: string, at: Vec3)

  /** A text placed at a point. */
  datatype Label = Label(text: string, at: Vec3)

  /** Everything drawn for one axis besides the axis line itself. */
  datatype AxisLayout = AxisLayout(ticks: seq<TickSpec>, name: Label)

  /** Ticks run over the non-zero integers in -Extent..Extent. */
  const Extent: int := 10
  /** Half the length of a tick mark. */
  const TickHalf: real := 0.2
  /** How far a number label is shifted back along its axis from its tick. */
  const LabelShift: real := 0.1
  /** Where a number label sits on the perpendicular coordinate. */
  const LabelOffset: real := -0.5
  /** Where the axis name sits along its own axis. */
  const NamePosition: real := 10.5

  /** The coordinate of `v` along axis `a`. */
  function Coord(a: Axis, v: Vec3): real {
    match a
    case X => v.x
    case Y => v.y
    case Z => v.z
  }

  /** The coordinate a tick mark spans and a number label is offset on: y for the x and z axes, x for the y axis. */
  function Across(a: Axis): Axis {
    match a
    case X => Y
    case Y => X
    case Z => Y
  }

  /** The remaining coordinate, which ticks and labels leave at zero. */
  function Flat(a: Axis): Axis {
    match a
    case X => Z
    case Y => Z
    case Z => X
  }

  /** The name written at the end of each axis. */
  function Name(a: Axis): string {
    match a
    case X => "x"
    case Y => "y"
    case Z => "z"
  }

  function Abs(i: int): nat {
    if i < 0 then -i else i
  }

  /** The tick mark and number label for index `i` on `axis`, placed as the loop body does. */
  function MakeTick(axis: Axis, i: int): (t: TickSpec)
    ensures t.index == i
    ensures t.text == Decimal.DecimalString(Abs(i))
    ensures Coord(axis, t.mark.from) == i as real == Coord(axis, t.mark.to)
    ensures Coord(Across(axis), t.mark.from) == -TickHalf
    ensures Coord(Across(axis), t.mark.to) == TickHalf
    ensures Coord(Flat(axis), t.mark.from) == 0.0 == Coord(Flat(axis), t.mark.to)
    ensures Coord(axis, t.at) == i as real - LabelShift
    ensures Coord(Across(axis), t.at) == LabelOffset
    ensures Coord(Flat(axis), t.at) == 0.0
  {
    var p := i as real;
    var text := Decimal.DecimalString(Abs(i));
    match axis
    case X =>
      TickSpec(i, Segment(Vec3(p, -TickHalf, 0.0), Vec3(p, TickHalf, 0.0)), text, Vec3(p - 0.1, -0.5, 0.0))
    case Y =>
      TickSpec(i, Segment(Vec3(-TickHalf, p, 0.0), Vec3(TickHalf, p, 0.0)), text, Vec3(-0.5, p - 0.1, 0.0))
    case Z =>
      TickSpec(i, Segment(Vec3(0.0, -TickHalf, p), Vec3(0.0, TickHalf, p)), text, Vec3(0.0, -0.5, p - 0.1))
  }

  /** How many non-zero integers lie in i..Extent. */
  function Remaining(i: int): nat {
    if i > Extent then 0 else if i <= 0 then Extent - i else Extent + 1 - i
  }

  /** The `k`-th non-zero integer counting upward from `i`. */
  function Slot(i: int, k: nat): int {
    if i <= 0 && 0 <= i + k then i + k + 1 else i + k
  }

  /** The loop from `i` up to Extent, skipping 0, one tick per index. */
  function TicksFrom(axis: Axis, i: int): (r: seq<TickSpec>)
    ensures |r| == Remaining(i)
    ensures forall k :: 0 <= k < |r| ==> r[k] == MakeTick(axis, Slot(i, k))
    decreases Extent + 1 - i
  {
    if i > Extent then []
    else if i == 0 then TicksFrom(axis, i + 1)
    else [MakeTick(axis, i)] + TicksFrom(axis, i + 1)
  }

  /** All ticks of one axis, in the order the loop creates them. */
  function Ticks(axis: Axis): (r: seq<TickSpec>)
    ensures |r| == 2 * Extent
    ensures forall k :: 0 <= k < |r| ==> r[k] == MakeTick(axis, if k < Extent then k - Extent else k - Extent + 1)
  {
    TicksFrom(axis, -Extent)
  }

  /** The axis name label, 10.5 out along its own axis. */
  function NameLabel(axis: Axis): (l: Label)
    ensures l.text == Name(axis)
    ensures Coord(axis, l.at) == NamePosition
    ensures Coord(Across(axis), l.at) == 0.0 && Coord(Flat(axis), l.at) == 0.0
  {
    match axis
    case X => Label("x", Vec3(10.5, 0.0, 0.0))
    case Y => Label("y", Vec3(0.0, 10.5, 0.0))
    case Z => Label("z", Vec3(0.0, 0.0, 10.5))
  }

  /** What one call of the tick generator places for `axis`. */
  function Layout(axis: Axis): (r: AxisLayout)
    ensures |r.ticks| == 2 * Extent
    ensures forall k :: 0 <= k < |r.ticks| ==> r.ticks[k] == MakeTick(axis, if k < Extent then k - Extent else k - Extent + 1)
    ensures r.name.text == Name(axis) && Coord(axis, r.name.at) == NamePosition
    ensures Coord(Across(axis), r.name.at) == 0.0 && Coord(Flat(axis), r.name.at) == 0.0
  {
    AxisLayout(Ticks(axis), NameLabel(axis))
  }

  /** The generator runs for the x, y and z axes, in that order. */
  function AllLayouts(): (r: seq<AxisLayout>)
    ensures |r| == 3
    ensures r[0].name.text == "x" && r[1].name.text == "y" && r[2].name.text == "z"
    ensures forall a :: Layout(a) in r
  {
    [Layout(X), Layout(Y), Layout(Z)]
  }

  /** Some tick of `ts` sits at index `i`. */
  predicate HasIndex(ts: seq<TickSpec>, i: int) {
    exists k :: 0 <= k < |ts| && ts[k].index == i
  }

  /**
   * The indices are exactly the non-zero integers from -10 to 10, in strictly
   * increasing order; in particular 0 never appears.
   */
  lemma TickIndices(axis: Axis)
    ensures |Ticks(axis)| == 20
    ensures forall j, k :: 0 <= j < k < |Ticks(axis)| ==> Ticks(axis)[j].index < Ticks(axis)[k].index
    ensures forall k :: 0 <= k < |Ticks(axis)| ==> Ticks(axis)[k].index != 0
    ensures forall i :: HasIndex(Ticks(axis), i) <==> -10 <= i <= 10 && i != 0
  {
    var ts := Ticks(axis);
    forall i | -10 <= i <= 10 && i != 0
      ensures HasIndex(ts, i)
    {
      var k := if i < 0 then i + 10 else i + 9;
      assert ts[k].index == i;
    }
  }

  /** The positions on an axis whose label reads `v`. */
  function PositionsLabelled(ts: seq<TickSpec>, v: nat): set<nat> {
    set k: nat | k < |ts| && ts[k].text == Decimal.DecimalString(v)
  }

  /** Each label 1..10 is written exactly twice on an axis: at -v and at v. */
  lemma EachLabelTwice(axis: Axis, v: nat)
    requires 1 <= v <= 10
    ensures PositionsLabelled(Ticks(axis), v) == {10 - v, 9 + v}
    ensures |PositionsLabelled(Ticks(axis), v)| == 2
    ensures Ticks(axis)[10 - v].index == -(v as int) && Ticks(axis)[9 + v].index == v
  {
    var ts := Ticks(axis);
    forall k: nat | k < |ts|
      ensures ts[k].text == Decimal.DecimalString(v) <==> k == 10 - v || k == 9 + v
    {
      var i := ts[k].index;
      Decimal.DecimalStringInjective(Abs(i), v);
    }
  }

  /** A concrete reading of the texts: the outermost ticks read "10", the innermost "1". */
  lemma EndLabels(axis: Axis)
    ensures Ticks(axis)[0].text == "10" && Ticks(axis)[19].text == "10"
    ensures Ticks(axis)[9].text == "1" && Ticks(axis)[10].text == "1"
  {
  }
}
