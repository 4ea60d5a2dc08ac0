/** The radial layout engine: `layoutChildren` in AI-Safety/mindmap.js
    places n items evenly on a circle around a centre, item 0 straight
    above it. */
module Layout {

  datatype Point = Point(x: real, y: real)

  /** One laid-out entry: `{node, x, y}`. */
  datatype Placed<T> = Placed(item: T, at: Point)

  /** The trigonometry of the layout, left uninterpreted: for radius r and
      slot `i` of `n`, the offset (r * cos a, r * sin a) of the angle
      a = 2*pi*i/n - pi/2 from the centre. The floating-point
      `Math.cos`/`Math.sin` are not modelled. */
  type Ring = (real, nat, nat) -> (real, real)

  /** `radiusBase` default and the radius every level is drawn with. */
  const RADIUS: real := 300.0

  /** `Math.round`: the nearest integer, halves rounded up. */
  function Round(r: real): (k: int)
    ensures r - 0.5 < k as real <= r + 0.5
  {
    (r + 0.5).Floor
  }

  /** Where slot `i` of `n` lands: the centre moved by the slot's offset,
      each coordinate rounded to a whole pixel, so within half a pixel of
      the exact point on the circle. */
  function Slot(cx: real, cy: real, radius: real, i: nat, n: nat, ring: Ring): (p: Point)
    ensures -0.5 < p.x - (cx + ring(radius, i, n).0) <= 0.5
    ensures -0.5 < p.y - (cy + ring(radius, i, n).1) <= 0.5
  {
    Point(Round(cx + ring(radius, i, n).0) as real, Round(cy + ring(radius, i, n).1) as real)
  }

  /** `layoutChildren(centerX, centerY, children, radiusBase)`: one entry
      per item, in the items' order, entry i at slot i of n. For n = 0 the
      result is empty. */
  method LayoutChildren<T>(cx: real, cy: real, items: seq<T>, radius: real, ring: Ring)
    returns (out: seq<Placed<T>>)
    ensures |out| == |items|
    ensures forall i :: 0 <= i < |items| ==>
      out[i].item == items[i] && out[i].at == Slot(cx, cy, radius, i, |items|, ring)
  {
    var n := |items|;
    out := [];
    var i := 0;
    while i < n
      invariant 0 <= i <= n
      invariant |out| == i
      invariant forall j :: 0 <= j < i ==>
        out[j].item == items[j] && out[j].at == Slot(cx, cy, radius, j, n, ring)
    {
      out := out + [Placed(items[i], Slot(cx, cy, radius, i, n, ring))];
      i := i + 1;
    }
  }
}
