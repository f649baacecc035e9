/** Colour lookup: the vertical gradient each colour scheme strokes or fills with. */
module Palette {

  import opened Canvas

  /** The three colours, top to bottom, of every scheme the component knows. */
  const Schemes: map<string, seq<string>> := map[
    "gradient-purple" := ["#9333ea", "#7e22ce", "#4c1d95"],
    "gradient-blue" := ["#2563eb", "#1d4ed8", "#1e40af"],
    "gradient-green" := ["#10b981", "#059669", "#047857"],
    "gradient-red" := ["#ef4444", "#dc2626", "#b91c1c"]
  ]

  /** Offsets of the top, middle and bottom stops. */
  const StopOffsets: seq<real> := [0.0, 0.5, 1.0]

  /** The gradient for `scheme` on a canvas of the given height. A scheme that is not
      recognised yields a gradient with no stops at all. */
  function GetGradient(scheme: string, height: real): (g: Gradient)
    ensures g.x0 == 0.0 && g.y0 == 0.0 && g.x1 == 0.0 && g.y1 == height
    ensures scheme in Schemes <==> |g.stops| == 3
    ensures scheme !in Schemes <==> g.stops == []
    ensures scheme in Schemes ==>
      forall k :: 0 <= k < 3 ==> g.stops[k] == ColorStop(StopOffsets[k], Schemes[scheme][k])
  {
    var stops :=
      if scheme == "gradient-purple" then
        [ColorStop(0.0, "#9333ea"), ColorStop(0.5, "#7e22ce"), ColorStop(1.0, "#4c1d95")]
      else if scheme == "gradient-blue" then
        [ColorStop(0.0, "#2563eb"), ColorStop(0.5, "#1d4ed8"), ColorStop(1.0, "#1e40af")]
      else if scheme == "gradient-green" then
        [ColorStop(0.0, "#10b981"), ColorStop(0.5, "#059669"), ColorStop(1.0, "#047857")]
      else if scheme == "gradient-red" then
        [ColorStop(0.0, "#ef4444"), ColorStop(0.5, "#dc2626"), ColorStop(1.0, "#b91c1c")]
      else
        [];
    LinearGradient(0.0, 0.0, 0.0, height, stops)
  }

  /** A CSS colour written as `#` followed by six lower-case hexadecimal digits. */
  predicate IsHexColor(c: string)
  {
    |c| == 7 && c[0] == '#' && forall i :: 1 <= i < 7 ==> c[i] in "0123456789abcdef"
  }

  /** Every stop of every known scheme is a well-formed hex colour, and the four schemes
      are told apart by their gradients. */
  lemma SchemesAreDistinctHexGradients(a: string, b: string, height: real)
    requires a in Schemes && b in Schemes
    ensures forall k :: 0 <= k < 3 ==> IsHexColor(GetGradient(a, height).stops[k].color)
    ensures a != b ==> GetGradient(a, height) != GetGradient(b, height)
  {
    var ga := GetGradient(a, height);
    var gb := GetGradient(b, height);
    if a != b {
      assert ga.stops[0].color != gb.stops[0].color;
    }
  }
}
