/** The "circular" renderer: a reference circle and 180 spokes growing outward from it. */
module Circular {

  import opened Wrappers
  import opened Audio
  import opened Canvas
  import Palette

  /** Number of spokes around the circle. */
  const SpokeCount: nat := 180

  /** Stroke width the renderer sets before drawing. */
  const LineWidth: real := 2.0

  function Min(a: real, b: real): real
  {
    if a <= b then a else b
  }

  /** Radius of the reference circle: a quarter of the smaller canvas dimension. */
  function Radius(width: real, height: real): real
  {
    Min(width, height) / 4.0
  }

  /** Bin read by spoke i out of n bins: ⌊i · n / 180⌋. */
  function SpokeIndex(i: nat, n: nat): nat
  {
    (i * n) / SpokeCount
  }

  /** Spoke length for a bin value: value times sensitivity, over 256, times the radius. */
  function SpokeLength(b: Byte, sensitivity: real, radius: real): real
  {
    (b as real * sensitivity / 256.0) * radius
  }

  /** Spoke i. Reading past the end of an empty buffer gives `undefined`, and the length
      computed from it is NaN. */
  function SpokeAt(buf: seq<Byte>, i: nat, sensitivity: real, width: real, height: real): Cmd
  {
    var idx := SpokeIndex(i, |buf|);
    var radius := Radius(width, height);
    var length := if idx < |buf| then Finite(SpokeLength(buf[idx], sensitivity, radius)) else NaN;
    Spoke(width / 2.0, height / 2.0, i, radius, length)
  }

  /** The 180 spokes, in angle order. */
  function Spokes(buf: seq<Byte>, sensitivity: real, width: real, height: real): (spokes: seq<Cmd>)
    ensures |spokes| == SpokeCount
    ensures forall i :: 0 <= i < SpokeCount ==>
      && spokes[i].Spoke?
      && spokes[i].cx == width / 2.0 && spokes[i].cy == height / 2.0
      && spokes[i].angleIndex == i
      && spokes[i].radius == Radius(width, height)
      && (spokes[i].length.Finite? <==> |buf| > 0)
      && (|buf| > 0 ==>
            spokes[i].length.v == SpokeLength(buf[SpokeIndex(i, |buf|)], sensitivity, Radius(width, height)))
  {
    seq(SpokeCount, i requires 0 <= i < SpokeCount => SpokeAt(buf, i, sensitivity, width, height))
  }

  /** The renderer: nothing at all without an analyser and a buffer; otherwise the stroke
      style and width, the reference circle around the centre, then the spokes. */
  function Render(analyser: Option<Analyser>, buffer: Option<seq<Byte>>, sensitivity: real,
                  scheme: string, width: real, height: real): (cmds: seq<Cmd>)
    ensures analyser.None? || buffer.None? ==> cmds == []
    ensures analyser.Some? && buffer.Some? ==>
      && |cmds| == 5 + SpokeCount
      && cmds[..5] == [SetStrokeStyle(Palette.GetGradient(scheme, height)), SetLineWidth(LineWidth),
                       BeginPath, Arc(width / 2.0, height / 2.0, Radius(width, height)), Stroke]
      && cmds[5..] == Spokes(buffer.value, sensitivity, width, height)
  {
    if analyser.None? || buffer.None? then []
    else
      [SetStrokeStyle(Palette.GetGradient(scheme, height)), SetLineWidth(LineWidth),
       BeginPath, Arc(width / 2.0, height / 2.0, Radius(width, height)), Stroke]
      + Spokes(buffer.value, sensitivity, width, height)
  }

  /** Every spoke reads a bin inside a non-empty buffer: ⌊i · n / 180⌋ < n for i < 180. */
  lemma SpokeIndexInRange(i: nat, n: nat)
    requires i < SpokeCount && n > 0
    ensures SpokeIndex(i, n) < n
  {
    assert i * n < SpokeCount * n;
  }

  /** The bins read are non-decreasing around the circle, starting at bin 0. */
  lemma SpokeIndexMonotone(i: nat, j: nat, n: nat)
    requires i <= j
    ensures SpokeIndex(0, n) == 0
    ensures SpokeIndex(i, n) <= SpokeIndex(j, n)
  {
    MulLeftMonotone(i, j, n);
    DivMonotone(i * n, j * n);
  }

  /** With at least 180 bins, as with the 1024 bins the analyser provides, no two spokes read
      the same bin. */
  lemma SpokeIndexStrictlyIncreasing(i: nat, j: nat, n: nat)
    requires i < j && n >= SpokeCount
    ensures SpokeIndex(i, n) < SpokeIndex(j, n)
  {
    MulLeftMonotone(i + 1, j, n);
    assert (i + 1) * n == i * n + n;
    DivMonotone(i * n + SpokeCount, j * n);
    DivStep(i * n);
  }

  lemma MulLeftMonotone(i: nat, j: nat, n: nat)
    requires i <= j
    ensures i * n <= j * n
  {
    assert j * n == i * n + (j - i) * n;
  }

  lemma DivMonotone(a: nat, b: nat)
    requires a <= b
    ensures a / SpokeCount <= b / SpokeCount
  {
    var qa, ra := a / SpokeCount, a % SpokeCount;
    var qb, rb := b / SpokeCount, b % SpokeCount;
    assert a == 180 * qa + ra && 0 <= ra < 180;
    assert b == 180 * qb + rb && 0 <= rb < 180;
  }

  lemma DivStep(a: nat)
    ensures (a + SpokeCount) / SpokeCount == a / SpokeCount + 1
  {
    var q, r := a / SpokeCount, a % SpokeCount;
    assert a + 180 == 180 * (q + 1) + r && 0 <= r < 180;
  }

  /** With a non-empty buffer, a non-negative sensitivity and a non-negative canvas, every
      spoke has a finite, non-negative length, at most sensitivity · 255/256 of the radius:
      at the loudest bin and the highest sensitivity 3, the spoke reaches 765/256 of the radius,
      just short of three radii. */
  lemma SpokeLengthBounds(buf: seq<Byte>, sensitivity: real, width: real, height: real)
    requires |buf| > 0 && sensitivity >= 0.0 && width >= 0.0 && height >= 0.0
    ensures forall i :: 0 <= i < SpokeCount ==>
      && Spokes(buf, sensitivity, width, height)[i].length.Finite?
      && 0.0 <= Spokes(buf, sensitivity, width, height)[i].length.v
      && Spokes(buf, sensitivity, width, height)[i].length.v
           <= sensitivity * 255.0 / 256.0 * Radius(width, height)
  {
    var radius := Radius(width, height);
    assert radius >= 0.0;
    forall b: Byte
      ensures 0.0 <= SpokeLength(b, sensitivity, radius) <= sensitivity * 255.0 / 256.0 * radius
    {
      var k := sensitivity * radius / 256.0;
      assert k >= 0.0;
      assert SpokeLength(b, sensitivity, radius) == b as real * k;
      assert sensitivity * 255.0 / 256.0 * radius == 255.0 * k;
      assert (255 - b) as real * k >= 0.0;
    }
  }

  /** The literal value at the top of the sensitivity range: a full-scale bin at sensitivity 3
      gives a spoke of 765/256 radii, more than two radii and less than three. */
  lemma LoudestSpoke(radius: real)
    requires radius > 0.0
    ensures SpokeLength(255, 3.0, radius) == 765.0 / 256.0 * radius
    ensures 2.0 * radius < SpokeLength(255, 3.0, radius) < 3.0 * radius
  {
  }
}
