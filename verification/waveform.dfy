/** The "waveform" renderer: one stroked polyline through every time-domain sample. */
module Waveform {

  import opened Wrappers
  import opened Audio
  import opened Canvas
  import Palette

  /** Stroke width the renderer sets before drawing. */
  const LineWidth: real := 2.0

  /** Vertical position of a sample: the sample over 128, times the sensitivity, times half
      the height. There is no offset, so a silent sample (128) lands on the midline only at
      sensitivity 1. */
  function SampleY(b: Byte, sensitivity: real, height: real): real
  {
    (b as real / 128.0 * sensitivity) * height / 2.0
  }

  /** Horizontal distance between consecutive samples. */
  function SliceWidth(n: nat, width: real): real
    requires n > 0
  {
    width / n as real
  }

  /** The path command for sample i: `moveTo` for the first sample, `lineTo` for the rest. */
  function Vertex(buf: seq<Byte>, i: nat, sensitivity: real, width: real, height: real): Cmd
    requires i < |buf|
  {
    var x := i as real * SliceWidth(|buf|, width);
    var y := SampleY(buf[i], sensitivity, height);
    if i == 0 then MoveTo(x, y) else LineTo(x, y)
  }

  /** The path through all samples, closed off by a segment to the right edge at half height. */
  function Path(buf: seq<Byte>, sensitivity: real, width: real, height: real): (path: seq<Cmd>)
    ensures |path| == |buf| + 1
    ensures path[|buf|] == LineTo(width, height / 2.0)
    ensures forall i :: 0 <= i < |buf| ==> (path[i].MoveTo? <==> i == 0)
    ensures forall i :: 0 <= i < |buf| ==> (path[i].LineTo? <==> i != 0)
    ensures forall i :: 0 <= i < |buf| ==>
      path[i].x == i as real * (width / |buf| as real) && path[i].y == SampleY(buf[i], sensitivity, height)
  {
    seq(|buf|, i requires 0 <= i < |buf| => Vertex(buf, i, sensitivity, width, height))
      + [LineTo(width, height / 2.0)]
  }

  /** The renderer: nothing at all without an analyser and a buffer; otherwise the line width,
      the scheme's gradient as stroke style, a new path, the sample path, and one stroke. */
  function Render(analyser: Option<Analyser>, buffer: Option<seq<Byte>>, sensitivity: real,
                  scheme: string, width: real, height: real): (cmds: seq<Cmd>)
    ensures analyser.None? || buffer.None? ==> cmds == []
    ensures analyser.Some? && buffer.Some? ==>
      && |cmds| == |buffer.value| + 5
      && cmds[0] == SetLineWidth(LineWidth)
      && cmds[1] == SetStrokeStyle(Palette.GetGradient(scheme, height))
      && cmds[2] == BeginPath
      && cmds[3..|cmds| - 1] == Path(buffer.value, sensitivity, width, height)
      && cmds[|cmds| - 1] == Stroke
  {
    if analyser.None? || buffer.None? then []
    else
      [SetLineWidth(LineWidth), SetStrokeStyle(Palette.GetGradient(scheme, height)), BeginPath]
      + Path(buffer.value, sensitivity, width, height)
      + [Stroke]
  }

  /** The drawing loop as the component runs it: x starts at 0 and grows by one slice width
      per sample instead of being computed as a product. */
  method TracePath(buf: seq<Byte>, sensitivity: real, width: real, height: real)
    returns (path: seq<Cmd>)
    ensures path == Path(buf, sensitivity, width, height)
  {
    // With no samples the slice width is never used (the component computes Infinity).
    var slice := if |buf| > 0 then SliceWidth(|buf|, width) else 0.0;
    var x := 0.0;
    path := [];
    var i := 0;
    while i < |buf|
      invariant 0 <= i <= |buf|
      invariant x == i as real * slice
      invariant |path| == i
      invariant forall j :: 0 <= j < i ==> path[j] == Vertex(buf, j, sensitivity, width, height)
    {
      var y := SampleY(buf[i], sensitivity, height);
      if i == 0 {
        path := path + [MoveTo(x, y)];
      } else {
        path := path + [LineTo(x, y)];
      }
      x := x + slice;
      i := i + 1;
    }
    path := path + [LineTo(width, height / 2.0)];
  }

  /** Louder samples sit lower on the canvas: for a positive sensitivity and a non-negative
      height, y never decreases as the sample grows. */
  lemma SampleYMonotone(b1: Byte, b2: Byte, sensitivity: real, height: real)
    requires b1 <= b2 && sensitivity > 0.0 && height >= 0.0
    ensures SampleY(b1, sensitivity, height) <= SampleY(b2, sensitivity, height)
  {
    var k := sensitivity * height / 256.0;
    assert k >= 0.0;
    assert SampleY(b1, sensitivity, height) == b1 as real * k;
    assert SampleY(b2, sensitivity, height) == b2 as real * k;
  }

  /** A silent buffer (every sample 128) draws a horizontal line at sensitivity times half the
      height, which is the midline exactly when the sensitivity is 1 (for a canvas of
      non-zero height). */
  lemma SilenceIsFlat(buf: seq<Byte>, sensitivity: real, width: real, height: real)
    requires forall i :: 0 <= i < |buf| ==> buf[i] == 128
    ensures forall i :: 0 <= i < |buf| ==>
      Path(buf, sensitivity, width, height)[i].y == sensitivity * height / 2.0
    ensures height != 0.0 && |buf| > 0 ==>
      (Path(buf, sensitivity, width, height)[0].y == height / 2.0 <==> sensitivity == 1.0)
  {
    var path := Path(buf, sensitivity, width, height);
    forall i | 0 <= i < |buf|
      ensures path[i].y == sensitivity * height / 2.0
    {
      assert SampleY(128, sensitivity, height) == sensitivity * height / 2.0;
    }
    if height != 0.0 && |buf| > 0 {
      if path[0].y == height / 2.0 {
        assert sensitivity * height == 1.0 * height;
      }
    }
  }

  /** The vertices are evenly spaced from the left edge, one slice apart, and the closing
      segment ends one slice to the right of the last sample, on the right edge. */
  lemma VerticesSpanWidth(buf: seq<Byte>, sensitivity: real, width: real, height: real)
    requires |buf| > 0
    ensures Path(buf, sensitivity, width, height)[0].x == 0.0
    ensures forall i :: 0 < i < |buf| ==>
      Path(buf, sensitivity, width, height)[i].x
        == Path(buf, sensitivity, width, height)[i - 1].x + width / |buf| as real
    ensures Path(buf, sensitivity, width, height)[|buf| - 1].x + width / |buf| as real
      == Path(buf, sensitivity, width, height)[|buf|].x
  {
    var n := |buf| as real;
    var path := Path(buf, sensitivity, width, height);
    assert n * (width / n) == width;
    assert path[|buf| - 1].x == (n - 1.0) * (width / n);
  }
}
