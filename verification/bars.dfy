/** The "bars" renderer: one filled rectangle for every fourth frequency bin, standing on the
    bottom edge of the canvas. */
module Bars {

  import opened Wrappers
  import opened Audio
  import opened Canvas
  import Palette

  /** Number of bins 0, 4, 8, … below n, that is n / 4 rounded up. */
  function BarCount(n: nat): nat
  {
    (n + 3) / 4
  }

  /** Horizontal pitch of the bars: the width over a quarter of the bin count. */
  function BarWidth(n: nat, width: real): real
    requires n > 0
  {
    width / (n as real / 4.0)
  }

  /** Bar height: the bin value times the sensitivity, not clamped to the canvas. */
  function BarHeight(b: Byte, sensitivity: real): real
  {
    b as real * sensitivity
  }

  /** Bar k reads bin 4k, which lies inside the buffer. */
  lemma BinOfBar(n: nat, k: nat)
    requires k < BarCount(n)
    ensures 4 * k < n
  {
  }

  /** The rectangle for bar k. */
  function Bar(buf: seq<Byte>, k: nat, sensitivity: real, width: real, height: real): Cmd
    requires k < BarCount(|buf|)
  {
    BinOfBar(|buf|, k);
    var bw := BarWidth(|buf|, width);
    var bh := BarHeight(buf[4 * k], sensitivity);
    FillRect(k as real * bw, height - bh, bw - 1.0, bh)
  }

  /** All rectangles, left to right. Each sits one bar width right of the previous one, is one
      pixel narrower than the pitch, and has its bottom edge on the bottom of the canvas. */
  function Rects(buf: seq<Byte>, sensitivity: real, width: real, height: real): (rects: seq<Cmd>)
    ensures |rects| == BarCount(|buf|)
    ensures forall k :: 0 <= k < |rects| ==>
      && 4 * k < |buf|
      && rects[k].FillRect?
      && rects[k].x == k as real * BarWidth(|buf|, width)
      && rects[k].width == BarWidth(|buf|, width) - 1.0
      && rects[k].height == BarHeight(buf[4 * k], sensitivity)
      && rects[k].y + rects[k].height == height
  {
    seq(BarCount(|buf|), k requires 0 <= k < BarCount(|buf|) => Bar(buf, k, sensitivity, width, height))
  }

  /** The renderer: nothing at all without an analyser and a buffer; otherwise the scheme's
      gradient as fill style followed by the rectangles. */
  function Render(analyser: Option<Analyser>, buffer: Option<seq<Byte>>, sensitivity: real,
                  scheme: string, width: real, height: real): (cmds: seq<Cmd>)
    ensures analyser.None? || buffer.None? ==> cmds == []
    ensures analyser.Some? && buffer.Some? ==>
      && |cmds| == BarCount(|buffer.value|) + 1
      && cmds[0] == SetFillStyle(Palette.GetGradient(scheme, height))
      && cmds[1..] == Rects(buffer.value, sensitivity, width, height)
  {
    if analyser.None? || buffer.None? then []
    else [SetFillStyle(Palette.GetGradient(scheme, height))] + Rects(buffer.value, sensitivity, width, height)
  }

  /** The drawing loop as the component runs it: i steps by 4 and x grows by one bar width per
      bar. */
  method FillBars(buf: seq<Byte>, sensitivity: real, width: real, height: real)
    returns (rects: seq<Cmd>)
    ensures rects == Rects(buf, sensitivity, width, height)
  {
    // With an empty buffer the bar width is never used (the component computes Infinity).
    var bw := if |buf| > 0 then BarWidth(|buf|, width) else 0.0;
    var x := 0.0;
    rects := [];
    var i := 0;
    while i < |buf|
      invariant i % 4 == 0 && 0 <= i
      invariant i < |buf| + 4
      invariant x == (i / 4) as real * bw
      invariant |rects| == i / 4
      invariant forall k :: 0 <= k < i / 4 ==> k < BarCount(|buf|) && rects[k] == Bar(buf, k, sensitivity, width, height)
    {
      var bh := BarHeight(buf[i], sensitivity);
      assert i / 4 < BarCount(|buf|) && 4 * (i / 4) == i;
      assert Bar(buf, i / 4, sensitivity, width, height) == FillRect(x, height - bh, bw - 1.0, bh);
      rects := rects + [FillRect(x, height - bh, bw - 1.0, bh)];
      x := x + bw;
      i := i + 4;
    }
  }

  /** Bar k reads bin i = 4k, and every bin whose index is a multiple of 4 is read by a bar:
      the bars sample exactly every fourth bin. */
  lemma {:induction false} EveryFourthBin(n: nat)
    ensures forall k :: 0 <= k < BarCount(n) ==> 4 * k < n
    ensures forall i :: 0 <= i < n && i % 4 == 0 ==> i / 4 < BarCount(n) && 4 * (i / 4) == i
  {
    forall k | 0 <= k < BarCount(n)
      ensures 4 * k < n
    {
      BinOfBar(n, k);
    }
  }

  /** A silent bin draws a bar of height zero, lying on the bottom edge. */
  lemma ZeroBinIsFlat(buf: seq<Byte>, k: nat, sensitivity: real, width: real, height: real)
    requires k < BarCount(|buf|) && buf[4 * k] == 0
    ensures Rects(buf, sensitivity, width, height)[k].height == 0.0
    ensures Rects(buf, sensitivity, width, height)[k].y == height
  {
  }

  /** Bar height never decreases as the bin value grows (for non-negative sensitivity) or as
      the sensitivity grows. */
  lemma BarHeightMonotone(b1: Byte, b2: Byte, s1: real, s2: real)
    requires b1 <= b2 && 0.0 <= s1 <= s2
    ensures BarHeight(b1, s1) <= BarHeight(b2, s1)
    ensures BarHeight(b1, s1) <= BarHeight(b1, s2)
  {
    assert (b2 - b1) as real * s1 >= 0.0;
    assert b1 as real * (s2 - s1) >= 0.0;
  }

  /** When the bin count is a multiple of 4 the bars tile the canvas width exactly: the pitch
      times the number of bars is the width. */
  lemma BarsTileWidth(n: nat, width: real)
    requires n > 0 && n % 4 == 0
    ensures BarCount(n) as real * BarWidth(n, width) == width
  {
    assert BarCount(n) == n / 4;
    assert BarCount(n) as real == n as real / 4.0;
  }
}
