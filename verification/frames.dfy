/** One animation frame: the guard, the resize to the displayed size, the full clear, the
    dispatch on the visualizer type, and whether the loop re-arms itself. */
module Frames {

  import opened Wrappers
  import opened Audio
  import opened Canvas
  import Waveform
  import Bars
  import Circular

  /** The three visualizer type strings the renderers are selected by. */
  const WaveformKind: string := "waveform"
  const BarsKind: string := "bars"
  const CircularKind: string := "circular"

  /** The `<canvas>` element: its displayed size, and whether `getContext("2d")` yields a
      context. */
  datatype CanvasElement = CanvasElement(clientWidth: nat, clientHeight: nat, has2dContext: bool)

  /** What one call of the frame function does: the commands it issues, and whether it asks for
      another animation frame. */
  datatype FrameResult = FrameResult(commands: seq<Cmd>, rearmed: bool)

  /** The visualizer type selects one of the three renderers, each of which reads the analyser
      into the buffer before drawing. */
  predicate KnownKind(kind: string)
  {
    kind in {WaveformKind, BarsKind, CircularKind}
  }

  /** The frame function proceeds only with a canvas, an analyser, a buffer and a 2D context. */
  predicate Ready(canvas: Option<CanvasElement>, analyser: Option<Analyser>, buffer: Option<seq<Byte>>)
  {
    canvas.Some? && analyser.Some? && buffer.Some? && canvas.value.has2dContext
  }

  /** The commands of the renderer the visualizer type selects; an unknown type selects none. */
  function Dispatch(kind: string, analyser: Option<Analyser>, buffer: Option<seq<Byte>>,
                    sensitivity: real, scheme: string, width: real, height: real): (cmds: seq<Cmd>)
    ensures kind == WaveformKind ==> cmds == Waveform.Render(analyser, buffer, sensitivity, scheme, width, height)
    ensures kind == BarsKind ==> cmds == Bars.Render(analyser, buffer, sensitivity, scheme, width, height)
    ensures kind == CircularKind ==> cmds == Circular.Render(analyser, buffer, sensitivity, scheme, width, height)
    ensures kind !in {WaveformKind, BarsKind, CircularKind} ==> cmds == []
  {
    if kind == WaveformKind then Waveform.Render(analyser, buffer, sensitivity, scheme, width, height)
    else if kind == BarsKind then Bars.Render(analyser, buffer, sensitivity, scheme, width, height)
    else if kind == CircularKind then Circular.Render(analyser, buffer, sensitivity, scheme, width, height)
    else []
  }

  /** One frame. The canvas's drawing size is first set to its displayed size, so every
      coordinate is relative to the client width and height. */
  function Draw(canvas: Option<CanvasElement>, analyser: Option<Analyser>, buffer: Option<seq<Byte>>,
                kind: string, sensitivity: real, scheme: string): (f: FrameResult)
    ensures !Ready(canvas, analyser, buffer) ==> f.commands == [] && !f.rearmed
    ensures Ready(canvas, analyser, buffer) ==>
      && f.rearmed
      && |f.commands| >= 1
      && f.commands[0] == ClearRect(0.0, 0.0, canvas.value.clientWidth as real, canvas.value.clientHeight as real)
      && f.commands[1..] == Dispatch(kind, analyser, buffer, sensitivity, scheme,
                                     canvas.value.clientWidth as real, canvas.value.clientHeight as real)
  {
    if !Ready(canvas, analyser, buffer) then FrameResult([], false)
    else
      var width := canvas.value.clientWidth as real;
      var height := canvas.value.clientHeight as real;
      FrameResult([ClearRect(0.0, 0.0, width, height)]
            + Dispatch(kind, analyser, buffer, sensitivity, scheme, width, height), true)
  }

  /** A frame re-arms the loop exactly when it draws anything, and then it starts with one
      clear of the whole canvas and never clears again. */
  lemma RearmedIffDrawn(canvas: Option<CanvasElement>, analyser: Option<Analyser>, buffer: Option<seq<Byte>>,
                        kind: string, sensitivity: real, scheme: string)
    ensures Draw(canvas, analyser, buffer, kind, sensitivity, scheme).rearmed
      <==> |Draw(canvas, analyser, buffer, kind, sensitivity, scheme).commands| > 0
    ensures forall i :: 0 < i < |Draw(canvas, analyser, buffer, kind, sensitivity, scheme).commands| ==>
      !Draw(canvas, analyser, buffer, kind, sensitivity, scheme).commands[i].ClearRect?
  {
    var f := Draw(canvas, analyser, buffer, kind, sensitivity, scheme);
    if Ready(canvas, analyser, buffer) {
      var w := canvas.value.clientWidth as real;
      var h := canvas.value.clientHeight as real;
      var rest := Dispatch(kind, analyser, buffer, sensitivity, scheme, w, h);
      NoRendererClears(kind, analyser, buffer, sensitivity, scheme, w, h);
      forall i | 0 < i < |f.commands|
        ensures !f.commands[i].ClearRect?
      {
        assert f.commands[i] == rest[i - 1];
      }
    }
  }

  /** None of the three renderers issues a clear. */
  lemma NoRendererClears(kind: string, analyser: Option<Analyser>, buffer: Option<seq<Byte>>,
                         sensitivity: real, scheme: string, width: real, height: real)
    ensures forall i :: 0 <= i < |Dispatch(kind, analyser, buffer, sensitivity, scheme, width, height)| ==>
      !Dispatch(kind, analyser, buffer, sensitivity, scheme, width, height)[i].ClearRect?
  {
    var cmds := Dispatch(kind, analyser, buffer, sensitivity, scheme, width, height);
    if analyser.Some? && buffer.Some? {
      if kind == WaveformKind {
        var path := Waveform.Path(buffer.value, sensitivity, width, height);
        forall i | 0 <= i < |cmds|
          ensures !cmds[i].ClearRect?
        {
          if 3 <= i < |cmds| - 1 {
            assert cmds[i] == path[i - 3];
          }
        }
      } else if kind == BarsKind {
        var rects := Bars.Rects(buffer.value, sensitivity, width, height);
        forall i | 0 <= i < |cmds|
          ensures !cmds[i].ClearRect?
        {
          if i > 0 {
            assert cmds[i] == rects[i - 1];
          }
        }
      } else if kind == CircularKind {
        var spokes := Circular.Spokes(buffer.value, sensitivity, width, height);
        forall i | 0 <= i < |cmds|
          ensures !cmds[i].ClearRect?
        {
          if i >= 5 {
            assert cmds[i] == spokes[i - 5];
          } else {
            assert cmds[i] == cmds[..5][i];
          }
        }
      }
    }
  }

  /** Inside a ready frame the renderers' own guards never fire: a known type always adds the
      selected renderer's commands after the clear, and an unknown type adds nothing. */
  lemma ReadyFrameDispatch(canvas: Option<CanvasElement>, analyser: Option<Analyser>, buffer: Option<seq<Byte>>,
                           kind: string, sensitivity: real, scheme: string)
    requires Ready(canvas, analyser, buffer)
    ensures kind == WaveformKind ==>
      |Draw(canvas, analyser, buffer, kind, sensitivity, scheme).commands| == |buffer.value| + 6
    ensures kind == BarsKind ==>
      |Draw(canvas, analyser, buffer, kind, sensitivity, scheme).commands| == Bars.BarCount(|buffer.value|) + 2
    ensures kind == CircularKind ==>
      |Draw(canvas, analyser, buffer, kind, sensitivity, scheme).commands| == Circular.SpokeCount + 6
    ensures kind !in {WaveformKind, BarsKind, CircularKind} ==>
      |Draw(canvas, analyser, buffer, kind, sensitivity, scheme).commands| == 1
  {
  }
}
