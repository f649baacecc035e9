/** The listening session: the component's nullable references and two state flags, and the
    start, stop, toggle and unmount transitions over them. */
module Session {

  import opened Wrappers
  import opened Audio
  import Frames
  import Circular

  /** The component's references (audio context, analyser, source node, animation-frame id,
      sample buffer) and its two pieces of state (listening, and whether microphone access was
      granted, `None` before the first attempt). The frame id is 0 until a frame is requested. */
  datatype State = State(
    context: Option<AudioContext>,
    analyser: Option<Analyser>,
    source: Option<SourceNode>,
    animation: nat,
    data: Option<seq<Byte>>,
    isListening: bool,
    permission: Option<bool>)

  /** The state on mount. */
  const Initial: State := State(None, None, None, 0, None, false, None)

  /** An id `requestAnimationFrame` hands out: never zero. */
  type FrameId = n: nat | n > 0 witness 1

  /** How the microphone request ends: a stream, or a rejection (no device, permission refused). */
  datatype Microphone = Granted(stream: MediaStream) | Refused

  /** The objects a start would create: the audio context (used only when there is none yet)
      and the id of the new analyser. */
  datatype Allocation = Allocation(context: AudioContext, analyser: nat)

  /** What a frame reads besides the session: the canvas element, the visualizer type,
      sensitivity and colour scheme current when the frame runs, and the analyser's snapshot
      (time-domain or frequency-domain, as the type demands) at that moment. */
  datatype View = View(canvas: Option<Frames.CanvasElement>, kind: string, sensitivity: real, scheme: string,
                       samples: seq<Byte>)

  /** Calls into the Web Audio and animation-frame interfaces a transition makes. */
  datatype HostCall =
    | CreateContext(context: AudioContext)
    | ConnectSource(source: SourceNode)
    | DisconnectSource(source: SourceNode)
    | CancelFrame(id: nat)
    | CloseContext(context: AudioContext)

  /** A transition's successor state and the host calls it makes, in order. */
  datatype Step = Step(next: State, calls: seq<HostCall>)

  /** The canvas a frame draws on is mounted and yields a 2D context. */
  predicate CanvasReady(view: View)
  {
    view.canvas.Some? && view.canvas.value.has2dContext
  }

  /** A frame ran. When the canvas, its 2D context, the analyser and the buffer are all present,
      the frame re-arms with `id`, and if the type selects a renderer, that renderer first reads
      the analyser's snapshot into the buffer in place and draws from it. Otherwise nothing
      changes. */
  function Tick(s: State, view: View, id: FrameId): (r: State)
    ensures Frames.Ready(view.canvas, s.analyser, s.data) && Frames.KnownKind(view.kind) ==>
      r == s.(data := Some(Refresh(s.data.value, view.samples)), animation := id)
    ensures Frames.Ready(view.canvas, s.analyser, s.data) && !Frames.KnownKind(view.kind) ==>
      r == s.(animation := id)
    ensures !Frames.Ready(view.canvas, s.analyser, s.data) ==> r == s
  {
    var refreshed :=
      if Frames.Ready(view.canvas, s.analyser, s.data) && Frames.KnownKind(view.kind)
      then Some(Refresh(s.data.value, view.samples)) else s.data;
    if Frames.Draw(view.canvas, s.analyser, refreshed, view.kind, view.sensitivity, view.scheme).rearmed
    then s.(data := refreshed, animation := id) else s
  }

  /** Start listening. On a refused microphone only the permission flag changes (to false), and
      no frame is drawn. On success the permission flag becomes true; the existing audio context
      is reused, or `alloc.context` is created when there is none; a new analyser with the
      2048-sample window, a new source on the stream connected to it, and a zeroed buffer of one
      entry per frequency bin replace the old ones; the session is listening; and start then
      draws the first frame itself, which re-arms the loop with `id` whenever the canvas has a
      2D context and, when the type selects a renderer, reads the analyser's snapshot into the
      new buffer. The host calls are the context creation, if any, then the connection. */
  function Start(s: State, mic: Microphone, alloc: Allocation, view: View, id: FrameId): (r: Step)
    ensures mic.Refused? ==> r.next == s.(permission := Some(false)) && r.calls == []
    ensures mic.Granted? ==>
      && r.next.isListening
      && r.next.permission == Some(true)
      && r.next.context == (if s.context.Some? then s.context else Some(alloc.context))
      && r.next.analyser == Some(Analyser(alloc.analyser, r.next.context.value, FftSize))
      && r.next.source == Some(SourceNode(r.next.context.value, mic.stream, r.next.analyser.value))
      && r.next.data.Some?
      && |r.next.data.value| == FftSize / 2
      && (CanvasReady(view) && Frames.KnownKind(view.kind) ==>
            forall i :: 0 <= i < |r.next.data.value| ==>
              r.next.data.value[i] == (if i < |view.samples| then view.samples[i] else 0))
      && (!(CanvasReady(view) && Frames.KnownKind(view.kind)) ==>
            forall i :: 0 <= i < |r.next.data.value| ==> r.next.data.value[i] == 0)
      && (CanvasReady(view) ==> r.next.animation == id)
      && (!CanvasReady(view) ==> r.next.animation == s.animation)
      && (CreateContext(alloc.context) in r.calls <==> s.context.None?)
      && |r.calls| == (if s.context.None? then 2 else 1)
      && r.calls[|r.calls| - 1] == ConnectSource(r.next.source.value)
      && (forall c :: c in r.calls ==> c == CreateContext(alloc.context) || c == ConnectSource(r.next.source.value))
  {
    match mic
    case Refused => Step(s.(permission := Some(false)), [])
    case Granted(stream) =>
      var context := if s.context.Some? then s.context.value else alloc.context;
      var analyser := Analyser(alloc.analyser, context, FftSize);
      var source := SourceNode(context, stream, analyser);
      var created := if s.context.Some? then [] else [CreateContext(alloc.context)];
      var listening := State(Some(context), Some(analyser), Some(source), s.animation,
                               Some(ZeroBuffer(analyser.FrequencyBinCount())), true, Some(true));
      Step(Tick(listening, view, id), created + [ConnectSource(source)])
  }

  /** Stop listening: disconnect and drop the source if there is one, cancel the pending
      animation frame if its id is non-zero, and clear the listening flag. The audio context,
      the analyser, the buffer, the permission flag and the (now stale) frame id are kept. */
  function Stop(s: State): (r: Step)
    ensures r.next.source.None? && !r.next.isListening
    ensures r.next.context == s.context && r.next.analyser == s.analyser && r.next.data == s.data
    ensures r.next.permission == s.permission && r.next.animation == s.animation
    ensures (exists src :: DisconnectSource(src) in r.calls) <==> s.source.Some?
    ensures s.source.Some? ==> DisconnectSource(s.source.value) in r.calls
    ensures CancelFrame(s.animation) in r.calls <==> s.animation != 0
    ensures forall c :: c in r.calls ==>
      (s.source.Some? && c == DisconnectSource(s.source.value)) || c == CancelFrame(s.animation)
    ensures |r.calls| == (if s.source.Some? then 1 else 0) + (if s.animation != 0 then 1 else 0)
    ensures s.source.Some? ==> r.calls[0] == DisconnectSource(s.source.value)
  {
    var disconnect := if s.source.Some? then [DisconnectSource(s.source.value)] else [];
    var cancel := if s.animation != 0 then [CancelFrame(s.animation)] else [];
    Step(s.(source := None, isListening := false), disconnect + cancel)
  }

  /** The start/stop button: stop while listening, start otherwise. */
  function Toggle(s: State, mic: Microphone, alloc: Allocation, view: View, id: FrameId): (r: Step)
    ensures s.isListening ==> r == Stop(s)
    ensures !s.isListening ==> r == Start(s, mic, alloc, view, id)
    ensures s.isListening ==> !r.next.isListening && r.next.source.None?
    ensures !s.isListening ==> (r.next.isListening <==> mic.Granted?)
    ensures !s.isListening ==> r.next.permission == Some(mic.Granted?)
    ensures s.context.Some? ==> r.next.context == s.context
  {
    if s.isListening then Stop(s) else Start(s, mic, alloc, view, id)
  }

  /** Unmount: close the audio context if there is one, then cancel the animation frame if its
      id is non-zero. Nothing else is released. */
  function Teardown(s: State): (calls: seq<HostCall>)
    ensures (exists c :: CloseContext(c) in calls) <==> s.context.Some?
    ensures s.context.Some? ==> CloseContext(s.context.value) in calls
    ensures s.animation != 0 <==> CancelFrame(s.animation) in calls
    ensures forall c :: c in calls ==>
      (s.context.Some? && c == CloseContext(s.context.value)) || (s.animation != 0 && c == CancelFrame(s.animation))
    ensures |calls| == (if s.context.Some? then 1 else 0) + (if s.animation != 0 then 1 else 0)
    ensures s.context.Some? ==> calls[0] == CloseContext(s.context.value)
  {
    (if s.context.Some? then [CloseContext(s.context.value)] else [])
    + (if s.animation != 0 then [CancelFrame(s.animation)] else [])
  }

  /** Stopping twice leaves the same state as stopping once; the second stop disconnects
      nothing (it may cancel the same stale frame id again). */
  lemma StopIdempotent(s: State)
    ensures Stop(Stop(s).next).next == Stop(s).next
    ensures forall c :: c in Stop(Stop(s).next).calls ==> c == CancelFrame(s.animation)
  {
  }

  /** The frame a successful start requests on a mounted canvas is the one the next stop
      cancels. */
  lemma StopCancelsFirstFrame(s: State, stream: MediaStream, alloc: Allocation, view: View, id: FrameId)
    requires CanvasReady(view)
    ensures CancelFrame(id) in Stop(Start(s, Granted(stream), alloc, view, id).next).calls
  {
  }

  /** The references hang together: an analyser and a buffer exist together, the analyser was
      made by the session's context with the 2048-sample window and the buffer has one entry
      per frequency bin, the source feeds that analyser, and a listening session has a
      source and was granted the microphone. */
  predicate Wf(s: State)
  {
    && (s.analyser.Some? <==> s.data.Some?)
    && (s.analyser.Some? ==>
          && s.context.Some?
          && s.analyser.value.context == s.context.value
          && s.analyser.value.fftSize == FftSize
          && |s.data.value| == s.analyser.value.FrequencyBinCount())
    && (s.source.Some? ==> s.analyser.Some? && s.source.value.analyser == s.analyser.value)
    && (s.isListening ==> s.source.Some? && s.permission == Some(true))
  }

  /** The events of a session: a press of the start/stop button (with the microphone outcome,
      the objects a start would create, and what its first frame reads), or one animation
      frame. */
  datatype Event =
    | Press(mic: Microphone, alloc: Allocation, view: View, id: FrameId)
    | Frame(view: View, id: FrameId)

  /** The effect of one event. */
  function Apply(s: State, e: Event): Step
  {
    match e
    case Press(mic, alloc, view, id) => Toggle(s, mic, alloc, view, id)
    case Frame(view, id) => Step(Tick(s, view, id), [])
  }

  /** The state after a sequence of events. */
  function Run(s: State, events: seq<Event>): State
    decreases |events|
  {
    if events == [] then s else Run(Apply(s, events[0]).next, events[1..])
  }

  /** The host calls made by a sequence of events. */
  function RunCalls(s: State, events: seq<Event>): seq<HostCall>
    decreases |events|
  {
    if events == [] then []
    else Apply(s, events[0]).calls + RunCalls(Apply(s, events[0]).next, events[1..])
  }

  /** Every single event keeps the references consistent. */
  lemma StepPreservesWf(s: State, e: Event)
    requires Wf(s)
    ensures Wf(Apply(s, e).next)
  {
  }

  /** Every reachable session is consistent. */
  lemma {:induction false} RunPreservesWf(s: State, events: seq<Event>)
    requires Wf(s)
    ensures Wf(Run(s, events))
    decreases |events|
  {
    if events != [] {
      StepPreservesWf(s, events[0]);
      RunPreservesWf(Apply(s, events[0]).next, events[1..]);
    }
  }

  /** Number of audio contexts created in a list of host calls. */
  function Creations(calls: seq<HostCall>): nat
  {
    if calls == [] then 0
    else (if calls[0].CreateContext? then 1 else 0) + Creations(calls[1..])
  }

  lemma {:induction false} CreationsAppend(a: seq<HostCall>, b: seq<HostCall>)
    ensures Creations(a + b) == Creations(a) + Creations(b)
  {
    if a == [] {
      assert a + b == b;
    } else {
      assert (a + b)[0] == a[0];
      assert (a + b)[1..] == a[1..] + b;
      CreationsAppend(a[1..], b);
    }
  }

  /** No matter how often the session is started and stopped, at most one audio context is
      ever created, and once there is a context it stays the session's context. */
  lemma {:induction false} AtMostOneContext(s: State, events: seq<Event>)
    ensures Creations(RunCalls(s, events)) <= (if s.context.None? then 1 else 0)
    ensures s.context.Some? ==> Run(s, events).context == s.context
    decreases |events|
  {
    if events != [] {
      var r := Apply(s, events[0]);
      AtMostOneContext(r.next, events[1..]);
      CreationsAppend(r.calls, RunCalls(r.next, events[1..]));
      match events[0]
      case Press(mic, alloc, view, id) =>
        if s.isListening {
          assert Creations(r.calls) == 0 by { NoCreationInStop(s); }
        } else {
          StartCreations(s, mic, alloc, view, id);
        }
      case Frame(view, id) =>
        assert r.calls == [];
    }
  }

  lemma NoCreationInStop(s: State)
    ensures Creations(Stop(s).calls) == 0
  {
    NoCreations(Stop(s).calls);
  }

  lemma {:induction false} NoCreations(calls: seq<HostCall>)
    requires forall i :: 0 <= i < |calls| ==> !calls[i].CreateContext?
    ensures Creations(calls) == 0
  {
    if calls != [] {
      NoCreations(calls[1..]);
    }
  }

  lemma StartCreations(s: State, mic: Microphone, alloc: Allocation, view: View, id: FrameId)
    ensures Creations(Start(s, mic, alloc, view, id).calls) == (if mic.Granted? && s.context.None? then 1 else 0)
    ensures Start(s, mic, alloc, view, id).next.context.None? ==> s.context.None?
    ensures mic.Granted? ==> Start(s, mic, alloc, view, id).next.context.Some?
  {
    var r := Start(s, mic, alloc, view, id);
    if mic.Granted? {
      var connect := [ConnectSource(r.next.source.value)];
      assert Creations(connect) == 0 by { NoCreations(connect); }
      if s.context.None? {
        assert r.calls == [CreateContext(alloc.context)] + connect;
        CreationsAppend([CreateContext(alloc.context)], connect);
        assert Creations([CreateContext(alloc.context)]) == 1;
      } else {
        assert r.calls == connect;
      }
    }
  }

  /** In a consistent listening session every frame on a canvas with a 2D context draws and
      re-arms the loop, with a buffer of 1024 entries; so the circular renderer's spokes all
      have a finite length. */
  lemma ListeningSessionDraws(s: State, canvas: Frames.CanvasElement, kind: string,
                              sensitivity: real, scheme: string)
    requires Wf(s) && s.isListening && canvas.has2dContext
    ensures Frames.Draw(Some(canvas), s.analyser, s.data, kind, sensitivity, scheme).rearmed
    ensures |s.data.value| == 1024
    ensures forall i :: 6 <= i < 186 ==>
      Frames.Draw(Some(canvas), s.analyser, s.data, Frames.CircularKind, sensitivity, scheme).commands[i].length.Finite?
  {
    var w := canvas.clientWidth as real;
    var h := canvas.clientHeight as real;
    var f := Frames.Draw(Some(canvas), s.analyser, s.data, Frames.CircularKind, sensitivity, scheme);
    var spokes := Circular.Spokes(s.data.value, sensitivity, w, h);
    forall i | 6 <= i < 186
      ensures f.commands[i].length.Finite?
    {
      assert f.commands[i] == spokes[i - 6];
    }
  }

  /** In a consistent listening session, a frame of a known type on a canvas with a 2D context
      replaces the whole buffer with the analyser's snapshot (which holds at least one entry per
      frequency bin), keeping its length. */
  lemma FrameRefreshesBuffer(s: State, view: View, id: FrameId)
    requires Wf(s) && s.isListening && CanvasReady(view) && Frames.KnownKind(view.kind)
    requires |view.samples| >= |s.data.value|
    ensures Tick(s, view, id).data == Some(view.samples[..|s.data.value|])
    ensures Wf(Tick(s, view, id))
  {
    var r := Tick(s, view, id);
    assert r.data.value == view.samples[..|s.data.value|];
  }

  /** Stopping does not make the frame function's guard fail: the analyser and buffer stay, and
      of the frame loop stop only cancels the stored animation frame. */
  lemma StopLeavesFrameReady(s: State, canvas: Frames.CanvasElement)
    requires Wf(s) && s.isListening && canvas.has2dContext
    ensures Frames.Ready(Some(canvas), Stop(s).next.analyser, Stop(s).next.data)
    ensures s.animation != 0 ==> CancelFrame(s.animation) in Stop(s).calls
  {
  }

  /** A context created by one event is the session's context after that event. */
  lemma CreatedByStep(s: State, e: Event, c: AudioContext)
    requires CreateContext(c) in Apply(s, e).calls
    ensures Apply(s, e).next.context == Some(c)
  {
  }

  /** A context created anywhere in a run is the session's context at the end of the run. */
  lemma {:induction false} CreatedContextIsCurrent(s: State, events: seq<Event>, c: AudioContext)
    requires CreateContext(c) in RunCalls(s, events)
    ensures Run(s, events).context == Some(c)
    decreases |events|
  {
    var r := Apply(s, events[0]);
    if CreateContext(c) in r.calls {
      CreatedByStep(s, events[0], c);
      AtMostOneContext(r.next, events[1..]);
    } else {
      CreatedContextIsCurrent(r.next, events[1..], c);
    }
  }

  /** Unmount after any run from mount releases the audio context: at most one context was
      ever created, every context created is the one every later start reused, and teardown
      closes it. */
  lemma TeardownClosesTheContext(events: seq<Event>)
    ensures Run(Initial, events).context.Some? ==>
      CloseContext(Run(Initial, events).context.value) in Teardown(Run(Initial, events))
    ensures Creations(RunCalls(Initial, events)) <= 1
    ensures forall c :: CreateContext(c) in RunCalls(Initial, events) ==>
      Run(Initial, events).context == Some(c) && CloseContext(c) in Teardown(Run(Initial, events))
  {
    AtMostOneContext(Initial, events);
    forall c | CreateContext(c) in RunCalls(Initial, events)
      ensures Run(Initial, events).context == Some(c)
    {
      CreatedContextIsCurrent(Initial, events, c);
    }
  }
}
