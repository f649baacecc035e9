# Ambient audio visualizer — a Dafny model of the rendering and session core

This project models the logic of the `AudioVisualizer` React component
(`components/audio-visualizer.tsx`), which captures microphone audio and draws a live
visualisation of it on a canvas. The model covers:

- **the three renderers.** `waveform` strokes a polyline through the time-domain samples.
  `bars` fills one rectangle for every fourth frequency bin. `circular` strokes a reference
  circle and 180 spokes whose lengths follow the frequency bins.
- **colour lookup.** A colour-scheme string maps to a vertical linear gradient with three stops.
- **the frame function.** It guards on the canvas, the analyser and the buffer. It then resizes
  the canvas to its displayed size, clears it, dispatches on the visualizer type, and re-arms
  the animation loop.
- **the listening session.** The component's nullable references (audio context, analyser,
  source node, animation-frame id, sample buffer) and its `isListening` and
  `audioPermissionGranted` state. Transitions cover a start that succeeds, a start whose
  microphone request fails, stop, the start/stop toggle, and the unmount cleanup.

Modules:

- `Wrappers`: `Option`.
- `Audio`: sample bytes, the Web Audio handles, and `frequencyBinCount`.
- `Canvas`: the drawing-command language.
- `Palette`: colour lookup.
- `Waveform`, `Bars`, `Circular`: the renderers.
- `Frames`: the frame function.
- `Session`: the state machine.

Each renderer is a pure function from the buffer, the sensitivity, the colour scheme and the
canvas size to a list of drawing commands. It uses exact `real` arithmetic. The waveform and bars
renderers each have a partner method that runs the loop the way the component writes it, with x
accumulated by repeated addition and the bar index stepping by 4. That method is proved to
produce the same commands as the function. The circular loop carries nothing from one iteration
to the next, so its spokes are stated directly by index.

Facts about the component that shape the model:

- The waveform's y coordinate is `(b / 128 · sensitivity) · height / 2` with no centring offset.
  A silent buffer draws on the midline only at sensitivity 1 (`Waveform.SilenceIsFlat`).
- A spoke's length divides by 256, so a full-scale bin at sensitivity 3 gives a spoke of
  765/256 radii (`Circular.LoudestSpoke`).
- There are exactly three visualizer types and four colour schemes.
- Stop keeps the audio context, the analyser and the buffer. Only unmount closes the context.
- A failed start changes state: the permission flag becomes false.
- A successful start draws the first frame itself, which requests the next animation frame.
- Stop and unmount cancel the pending animation frame only when its id is non-zero. Neither one
  resets the id.

## Model

| member | source | states |
|---|---|---|
| Palette.GetGradient | components/audio-visualizer.tsx:91-113 | The gradient runs vertically from (0,0) to (0,height). Each of the four scheme strings gives exactly three stops, at offsets 0, 0.5 and 1, with that scheme's colours. Any other string gives a gradient with no stops. |
| Palette.SchemesAreDistinctHexGradients | components/audio-visualizer.tsx:94-110 | Every stop colour is `#` followed by six hex digits, and two different schemes give different gradients. |
| Waveform.Path | components/audio-visualizer.tsx:124-140 | N samples give N+1 path commands. The first is moveTo (i = 0) and the rest are lineTo. Point i has x = i·(width/N) and y = SampleY(sample i). The last command is lineTo(width, height/2). |
| Waveform.Render | components/audio-visualizer.tsx:115-142 | With no analyser or no buffer, the renderer issues nothing. Otherwise it sets line width 2 and the scheme's gradient as stroke style, begins a path, draws the sample path and strokes once. |
| Waveform.TracePath | components/audio-visualizer.tsx:124-140 | The loop as written, with x accumulated by `x += sliceWidth` and moveTo only when i = 0, produces exactly the sample path. |
| Waveform.SampleYMonotone | components/audio-visualizer.tsx:128-129 | For a positive sensitivity and a non-negative height, y never decreases as the sample value grows. |
| Waveform.SilenceIsFlat | components/audio-visualizer.tsx:128-129 | An all-128 buffer puts every point at y = sensitivity·height/2. For a non-zero height, that is the midline if and only if the sensitivity is 1. |
| Waveform.VerticesSpanWidth | components/audio-visualizer.tsx:124-140 | The points start at x = 0 and are one slice width apart. The closing segment ends at the right edge, one slice beyond the last sample. |
| Bars.Rects | components/audio-visualizer.tsx:149-158 | There are exactly ⌈N/4⌉ rectangles. Rectangle k reads bin 4k, starts at x = k·(width/(N/4)), is width/(N/4) − 1 wide and is bin·sensitivity tall. Its bottom edge is the canvas bottom. |
| Bars.Render | components/audio-visualizer.tsx:144-159 | With no analyser or no buffer, the renderer issues nothing. Otherwise it sets the scheme's gradient as fill style, then fills the rectangles. |
| Bars.FillBars | components/audio-visualizer.tsx:149-158 | The loop as written, with `i += 4` and `x += barWidth`, produces exactly the rectangles. |
| Bars.EveryFourthBin | components/audio-visualizer.tsx:154 | Every bar reads a bin inside the buffer. Every bin whose index is a multiple of 4 is read by bar i/4. |
| Bars.ZeroBinIsFlat | components/audio-visualizer.tsx:155-156 | A zero bin gives a bar of height 0 whose top is the canvas bottom. |
| Bars.BarHeightMonotone | components/audio-visualizer.tsx:155 | Bar height is unclamped and never decreases as the bin grows or as the sensitivity grows. |
| Bars.BarsTileWidth | components/audio-visualizer.tsx:149-157 | When N is a multiple of 4, the number of bars times the bar pitch equals the canvas width. |
| Circular.Spokes | components/audio-visualizer.tsx:177-197 | There are exactly 180 spokes around the canvas centre, in angle order, starting on the circle of radius min(width,height)/4. Spoke i has length bin·sensitivity/256·radius of bin ⌊i·N/180⌋. When the buffer is empty, every length is NaN. |
| Circular.Render | components/audio-visualizer.tsx:161-198 | With no analyser or no buffer, the renderer issues nothing. Otherwise it sets the stroke style and width 2, strokes the reference circle about the centre, then draws the 180 spokes. |
| Circular.SpokeIndexInRange | components/audio-visualizer.tsx:181 | For N > 0, ⌊i·N/180⌋ < N for every spoke i < 180. |
| Circular.SpokeIndexMonotone | components/audio-visualizer.tsx:181 | Spoke 0 reads bin 0, and the bin read never decreases around the circle. |
| Circular.SpokeIndexStrictlyIncreasing | components/audio-visualizer.tsx:181 | With at least 180 bins, different spokes read different bins. |
| Circular.SpokeLengthBounds | components/audio-visualizer.tsx:182-184 | For a non-empty buffer, a non-negative sensitivity and a non-negative canvas, every spoke length is finite, at least 0 and at most sensitivity·255/256·radius. |
| Circular.LoudestSpoke | components/audio-visualizer.tsx:182-184 | Bin 255 at sensitivity 3 gives a spoke of exactly 765/256 radii, between 2 and 3 radii. |
| Frames.Draw | components/audio-visualizer.tsx:200-229 | Without a canvas, analyser, buffer or 2D context, the frame issues nothing and does not re-arm. Otherwise it clears the full client-size canvas once, appends the commands of the renderer the type selects, and re-arms. |
| Frames.Dispatch | components/audio-visualizer.tsx:218-225 | "waveform", "bars" and "circular" each select exactly their own renderer's commands. Any other type string selects no commands. |
| Frames.RearmedIffDrawn | components/audio-visualizer.tsx:200-229 | A frame re-arms if and only if it issues any command. The clear is the only clear in the frame. |
| Frames.NoRendererClears | components/audio-visualizer.tsx:115-198 | None of the three renderers issues a clear. |
| Frames.ReadyFrameDispatch | components/audio-visualizer.tsx:218-225 | In a ready frame, waveform adds N+5 commands after the clear, bars adds ⌈N/4⌉+1 and circular adds 185. An unknown type adds nothing, so the frame is the clear alone. |
| Session.Start | components/audio-visualizer.tsx:39-68 | On failure, only the permission flag changes, to false, and no host call is made. On success, permission and listening become true. An existing context is reused, and a context is created only when there is none. An analyser with the 2048-sample window, whose id the host supplies, and a new source on the stream are created and connected. The buffer has frequencyBinCount = 1024 entries. Start then draws the first frame: when the canvas has a 2D context and the visualization kind is known, that frame copies the analyser's snapshot into the buffer (entries past the snapshot stay 0); otherwise the buffer stays all zero. The frame id is stored whenever the canvas has a 2D context. The host calls are exactly one context creation when there was no context, followed by the source connection as the last call, so there are 2 calls or 1. |
| Session.Stop | components/audio-visualizer.tsx:70-81 | Stop disconnects and nulls the source if there is one, cancels the frame if its id is non-zero, and clears listening. Those are its only host calls, one of each at most, with the disconnect first, so stop never closes the context. It keeps the context, analyser, buffer, permission and frame id. |
| Session.Toggle | components/audio-visualizer.tsx:83-89 | Toggling while listening is exactly stop, and toggling otherwise is exactly start. Listening and permission then follow the microphone outcome, and the context is never replaced. |
| Session.Tick | components/audio-visualizer.tsx:114-228 | When the frame's guard passes and the kind is one of the three renderers, the frame overwrites the buffer in place with the analyser's snapshot (same length, entries past the snapshot kept) and stores the new frame id. When the guard passes for an unknown kind, only the frame id changes. When the guard fails, nothing changes. |
| Session.Teardown | components/audio-visualizer.tsx:28-37 | Unmount closes the context if and only if one exists, and cancels the stored frame if and only if its id is non-zero. It makes no other call, at most one of each, with the close first. |
| Session.StopIdempotent | components/audio-visualizer.tsx:70-81 | A second stop changes nothing and can only re-cancel the same frame id. |
| Session.StopCancelsFirstFrame | components/audio-visualizer.tsx:62 | When the canvas has a 2D context, the frame a successful start requests is the one the next stop cancels. |
| Session.StepPreservesWf | components/audio-visualizer.tsx:39-89 | Each button press and each frame keeps the references consistent: analyser and buffer exist together, the buffer length is the analyser's bin count, the analyser belongs to the context, the source feeds the analyser, and a listening session has a source and permission. |
| Session.RunPreservesWf | components/audio-visualizer.tsx:39-89 | Every sequence of presses and frames from a consistent state ends in a consistent state. |
| Session.AtMostOneContext | components/audio-visualizer.tsx:44-47 | Over any sequence of start/stop presses and frames, at most one audio context is created, and an existing context stays the session's context. |
| Session.ListeningSessionDraws | components/audio-visualizer.tsx:57-62 | In a consistent listening session, a frame on a canvas with a 2D context draws and re-arms. The buffer holds 1024 entries, so every circular spoke has a finite length. |
| Session.StopLeavesFrameReady | components/audio-visualizer.tsx:70-81 | After stop, the frame guard would still pass, because the analyser and buffer stay. Of the frame loop, stop only cancels the stored frame id. |
| Session.FrameRefreshesBuffer | components/audio-visualizer.tsx:145-147 | For a listening session whose canvas is ready and whose kind is known, a frame given a snapshot at least as long as the buffer leaves the buffer equal to the snapshot's first 1024 entries, and the session stays well formed. |
| Session.TeardownClosesTheContext | components/audio-visualizer.tsx:28-47 | For any session reached from mount, at most one context was ever created. Every context created is the session's context at the end, and unmount closes it. |
| Audio.ZeroBuffer | components/audio-visualizer.tsx:58-59 | The freshly allocated sample buffer has the requested length and every entry is 0. |
| Audio.Refresh | components/audio-visualizer.tsx:118 | Reading a snapshot into the buffer keeps the buffer's length; entry i becomes the snapshot's entry i where the snapshot has one, and keeps its old value past the snapshot's end. |

## Left out

- Microphone acquisition (`getUserMedia`), the `alert` and `console.error` are host I/O. Start takes the request's outcome as an input (`Session.Microphone`).
- Session.Start: a press is one atomic step. In the component, start awaits the microphone request before it sets the listening flag. A second press in that window also starts, and two frame loops then run, of which stop cancels only the one stored last. Overlapping starts are not modelled.
- A start that fails after the microphone was granted (for example when creating the audio context throws) is not modelled. Only a rejected microphone request is modelled as the failure path.
- The analyser's FFT and the values `getByteTimeDomainData` / `getByteFrequencyData` produce are Web Audio internals. The snapshot a frame reads is the `samples` field of `Session.View`, supplied by the host; the session copies it into its buffer with `Audio.Refresh`, and each renderer draws the refreshed buffer.
- `frequencyBinCount = fftSize / 2` is taken from section 1.8 of the W3C Web Audio API, not derived.
- `Math.cos`, `Math.sin` and the canvas calls that draw one spoke are abstracted into a single `Spoke` command. It carries the angle index, the inner radius and the length instead of end points.
- `requestAnimationFrame` scheduling and the self-re-arming loop are event-loop behaviour. A frame reports whether it re-arms, and `Session.Tick` records the new frame id. Frame ids and the new analyser's id are inputs supplied by the host.
- React state and closure semantics are framework behaviour and are not modelled. This includes which visualizer type a running loop observes and the asynchronous `setState`. State updates take effect immediately.
- Floating-point rounding is not modelled: arithmetic is exact over `real`. The Infinity the component computes for the slice and bar widths of an empty buffer is never used, so the model does not compute it.
- The sensitivity slider's range 0.5–3 belongs to the UI. The renderers accept any sensitivity, and properties that need a sign say so.
- The JSX markup, the play buttons, the page and the build configuration are pure UI and configuration.
