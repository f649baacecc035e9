/** The Web Audio objects the visualizer holds on to, reduced to the facts it relies on. */
module Audio {

  /** One entry of a `Uint8Array` sample buffer. */
  type Byte = b: int | 0 <= b <= 255

  /** The analysis window the component configures on every analyser it creates. */
  const FftSize: nat := 2048

  /** An `AudioContext`, identified by an opaque handle. */
  datatype AudioContext = AudioContext(id: nat)

  /** A microphone `MediaStream`, identified by an opaque handle. */
  datatype MediaStream = MediaStream(id: nat)

  /** An `AnalyserNode`, identified by an opaque handle, created by `context` with the given
      analysis window. */
  datatype Analyser = Analyser(id: nat, context: AudioContext, fftSize: nat) {

    /** Section 1.8 of the W3C Web Audio API: the number of frequency bins is half the
        analysis window. */
    function FrequencyBinCount(): nat
    {
      fftSize / 2
    }
  }

  /** A `MediaStreamAudioSourceNode` for `stream`, created by `context` and connected to
      `analyser`. */
  datatype SourceNode = SourceNode(context: AudioContext, stream: MediaStream, analyser: Analyser)

  /** `getByteTimeDomainData` or `getByteFrequencyData` into `buf` (section 1.8 of the W3C Web
      Audio API): the analyser's current snapshot overwrites the buffer in place. Entries past
      the end of the snapshot keep their values, and snapshot entries past the end of the buffer
      are dropped. */
  function Refresh(buf: seq<Byte>, snapshot: seq<Byte>): (r: seq<Byte>)
    ensures |r| == |buf|
    ensures forall i :: 0 <= i < |r| ==> r[i] == (if i < |snapshot| then snapshot[i] else buf[i])
  {
    if |snapshot| >= |buf| then snapshot[..|buf|] else snapshot + buf[|snapshot|..]
  }

  /** A freshly allocated `Uint8Array` of length n: every entry is zero. */
  function ZeroBuffer(n: nat): (buf: seq<Byte>)
    ensures |buf| == n
    ensures forall i :: 0 <= i < n ==> buf[i] == 0
  {
    seq(n, _ => 0)
  }
}
