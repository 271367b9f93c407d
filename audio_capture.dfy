/** Audio capture for one feed: channel selection checked at construction,
    the running flag, the device callback's hand-off queue and one step of the
    worker that mixes the selected channels and encodes 16-bit PCM. */
module Audio {
  import opened Common

  type Int16 = x: int | -32768 <= x < 32768
  type Byte = x: int | 0 <= x < 256

  /** One frame of the device stream: one sample per device input channel. */
  type Frame = seq<real>
  /** One block handed over by the device callback: `frames` rows of samples. */
  type Block = seq<Frame>

  /** Identity of the downstream byte callback. */
  type Sink = nat

  /** The int16 full-scale factor applied before the cast. */
  const FullScale: real := 32767.0

  datatype CaptureError = ChannelOutOfRange(channel: int, deviceChannels: int) | EmptySelection

  datatype StartError = StreamOpenFailed

  /** What one pass of the worker loop does. */
  datatype WorkerStep = Exited | Idle | Emitted(sink: Sink, bytes: seq<Byte>, raised: bool)

  // ---------------------------------------------------------------------------
  // Channel selection

  predicate ChannelOk(ch: int, deviceChannels: int) {
    !(ch < 0 || ch >= deviceChannels)
  }

  predicate AllChannelsOk(channels: seq<int>, deviceChannels: int) {
    forall i | 0 <= i < |channels| :: ChannelOk(channels[i], deviceChannels)
  }

  /** A selection from which every frame of a `deviceChannels`-wide block can be mixed. */
  predicate Mixable(channels: seq<int>, deviceChannels: int) {
    |channels| > 0 && AllChannelsOk(channels, deviceChannels)
  }

  predicate WellShaped(block: Block, width: int) {
    forall i | 0 <= i < |block| :: |block[i]| == width
  }

  /** `ch` is the first entry of the selection that lies outside the device. */
  predicate IsFirstInvalid(ch: int, channels: seq<int>, deviceChannels: int) {
    exists i :: 0 <= i < |channels| && channels[i] == ch && !ChannelOk(ch, deviceChannels)
                && AllChannelsOk(channels[..i], deviceChannels)
  }

  /** The channel check of `AudioCapture.__init__` as written: the first channel out of range, if any. */
  method FirstInvalidChannel(channels: seq<int>, deviceChannels: int) returns (bad: Option<int>)
    ensures bad == None <==> AllChannelsOk(channels, deviceChannels)
    ensures bad.Some? ==> IsFirstInvalid(bad.value, channels, deviceChannels)
  {
    var i := 0;
    while i < |channels|
      invariant 0 <= i <= |channels|
      invariant AllChannelsOk(channels[..i], deviceChannels)
    {
      if !ChannelOk(channels[i], deviceChannels) {
        return Some(channels[i]);
      }
      i := i + 1;
    }
    assert channels[..i] == channels;
    return None;
  }

  /** The check as written lets the empty selection through, yet no sample can be mixed from it. */
  lemma EmptySelectionPassesCheck(deviceChannels: int)
    ensures AllChannelsOk([], deviceChannels)
    ensures !Mixable([], deviceChannels)
  {
  }

  /** The channel check with the empty selection rejected as well. */
  method ValidateSelection(channels: seq<int>, deviceChannels: int) returns (outcome: Outcome<CaptureError>)
    ensures outcome == Pass <==> Mixable(channels, deviceChannels)
    ensures channels == [] ==> outcome == Fail(EmptySelection)
    ensures channels != [] && outcome.Fail? ==>
              outcome.error.ChannelOutOfRange? && outcome.error.deviceChannels == deviceChannels
              && IsFirstInvalid(outcome.error.channel, channels, deviceChannels)
  {
    if channels == [] {
      return Fail(EmptySelection);
    }
    var bad := FirstInvalidChannel(channels, deviceChannels);
    if bad.Some? {
      return Fail(ChannelOutOfRange(bad.value, deviceChannels));
    }
    return Pass;
  }

  // ---------------------------------------------------------------------------
  // Mixing

  function SelectedSum(frame: Frame, channels: seq<int>): real
    requires AllChannelsOk(channels, |frame|)
  {
    if channels == [] then 0.0 else frame[channels[0]] + SelectedSum(frame, channels[1..])
  }

  /** The equally weighted mean of the selected channels of one frame. */
  function ChannelMean(frame: Frame, channels: seq<int>): real
    requires Mixable(channels, |frame|)
  {
    SelectedSum(frame, channels) / (|channels| as real)
  }

  /** One output sample: a copy of the single selected column, else the mean over the selected columns. */
  function MixFrame(frame: Frame, channels: seq<int>): (r: real)
    requires Mixable(channels, |frame|)
    ensures r == ChannelMean(frame, channels)
    ensures |channels| == 1 ==> r == frame[channels[0]]
  {
    if |channels| == 1 then
      assert SelectedSum(frame, channels[1..]) == 0.0;
      frame[channels[0]]
    else ChannelMean(frame, channels)
  }

  predicate CanMix(block: Block, channels: seq<int>) {
    forall i | 0 <= i < |block| :: Mixable(channels, |block[i]|)
  }

  /** The channel extraction of `_process_audio`: one mono sample per frame. */
  function ExtractMono(block: Block, channels: seq<int>): (r: seq<real>)
    requires CanMix(block, channels)
    ensures |r| == |block|
    ensures forall i | 0 <= i < |block| :: r[i] == ChannelMean(block[i], channels)
    ensures |channels| == 1 ==>
              forall i | 0 <= i < |block| :: ChannelOk(channels[0], |block[i]|) && r[i] == block[i][channels[0]]
  {
    seq(|block|, i requires 0 <= i < |block| && Mixable(channels, |block[i]|) => MixFrame(block[i], channels))
  }

  /** Channels [0, 1] holding 1.0 and 0.0 in one frame mix to 0.5. */
  lemma TwoChannelMeanExample()
    ensures MixFrame([1.0, 0.0], [0, 1]) == 0.5
  {
    assert SelectedSum([1.0, 0.0], [0, 1]) == 1.0 + SelectedSum([1.0, 0.0], [1]);
  }

  // ---------------------------------------------------------------------------
  // Conversion to int16 and to bytes

  /** Truncation toward zero, as a float-to-integer cast does. */
  function TruncateTowardZero(x: real): (n: int)
    ensures 0.0 <= x ==> n as real <= x < n as real + 1.0
    ensures x < 0.0 ==> n as real - 1.0 < x <= n as real
  {
    if x >= 0.0 then x.Floor else -((-x).Floor)
  }

  /** Two's-complement wrap-around into 16 bits. */
  function WrapInt16(n: int): (r: Int16)
    ensures (r - n) % 65536 == 0
    ensures -32768 <= n < 32768 ==> r == n
  {
    (n + 32768) % 65536 - 32768
  }

  /** `(sample * 32767).astype(np.int16)` for one sample: the scaled sample truncated toward
      zero, taken modulo 2^16 into the int16 range. */
  function SampleToInt16(x: real): (r: Int16)
    ensures (r - TruncateTowardZero(x * FullScale)) % 65536 == 0
  {
    WrapInt16(TruncateTowardZero(x * FullScale))
  }

  /** A sample in [-1.0, 1.0] needs no wrap-around and lands in [-32767, 32767]. */
  lemma InRangeSampleDoesNotWrap(x: real)
    requires -1.0 <= x <= 1.0
    ensures SampleToInt16(x) == TruncateTowardZero(x * FullScale)
    ensures -32767 <= SampleToInt16(x) <= 32767
  {
    var n := TruncateTowardZero(x * FullScale);
    assert -32767.0 <= x * FullScale <= 32767.0;
    assert -32767 <= n <= 32767;
  }

  /** The two bytes of one sample, least significant first. */
  function SampleBytes(v: Int16): (b: seq<Byte>)
    ensures |b| == 2
  {
    var u := if v < 0 then v + 65536 else v;
    [u % 256, u / 256]
  }

  function SampleOfBytes(lo: Byte, hi: Byte): Int16 {
    var u := lo + 256 * hi;
    if u >= 32768 then u - 65536 else u
  }

  /** `tobytes()` of an int16 array on a little-endian host. */
  function EncodeSamples(samples: seq<Int16>): (r: seq<Byte>)
    ensures |r| == 2 * |samples|
  {
    if samples == [] then [] else SampleBytes(samples[0]) + EncodeSamples(samples[1..])
  }

  /** How the consumer reads 16-bit little-endian PCM back. */
  function DecodeSamples(bytes: seq<Byte>): (r: seq<Int16>)
    requires |bytes| % 2 == 0
    ensures |r| == |bytes| / 2
  {
    if bytes == [] then [] else [SampleOfBytes(bytes[0], bytes[1])] + DecodeSamples(bytes[2..])
  }

  lemma {:induction false} DecodeEncode(samples: seq<Int16>)
    ensures DecodeSamples(EncodeSamples(samples)) == samples
  {
    if samples != [] {
      var b := EncodeSamples(samples);
      assert b[..2] == SampleBytes(samples[0]);
      assert b[2..] == EncodeSamples(samples[1..]);
      DecodeEncode(samples[1..]);
    }
  }

  /** The extract-and-encode step of `_process_audio`: two bytes per frame, each pair the
      int16 conversion of that frame's channel mean. */
  function ProcessBlock(block: Block, channels: seq<int>): (bytes: seq<Byte>)
    requires CanMix(block, channels)
    ensures |bytes| == 2 * |block|
    ensures var s := DecodeSamples(bytes);
            |s| == |block| && forall i | 0 <= i < |block| :: s[i] == SampleToInt16(ChannelMean(block[i], channels))
  {
    var mono := ExtractMono(block, channels);
    var samples := seq(|mono|, i requires 0 <= i < |mono| => SampleToInt16(mono[i]));
    DecodeEncode(samples);
    EncodeSamples(samples)
  }

  // ---------------------------------------------------------------------------
  // The capture object

  class AudioCapture {
    const deviceId: int
    const channels: seq<int>
    const sampleRate: int
    const chunkSize: int
    /** `max_input_channels` of the device, as reported when the object was built. */
    const deviceChannels: int
    /** `_stream is not None` */
    var streamOpen: bool
    var callback: Option<Sink>
    var running: bool
    /** The blocks waiting in `_audio_queue`, oldest first. */
    var queue: seq<Block>
    /** `_process_thread is not None` */
    var hasWorker: bool

    ghost predicate Valid()
      reads this
    {
      && Mixable(channels, deviceChannels)
      && (forall i | 0 <= i < |queue| :: WellShaped(queue[i], deviceChannels))
      && (running ==> callback.Some? && hasWorker)
      && (!running ==> !streamOpen && !hasWorker)
    }

    constructor Init(deviceId: int, channels: seq<int>, sampleRate: int, chunkSize: int, deviceChannels: int)
      requires Mixable(channels, deviceChannels)
      ensures Valid()
      ensures this.deviceId == deviceId && this.channels == channels && this.sampleRate == sampleRate
      ensures this.chunkSize == chunkSize && this.deviceChannels == deviceChannels
      ensures !running && !streamOpen && !hasWorker && callback == None && queue == []
    {
      this.deviceId := deviceId;
      this.channels := channels;
      this.sampleRate := sampleRate;
      this.chunkSize := chunkSize;
      this.deviceChannels := deviceChannels;
      streamOpen := false;
      callback := None;
      running := false;
      queue := [];
      hasWorker := false;
    }

    /** `AudioCapture(...)`: fails on a selection that cannot be mixed, naming the first bad channel. */
    static method Create(deviceId: int, channels: seq<int>, sampleRate: int, chunkSize: int, deviceChannels: int)
      returns (r: Result<AudioCapture, CaptureError>)
      ensures r.Err? <==> !Mixable(channels, deviceChannels)
      ensures channels == [] ==> r == Err(EmptySelection)
      ensures r.Err? && channels != [] ==>
                r.error.ChannelOutOfRange? && IsFirstInvalid(r.error.channel, channels, deviceChannels)
      ensures r.Ok? ==> fresh(r.value) && r.value.Valid()
                        && r.value.deviceId == deviceId && r.value.channels == channels
                        && r.value.sampleRate == sampleRate && r.value.chunkSize == chunkSize
                        && r.value.deviceChannels == deviceChannels
                        && !r.value.running && !r.value.streamOpen && !r.value.hasWorker
                        && r.value.callback == None && r.value.queue == []
    {
      var outcome := ValidateSelection(channels, deviceChannels);
      if outcome.Fail? {
        return Err(outcome.error);
      }
      var capture := new AudioCapture.Init(deviceId, channels, sampleRate, chunkSize, deviceChannels);
      return Ok(capture);
    }

    /** `start`: a no-op while running; otherwise stores the callback, sets the flag, starts the
        worker and opens the stream, which may fail (`streamOpens` is the device's answer). */
    method Start(cb: Sink, streamOpens: bool) returns (outcome: Outcome<StartError>)
      requires Valid()
      modifies this`callback, this`running, this`hasWorker, this`streamOpen
      ensures Valid()
      ensures old(running) ==>
                outcome == Pass && running && callback == old(callback)
                && hasWorker == old(hasWorker) && streamOpen == old(streamOpen)
      ensures !old(running) ==>
                running && callback == Some(cb) && hasWorker && streamOpen == streamOpens
                && outcome == (if streamOpens then Pass else Fail(StreamOpenFailed))
    {
      if running {
        return Pass;
      }
      callback := Some(cb);
      running := true;
      hasWorker := true;
      if streamOpens {
        streamOpen := true;
        outcome := Pass;
      } else {
        outcome := Fail(StreamOpenFailed);
      }
    }

    /** `stop`: clears the flag, closes the stream and lets go of the worker; harmless when repeated. */
    method Stop()
      requires Valid()
      modifies this`running, this`streamOpen, this`hasWorker
      ensures Valid()
      ensures !running && !streamOpen && !hasWorker
    {
      running := false;
      if streamOpen {
        streamOpen := false;
      }
      if hasWorker {
        hasWorker := false;
      }
    }

    /** `_audio_callback`: queues the block while running, drops it otherwise. */
    method OnAudioBlock(block: Block)
      requires Valid() && WellShaped(block, deviceChannels)
      modifies this`queue
      ensures Valid()
      ensures queue == if running then old(queue) + [block] else old(queue)
    {
      if running {
        queue := queue + [block];
      }
    }

    /** One pass of the `_process_audio` loop: exit once stopped, idle on an empty queue, else take
        the oldest block and hand its PCM bytes to the callback; `sinkRaises` says whether the
        callback throws, which the loop catches and survives. */
    method WorkerStep(sinkRaises: bool) returns (step: WorkerStep)
      requires Valid()
      modifies this`queue
      ensures Valid()
      ensures !running ==> step == Exited && queue == old(queue)
      ensures running && old(queue) == [] ==> step == Idle && queue == []
      ensures running && old(queue) != [] ==>
                && queue == old(queue)[1..]
                && step == Emitted(callback.value, ProcessBlock(old(queue)[0], channels), sinkRaises)
    {
      if !running {
        return Exited;
      }
      if queue == [] {
        return Idle;
      }
      var block := queue[0];
      queue := queue[1..];
      var bytes := ProcessBlock(block, channels);
      step := Emitted(callback.value, bytes, sinkRaises);
    }
  }

  /** A channel index equal to the device's channel count is refused and nothing is built. */
  method ChannelEqualToCountScenario() {
    assert !ChannelOk([2][0], 2);
    var r := AudioCapture.Create(0, [2], 16000, 4096, 2);
    assert r.Err?;
  }

  /** Blocks reach the worker only while running, oldest first. */
  method LifecycleScenario(b1: Block, b2: Block)
    requires WellShaped(b1, 2) && WellShaped(b2, 2)
  {
    var r := AudioCapture.Create(0, [1], 16000, 4096, 2);
    assert r.Ok?;
    var capture := r.value;
    capture.OnAudioBlock(b1);
    assert capture.queue == [];
    var outcome := capture.Start(5, true);
    assert outcome == Pass && capture.running;
    outcome := capture.Start(6, true);
    assert capture.callback == Some(5);
    capture.OnAudioBlock(b1);
    capture.OnAudioBlock(b2);
    var step := capture.WorkerStep(true);
    assert step.Emitted? && step.sink == 5 && |step.bytes| == 2 * |b1| && capture.queue == [b2];
    capture.Stop();
    capture.Stop();
    step := capture.WorkerStep(false);
    assert step == Exited && !capture.running;
  }
}
