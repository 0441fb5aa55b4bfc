/** `audio/recorder.rs`: the WAV format derived from the capture configuration, the sample
    quantiser (fixed gain, scale to `i16`, saturate, truncate), and writing a buffer of samples
    into the shared WAV writer. Samples are exact reals; `f32` rounding is not modelled. */
module Recorder {

  import opened Wrappers

  /** `cpal::SupportedStreamConfig`, as far as the WAV format needs it. */
  datatype StreamConfig = StreamConfig(channels: nat, sampleRate: nat)

  datatype SampleFormat = Int | Float

  /** `hound::WavSpec`. */
  datatype WavSpec = WavSpec(channels: nat, sampleRate: nat, bitsPerSample: nat, sampleFormat: SampleFormat)

  /** The WAV file has the capture's channel count and sample rate. */
  predicate MatchesConfig(spec: WavSpec, config: StreamConfig) {
    spec.channels == config.channels && spec.sampleRate == config.sampleRate
  }

  /** 16-bit integer PCM. */
  predicate IsPcm16(spec: WavSpec) {
    spec.bitsPerSample == 16 && spec.sampleFormat == Int
  }

  /** `wav_spec_from_config`: the capture's channels and rate, always 16-bit integer samples. */
  function WavSpecFromConfig(config: StreamConfig): (spec: WavSpec)
    ensures MatchesConfig(spec, config) && IsPcm16(spec)
  {
    WavSpec(config.channels, config.sampleRate, 16, Int)
  }

  const Gain: real := 10.0
  const I16Max: int := 32767
  const I16Min: int := -32768

  /** `f32::clamp`. */
  function Clamp(v: real, lo: real, hi: real): (r: real)
    requires lo <= hi
    ensures lo <= r <= hi
    ensures lo <= v <= hi ==> r == v
    ensures v < lo ==> r == lo
    ensures hi < v ==> r == hi
  {
    if v < lo then lo else if hi < v then hi else v
  }

  /** The `as i16` cast of an in-range value: the integer part, rounding toward zero. */
  function TruncateTowardZero(v: real): (i: int)
    ensures v >= 0.0 ==> i as real <= v < i as real + 1.0
    ensures v < 0.0 ==> i as real - 1.0 < v <= i as real
  {
    if v >= 0.0 then v.Floor else -((-v).Floor)
  }

  /** One sample as `write_input_data` converts it: `(sample * 10 * i16::MAX)` clamped to the
      `i16` range, then truncated toward zero. */
  function Quantize(sample: real): (q: int)
    ensures I16Min <= q <= I16Max
  {
    TruncateTowardZero(Clamp(sample * Gain * I16Max as real, I16Min as real, I16Max as real))
  }

  function QuantizeAll(input: seq<real>): (out: seq<int>)
    ensures |out| == |input|
    ensures forall k :: 0 <= k < |input| ==> out[k] == Quantize(input[k])
  {
    seq(|input|, k requires 0 <= k < |input| => Quantize(input[k]))
  }

  /** Any sample of at least 0.1 (so full scale 1.0) saturates at `i16::MAX`. */
  lemma QuantizeSaturatesHigh(sample: real)
    requires sample >= 0.1
    ensures Quantize(sample) == I16Max
  {
    assert sample * Gain * I16Max as real >= 1.0 * I16Max as real;
  }

  /** Any sample of at most -32768/327670 (so full scale -1.0) saturates at `i16::MIN`. */
  lemma QuantizeSaturatesLow(sample: real)
    requires sample <= -32768.0 / 327670.0
    ensures Quantize(sample) == I16Min
  {
    assert sample * Gain * I16Max as real <= I16Min as real;
  }

  lemma QuantizeFullScale()
    ensures Quantize(1.0) == I16Max
    ensures Quantize(-1.0) == I16Min
  {
    QuantizeSaturatesHigh(1.0);
    QuantizeSaturatesLow(-1.0);
  }

  lemma QuantizeZero()
    ensures Quantize(0.0) == 0
  {
  }

  /** Below saturation the quantiser is the scaled sample to within one unit, rounded toward zero. */
  lemma QuantizeAccurate(sample: real)
    requires I16Min as real <= sample * Gain * I16Max as real <= I16Max as real
    ensures var scaled := sample * Gain * I16Max as real;
      if scaled >= 0.0 then 0.0 <= scaled - Quantize(sample) as real < 1.0
      else 0.0 <= Quantize(sample) as real - scaled < 1.0
  {
  }

  lemma {:induction false} TruncateMonotone(a: real, b: real)
    requires a <= b
    ensures TruncateTowardZero(a) <= TruncateTowardZero(b)
  {
    if a >= 0.0 {
      assert a.Floor <= b.Floor;
    } else if b < 0.0 {
      assert (-b).Floor <= (-a).Floor;
    }
  }

  /** The quantiser never reverses the order of two samples. */
  lemma QuantizeMonotone(a: real, b: real)
    requires a <= b
    ensures Quantize(a) <= Quantize(b)
  {
    var sa := a * Gain * I16Max as real;
    var sb := b * Gain * I16Max as real;
    assert sa <= sb;
    TruncateMonotone(Clamp(sa, I16Min as real, I16Max as real), Clamp(sb, I16Min as real, I16Max as real));
  }

  /** `hound::WavWriter` over the temporary file. `refused` is the oracle for I/O failures: the
      numbers (counting every `write_sample` call made on this writer, from 0) of the calls the
      file refuses. */
  class WavWriter {
    const spec: WavSpec
    const path: string
    const refused: set<nat>
    var samples: seq<int>
    var attempts: nat
    var finalized: bool

    constructor (path: string, spec: WavSpec, refused: set<nat>)
      ensures this.path == path && this.spec == spec && this.refused == refused
      ensures samples == [] && attempts == 0 && !finalized
    {
      this.path := path;
      this.spec := spec;
      this.refused := refused;
      samples := [];
      attempts := 0;
      finalized := false;
    }

    /** `write_sample`: appends the sample unless the file refuses this call. */
    method WriteSample(sample: int) returns (ok: bool)
      modifies this
      ensures ok <==> old(attempts) !in refused
      ensures attempts == old(attempts) + 1
      ensures samples == if ok then old(samples) + [sample] else old(samples)
      ensures finalized == old(finalized)
    {
      ok := attempts !in refused;
      if ok {
        samples := samples + [sample];
      }
      attempts := attempts + 1;
    }

    /** `finalize`: writes the header lengths; the samples are kept. */
    method Finalize()
      modifies this
      ensures finalized && samples == old(samples) && attempts == old(attempts)
    {
      finalized := true;
    }
  }

  /** The shared `Arc<Mutex<Option<(WavWriter, String)>>>`: the writer and its path until the
      recording worker takes them out. */
  class WriterSlot {
    var entry: Option<(WavWriter, string)>

    constructor (writer: WavWriter, path: string)
      ensures entry == Some((writer, path))
    {
      entry := Some((writer, path));
    }

    /** `Option::take`. */
    method Take() returns (taken: Option<(WavWriter, string)>)
      modifies this
      ensures taken == old(entry) && entry == None
    {
      taken := entry;
      entry := None;
    }
  }

  /** How many of `n` consecutive writes, the first being call number `start`, succeed before
      the first refused call. */
  function AcceptedRun(refused: set<nat>, start: nat, n: nat): (k: nat)
    ensures k <= n
    ensures forall j :: start <= j < start + k ==> j !in refused
    ensures k < n ==> start + k in refused
    decreases n
  {
    if n == 0 || start in refused then 0 else 1 + AcceptedRun(refused, start + 1, n - 1)
  }

  /** `write_input_data`: with no writer in the slot nothing is written; otherwise each sample is
      quantised and written in order, and the first refused write ends the call, leaving the
      samples before it written and not attempting the rest. */
  method WriteInputData(input: seq<real>, writer: WriterSlot) returns (samplesWritten: nat)
    modifies if writer.entry.Some? then {writer.entry.value.0} else {}
    ensures writer.entry.None? ==> samplesWritten == 0
    ensures writer.entry.Some? ==>
      var w := writer.entry.value.0;
      && samplesWritten == AcceptedRun(w.refused, old(w.attempts), |input|)
      && w.samples == old(w.samples) + QuantizeAll(input[..samplesWritten])
      && w.attempts == old(w.attempts) + (if samplesWritten < |input| then samplesWritten + 1 else samplesWritten)
      && w.finalized == old(w.finalized)
  {
    samplesWritten := 0;
    match writer.entry {
      case None =>
        // "WAV writer is not available"
      case Some((w, _)) =>
        while samplesWritten < |input|
          invariant samplesWritten <= |input|
          invariant w.attempts == old(w.attempts) + samplesWritten
          invariant forall j :: old(w.attempts) <= j < w.attempts ==> j !in w.refused
          invariant w.samples == old(w.samples) + QuantizeAll(input[..samplesWritten])
          invariant w.finalized == old(w.finalized)
        {
          var convertedSample := Quantize(input[samplesWritten]);
          var ok := w.WriteSample(convertedSample);
          if !ok {
            AcceptedRunStopsAt(w.refused, old(w.attempts), samplesWritten, |input|);
            return;
          }
          assert input[..samplesWritten + 1] == input[..samplesWritten] + [input[samplesWritten]];
          samplesWritten := samplesWritten + 1;
        }
        AcceptedRunStopsAt(w.refused, old(w.attempts), samplesWritten, |input|);
        assert input[..samplesWritten] == input;
    }
  }

  /** The run of accepted writes ends at the first refused call, or covers all `n`. */
  lemma AcceptedRunStopsAt(refused: set<nat>, start: nat, k: nat, n: nat)
    requires k <= n
    requires forall j :: start <= j < start + k ==> j !in refused
    requires k < n ==> start + k in refused
    ensures AcceptedRun(refused, start, n) == k
  {
  }
}
