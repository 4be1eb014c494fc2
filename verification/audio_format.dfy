/** The PCM format contract shared by every media leg. */
module AudioFormats {
  import opened Wrappers
  import opened Arithmetic

  datatype PcmFormat = S16LE | S24LE | S24LE_IN_S32 | S32LE
  {
    /** Width of one stored sample, in bytes. */
    function ContainerBytes(): (n: nat)
    {
      match this
      case S16LE => 2
      case S24LE => 3
      case S24LE_IN_S32 => 4
      case S32LE => 4
    }
  }

  const SUPPORTED_SAMPLE_RATES: set<int> := {8000, 12000, 16000, 24000, 32000, 44100, 48000}
  const SUPPORTED_CHANNELS: set<int> := {1, 2}
  const SUPPORTED_FRAME_MS: set<int> := {10, 16, 20, 32}

  datatype FormatError = UnsupportedRate | UnsupportedChannels | UnsupportedFrameMs | BrokenFrame

  datatype AudioFormat = AudioFormat(sampleRate: int, pcm: PcmFormat, channels: int, frameMs: int)
  {
    /** What the constructor checks: only such formats exist at run time. */
    predicate Valid()
    {
      && sampleRate in SUPPORTED_SAMPLE_RATES
      && channels in SUPPORTED_CHANNELS
      && frameMs in SUPPORTED_FRAME_MS
      && (sampleRate * frameMs) % 1000 == 0
    }

    function NominalFrameSamples(): int
    {
      (sampleRate * frameMs) / 1000
    }

    function NominalFrameBytes(): int
    {
      NominalFrameSamples() * channels * pcm.ContainerBytes()
    }
  }

  /** The validating constructor, with its errors in the order it raises them. */
  function MakeFormat(sampleRate: int, pcm: PcmFormat, channels: int, frameMs: int)
    : (r: Result<AudioFormat, FormatError>)
    ensures r.Ok? <==> AudioFormat(sampleRate, pcm, channels, frameMs).Valid()
    ensures r.Ok? <==>
      && sampleRate in {8000, 12000, 16000, 24000, 32000, 44100, 48000} && 1 <= channels <= 2
      && frameMs in {10, 16, 20, 32} && (sampleRate * frameMs) % 1000 == 0
    ensures r.Ok? ==> r.value == AudioFormat(sampleRate, pcm, channels, frameMs)
    ensures r.Ok? ==> r.value.Valid() && r.value.NominalFrameSamples() * 1000 == sampleRate * frameMs
  {
    if sampleRate !in SUPPORTED_SAMPLE_RATES then Err(UnsupportedRate)
    else if channels !in SUPPORTED_CHANNELS then Err(UnsupportedChannels)
    else if frameMs !in SUPPORTED_FRAME_MS then Err(UnsupportedFrameMs)
    else if (sampleRate * frameMs) % 1000 != 0 then Err(BrokenFrame)
    else Ok(AudioFormat(sampleRate, pcm, channels, frameMs))
  }

  lemma FrameSizes(f: AudioFormat)
    requires f.Valid()
    ensures 0 < f.NominalFrameSamples() && f.NominalFrameSamples() * 1000 == f.sampleRate * f.frameMs
    ensures f.NominalFrameBytes() == f.NominalFrameSamples() * (f.channels * f.pcm.ContainerBytes())
    ensures 0 < f.NominalFrameBytes()
  {
    MulMonotone(10, f.frameMs, f.sampleRate);
    var n, c, b := f.NominalFrameSamples(), f.channels, f.pcm.ContainerBytes();
    assert n * c * b == n * (c * b);
    MulMonotone(1, n, c * b);
  }

  /** Samples one source frame becomes at the destination rate. */
  function ConvertedSamples(src: AudioFormat, dst: AudioFormat): int
  {
    (src.frameMs * dst.sampleRate) / 1000
  }

  /** With both whole-frame checks passed, a source frame is an exact number of destination
      samples, and that number stands to a destination frame as the two durations do. */
  lemma ExactReframing(src: AudioFormat, dst: AudioFormat)
    requires src.Valid() && dst.Valid() && (src.frameMs * dst.sampleRate) % 1000 == 0
    ensures src.NominalFrameSamples() * dst.sampleRate == ConvertedSamples(src, dst) * src.sampleRate
    ensures ConvertedSamples(src, dst) * dst.frameMs == dst.NominalFrameSamples() * src.frameMs
  {
    FrameSizes(src);
    FrameSizes(dst);
    var n, k, f := src.NominalFrameSamples(), ConvertedSamples(src, dst), dst.NominalFrameSamples();
    var sr, dr, sm, dm := src.sampleRate, dst.sampleRate, src.frameMs, dst.frameMs;
    assert k * 1000 == sm * dr;
    calc {
      n * dr * 1000;
      (n * 1000) * dr;
      (sr * sm) * dr;
      (sm * dr) * sr;
      (k * 1000) * sr;
      k * sr * 1000;
    }
    calc {
      k * dm * 1000;
      (k * 1000) * dm;
      (sm * dr) * dm;
      (dr * dm) * sm;
      (f * 1000) * sm;
      f * sm * 1000;
    }
  }
}
