/** Conversion of a stream of PCM frames to another format and frame duration. */
module PcmConversion {
  import opened Wrappers
  import opened Arithmetic
  import opened AudioFormats
  import opened PcmCodec
  import opened Resampling
  import opened Framing

  datatype ConverterError = NotExact | FrameLength

  /** The check the converter makes before it can exist. */
  predicate Exact(src: AudioFormat, dst: AudioFormat)
  {
    src.Valid() && dst.Valid() && (src.frameMs * dst.sampleRate) % 1000 == 0
  }

  // ---------- the stream a sequence of frames stands for ----------

  predicate WellSized(src: AudioFormat, fed: seq<seq<Byte>>)
  {
    forall i :: 0 <= i < |fed| ==> |fed[i]| == src.NominalFrameBytes()
  }

  lemma FrameDecodes(src: AudioFormat, data: seq<Byte>)
    requires src.Valid() && |data| == src.NominalFrameBytes()
    ensures DecodeFrame(data, src).Ok?
    ensures Columns(|data|, src) == src.NominalFrameSamples()
  {
    FrameSizes(src);
    assert src.channels * src.pcm.ContainerBytes() == src.pcm.ContainerBytes() * src.channels;
    MultipleMod(src.NominalFrameSamples(), src.pcm.ContainerBytes() * src.channels);
    WholeFrame(data, src);
  }

  /** One frame decoded and mapped to the destination's channels. */
  function Mapped(src: AudioFormat, dst: AudioFormat, data: seq<Byte>): (p: Planar)
    requires src.Valid() && dst.Valid() && |data| == src.NominalFrameBytes()
    ensures Rectangular(p, dst.channels, src.NominalFrameSamples())
  {
    FrameDecodes(src, data);
    FrameSizes(src);
    MapChannels(DecodeFrame(data, src).value, src.NominalFrameSamples(), dst.channels)
  }

  /** All frames fed so far, end to end. */
  function Heard(src: AudioFormat, dst: AudioFormat, fed: seq<seq<Byte>>): (p: Planar)
    requires src.Valid() && dst.Valid() && WellSized(src, fed)
    ensures Rectangular(p, dst.channels, Times(|fed|, FrameColumns(src)))
  {
    if fed == [] then Silent(dst.channels)
    else Join(Heard(src, dst, fed[..|fed| - 1]), Mapped(src, dst, fed[|fed| - 1]))
  }

  function FrameColumns(f: AudioFormat): (n: nat)
    requires f.Valid()
    ensures 0 < n == f.NominalFrameSamples()
  {
    FrameSizes(f);
    f.NominalFrameSamples()
  }

  predicate KernelFits(src: AudioFormat, dst: AudioFormat, kernel: seq<real>)
    requires src.Valid() && dst.Valid()
  {
    src.sampleRate != dst.sampleRate ==> |kernel| == TAPS_PER_PHASE * Up(src.sampleRate, dst.sampleRate)
  }

  /** Columns of the converted stream after so many frames. */
  function StreamWidth(src: AudioFormat, dst: AudioFormat, frames: nat): nat
    requires Exact(src, dst)
  {
    ConvertedLength(src, dst);
    Times(frames, ConvertedSamples(src, dst))
  }

  /** The same stream at the destination's rate. */
  function Converted(src: AudioFormat, dst: AudioFormat, kernel: seq<real>, fed: seq<seq<Byte>>): (p: Planar)
    requires Exact(src, dst) && WellSized(src, fed)
    ensures Rectangular(p, dst.channels, StreamWidth(src, dst, |fed|))
  {
    ConvertedLength(src, dst);
    AtRate(kernel, Heard(src, dst, fed), Up(src.sampleRate, dst.sampleRate),
           Down(src.sampleRate, dst.sampleRate), StreamWidth(src, dst, |fed|))
  }

  /** Every channel resampled. */
  function AtRate(kernel: seq<real>, heard: Planar, up: nat, down: nat, n: nat): (p: Planar)
    requires 0 < up && (up == down ==> Rectangular(heard, |heard|, n))
    ensures Rectangular(p, |heard|, n)
    ensures forall c :: 0 <= c < |heard| ==> p[c] == StreamOut(kernel, heard[c], up, down, n)
  {
    seq(|heard|, c requires 0 <= c < |heard| => StreamOut(kernel, heard[c], up, down, n))
  }

  lemma ConvertedLength(src: AudioFormat, dst: AudioFormat)
    requires Exact(src, dst)
    ensures 0 < ConvertedSamples(src, dst)
    ensures Up(src.sampleRate, dst.sampleRate) == Down(src.sampleRate, dst.sampleRate) ==>
            src.NominalFrameSamples() == ConvertedSamples(src, dst)
  {
    SameFactors(src.sampleRate, dst.sampleRate);
    FrameSizes(src);
    ExactReframing(src, dst);
    MulMonotone(10, src.frameMs, dst.sampleRate);
  }

  // ---------- what a converter emits ----------

  /** The converted stream, channels interleaved. */
  function Samples(src: AudioFormat, dst: AudioFormat, kernel: seq<real>, fed: seq<seq<Byte>>): seq<real>
    requires Exact(src, dst) && WellSized(src, fed)
  {
    Interleave(Converted(src, dst, kernel, fed), StreamWidth(src, dst, |fed|))
  }

  function EncodeAll(pcm: PcmFormat, chunks: seq<seq<real>>): (frames: seq<seq<Byte>>)
    ensures |frames| == |chunks|
    ensures forall i :: 0 <= i < |chunks| ==> frames[i] == EncodeSamples(pcm, chunks[i])
  {
    seq(|chunks|, i requires 0 <= i < |chunks| => EncodeSamples(pcm, chunks[i]))
  }

  /** Samples of all channels in one destination frame. */
  function FrameSize(f: AudioFormat): (n: nat)
    requires f.Valid()
    ensures 0 < n
  {
    FrameSizes(f);
    MulMonotone(1, f.NominalFrameSamples(), f.channels);
    f.channels * f.NominalFrameSamples()
  }

  /** Everything a converter has emitted after the frames fed. */
  function Output(src: AudioFormat, dst: AudioFormat, kernel: seq<real>, fed: seq<seq<Byte>>): (out: seq<seq<Byte>>)
    requires Exact(src, dst) && WellSized(src, fed)
  {
    if src == dst then fed else EncodeAll(dst.pcm, Chunks(Samples(src, dst, kernel, fed), FrameSize(dst)))
  }

  lemma SameRatio(n: nat, k: nat, size: nat, srcMs: nat, dstMs: nat)
    requires 0 < size && 0 < dstMs && k * dstMs == size * srcMs
    ensures (n * k) / size == (n * srcMs) / dstMs
  {
    DivCancel(dstMs, n * k, size);
    DivCancel(size, n * srcMs, dstMs);
    calc {
      dstMs * (n * k);
      n * (k * dstMs);
      n * (size * srcMs);
      size * (n * srcMs);
    }
    assert dstMs * size == size * dstMs;
  }

  /** After k frames in, exactly k * src.frameMs / dst.frameMs frames are out, and less than one
      frame of samples is pending. */
  lemma OutputCount(src: AudioFormat, dst: AudioFormat, kernel: seq<real>, fed: seq<seq<Byte>>)
    requires Exact(src, dst) && WellSized(src, fed)
    ensures |Output(src, dst, kernel, fed)| == (|fed| * src.frameMs) / dst.frameMs
  {
    FrameSizes(dst);
    var k, size, n := ConvertedSamples(src, dst), dst.NominalFrameSamples(), |fed|;
    if src == dst {
      MultipleMod(n, dst.frameMs);
    } else {
      ConvertedLength(src, dst);
      TimesIsProduct(n, k);
      InterleaveLength(Converted(src, dst, kernel, fed), StreamWidth(src, dst, n));
      ChunkCount(Samples(src, dst, kernel, fed), FrameSize(dst));
      DivCancel(dst.channels, n * k, size);
      ExactReframing(src, dst);
      SameRatio(n, k, size, src.frameMs, dst.frameMs);
    }
  }

  lemma {:induction false} EncodeFlattened(pcm: PcmFormat, chunks: seq<seq<real>>)
    ensures Flatten(EncodeAll(pcm, chunks)) == EncodeSamples(pcm, Flatten(chunks))
    decreases |chunks|
  {
    if chunks != [] {
      EncodeFlattened(pcm, chunks[1..]);
      EncodeSamplesJoin(pcm, chunks[0], Flatten(chunks[1..]));
      assert EncodeAll(pcm, chunks)[1..] == EncodeAll(pcm, chunks[1..]);
    }
  }

  /** The bytes emitted, end to end, are the encoding of the converted stream up to the pending
      samples, which are fewer than a frame. */
  lemma OutputIsTheStream(src: AudioFormat, dst: AudioFormat, kernel: seq<real>, fed: seq<seq<Byte>>)
    requires Exact(src, dst) && WellSized(src, fed) && src != dst
    ensures var stream := Samples(src, dst, kernel, fed);
      Flatten(Output(src, dst, kernel, fed)) + EncodeSamples(dst.pcm, Leftover(stream, FrameSize(dst)))
      == EncodeSamples(dst.pcm, stream)
  {
    var stream, size := Samples(src, dst, kernel, fed), FrameSize(dst);
    ChunksThenLeftover(stream, size);
    EncodeFlattened(dst.pcm, Chunks(stream, size));
    EncodeSamplesJoin(dst.pcm, Flatten(Chunks(stream, size)), Leftover(stream, size));
  }

  // ---------- the shortcut for equal formats ----------

  /** The samples of the frames, one list a frame. */
  function DecodedFrames(f: AudioFormat, fed: seq<seq<Byte>>): (d: seq<seq<real>>)
    ensures |d| == |fed| && forall i :: 0 <= i < |d| ==> d[i] == DecodeSamples(f.pcm, fed[i])
  {
    seq(|fed|, i requires 0 <= i < |fed| => DecodeSamples(f.pcm, fed[i]))
  }

  lemma FrameSamples(f: AudioFormat, data: seq<Byte>)
    requires f.Valid() && |data| == f.NominalFrameBytes()
    ensures Whole(|data|, f.pcm.ContainerBytes()) && Pieces(|data|, f.pcm.ContainerBytes()) == FrameSize(f)
  {
    MultipleMod(FrameSize(f), f.pcm.ContainerBytes());
    assert f.channels * f.NominalFrameSamples() == f.NominalFrameSamples() * f.channels;
    WholeIsDivisible(|data|, f.pcm.ContainerBytes());
  }

  lemma {:induction false} FlattenLast<T>(pieces: seq<seq<T>>, last: seq<T>)
    ensures Flatten(pieces + [last]) == Flatten(pieces) + last
  {
    FlattenAppend(pieces, [last]);
    assert Flatten([last]) == last + Flatten([]);
  }

  lemma MappedIsDecoded(f: AudioFormat, data: seq<Byte>)
    requires f.Valid() && |data| == f.NominalFrameBytes()
    ensures 0 < f.NominalFrameSamples()
    ensures Interleave(Mapped(f, f, data), f.NominalFrameSamples()) == DecodeSamples(f.pcm, data)
  {
    FrameSizes(f);
    FrameDecodes(f, data);
    WholeFrame(data, f);
    var flat := DecodeSamples(f.pcm, data);
    MapSameChannels(Rows(flat, f.channels), f.NominalFrameSamples());
    InterleaveRows(flat, f.channels);
  }

  lemma DecodedLast(f: AudioFormat, before: seq<seq<Byte>>, last: seq<Byte>)
    ensures DecodedFrames(f, before + [last]) == DecodedFrames(f, before) + [DecodeSamples(f.pcm, last)]
  {
  }

  lemma HeardStep(src: AudioFormat, dst: AudioFormat, before: seq<seq<Byte>>, last: seq<Byte>)
    requires src.Valid() && dst.Valid() && WellSized(src, before) && |last| == src.NominalFrameBytes()
    ensures Heard(src, dst, before + [last]) == Join(Heard(src, dst, before), Mapped(src, dst, last))
    ensures Times(|before + [last]|, FrameColumns(src)) == Times(|before|, FrameColumns(src)) + FrameColumns(src)
  {
    assert (before + [last])[..|before|] == before;
  }

  lemma HeardLast(f: AudioFormat, before: seq<seq<Byte>>, last: seq<Byte>, w: nat)
    requires f.Valid() && WellSized(f, before) && |last| == f.NominalFrameBytes()
    requires w == Times(|before|, FrameColumns(f))
    ensures Interleave(Heard(f, f, before + [last]), w + FrameColumns(f))
         == Interleave(Heard(f, f, before), w) + DecodeSamples(f.pcm, last)
  {
    HeardStep(f, f, before, last);
    MappedIsDecoded(f, last);
    InterleaveJoin(Heard(f, f, before), Mapped(f, f, last), w, FrameColumns(f));
  }

  lemma {:induction false} HeardIsDecoded(f: AudioFormat, fed: seq<seq<Byte>>)
    requires f.Valid() && WellSized(f, fed)
    ensures Interleave(Heard(f, f, fed), Times(|fed|, FrameColumns(f))) == Flatten(DecodedFrames(f, fed))
    decreases |fed|
  {
    if fed != [] {
      var before, last := fed[..|fed| - 1], fed[|fed| - 1];
      assert fed == before + [last];
      HeardIsDecoded(f, before);
      HeardLast(f, before, last, Times(|before|, FrameColumns(f)));
      FlattenLast(DecodedFrames(f, before), DecodeSamples(f.pcm, last));
      DecodedLast(f, before, last);
    }
  }

  lemma {:induction false} ChunksOfChunks<T>(pieces: seq<seq<T>>, size: nat)
    requires 0 < size && forall i :: 0 <= i < |pieces| ==> |pieces[i]| == size
    ensures Chunks(Flatten(pieces), size) == pieces
    decreases |pieces|
  {
    if pieces != [] {
      ChunksOfChunks(pieces[1..], size);
      var s := Flatten(pieces);
      assert s[..size] == pieces[0] && s[size..] == Flatten(pieces[1..]);
    }
  }

  /** Equal formats bypass decoding. That is the same as decoding, resampling and encoding exactly
      when every sample fed is within the format's precision: always on the packed formats. */
  lemma PassThroughIsThePipeline(f: AudioFormat, kernel: seq<real>, fed: seq<seq<Byte>>)
    requires f.Valid() && WellSized(f, fed)
    ensures Exact(f, f)
    ensures Output(f, f, kernel, fed) == EncodeAll(f.pcm, Chunks(Samples(f, f, kernel, fed), FrameSize(f)))
      <==> forall i :: 0 <= i < |fed| ==> WithinPrecision(f.pcm, fed[i])
    ensures f.pcm != S24LE_IN_S32 ==> forall i :: 0 <= i < |fed| ==> WithinPrecision(f.pcm, fed[i])
  {
    assert f.frameMs * f.sampleRate == f.sampleRate * f.frameMs;
    assert Converted(f, f, kernel, fed) == Heard(f, f, fed);
    assert StreamWidth(f, f, |fed|) == Times(|fed|, FrameColumns(f));
    forall i | 0 <= i < |fed| ensures |DecodeSamples(f.pcm, fed[i])| == FrameSize(f) {
      FrameSamples(f, fed[i]);
    }
    HeardIsDecoded(f, fed);
    ChunksOfChunks(DecodedFrames(f, fed), FrameSize(f));
    var piped := EncodeAll(f.pcm, DecodedFrames(f, fed));
    forall i | 0 <= i < |fed|
      ensures piped[i] == fed[i] <==> WithinPrecision(f.pcm, fed[i])
      ensures f.pcm != S24LE_IN_S32 ==> WithinPrecision(f.pcm, fed[i])
    {
      FrameSamples(f, fed[i]);
      EncodeDecodeSamples(f.pcm, fed[i]);
      CanonicalIff(f.pcm, fed[i]);
    }
    assert fed == piped <==> forall i :: 0 <= i < |fed| ==> piped[i] == fed[i];
  }

  // ---------- what reaches the wire, sample by sample ----------

  lemma WholeFed(src: AudioFormat, data: seq<Byte>)
    requires src.Valid() && |data| == src.NominalFrameBytes()
    ensures Whole(|data|, src.pcm.ContainerBytes())
    ensures Whole(Pieces(|data|, src.pcm.ContainerBytes()), src.channels)
    ensures Pieces(Pieces(|data|, src.pcm.ContainerBytes()), src.channels) == FrameColumns(src)
  {
    FrameDecodes(src, data);
    WholeFrame(data, src);
  }

  lemma {:induction false} FedSizes(src: AudioFormat, fed: seq<seq<Byte>>)
    requires src.Valid() && WellSized(src, fed)
    ensures Whole(|Flatten(fed)|, src.pcm.ContainerBytes())
    ensures Whole(Pieces(|Flatten(fed)|, src.pcm.ContainerBytes()), src.channels)
    ensures Pieces(Pieces(|Flatten(fed)|, src.pcm.ContainerBytes()), src.channels) == Times(|fed|, FrameColumns(src))
    decreases |fed|
  {
    if fed != [] {
      var before, last := fed[..|fed| - 1], fed[|fed| - 1];
      var b := src.pcm.ContainerBytes();
      assert fed == before + [last];
      FlattenLast(before, last);
      FedSizes(src, before);
      WholeFed(src, last);
      PiecesAdd(|Flatten(before)|, |last|, b);
      PiecesAdd(Pieces(|Flatten(before)|, b), Pieces(|last|, b), src.channels);
    }
  }

  /** The channels of all bytes fed, decoded as one stream. */
  function Received(src: AudioFormat, fed: seq<seq<Byte>>): (p: Planar)
    requires src.Valid() && WellSized(src, fed)
    ensures Rectangular(p, src.channels, Times(|fed|, FrameColumns(src)))
  {
    FedSizes(src, fed);
    Rows(DecodeSamples(src.pcm, Flatten(fed)), src.channels)
  }

  lemma ReceivedStep(src: AudioFormat, before: seq<seq<Byte>>, last: seq<Byte>)
    requires src.Valid() && WellSized(src, before) && |last| == src.NominalFrameBytes()
    ensures DecodeFrame(last, src).Ok?
    ensures Received(src, before + [last]) == Join(Received(src, before), DecodeFrame(last, src).value)
  {
    var b := src.pcm.ContainerBytes();
    FrameDecodes(src, last);
    FlattenLast(before, last);
    FedSizes(src, before);
    DecodeSamplesJoin(src.pcm, Flatten(before), last);
    RowsJoin(DecodeSamples(src.pcm, Flatten(before)), DecodeSamples(src.pcm, last), src.channels);
  }

  lemma NothingHeard(src: AudioFormat, dst: AudioFormat)
    requires src.Valid() && dst.Valid()
    ensures Heard(src, dst, []) == MapChannels(Received(src, []), 0, dst.channels)
  {
    var p := Received(src, []);
    assert forall c :: 0 <= c < |p| ==> p[c] == [];
    var q := MapChannels(p, 0, dst.channels);
    assert forall c :: 0 <= c < dst.channels ==> q[c] == [];
  }

  lemma MappedStep(src: AudioFormat, dst: AudioFormat, before: seq<seq<Byte>>, last: seq<Byte>, n: nat, m: nat)
    requires src.Valid() && dst.Valid() && WellSized(src, before) && |last| == src.NominalFrameBytes()
    requires n == Times(|before|, FrameColumns(src)) && m == FrameColumns(src)
    ensures Rectangular(Received(src, before + [last]), src.channels, n + m)
    ensures MapChannels(Received(src, before + [last]), n + m, dst.channels)
         == Join(MapChannels(Received(src, before), n, dst.channels), Mapped(src, dst, last))
  {
    ReceivedStep(src, before, last);
    FrameDecodes(src, last);
    MapJoin(Received(src, before), DecodeFrame(last, src).value, n, m, dst.channels);
  }

  /** What a converter has heard is the stream received, mapped once. */
  lemma {:induction false} HeardIsMapped(src: AudioFormat, dst: AudioFormat, fed: seq<seq<Byte>>)
    requires src.Valid() && dst.Valid() && WellSized(src, fed)
    ensures Heard(src, dst, fed) == MapChannels(Received(src, fed), Times(|fed|, FrameColumns(src)), dst.channels)
    decreases |fed|
  {
    if fed == [] {
      NothingHeard(src, dst);
    } else {
      var before, last := fed[..|fed| - 1], fed[|fed| - 1];
      assert fed == before + [last];
      HeardIsMapped(src, dst, before);
      HeardStep(src, dst, before, last);
      MappedStep(src, dst, before, last, Times(|before|, FrameColumns(src)), FrameColumns(src));
    }
  }

  /** The channels of some bytes. */
  ghost predicate Carries(pcm: PcmFormat, bytes: seq<Byte>, p: Planar, columns: nat)
  {
    && Rectangular(p, |p|, columns)
    && forall c, i :: 0 <= c < |p| && 0 <= i < columns ==> CarriesAt(pcm, bytes, p, c, i)
  }

  ghost predicate CarriesAt(pcm: PcmFormat, bytes: seq<Byte>, p: Planar, c: nat, i: nat)
    requires c < |p| && i < |p[c]|
  {
    && 0 <= i * |p| + c && Stored(pcm, bytes, i * |p| + c)
    && p[c][i] == Wire(pcm, bytes, i * |p| + c)
  }

  lemma RowsCarry(pcm: PcmFormat, bytes: seq<Byte>, channels: nat)
    requires 0 < channels
    ensures Carries(pcm, bytes, Rows(DecodeSamples(pcm, bytes), channels),
                    Pieces(Pieces(|bytes|, pcm.ContainerBytes()), channels))
  {
    var p, n := Rows(DecodeSamples(pcm, bytes), channels), Pieces(Pieces(|bytes|, pcm.ContainerBytes()), channels);
    forall c, i | 0 <= c < |p| && 0 <= i < n ensures CarriesAt(pcm, bytes, p, c, i) {
      RowSample(pcm, bytes, channels, c, i);
    }
  }

  lemma ReceivedCarries(src: AudioFormat, fed: seq<seq<Byte>>)
    requires src.Valid() && WellSized(src, fed)
    ensures Carries(src.pcm, Flatten(fed), Received(src, fed), Times(|fed|, FrameColumns(src)))
  {
    FedSizes(src, fed);
    RowsCarry(src.pcm, Flatten(fed), src.channels);
  }

  /** What the resampler is fed when stereo becomes mono: the mean of the left and the right sample. */
  lemma HeardMono(src: AudioFormat, dst: AudioFormat, fed: seq<seq<Byte>>, i: nat)
    requires src.Valid() && dst.Valid() && WellSized(src, fed) && i < Times(|fed|, FrameColumns(src))
    requires src.channels == 2 && dst.channels == 1
    ensures Stored(src.pcm, Flatten(fed), 2 * i) && Stored(src.pcm, Flatten(fed), 2 * i + 1)
    ensures Heard(src, dst, fed)[0][i]
         == (Wire(src.pcm, Flatten(fed), 2 * i) + Wire(src.pcm, Flatten(fed), 2 * i + 1)) / 2.0
  {
    HeardIsMapped(src, dst, fed);
    ReceivedCarries(src, fed);
    MeanOfCarried(src.pcm, Flatten(fed), Received(src, fed), Times(|fed|, FrameColumns(src)), i);
  }

  lemma MeanOfCarried(pcm: PcmFormat, bytes: seq<Byte>, p: Planar, columns: nat, i: nat)
    requires Carries(pcm, bytes, p, columns) && |p| == 2 && i < columns
    ensures Stored(pcm, bytes, 2 * i) && Stored(pcm, bytes, 2 * i + 1)
    ensures MapChannels(p, columns, 1)[0][i] == (Wire(pcm, bytes, 2 * i) + Wire(pcm, bytes, 2 * i + 1)) / 2.0
  {
    assert CarriesAt(pcm, bytes, p, 0, i) && CarriesAt(pcm, bytes, p, 1, i);
    TwoChannelMean(p, columns, i);
  }

  lemma KeptOfCarried(pcm: PcmFormat, bytes: seq<Byte>, p: Planar, columns: nat, out: nat, c: nat, i: nat)
    requires Carries(pcm, bytes, p, columns) && 0 < |p| <= out && c < out && i < columns
    ensures var at := i * |p| + if c < |p| then c else |p| - 1;
      && 0 <= at && Stored(pcm, bytes, at)
      && MapChannels(p, columns, out)[c][i] == Wire(pcm, bytes, at)
  {
    ChannelKept(p, columns, out, c);
    assert CarriesAt(pcm, bytes, p, if c < |p| then c else |p| - 1, i);
  }

  /** Otherwise: the same channel of the stream received, or its last where that has fewer. */
  lemma HeardKept(src: AudioFormat, dst: AudioFormat, fed: seq<seq<Byte>>, c: nat, i: nat, n: nat, at: nat)
    requires src.Valid() && dst.Valid() && WellSized(src, fed) && i < Times(|fed|, FrameColumns(src))
    requires c < dst.channels && n == src.channels <= dst.channels && at == i * n + if c < n then c else n - 1
    ensures Stored(src.pcm, Flatten(fed), at) && Heard(src, dst, fed)[c][i] == Wire(src.pcm, Flatten(fed), at)
  {
    HeardIsMapped(src, dst, fed);
    ReceivedCarries(src, fed);
    KeptOfCarried(src.pcm, Flatten(fed), Received(src, fed), Times(|fed|, FrameColumns(src)), dst.channels, c, i);
  }

  lemma StreamBytes(src: AudioFormat, dst: AudioFormat, kernel: seq<real>, fed: seq<seq<Byte>>, k: nat)
    requires Exact(src, dst) && WellSized(src, fed) && src != dst
    requires Stored(dst.pcm, Flatten(Output(src, dst, kernel, fed)), k)
    ensures k < |Samples(src, dst, kernel, fed)|
    ensures Slot(dst.pcm, Flatten(Output(src, dst, kernel, fed)), k)
         == EncodeSample(dst.pcm, Samples(src, dst, kernel, fed)[k])
  {
    var out, stream := Flatten(Output(src, dst, kernel, fed)), Samples(src, dst, kernel, fed);
    OutputIsTheStream(src, dst, kernel, fed);
    SlotOfPrefix(dst.pcm, out, EncodeSamples(dst.pcm, Leftover(stream, FrameSize(dst))), k);
    StoredIsWithin(dst.pcm, stream, k);
    EncodedAt(dst.pcm, stream, k);
  }

  lemma WithinColumns(i: nat, c: nat, n: nat, channels: nat)
    requires i * channels + c < channels * n
    ensures i < n
  {
    if n <= i {
      MulMonotone(n, i, channels);
    }
  }

  /** Sample c of column i of what was sent, if it was. */
  predicate Sent(src: AudioFormat, dst: AudioFormat, kernel: seq<real>, fed: seq<seq<Byte>>, c: nat, i: nat)
    requires Exact(src, dst) && WellSized(src, fed)
  {
    c < dst.channels && 0 <= i * dst.channels + c
    && Stored(dst.pcm, Flatten(Output(src, dst, kernel, fed)), i * dst.channels + c)
  }

  function SentAt(src: AudioFormat, dst: AudioFormat, kernel: seq<real>, fed: seq<seq<Byte>>, c: nat, i: nat): seq<Byte>
    requires Exact(src, dst) && WellSized(src, fed) && Sent(src, dst, kernel, fed, c, i)
  {
    Slot(dst.pcm, Flatten(Output(src, dst, kernel, fed)), i * dst.channels + c)
  }

  /** Every sample emitted, at any rate, is the encoding of its channel of the converted stream. */
  lemma EmittedSample(src: AudioFormat, dst: AudioFormat, kernel: seq<real>, fed: seq<seq<Byte>>, c: nat, i: nat)
    requires Exact(src, dst) && WellSized(src, fed) && src != dst && Sent(src, dst, kernel, fed, c, i)
    ensures i < StreamWidth(src, dst, |fed|)
    ensures SentAt(src, dst, kernel, fed, c, i) == EncodeSample(dst.pcm, Converted(src, dst, kernel, fed)[c][i])
  {
    var p, n := Converted(src, dst, kernel, fed), StreamWidth(src, dst, |fed|);
    StreamBytes(src, dst, kernel, fed, i * dst.channels + c);
    InterleaveLength(p, n);
    WithinColumns(i, c, n, dst.channels);
    InterleaveAt(p, n, c, i);
  }

  lemma SameRate(src: AudioFormat, dst: AudioFormat, kernel: seq<real>, fed: seq<seq<Byte>>)
    requires Exact(src, dst) && WellSized(src, fed) && src.sampleRate == dst.sampleRate
    ensures Converted(src, dst, kernel, fed) == Heard(src, dst, fed)
    ensures StreamWidth(src, dst, |fed|) == Times(|fed|, FrameColumns(src))
  {
    SameFactors(src.sampleRate, dst.sampleRate);
    ConvertedLength(src, dst);
  }

  /** From stereo to mono at one rate, on the bytes alone: sample i sent is the quantized mean of samples 2i
      and 2i + 1 received. */
  lemma StereoToMonoStream(src: AudioFormat, dst: AudioFormat, kernel: seq<real>, fed: seq<seq<Byte>>, i: nat)
    requires Exact(src, dst) && WellSized(src, fed) && src.sampleRate == dst.sampleRate
    requires src.channels == 2 && dst.channels == 1 && Stored(dst.pcm, Flatten(Output(src, dst, kernel, fed)), i)
    ensures Stored(src.pcm, Flatten(fed), 2 * i) && Stored(src.pcm, Flatten(fed), 2 * i + 1)
    ensures Slot(dst.pcm, Flatten(Output(src, dst, kernel, fed)), i)
         == EncodeSample(dst.pcm, (Wire(src.pcm, Flatten(fed), 2 * i) + Wire(src.pcm, Flatten(fed), 2 * i + 1)) / 2.0)
  {
    assert i * dst.channels + 0 == i;
    EmittedSample(src, dst, kernel, fed, 0, i);
    SameRate(src, dst, kernel, fed);
    HeardMono(src, dst, fed, i);
  }

  /** Any other pair of formats at one rate: a sample sent is the quantized sample received of its channel and
      column, or of the last channel where fewer were received. */
  lemma KeptChannelStream(src: AudioFormat, dst: AudioFormat, kernel: seq<real>, fed: seq<seq<Byte>>, c: nat, i: nat,
                          n: nat, at: nat)
    requires Exact(src, dst) && WellSized(src, fed) && src != dst && src.sampleRate == dst.sampleRate
    requires Sent(src, dst, kernel, fed, c, i)
    requires n == src.channels <= dst.channels && at == i * n + if c < n then c else n - 1
    ensures Stored(src.pcm, Flatten(fed), at)
    ensures SentAt(src, dst, kernel, fed, c, i) == EncodeSample(dst.pcm, Wire(src.pcm, Flatten(fed), at))
  {
    EmittedSample(src, dst, kernel, fed, c, i);
    SameRate(src, dst, kernel, fed);
    HeardKept(src, dst, fed, c, i, n, at);
  }

  // ---------- the stateful converter ----------

  /** One more frame fed extends the converted stream by that frame's block. */
  lemma SamplesGrow(src: AudioFormat, dst: AudioFormat, kernel: seq<real>, fed: seq<seq<Byte>>, data: seq<Byte>,
                    out: Planar, k: nat)
    requires Exact(src, dst) && WellSized(src, fed) && |data| == src.NominalFrameBytes()
    requires k == ConvertedSamples(src, dst) && Rectangular(out, dst.channels, k)
    requires Converted(src, dst, kernel, fed + [data]) == Join(Converted(src, dst, kernel, fed), out)
    ensures Samples(src, dst, kernel, fed + [data]) == Samples(src, dst, kernel, fed) + Interleave(out, k)
  {
    InterleaveJoin(Converted(src, dst, kernel, fed), out, StreamWidth(src, dst, |fed|), k);
  }

  /** What a converter still owes grows by what it is fed: emitted frames are never revised. */
  lemma OutputGrows(pcm: PcmFormat, before: seq<real>, block: seq<real>, size: nat)
    requires 0 < size
    ensures EncodeAll(pcm, Chunks(before + block, size))
         == EncodeAll(pcm, Chunks(before, size)) + EncodeAll(pcm, Chunks(Leftover(before, size) + block, size))
    ensures Leftover(before + block, size) == Leftover(Leftover(before, size) + block, size)
  {
    ChunksResume(before, block, size);
  }

  /** One frame cut off rows of samples. */
  lemma CutFrame(p: Planar, columns: nat, f: AudioFormat)
    requires f.Valid() && Rectangular(p, f.channels, columns)
    requires 0 < f.NominalFrameSamples() <= columns
    ensures var n, s := f.NominalFrameSamples(), Interleave(p, columns);
      && Chunks(s, FrameSize(f)) == [Interleave(UpTo(p, n), n)] + Chunks(Interleave(From(p, n), columns - n), FrameSize(f))
      && Leftover(s, FrameSize(f)) == Leftover(Interleave(From(p, n), columns - n), FrameSize(f))
  {
    InterleaveCut(p, columns, f.NominalFrameSamples(), FrameSize(f));
  }

  lemma NoFrameLeft(p: Planar, columns: nat, f: AudioFormat)
    requires f.Valid() && Rectangular(p, f.channels, columns) && columns < f.NominalFrameSamples()
    ensures Chunks(Interleave(p, columns), FrameSize(f)) == []
    ensures Leftover(Interleave(p, columns), FrameSize(f)) == Interleave(p, columns)
  {
    InterleaveLength(p, columns);
    MulMonotone(columns + 1, f.NominalFrameSamples(), f.channels);
    Distribute(columns, 1, f.channels);
  }

  lemma EncodeAllFirst(pcm: PcmFormat, first: seq<real>, more: seq<seq<real>>)
    ensures EncodeAll(pcm, [first] + more) == [EncodeSamples(pcm, first)] + EncodeAll(pcm, more)
  {
  }

  /** The frames a stretch of samples completes. */
  function Completed(pcm: PcmFormat, p: Planar, columns: nat, size: nat): seq<seq<Byte>>
    requires 0 < size && Rectangular(p, |p|, columns)
  {
    EncodeAll(pcm, Chunks(Interleave(p, columns), size))
  }

  /** The samples it leaves over. */
  function Remaining(p: Planar, columns: nat, size: nat): seq<real>
    requires 0 < size && Rectangular(p, |p|, columns)
  {
    Leftover(Interleave(p, columns), size)
  }

  /** One turn of the loop that takes frames off the pending samples. */
  lemma FrameTaken(f: AudioFormat, p: Planar, columns: nat, rest: Planar, left: nat, frame: seq<Byte>,
                   out: seq<seq<Byte>>, size: nat)
    requires f.Valid() && Rectangular(p, f.channels, columns) && size == FrameSize(f)
    requires 0 < f.NominalFrameSamples() <= columns
    requires rest == From(p, f.NominalFrameSamples()) && left == columns - f.NominalFrameSamples()
    requires frame == EncodeFrame(UpTo(p, f.NominalFrameSamples()), f.NominalFrameSamples(), f.pcm)
    ensures Rectangular(rest, f.channels, left)
    ensures out + Completed(f.pcm, p, columns, size) == (out + [frame]) + Completed(f.pcm, rest, left, size)
    ensures Remaining(p, columns, size) == Remaining(rest, left, size)
  {
    var n := f.NominalFrameSamples();
    CutFrame(p, columns, f);
    EncodeAllFirst(f.pcm, Interleave(UpTo(p, n), n), Chunks(Interleave(rest, left), size));
    MoveFirst(out, frame, Completed(f.pcm, rest, left, size), Completed(f.pcm, p, columns, size));
  }

  lemma MoveFirst<T>(out: seq<T>, x: T, rest: seq<T>, whole: seq<T>)
    requires whole == [x] + rest
    ensures out + whole == (out + [x]) + rest
  {
  }

  lemma OneWholeFrame(p: Planar, f: AudioFormat)
    requires f.Valid() && Rectangular(p, f.channels, f.NominalFrameSamples())
    ensures 0 < f.NominalFrameSamples()
    ensures Chunks(Interleave(p, f.NominalFrameSamples()), FrameSize(f)) == [Interleave(p, f.NominalFrameSamples())]
    ensures Leftover(Interleave(p, f.NominalFrameSamples()), FrameSize(f)) == []
  {
    FrameSizes(f);
    InterleaveLength(p, f.NominalFrameSamples());
    var s := Interleave(p, f.NominalFrameSamples());
    assert s[..FrameSize(f)] == s && s[FrameSize(f)..] == [];
  }

  lemma AtRateGrows(kernel: seq<real>, heard: Planar, longer: Planar, up: nat, down: nat, n: nat, m: nat, out: Planar)
    requires 0 < up && |heard| == |longer| == |out|
    requires up == down ==> Rectangular(heard, |heard|, n) && Rectangular(longer, |heard|, m)
    requires forall c :: 0 <= c < |heard| ==>
      StreamOut(kernel, longer[c], up, down, m) == StreamOut(kernel, heard[c], up, down, n) + out[c]
    ensures AtRate(kernel, longer, up, down, m) == Join(AtRate(kernel, heard, up, down, n), out)
  {
  }

  /** The resampler's promise for one block, in terms of the frames fed. */
  ghost predicate Continues(src: AudioFormat, dst: AudioFormat, kernel: seq<real>, fed: seq<seq<Byte>>, data: seq<Byte>,
                            out: Planar)
    requires Exact(src, dst) && WellSized(src, fed) && |data| == src.NominalFrameBytes()
  {
    && |out| == dst.channels
    && forall c :: 0 <= c < dst.channels ==>
      StreamOut(kernel, Heard(src, dst, fed + [data])[c], Up(src.sampleRate, dst.sampleRate),
                Down(src.sampleRate, dst.sampleRate), StreamWidth(src, dst, |fed| + 1))
      == StreamOut(kernel, Heard(src, dst, fed)[c], Up(src.sampleRate, dst.sampleRate),
                   Down(src.sampleRate, dst.sampleRate), StreamWidth(src, dst, |fed|)) + out[c]
  }

  lemma ConvertedGrows(src: AudioFormat, dst: AudioFormat, kernel: seq<real>, fed: seq<seq<Byte>>, data: seq<Byte>,
                       out: Planar)
    requires Exact(src, dst) && WellSized(src, fed) && |data| == src.NominalFrameBytes()
    requires Continues(src, dst, kernel, fed, data, out)
    ensures Converted(src, dst, kernel, fed + [data]) == Join(Converted(src, dst, kernel, fed), out)
  {
    ConvertedLength(src, dst);
    AtRateGrows(kernel, Heard(src, dst, fed), Heard(src, dst, fed + [data]), Up(src.sampleRate, dst.sampleRate),
                Down(src.sampleRate, dst.sampleRate), StreamWidth(src, dst, |fed|), StreamWidth(src, dst, |fed| + 1), out);
  }

  /** What feeding one frame adds to the output and leaves pending. */
  lemma FedOneMore(src: AudioFormat, dst: AudioFormat, kernel: seq<real>, fed: seq<seq<Byte>>, data: seq<Byte>,
                   out: Planar, k: nat)
    requires Exact(src, dst) && src != dst && WellSized(src, fed) && |data| == src.NominalFrameBytes()
    requires k == ConvertedSamples(src, dst) && Rectangular(out, dst.channels, k)
    requires Continues(src, dst, kernel, fed, data, out)
    ensures var left := Leftover(Samples(src, dst, kernel, fed), FrameSize(dst));
      && Output(src, dst, kernel, fed + [data])
         == Output(src, dst, kernel, fed) + EncodeAll(dst.pcm, Chunks(left + Interleave(out, k), FrameSize(dst)))
      && Leftover(Samples(src, dst, kernel, fed + [data]), FrameSize(dst))
         == Leftover(left + Interleave(out, k), FrameSize(dst))
  {
    ConvertedGrows(src, dst, kernel, fed, data, out);
    SamplesGrow(src, dst, kernel, fed, data, out, k);
    OutputGrows(dst.pcm, Samples(src, dst, kernel, fed), Interleave(out, k), FrameSize(dst));
  }

  class PcmFrameConverter {
    const src: AudioFormat
    const dst: AudioFormat
    const resampler: PolyphaseResampler
    var pending: Planar

    ghost const kernel: seq<real>
    ghost var fed: seq<seq<Byte>>
    ghost var pendingColumns: nat

    /** What the constructor fixes. */
    ghost predicate Fixed()
    {
      && Exact(src, dst)
      && resampler.kernel == kernel && resampler.channels == dst.channels
      && resampler.up == Up(src.sampleRate, dst.sampleRate) && resampler.down == Down(src.sampleRate, dst.sampleRate)
      && resampler.inSamples == src.NominalFrameSamples() && resampler.outSamples == ConvertedSamples(src, dst)
    }

    ghost predicate Valid()
      reads this, resampler
    {
      && Fixed() && WellSized(src, fed) && resampler.Valid()
      && Rectangular(pending, dst.channels, pendingColumns) && pendingColumns < dst.NominalFrameSamples()
      && (src != dst ==>
        && resampler.blocks == |fed| && resampler.heard == Heard(src, dst, fed)
        && Interleave(pending, pendingColumns) == Leftover(Samples(src, dst, kernel, fed), FrameSize(dst)))
    }

    static method Make(src: AudioFormat, dst: AudioFormat, kernel: seq<real>)
      returns (r: Result<PcmFrameConverter, ConverterError>)
      requires src.Valid() && dst.Valid() && KernelFits(src, dst, kernel)
      ensures r.Ok? <==> Exact(src, dst)
      ensures r.Ok? <==> (src.frameMs * dst.sampleRate) % 1000 == 0
      ensures r.Ok? ==> fresh(r.value) && fresh(r.value.resampler) && r.value.Valid()
      ensures r.Ok? ==> r.value.src == src && r.value.dst == dst && r.value.kernel == kernel && r.value.fed == []
      ensures r.Err? ==> r.error == NotExact
    {
      if (src.frameMs * dst.sampleRate) % 1000 != 0 {
        return Err(NotExact);
      }
      var c := new PcmFrameConverter(src, dst, kernel);
      return Ok(c);
    }

    constructor (src: AudioFormat, dst: AudioFormat, kernel: seq<real>)
      requires Exact(src, dst) && KernelFits(src, dst, kernel)
      ensures Valid() && fresh(resampler) && this.src == src && this.dst == dst && this.kernel == kernel && fed == []
    {
      FrameSizes(src);
      FrameSizes(dst);
      ExactReframing(src, dst);
      MultipleMod(ConvertedSamples(src, dst), src.sampleRate);
      ConvertedLength(src, dst);
      var made := new PolyphaseResampler(src.sampleRate, dst.sampleRate, src.NominalFrameSamples(), dst.channels, kernel);
      CancelFactor(made.outSamples, ConvertedSamples(src, dst), src.sampleRate);
      this.src, this.dst, this.kernel, resampler := src, dst, kernel, made;
      pending := Silent(dst.channels);
      fed, pendingColumns := [], 0;
      new;
      assert Converted(src, dst, kernel, []) == AtRate(kernel, Silent(dst.channels), resampler.up, resampler.down, 0);
      assert Samples(src, dst, kernel, []) == [];
      assert resampler.heard == Heard(src, dst, []);
    }

    /** Feed one frame, get the frames it completes. Whatever path is taken, everything emitted so
        far is Output of everything fed so far. */
    method Convert(data: seq<Byte>) returns (r: Result<seq<seq<Byte>>, ConverterError>)
      requires Valid()
      modifies this, resampler
      ensures Valid()
      ensures r.Ok? <==> |data| == src.NominalFrameBytes()
      ensures r.Err? ==> r.error == FrameLength && unchanged(this) && unchanged(resampler)
      ensures r.Ok? ==> fed == old(fed) + [data]
      ensures r.Ok? ==> Output(src, dst, kernel, fed) == Output(src, dst, kernel, old(fed)) + r.value
    {
      if |data| != src.NominalFrameBytes() {
        return Err(FrameLength);
      }
      if src == dst {
        fed := fed + [data];
        return Ok([data]);
      }
      var out := ConvertFrame(data);
      return Ok(out);
    }

    method ConvertFrame(data: seq<Byte>) returns (out: seq<seq<Byte>>)
      requires Valid() && src != dst && |data| == src.NominalFrameBytes()
      modifies this, resampler
      ensures Valid() && fed == old(fed) + [data]
      ensures Output(src, dst, kernel, fed) == Output(src, dst, kernel, old(fed)) + out
    {
      FrameDecodes(src, data);
      FrameSizes(src);
      var channels := MapChannels(DecodeFrame(data, src).value, src.NominalFrameSamples(), dst.channels);
      HeardStep(src, dst, fed, data);
      ghost var before := fed;
      var converted := resampler.Process(channels);
      fed := fed + [data];
      FedOneMore(src, dst, kernel, before, data, converted, ConvertedSamples(src, dst));
      out := CompleteFrames(converted, ConvertedSamples(src, dst));
    }

    /** Append converted samples to the pending ones and take off every whole frame; a frame that
        arrives whole while nothing is pending goes straight out. */
    method CompleteFrames(converted: Planar, ghost columns: nat) returns (out: seq<seq<Byte>>)
      requires dst.Valid() && Rectangular(pending, dst.channels, pendingColumns)
      requires Rectangular(converted, dst.channels, columns)
      modifies this`pending, this`pendingColumns
      ensures Rectangular(pending, dst.channels, pendingColumns) && pendingColumns < dst.NominalFrameSamples()
      ensures var owed := old(Interleave(pending, pendingColumns)) + Interleave(converted, columns);
        && out == EncodeAll(dst.pcm, Chunks(owed, FrameSize(dst)))
        && Interleave(pending, pendingColumns) == Leftover(owed, FrameSize(dst))
    {
      var frameSamples := dst.NominalFrameSamples();
      ghost var step := FrameSize(dst);
      FrameSizes(dst);
      if |pending[0]| == 0 && |converted[0]| == frameSamples {
        OneWholeFrame(converted, dst);
        assert [] + Interleave(converted, columns) == Interleave(converted, columns);
        return [EncodeFrame(converted, frameSamples, dst.pcm)];
      }
      InterleaveJoin(pending, converted, pendingColumns, columns);
      pending, pendingColumns := Join(pending, converted), pendingColumns + columns;
      out := TakeFrames(frameSamples);
    }

    method TakeFrames(frameSamples: nat) returns (out: seq<seq<Byte>>)
      requires dst.Valid() && Rectangular(pending, dst.channels, pendingColumns)
      requires 0 < frameSamples == dst.NominalFrameSamples()
      modifies this`pending, this`pendingColumns
      ensures Rectangular(pending, dst.channels, pendingColumns) && pendingColumns < frameSamples
      ensures out == old(Completed(dst.pcm, pending, pendingColumns, FrameSize(dst)))
      ensures Interleave(pending, pendingColumns) == old(Remaining(pending, pendingColumns, FrameSize(dst)))
    {
      ghost var size := FrameSize(dst);
      ghost var total, last := Completed(dst.pcm, pending, pendingColumns, size), Remaining(pending, pendingColumns, size);
      out := [];
      while |pending[0]| >= frameSamples
        invariant Rectangular(pending, dst.channels, pendingColumns)
        invariant total == out + Completed(dst.pcm, pending, pendingColumns, size)
        invariant last == Remaining(pending, pendingColumns, size)
        decreases |pending[0]|
      {
        var frame := EncodeFrame(UpTo(pending, frameSamples), frameSamples, dst.pcm);
        var rest := From(pending, frameSamples);
        FrameTaken(dst, pending, pendingColumns, rest, pendingColumns - frameSamples, frame, out, size);
        out := out + [frame];
        pending, pendingColumns := rest, pendingColumns - frameSamples;
      }
      NoFrameLeft(pending, pendingColumns, dst);
    }
  }
}
