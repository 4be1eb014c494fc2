/** Decoding and encoding of the four PCM containers, and channel mapping.
    A decoded frame is planar: one row of reals per channel, all of one length. */
module PcmCodec {
  import opened Wrappers
  import opened Arithmetic
  import opened AudioFormats
  import opened Framing

  type Byte = b: int | 0 <= b < 256

  type Planar = seq<seq<real>>

  datatype FrameError = Misaligned | WrongLength

  ghost predicate Rectangular(p: Planar, rows: nat, columns: nat)
  {
    |p| == rows && forall c :: 0 <= c < rows ==> |p[c]| == columns
  }

  // ---------- one sample ----------

  /** The value of a little-endian two's complement byte string: the last byte carries the sign. */
  function SignedValue(d: seq<Byte>): int
    requires d != []
  {
    if |d| == 1 then (if d[0] < 128 then d[0] else d[0] - 256)
    else d[0] + 256 * SignedValue(d[1..])
  }

  /** The n low bytes of v in two's complement, little end first. */
  function LittleEndian(v: int, n: nat): (d: seq<Byte>)
    ensures |d| == n
    decreases n
  {
    if n == 0 then [] else [v % 256] + LittleEndian(v / 256, n - 1)
  }

  lemma {:induction false} BytesOfValue(d: seq<Byte>)
    requires d != []
    ensures LittleEndian(SignedValue(d), |d|) == d
  {
    var v := SignedValue(d);
    if |d| == 1 {
      assert LittleEndian(v, 1) == [v % 256] + LittleEndian(v / 256, 0);
      assert LittleEndian(v / 256, 0) == [];
    } else {
      BytesOfValue(d[1..]);
      assert v % 256 == d[0] && v / 256 == SignedValue(d[1..]);
      assert LittleEndian(v, |d|) == [d[0]] + d[1..];
    }
  }

  /** Half the range of an n-byte signed number. */
  function HalfRange(n: nat): int
    requires 0 < n
  {
    if n == 1 then 128 else 256 * HalfRange(n - 1)
  }

  lemma {:induction false} ValueOfBytes(v: int, n: nat)
    requires 0 < n && -HalfRange(n) <= v < HalfRange(n)
    ensures SignedValue(LittleEndian(v, n)) == v
    decreases n
  {
    if n == 1 {
      assert LittleEndian(v, 1) == [v % 256] + LittleEndian(v / 256, 0);
    } else {
      ValueOfBytes(v / 256, n - 1);
    }
  }

  lemma {:induction false} ValueInRange(d: seq<Byte>)
    requires d != []
    ensures -HalfRange(|d|) <= SignedValue(d) < HalfRange(|d|)
  {
    if |d| > 1 {
      ValueInRange(d[1..]);
    }
  }

  lemma {:induction false} LowBytes(v: int, n: nat, m: nat)
    requires n <= m
    ensures LittleEndian(v, m)[..n] == LittleEndian(v, n)
    decreases n
  {
    if n > 0 {
      LowBytes(v / 256, n - 1, m - 1);
      assert LittleEndian(v, m)[1..] == LittleEndian(v / 256, m - 1);
      assert LittleEndian(v, m)[..n] == [v % 256] + LittleEndian(v, m)[1..][..n - 1];
    }
  }

  /** Full scale: the integer that stands for 1.0. */
  function FullScale(pcm: PcmFormat): int
  {
    match pcm
    case S16LE => 32768
    case S24LE => 8388608
    case S24LE_IN_S32 => 8388608
    case S32LE => 2147483648
  }

  function DecodeSample(pcm: PcmFormat, d: seq<Byte>): real
    requires |d| == pcm.ContainerBytes()
  {
    SignedValue(d) as real / FullScale(pcm) as real
  }

  /** Conversion of a float to an integer drops the fraction. */
  function Truncate(x: real): int
  {
    if x >= 0.0 then x.Floor else -((-x).Floor)
  }

  function Quantize(pcm: PcmFormat, x: real): int
  {
    var clipped := if x < -1.0 then -1.0 else x;
    var scaled := clipped * FullScale(pcm) as real;
    var top := (FullScale(pcm) - 1) as real;
    Truncate(if scaled < top then scaled else top)
  }

  function EncodeSample(pcm: PcmFormat, x: real): (d: seq<Byte>)
    ensures |d| == pcm.ContainerBytes()
  {
    match pcm
    case S24LE => LittleEndian(Quantize(pcm, x), 4)[..3]
    case _ => LittleEndian(Quantize(pcm, x), pcm.ContainerBytes())
  }

  function Saturate(pcm: PcmFormat, v: int): int
  {
    if v < -FullScale(pcm) then -FullScale(pcm)
    else if v >= FullScale(pcm) then FullScale(pcm) - 1
    else v
  }

  /** Quantizing undoes scaling, up to saturation. */
  lemma QuantizeScaled(pcm: PcmFormat, v: int)
    ensures Quantize(pcm, v as real / FullScale(pcm) as real) == Saturate(pcm, v)
  {
    var x := v as real / FullScale(pcm) as real;
    assert x * FullScale(pcm) as real == v as real;
  }

  /** Every encoding is in range, whatever the sample: encoding saturates and never wraps. */
  lemma EncodingNeverWraps(pcm: PcmFormat, x: real)
    ensures -FullScale(pcm) <= Quantize(pcm, x) < FullScale(pcm)
    ensures SignedValue(EncodeSample(pcm, x)) == Quantize(pcm, x)
  {
    LowBytes(Quantize(pcm, x), 3, 4);
    assert HalfRange(2) == 32768;
    assert HalfRange(3) == 8388608;
    assert HalfRange(4) == 256 * HalfRange(3);
    ValueOfBytes(Quantize(pcm, x), pcm.ContainerBytes());
  }

  /** Within range a float is stored as its multiple of full scale with the fraction dropped, towards zero on
      either side; beyond the range it is stored as the end of the range. */
  lemma QuantizedTowardZero(pcm: PcmFormat, x: real)
    ensures var scaled, q, s := x * FullScale(pcm) as real, Quantize(pcm, x), FullScale(pcm);
      && (0.0 <= scaled <= (s - 1) as real ==> q as real <= scaled < (q + 1) as real)
      && (-(s as real) <= scaled <= 0.0 ==> (q - 1) as real < scaled <= q as real)
      && (scaled > (s - 1) as real ==> q == s - 1)
      && (scaled < -(s as real) ==> q == -s)
  {
    var scaled := x * FullScale(pcm) as real;
    if x < -1.0 {
      assert scaled < -(FullScale(pcm) as real);
    }
  }

  /** Containers are little-endian two's complement: each byte weighs 256 times the one before it, and the
      top bit of the last one counts negative. */
  lemma ContainerValue(a: Byte, b: Byte, c: Byte, d: Byte)
    ensures SignedValue([a, b]) == a + 256 * b - (if b < 128 then 0 else 0x1_0000)
    ensures SignedValue([a, b, c]) == a + 256 * b + 0x1_0000 * c - (if c < 128 then 0 else 0x100_0000)
    ensures SignedValue([a, b, c, d])
         == a + 256 * b + 0x1_0000 * c + 0x100_0000 * d - (if d < 128 then 0 else 0x1_0000_0000)
  {
    assert [a, b][1..] == [b] && [b, c][1..] == [c] && [c, d][1..] == [d];
    assert [a, b, c][1..] == [b, c] && [b, c, d][1..] == [c, d] && [a, b, c, d][1..] == [b, c, d];
    assert SignedValue([b, c]) == b + 256 * SignedValue([c]);
    assert SignedValue([c, d]) == c + 256 * SignedValue([d]);
    assert SignedValue([b, c, d]) == b + 256 * SignedValue([c, d]);
  }

  /** The value held by the low-order container, as the encoder would have written it. */
  function Canonical(pcm: PcmFormat, d: seq<Byte>): (r: seq<Byte>)
    requires |d| == pcm.ContainerBytes()
    ensures |r| == |d|
  {
    LittleEndian(Saturate(pcm, SignedValue(d)), |d|)
  }

  /** Encode after decode: the identity where the container is exactly as wide as the sample,
      saturation to 24 bits in the 32-bit container. */
  lemma RequantizeSample(pcm: PcmFormat, d: seq<Byte>)
    requires |d| == pcm.ContainerBytes()
    ensures EncodeSample(pcm, DecodeSample(pcm, d)) == Canonical(pcm, d)
    ensures pcm != S24LE_IN_S32 ==> Canonical(pcm, d) == d
    ensures Canonical(pcm, d) == d <==> -FullScale(pcm) <= SignedValue(d) < FullScale(pcm)
    ensures Canonical(pcm, Canonical(pcm, d)) == Canonical(pcm, d)
  {
    var v := SignedValue(d);
    QuantizeScaled(pcm, v);
    LowBytes(Saturate(pcm, v), 3, 4);
    BytesOfValue(d);
    ValueInRange(d);
    assert HalfRange(2) == 32768;
    assert HalfRange(3) == 8388608;
    assert HalfRange(4) == 256 * HalfRange(3);
    ValueOfBytes(Saturate(pcm, v), |d|);
  }

  /** An exact multiple: both widths are powers of two. */
  lemma ScaleRatio(narrow: PcmFormat, wide: PcmFormat) returns (ratio: int)
    requires FullScale(narrow) <= FullScale(wide)
    ensures 1 <= ratio && FullScale(wide) == ratio * FullScale(narrow)
  {
    ratio := FullScale(wide) / FullScale(narrow);
  }

  /** A sample in range survives a finer quantization unchanged. */
  lemma FinerIsExact(narrow: PcmFormat, wide: PcmFormat, v: int)
    requires FullScale(narrow) <= FullScale(wide)
    requires -FullScale(narrow) <= v < FullScale(narrow)
    ensures var x := v as real / FullScale(narrow) as real;
      Quantize(wide, x) as real / FullScale(wide) as real == x
  {
    var s, w := FullScale(narrow), FullScale(wide);
    var ratio := ScaleRatio(narrow, wide);
    MulMonotone(v, s - 1, ratio);
    MulMonotone(-s, v, ratio);
    Distribute(s, 1, ratio);
    QuantizeScaled(wide, v * ratio);
    assert v as real / s as real == (v * ratio) as real / w as real;
  }

  // ---------- whole frames ----------

  function DecodeSamples(pcm: PcmFormat, data: seq<Byte>): (flat: seq<real>)
    ensures |flat| == Pieces(|data|, pcm.ContainerBytes())
  {
    var b := pcm.ContainerBytes();
    if |data| < b then [] else [DecodeSample(pcm, data[..b])] + DecodeSamples(pcm, data[b..])
  }

  function EncodeSamples(pcm: PcmFormat, flat: seq<real>): seq<Byte>
  {
    if flat == [] then [] else EncodeSample(pcm, flat[0]) + EncodeSamples(pcm, flat[1..])
  }

  lemma {:induction false} EncodedLength(pcm: PcmFormat, flat: seq<real>)
    ensures Whole(|EncodeSamples(pcm, flat)|, pcm.ContainerBytes())
    ensures Pieces(|EncodeSamples(pcm, flat)|, pcm.ContainerBytes()) == |flat|
    decreases |flat|
  {
    if flat != [] {
      EncodedLength(pcm, flat[1..]);
    }
  }

  /** One column ahead of the columns of p. */
  function Prepend(column: seq<real>, p: Planar): (q: Planar)
    requires |column| == |p|
    ensures |q| == |p| && forall c :: 0 <= c < |p| ==> q[c] == [column[c]] + p[c]
  {
    seq(|p|, c requires 0 <= c < |p| => [column[c]] + p[c])
  }

  function Silent(channels: nat): (p: Planar)
    ensures Rectangular(p, channels, 0)
  {
    seq(channels, c => [])
  }

  /** Interleaved samples as rows: channels vary fastest. */
  function Rows(flat: seq<real>, channels: nat): (p: Planar)
    requires 0 < channels
    ensures Rectangular(p, channels, Pieces(|flat|, channels))
  {
    if |flat| < channels then Silent(channels)
    else Prepend(flat[..channels], Rows(flat[channels..], channels))
  }

  function Column(p: Planar, i: nat): (column: seq<real>)
    requires forall c :: 0 <= c < |p| ==> i < |p[c]|
    ensures |column| == |p| && forall c :: 0 <= c < |p| ==> column[c] == p[c][i]
  {
    seq(|p|, c requires 0 <= c < |p| => p[c][i])
  }

  /** The columns of p from i on. */
  function From(p: Planar, i: nat): (q: Planar)
    requires forall c :: 0 <= c < |p| ==> i <= |p[c]|
    ensures |q| == |p| && forall c :: 0 <= c < |p| ==> q[c] == p[c][i..]
  {
    seq(|p|, c requires 0 <= c < |p| => p[c][i..])
  }

  /** The columns of p before i. */
  function UpTo(p: Planar, i: nat): (q: Planar)
    requires forall c :: 0 <= c < |p| ==> i <= |p[c]|
    ensures |q| == |p| && forall c :: 0 <= c < |p| ==> q[c] == p[c][..i]
  {
    seq(|p|, c requires 0 <= c < |p| => p[c][..i])
  }

  /** Columns of q after the columns of p. */
  function Join(p: Planar, q: Planar): (r: Planar)
    requires |p| == |q|
    ensures |r| == |p| && forall c :: 0 <= c < |p| ==> r[c] == p[c] + q[c]
  {
    seq(|p|, c requires 0 <= c < |p| => p[c] + q[c])
  }

  /** Rows as interleaved samples. */
  function Interleave(p: Planar, columns: nat): (flat: seq<real>)
    requires Rectangular(p, |p|, columns)
    decreases columns
  {
    if columns == 0 then [] else Column(p, 0) + Interleave(From(p, 1), columns - 1)
  }

  /** Columns of a frame of so many bytes. */
  function Columns(bytes: nat, f: AudioFormat): nat
    requires 0 < f.channels
  {
    Pieces(Pieces(bytes, f.pcm.ContainerBytes()), f.channels)
  }

  function DecodeFrame(data: seq<Byte>, f: AudioFormat): (r: Result<Planar, FrameError>)
    requires 0 < f.channels
    ensures r.Ok? <==> |data| % (f.pcm.ContainerBytes() * f.channels) == 0
    ensures r.Ok? ==> Rectangular(r.value, f.channels, Columns(|data|, f))
  {
    if |data| % (f.pcm.ContainerBytes() * f.channels) != 0 then Err(Misaligned)
    else Ok(Rows(DecodeSamples(f.pcm, data), f.channels))
  }

  /** A frame that decodes is made of whole samples and whole columns. */
  lemma WholeFrame(data: seq<Byte>, f: AudioFormat)
    requires 0 < f.channels
    ensures DecodeFrame(data, f).Ok? <==>
      Whole(|data|, f.pcm.ContainerBytes()) && Whole(Pieces(|data|, f.pcm.ContainerBytes()), f.channels)
    ensures DecodeFrame(data, f).Ok? ==> Columns(|data|, f) == |data| / (f.pcm.ContainerBytes() * f.channels)
  {
    var b, n := f.pcm.ContainerBytes(), f.channels;
    WholeIsDivisible(|data|, b);
    WholeIsDivisible(Pieces(|data|, b), n);
    if |data| % (b * n) == 0 {
      DivTwice(|data|, b, n);
    } else if |data| % b == 0 && (|data| / b) % n == 0 {
      WholeTwice(|data|, b, n);
    }
  }

  function EncodeFrame(p: Planar, columns: nat, pcm: PcmFormat): seq<Byte>
    requires Rectangular(p, |p|, columns)
  {
    EncodeSamples(pcm, Interleave(p, columns))
  }

  // ---------- laws of whole frames ----------

  /** Sample i of channel c is number i * channels + c of the frame. */
  lemma {:induction false} RowsAt(flat: seq<real>, channels: nat, c: nat, i: nat)
    requires 0 < channels && c < channels && i < Pieces(|flat|, channels)
    ensures 0 <= i * channels + c < |flat| && Rows(flat, channels)[c][i] == flat[i * channels + c]
    decreases i
  {
    if i > 0 {
      var k := (i - 1) * channels + c;
      RowsAt(flat[channels..], channels, c, i - 1);
      Distribute(i, 1, channels);
      assert flat[channels..][k] == flat[k + channels];
    }
  }

  /** Whether a stream of bytes reaches to the end of container k. */
  predicate Stored(pcm: PcmFormat, bytes: seq<Byte>, k: nat)
  {
    (k + 1) * pcm.ContainerBytes() <= |bytes|
  }

  /** Container k of a stream of bytes. */
  function Slot(pcm: PcmFormat, bytes: seq<Byte>, k: nat): (d: seq<Byte>)
    requires Stored(pcm, bytes, k)
    ensures |d| == pcm.ContainerBytes()
  {
    var b := pcm.ContainerBytes();
    Distribute(k, 1, b);
    MulMonotone(0, k, b);
    bytes[k * b..(k + 1) * b]
  }

  /** The value of sample k. */
  function Wire(pcm: PcmFormat, bytes: seq<Byte>, k: nat): real
    requires Stored(pcm, bytes, k)
  {
    DecodeSample(pcm, Slot(pcm, bytes, k))
  }

  lemma FirstSlot(pcm: PcmFormat, bytes: seq<Byte>)
    requires pcm.ContainerBytes() <= |bytes|
    ensures Stored(pcm, bytes, 0) && Slot(pcm, bytes, 0) == bytes[..pcm.ContainerBytes()]
  {
  }

  lemma NextSlot(pcm: PcmFormat, bytes: seq<Byte>, k: nat)
    requires pcm.ContainerBytes() <= |bytes|
    ensures Stored(pcm, bytes, k + 1) <==> Stored(pcm, bytes[pcm.ContainerBytes()..], k)
    ensures Stored(pcm, bytes, k + 1) ==> Slot(pcm, bytes, k + 1) == Slot(pcm, bytes[pcm.ContainerBytes()..], k)
  {
    var b := pcm.ContainerBytes();
    Distribute(k, 1, b);
    Distribute(k + 1, 1, b);
    if Stored(pcm, bytes, k + 1) {
      MulMonotone(0, k, b);
      DropThenSlice(bytes, b, k * b, k * b + b);
    }
  }

  lemma {:induction false} SampleAt(pcm: PcmFormat, data: seq<Byte>, k: nat)
    requires k < Pieces(|data|, pcm.ContainerBytes())
    ensures Stored(pcm, data, k) && DecodeSamples(pcm, data)[k] == Wire(pcm, data, k)
    decreases k
  {
    var b := pcm.ContainerBytes();
    if k == 0 {
      FirstSlot(pcm, data);
    } else {
      SampleAt(pcm, data[b..], k - 1);
      NextSlot(pcm, data, k - 1);
    }
  }

  lemma RowSample(pcm: PcmFormat, bytes: seq<Byte>, channels: nat, c: nat, i: nat)
    requires c < channels && i < Pieces(Pieces(|bytes|, pcm.ContainerBytes()), channels)
    ensures 0 <= i * channels + c && Stored(pcm, bytes, i * channels + c)
    ensures Rows(DecodeSamples(pcm, bytes), channels)[c][i] == Wire(pcm, bytes, i * channels + c)
  {
    RowsAt(DecodeSamples(pcm, bytes), channels, c, i);
    SampleAt(pcm, bytes, i * channels + c);
  }

  /** Where every sample of a frame is: channels vary fastest, and each sample is read from its own
      container, least significant byte first. */
  lemma FrameLayout(data: seq<Byte>, f: AudioFormat, c: nat, i: nat)
    requires 0 < f.channels && DecodeFrame(data, f).Ok? && c < f.channels && i < Columns(|data|, f)
    ensures 0 <= i * f.channels + c && Stored(f.pcm, data, i * f.channels + c)
    ensures DecodeFrame(data, f).value[c][i] == Wire(f.pcm, data, i * f.channels + c)
  {
    RowSample(f.pcm, data, f.channels, c, i);
  }

  lemma InterleavePrepend(column: seq<real>, p: Planar, columns: nat)
    requires |column| == |p| && Rectangular(p, |p|, columns)
    ensures Rectangular(Prepend(column, p), |p|, columns + 1)
    ensures Interleave(Prepend(column, p), columns + 1) == column + Interleave(p, columns)
  {
    var q := Prepend(column, p);
    assert Column(q, 0) == column;
    assert From(q, 1) == p;
  }

  lemma {:induction false} InterleaveRows(flat: seq<real>, channels: nat)
    requires 0 < channels && Whole(|flat|, channels)
    ensures Interleave(Rows(flat, channels), Pieces(|flat|, channels)) == flat
    decreases |flat|
  {
    if channels <= |flat| {
      var rest := flat[channels..];
      InterleaveRows(rest, channels);
      InterleavePrepend(flat[..channels], Rows(rest, channels), Pieces(|rest|, channels));
      TakeAndDrop(flat, channels);
    }
  }

  /** Every sample of the frame in the form the encoder writes it. */
  function CanonicalSamples(pcm: PcmFormat, data: seq<Byte>): (r: seq<Byte>)
    ensures |r| == |data|
  {
    var b := pcm.ContainerBytes();
    if |data| < b then data else Canonical(pcm, data[..b]) + CanonicalSamples(pcm, data[b..])
  }

  lemma {:induction false} EncodeDecodeSamples(pcm: PcmFormat, data: seq<Byte>)
    requires Whole(|data|, pcm.ContainerBytes())
    ensures EncodeSamples(pcm, DecodeSamples(pcm, data)) == CanonicalSamples(pcm, data)
    ensures pcm != S24LE_IN_S32 ==> CanonicalSamples(pcm, data) == data
    decreases |data|
  {
    var b := pcm.ContainerBytes();
    if b <= |data| {
      RequantizeSample(pcm, data[..b]);
      EncodeDecodeSamples(pcm, data[b..]);
      var flat := DecodeSamples(pcm, data);
      assert flat[1..] == DecodeSamples(pcm, data[b..]);
      assert data == data[..b] + data[b..];
    }
  }

  lemma {:induction false} CanonicalIsIdempotent(pcm: PcmFormat, data: seq<Byte>)
    ensures CanonicalSamples(pcm, CanonicalSamples(pcm, data)) == CanonicalSamples(pcm, data)
    decreases |data|
  {
    var b := pcm.ContainerBytes();
    if b <= |data| {
      RequantizeSample(pcm, data[..b]);
      CanonicalIsIdempotent(pcm, data[b..]);
      var r := CanonicalSamples(pcm, data);
      assert r[..b] == Canonical(pcm, data[..b]);
      assert r[b..] == CanonicalSamples(pcm, data[b..]);
    }
  }

  /** A frame decoded and encoded in one format, for frames of any length: the same bytes on the
      packed formats, the saturated bytes on 24 bits in 32, and a second pass changes nothing. */
  lemma EncodeDecodeFrame(data: seq<Byte>, f: AudioFormat)
    requires 0 < f.channels && DecodeFrame(data, f).Ok?
    ensures EncodeFrame(DecodeFrame(data, f).value, Columns(|data|, f), f.pcm) == CanonicalSamples(f.pcm, data)
    ensures f.pcm != S24LE_IN_S32 ==> CanonicalSamples(f.pcm, data) == data
    ensures CanonicalSamples(f.pcm, CanonicalSamples(f.pcm, data)) == CanonicalSamples(f.pcm, data)
  {
    WholeFrame(data, f);
    InterleaveRows(DecodeSamples(f.pcm, data), f.channels);
    EncodeDecodeSamples(f.pcm, data);
    CanonicalIsIdempotent(f.pcm, data);
  }

  /** What a format gives back after one trip through it. */
  function Requantized(pcm: PcmFormat, flat: seq<real>): (r: seq<real>)
  {
    seq(|flat|, i requires 0 <= i < |flat| =>
      Quantize(pcm, flat[i]) as real / FullScale(pcm) as real)
  }

  lemma RequantizedFirst(pcm: PcmFormat, flat: seq<real>)
    requires flat != []
    ensures Requantized(pcm, flat)
         == [Quantize(pcm, flat[0]) as real / FullScale(pcm) as real] + Requantized(pcm, flat[1..])
  {
  }

  lemma {:induction false} DecodeEncodeSamples(pcm: PcmFormat, flat: seq<real>)
    ensures DecodeSamples(pcm, EncodeSamples(pcm, flat)) == Requantized(pcm, flat)
    decreases |flat|
  {
    if flat != [] {
      DecodeEncodeSamples(pcm, flat[1..]);
      EncodingNeverWraps(pcm, flat[0]);
      FirstSample(pcm, flat);
      RequantizedFirst(pcm, flat);
    }
  }

  lemma FirstSample(pcm: PcmFormat, flat: seq<real>)
    requires flat != []
    ensures DecodeSamples(pcm, EncodeSamples(pcm, flat))
         == [DecodeSample(pcm, EncodeSample(pcm, flat[0]))] + DecodeSamples(pcm, EncodeSamples(pcm, flat[1..]))
  {
    var b, data := pcm.ContainerBytes(), EncodeSamples(pcm, flat);
    assert data[..b] == EncodeSample(pcm, flat[0]);
    assert data[b..] == EncodeSamples(pcm, flat[1..]);
  }

  /** Every stored sample lies within the format's precision. */
  predicate WithinPrecision(pcm: PcmFormat, data: seq<Byte>)
    decreases |data|
  {
    var b := pcm.ContainerBytes();
    b <= |data| ==>
      -FullScale(pcm) <= SignedValue(data[..b]) < FullScale(pcm) && WithinPrecision(pcm, data[b..])
  }

  /** Re-encoding leaves exactly the frames alone whose samples are all within precision. */
  lemma {:induction false} CanonicalIff(pcm: PcmFormat, data: seq<Byte>)
    ensures CanonicalSamples(pcm, data) == data <==> WithinPrecision(pcm, data)
    ensures pcm != S24LE_IN_S32 ==> WithinPrecision(pcm, data)
    decreases |data|
  {
    var b := pcm.ContainerBytes();
    if b <= |data| {
      RequantizeSample(pcm, data[..b]);
      CanonicalIff(pcm, data[b..]);
      var r := CanonicalSamples(pcm, data);
      assert data == data[..b] + data[b..];
      assert r[..b] == Canonical(pcm, data[..b]) && r[b..] == CanonicalSamples(pcm, data[b..]);
    }
  }

  /** Samples that came from a narrower format pass through a wider one unchanged. */
  lemma {:induction false} WiderIsLossless(narrow: PcmFormat, wide: PcmFormat, data: seq<Byte>)
    requires FullScale(narrow) <= FullScale(wide) && WithinPrecision(narrow, data)
    ensures Requantized(wide, DecodeSamples(narrow, data)) == DecodeSamples(narrow, data)
    decreases |data|
  {
    var b := narrow.ContainerBytes();
    if b <= |data| {
      FinerIsExact(narrow, wide, SignedValue(data[..b]));
      WiderIsLossless(narrow, wide, data[b..]);
      var flat := DecodeSamples(narrow, data);
      assert flat[1..] == DecodeSamples(narrow, data[b..]);
      RequantizedFirst(wide, flat);
    }
  }

  /** Widening a whole frame and narrowing it again returns the frame, for every pair of formats
      in which the second is at least as precise. */
  lemma WidenThenNarrowFrame(src: AudioFormat, wide: PcmFormat, data: seq<Byte>)
    requires 0 < src.channels && FullScale(src.pcm) <= FullScale(wide)
    requires DecodeFrame(data, src).Ok? && WithinPrecision(src.pcm, data)
    ensures var p, columns := DecodeFrame(data, src).value, Columns(|data|, src);
      && DecodeFrame(EncodeFrame(p, columns, wide), src.(pcm := wide)) == Ok(p)
      && EncodeFrame(p, columns, src.pcm) == data
  {
    WholeFrame(data, src);
    EncodeDecodeFrame(data, src);
    CanonicalIff(src.pcm, data);
    var flat := DecodeSamples(src.pcm, data);
    InterleaveRows(flat, src.channels);
    WiderIsLossless(src.pcm, wide, data);
    DecodeEncodeSamples(wide, flat);
    EncodedLength(wide, flat);
    WholeFrame(EncodeSamples(wide, flat), src.(pcm := wide));
  }

  lemma SeqAssociative<T>(a: seq<T>, b: seq<T>, c: seq<T>)
    ensures (a + b) + c == a + (b + c)
  {
  }

  /** Encoding column after column: a longer stream encodes to a longer byte string. */
  lemma {:induction false} EncodeSamplesJoin(pcm: PcmFormat, a: seq<real>, b: seq<real>)
    ensures EncodeSamples(pcm, a + b) == EncodeSamples(pcm, a) + EncodeSamples(pcm, b)
    decreases |a|
  {
    if a == [] {
      assert a + b == b;
    } else {
      EncodeSamplesJoin(pcm, a[1..], b);
      AppendTail(a, b);
      SeqAssociative(EncodeSample(pcm, a[0]), EncodeSamples(pcm, a[1..]), EncodeSamples(pcm, b));
    }
  }

  /** Peeling the first column off a joined stream. */
  lemma JoinColumns(p: Planar, q: Planar, n: nat, m: nat)
    requires |p| == |q| && Rectangular(p, |p|, n) && Rectangular(q, |q|, m) && 0 < n
    ensures Rectangular(Join(p, q), |p|, n + m) && Rectangular(From(p, 1), |p|, n - 1)
    ensures Column(Join(p, q), 0) == Column(p, 0)
    ensures From(Join(p, q), 1) == Join(From(p, 1), q)
  {
    forall c | 0 <= c < |p| ensures From(Join(p, q), 1)[c] == Join(From(p, 1), q)[c] {
      assert (p[c] + q[c])[1..] == p[c][1..] + q[c];
    }
  }

  lemma JoinNothing(p: Planar, q: Planar)
    requires |p| == |q| && Rectangular(p, |p|, 0)
    ensures Join(p, q) == q
  {
    assert forall c :: 0 <= c < |p| ==> p[c] + q[c] == q[c];
  }

  lemma InterleaveFirst(p: Planar, columns: nat)
    requires 0 < columns && Rectangular(p, |p|, columns)
    ensures Interleave(p, columns) == Column(p, 0) + Interleave(From(p, 1), columns - 1)
  {
  }

  lemma {:induction false} InterleaveJoin(p: Planar, q: Planar, n: nat, m: nat)
    requires |p| == |q| && Rectangular(p, |p|, n) && Rectangular(q, |q|, m)
    ensures Rectangular(Join(p, q), |p|, n + m)
    ensures Interleave(Join(p, q), n + m) == Interleave(p, n) + Interleave(q, m)
    decreases n
  {
    if n == 0 {
      JoinNothing(p, q);
    } else {
      JoinColumns(p, q, n, m);
      InterleaveJoin(From(p, 1), q, n - 1, m);
      SeqAssociative(Column(p, 0), Interleave(From(p, 1), n - 1), Interleave(q, m));
      InterleaveFirst(p, n);
      InterleaveFirst(Join(p, q), n + m);
    }
  }

  lemma {:induction false} InterleaveLength(p: Planar, columns: nat)
    requires Rectangular(p, |p|, columns)
    ensures |Interleave(p, columns)| == |p| * columns
    decreases columns
  {
    if columns > 0 {
      Distribute(columns, 1, |p|);
      InterleaveLength(From(p, 1), columns - 1);
    }
  }

  /** Cutting rows at a column cuts the interleaved samples at that column. */
  lemma InterleaveCut(p: Planar, columns: nat, size: nat, step: nat)
    requires Rectangular(p, |p|, columns) && size <= columns && step == |p| * size
    ensures step <= |Interleave(p, columns)|
    ensures Interleave(UpTo(p, size), size) == Interleave(p, columns)[..step]
    ensures Interleave(From(p, size), columns - size) == Interleave(p, columns)[step..]
  {
    assert forall c :: 0 <= c < |p| ==> p[c][..size] + p[c][size..] == p[c];
    assert Join(UpTo(p, size), From(p, size)) == p;
    InterleaveJoin(UpTo(p, size), From(p, size), size, columns - size);
    InterleaveLength(UpTo(p, size), size);
  }

  // ---------- channel mapping ----------

  function Total(column: seq<real>): real
  {
    if column == [] then 0.0 else column[0] + Total(column[1..])
  }

  function Mean(p: Planar, columns: nat): (row: seq<real>)
    requires 0 < |p| && Rectangular(p, |p|, columns)
    ensures |row| == columns
  {
    seq(columns, i requires 0 <= i < columns => Total(Column(p, i)) / |p| as real)
  }

  /** Downmix to mono by the mean, drop surplus channels, repeat the last channel. */
  function MapChannels(p: Planar, columns: nat, out: nat): (q: Planar)
    requires 0 < |p| && 0 < out && Rectangular(p, |p|, columns)
    ensures Rectangular(q, out, columns)
  {
    if out == 1 && 1 < |p| then [Mean(p, columns)]
    else if out <= |p| then p[..out]
    else p + seq(out - |p|, _ => p[|p| - 1])
  }

  lemma {:induction false} TotalOfCopies(x: real, column: seq<real>)
    requires forall c :: 0 <= c < |column| ==> column[c] == x
    ensures Total(column) == x * |column| as real
  {
    if column != [] {
      TotalOfCopies(x, column[1..]);
    }
  }

  lemma DivideBack(total: real, x: real, n: real)
    requires n != 0.0 && total == x * n
    ensures total / n == x
  {
  }

  lemma MeanOfCopies(p: Planar, row: seq<real>)
    requires 0 < |p| && forall c :: 0 <= c < |p| ==> p[c] == row
    ensures Mean(p, |row|) == row
  {
    var n := |p| as real;
    forall i | 0 <= i < |row| ensures Mean(p, |row|)[i] == row[i] {
      TotalOfCopies(row[i], Column(p, i));
      DivideBack(Total(Column(p, i)), row[i], n);
    }
  }

  /** Mono to any number of channels and back to mono is the identity. */
  lemma MonoThroughMany(row: seq<real>, out: nat)
    requires 0 < out
    ensures MapChannels(MapChannels([row], |row|, out), |row|, 1) == [row]
  {
    var wide := MapChannels([row], |row|, out);
    assert forall c :: 0 <= c < out ==> wide[c] == row;
    MeanOfCopies(wide, row);
  }

  /** Matching channel counts are left alone. */
  lemma MapSameChannels(p: Planar, columns: nat)
    requires 0 < |p| && Rectangular(p, |p|, columns)
    ensures MapChannels(p, columns, |p|) == p
  {
  }

  // ---------- what a mapped channel holds ----------

  /** The sum of a column does not depend on how it is cut. */
  lemma {:induction false} TotalAdds(a: seq<real>, b: seq<real>)
    ensures Total(a + b) == Total(a) + Total(b)
    decreases |a|
  {
    if a == [] {
      assert a + b == b;
    } else {
      AppendTail(a, b);
      TotalAdds(a[1..], b);
    }
  }

  lemma TotalOfTwo(x: real, y: real)
    ensures Total([x]) == x && Total([x, y]) == x + y
  {
    assert [x][1..] == [] && [y][1..] == [] && [x, y][1..] == [y];
    assert Total([y]) == y + Total([]);
    assert Total([x]) == x + Total([]);
  }

  lemma TimesBack(total: real, n: real)
    requires n != 0.0
    ensures total / n * n == total
  {
  }

  /** A mono downmix is the mean of all channels: as often as there are channels it gives their sum. */
  lemma DownmixIsMean(p: Planar, columns: nat, i: nat)
    requires 1 < |p| && Rectangular(p, |p|, columns) && i < columns
    ensures MapChannels(p, columns, 1)[0][i] * |p| as real == Total(Column(p, i))
  {
    TimesBack(Total(Column(p, i)), |p| as real);
  }

  lemma HalfOfSum(x: real, y: real, m: real)
    requires m * 2.0 == x + y
    ensures m == (x + y) / 2.0
  {
  }

  lemma TwoChannelMean(p: Planar, columns: nat, i: nat)
    requires |p| == 2 && Rectangular(p, 2, columns) && i < columns
    ensures MapChannels(p, columns, 1)[0][i] == (p[0][i] + p[1][i]) / 2.0
  {
    assert p == [p[0], p[1]];
    StereoToMono(p[0], p[1], i);
  }

  /** Of two channels it is half their sum. */
  lemma StereoToMono(a: seq<real>, b: seq<real>, i: nat)
    requires |a| == |b| && i < |a|
    ensures MapChannels([a, b], |a|, 1)[0][i] == (a[i] + b[i]) / 2.0
  {
    DownmixIsMean([a, b], |a|, i);
    assert Column([a, b], i) == [a[i], b[i]];
    TotalOfTwo(a[i], b[i]);
    HalfOfSum(a[i], b[i], MapChannels([a, b], |a|, 1)[0][i]);
  }

  /** Otherwise a channel is kept, the surplus is dropped, and a missing one repeats the last. */
  lemma ChannelKept(p: Planar, columns: nat, out: nat, c: nat)
    requires 0 < |p| && 0 < out && Rectangular(p, |p|, columns) && c < out && !(out == 1 && 1 < |p|)
    ensures MapChannels(p, columns, out)[c] == p[if c < |p| then c else |p| - 1]
  {
  }

  // ---------- streams of frames ----------

  lemma {:induction false} DecodeSamplesJoin(pcm: PcmFormat, a: seq<Byte>, b: seq<Byte>)
    requires Whole(|a|, pcm.ContainerBytes())
    ensures DecodeSamples(pcm, a + b) == DecodeSamples(pcm, a) + DecodeSamples(pcm, b)
    decreases |a|
  {
    var n := pcm.ContainerBytes();
    if |a| < n {
      assert a + b == b;
      assert [] + DecodeSamples(pcm, b) == DecodeSamples(pcm, b);
    } else {
      DropOfAppend(a, b, n);
      DecodeSamplesJoin(pcm, a[n..], b);
      SeqAssociative([DecodeSample(pcm, a[..n])], DecodeSamples(pcm, a[n..]), DecodeSamples(pcm, b));
    }
  }

  lemma DropOfAppend<T>(a: seq<T>, b: seq<T>, n: nat)
    requires n <= |a|
    ensures (a + b)[..n] == a[..n] && (a + b)[n..] == a[n..] + b
  {
  }

  lemma PrependJoin(column: seq<real>, p: Planar, q: Planar)
    requires |column| == |p| == |q|
    ensures Prepend(column, Join(p, q)) == Join(Prepend(column, p), q)
  {
    forall c | 0 <= c < |p| ensures Prepend(column, Join(p, q))[c] == Join(Prepend(column, p), q)[c] {
      SeqAssociative([column[c]], p[c], q[c]);
    }
  }

  lemma {:induction false} RowsJoin(a: seq<real>, b: seq<real>, channels: nat)
    requires 0 < channels && Whole(|a|, channels)
    ensures Rows(a + b, channels) == Join(Rows(a, channels), Rows(b, channels))
    decreases |a|
  {
    if |a| < channels {
      assert a + b == b;
      JoinNothing(Silent(channels), Rows(b, channels));
    } else {
      DropOfAppend(a, b, channels);
      RowsJoin(a[channels..], b, channels);
      PrependJoin(a[..channels], Rows(a[channels..], channels), Rows(b, channels));
    }
  }

  lemma MeanJoin(p: Planar, q: Planar, n: nat, m: nat)
    requires 0 < |p| == |q| && Rectangular(p, |p|, n) && Rectangular(q, |q|, m)
    ensures Rectangular(Join(p, q), |p|, n + m)
    ensures Mean(Join(p, q), n + m) == Mean(p, n) + Mean(q, m)
  {
    forall i | 0 <= i < n + m ensures Mean(Join(p, q), n + m)[i] == (Mean(p, n) + Mean(q, m))[i] {
      if i < n {
        assert Column(Join(p, q), i) == Column(p, i);
      } else {
        assert Column(Join(p, q), i) == Column(q, i - n);
      }
    }
  }

  /** Mapping a stream is mapping its frames. */
  lemma MapJoin(p: Planar, q: Planar, n: nat, m: nat, out: nat)
    requires 0 < |p| == |q| && 0 < out && Rectangular(p, |p|, n) && Rectangular(q, |q|, m)
    ensures Rectangular(Join(p, q), |p|, n + m)
    ensures MapChannels(Join(p, q), n + m, out) == Join(MapChannels(p, n, out), MapChannels(q, m, out))
  {
    if out == 1 && 1 < |p| {
      MeanJoin(p, q, n, m);
    }
  }

  lemma {:induction false} InterleaveAt(p: Planar, columns: nat, c: nat, i: nat)
    requires Rectangular(p, |p|, columns) && c < |p| && i < columns
    ensures 0 <= i * |p| + c < |Interleave(p, columns)| && Interleave(p, columns)[i * |p| + c] == p[c][i]
    decreases i
  {
    InterleaveLength(From(p, 1), columns - 1);
    if i > 0 {
      InterleaveAt(From(p, 1), columns - 1, c, i - 1);
      Distribute(i, 1, |p|);
    }
  }

  lemma EncodedFirst(pcm: PcmFormat, flat: seq<real>)
    requires flat != []
    ensures var b, all := pcm.ContainerBytes(), EncodeSamples(pcm, flat);
      b <= |all| && all[..b] == EncodeSample(pcm, flat[0]) && all[b..] == EncodeSamples(pcm, flat[1..])
  {
  }

  lemma {:induction false} EncodedAt(pcm: PcmFormat, flat: seq<real>, k: nat)
    requires k < |flat|
    ensures Stored(pcm, EncodeSamples(pcm, flat), k) && Slot(pcm, EncodeSamples(pcm, flat), k) == EncodeSample(pcm, flat[k])
    decreases k
  {
    EncodedFirst(pcm, flat);
    if k == 0 {
      FirstSlot(pcm, EncodeSamples(pcm, flat));
    } else {
      EncodedAt(pcm, flat[1..], k - 1);
      NextSlot(pcm, EncodeSamples(pcm, flat), k - 1);
    }
  }

  lemma SlotOfPrefix(pcm: PcmFormat, a: seq<Byte>, b: seq<Byte>, k: nat)
    requires Stored(pcm, a, k)
    ensures Stored(pcm, a + b, k) && Slot(pcm, a + b, k) == Slot(pcm, a, k)
  {
    var n := pcm.ContainerBytes();
    MulMonotone(0, k, n);
    MulMonotone(k, k + 1, n);
    SliceOfPrefix(a, b, k * n, (k + 1) * n);
  }

  lemma SliceOfPrefix<T>(a: seq<T>, b: seq<T>, lo: nat, hi: nat)
    requires lo <= hi <= |a|
    ensures (a + b)[lo..hi] == a[lo..hi]
  {
  }

  lemma StoredIsWithin(pcm: PcmFormat, flat: seq<real>, k: nat)
    requires Stored(pcm, EncodeSamples(pcm, flat), k)
    ensures k < |flat|
  {
    EncodedBytes(pcm, flat);
    if k >= |flat| {
      MulMonotone(|flat| + 1, k + 1, pcm.ContainerBytes());
      Distribute(|flat|, 1, pcm.ContainerBytes());
    }
  }

  lemma {:induction false} EncodedBytes(pcm: PcmFormat, flat: seq<real>)
    ensures |EncodeSamples(pcm, flat)| == |flat| * pcm.ContainerBytes()
    decreases |flat|
  {
    if flat != [] {
      EncodedBytes(pcm, flat[1..]);
      Distribute(|flat|, 1, pcm.ContainerBytes());
    }
  }
}
