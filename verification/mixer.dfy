/** The N-1 mix of a conference room: every leg hears all the others, scaled only when the sum
    does not fit 16 bits. Fixed-width arithmetic is written out where the program uses it. */
module Mixing {
  import opened Arithmetic
  import opened AudioFormats
  import opened Framing
  import opened PcmCodec

  const CONFERENCE_FRAME_SAMPLES: nat := 320
  const CONFERENCE_FRAME_BYTES: nat := 640
  const MAX_CONFERENCE_LEGS: nat := 8

  type Samples = seq<int>

  predicate Fits16(v: int)
  {
    -32768 <= v <= 32767
  }

  ghost predicate Pcm(frames: seq<Samples>)
  {
    forall i :: 0 <= i < |frames| ==>
      |frames[i]| == CONFERENCE_FRAME_SAMPLES && forall s :: 0 <= s < CONFERENCE_FRAME_SAMPLES ==> Fits16(frames[i][s])
  }

  /** Two's complement wrap-around of 32-bit and 64-bit integers. */
  function Wrap32(v: int): int
  {
    (v + 0x8000_0000) % 0x1_0000_0000 - 0x8000_0000
  }

  function Wrap64(v: int): int
  {
    (v + 0x8000_0000_0000_0000) % 0x1_0000_0000_0000_0000 - 0x8000_0000_0000_0000
  }

  // ---------- the meaning of the mix ----------

  /** What leg i should hear at sample s: the plain sum over the legs before n other than i. */
  function SumOthers(frames: seq<Samples>, i: nat, s: nat, n: nat): int
    requires n <= |frames| && Pcm(frames) && s < CONFERENCE_FRAME_SAMPLES
  {
    if n == 0 then 0
    else SumOthers(frames, i, s, n - 1) + (if n - 1 == i then 0 else frames[n - 1][s])
  }

  function Others(frames: seq<Samples>, i: nat): (row: Samples)
    requires Pcm(frames)
    ensures |row| == CONFERENCE_FRAME_SAMPLES
  {
    seq(CONFERENCE_FRAME_SAMPLES, s requires 0 <= s < CONFERENCE_FRAME_SAMPLES => SumOthers(frames, i, s, |frames|))
  }

  /** How far a row reaches towards either end of the 16-bit range, counted from 0 and from -1. */
  function Reach(v: int): int
  {
    if v >= 0 then v else -v - 1
  }

  ghost predicate IsPeak(row: Samples, peak: int)
  {
    && (forall s :: 0 <= s < |row| ==> Reach(row[s]) <= peak)
    && exists s :: 0 <= s < |row| && Reach(row[s]) == peak
  }

  /** One sample scaled so that the peak becomes full scale. */
  function Scaled(v: int, peak: int): int
    requires 0 < peak
  {
    (v * 32767) / peak
  }

  /** Scaling is monotone, never leaves 16 bits, and takes a peak on either side to full scale. */
  lemma ScalingIsExact(v: int, peak: int)
    requires 32767 < peak && Reach(v) <= peak
    ensures Fits16(Scaled(v, peak))
    ensures Scaled(peak, peak) == 32767 && Scaled(-peak - 1, peak) == -32768
  {
    MultipleMod(32767, peak);
    assert peak * 32767 == 32767 * peak;
    assert (-peak - 1) * 32767 == -32768 * peak + (peak - 32767);
    DivModUnique((-peak - 1) * 32767, peak, -32768, peak - 32767);
    DivMonotone(v * 32767, peak * 32767, peak);
    DivMonotone((-peak - 1) * 32767, v * 32767, peak);
  }

  lemma ScalingIsMonotone(u: int, v: int, peak: int)
    requires 0 < peak && u <= v
    ensures Scaled(u, peak) <= Scaled(v, peak)
  {
    DivMonotone(u * 32767, v * 32767, peak);
  }

  // ---------- what the program computes ----------

  function Clip(v: int): int
  {
    if v < -32768 then -32768 else if v > 32767 then 32767 else v
  }

  /** Sum of one column of the stacked frames, in 32-bit arithmetic. */
  function ColumnSum(frames: seq<Samples>, s: nat, n: nat): int
    requires n <= |frames| && Pcm(frames) && s < CONFERENCE_FRAME_SAMPLES
  {
    if n == 0 then 0 else Wrap32(ColumnSum(frames, s, n - 1) + frames[n - 1][s])
  }

  lemma {:induction false} SumsAreExact(frames: seq<Samples>, i: nat, s: nat, n: nat)
    requires n <= |frames| <= MAX_CONFERENCE_LEGS && Pcm(frames) && s < CONFERENCE_FRAME_SAMPLES
    ensures -32768 * n <= SumOthers(frames, i, s, n) <= 32767 * n
    ensures ColumnSum(frames, s, n) == SumOthers(frames, i, s, n) + (if i < n then frames[i][s] else 0)
    decreases n
  {
    if n > 0 {
      SumsAreExact(frames, i, s, n - 1);
    }
  }

  /** No 32-bit sum or difference overflows up to the room bound. */
  lemma DifferenceIsExact(frames: seq<Samples>, i: nat, s: nat)
    requires i < |frames| <= MAX_CONFERENCE_LEGS && Pcm(frames) && s < CONFERENCE_FRAME_SAMPLES
    ensures Wrap32(ColumnSum(frames, s, |frames|) - frames[i][s]) == SumOthers(frames, i, s, |frames|)
    ensures Reach(SumOthers(frames, i, s, |frames|)) < 0x4_0000
  {
    SumsAreExact(frames, i, s, |frames|);
  }

  /** Greatest reach in a row. */
  function Peak(row: Samples): (peak: int)
    requires 0 < |row|
    ensures IsPeak(row, peak)
  {
    var last := Reach(row[|row| - 1]);
    if |row| == 1 then (assert row[0] == row[|row| - 1]; last)
    else
      var before := Peak(row[..|row| - 1]);
      assert forall s :: 0 <= s < |row| - 1 ==> row[s] == row[..|row| - 1][s];
      if before < last then (assert Reach(row[|row| - 1]) == last; last) else before
  }

  /** The larger of the greatest sample and the reflection of the least is the peak. */
  method PeakOf(row: Samples) returns (peak: int)
    requires 0 < |row|
    ensures peak == Peak(row)
  {
    var high, low := row[0], row[0];
    ghost var h, l := 0, 0;
    for s := 1 to |row|
      invariant 0 <= h < s && 0 <= l < s && high == row[h] && low == row[l]
      invariant forall t :: 0 <= t < s ==> low <= row[t] <= high
    {
      if row[s] > high { high, h := row[s], s; }
      if row[s] < low { low, l := row[s], s; }
    }
    peak := if high > -low - 1 then high else -low - 1;
    assert Reach(row[h]) == peak || Reach(row[l]) == peak;
  }

  /** The row a leg is sent: the plain sum where it fits, the sum scaled to its peak where not. */
  function Mixed(row: Samples): (out: Samples)
    requires 0 < |row|
    ensures |out| == |row|
  {
    var peak := Peak(row);
    if peak > 32767 then seq(|row|, s requires 0 <= s < |row| => Scaled(row[s], peak)) else row
  }

  /** Whatever the sum, the row sent fits 16 bits without clipping, keeps the order of its samples,
      is the sum itself when that fits, and otherwise reaches full scale. */
  lemma MixedFits(row: Samples)
    requires 0 < |row|
    ensures forall s :: 0 <= s < |row| ==> Fits16(Mixed(row)[s])
    ensures forall s, t :: 0 <= s < |row| && 0 <= t < |row| && row[s] <= row[t] ==> Mixed(row)[s] <= Mixed(row)[t]
    ensures Mixed(row) == row <==> forall s :: 0 <= s < |row| ==> Fits16(row[s])
    ensures Mixed(row) != row ==> exists s :: 0 <= s < |row| && (Mixed(row)[s] == 32767 || Mixed(row)[s] == -32768)
  {
    var peak := Peak(row);
    if peak > 32767 {
      forall s | 0 <= s < |row| ensures Fits16(Mixed(row)[s]) {
        ScalingIsExact(row[s], peak);
      }
      forall s, t | 0 <= s < |row| && 0 <= t < |row| && row[s] <= row[t] ensures Mixed(row)[s] <= Mixed(row)[t] {
        ScalingIsMonotone(row[s], row[t], peak);
      }
      var s :| 0 <= s < |row| && Reach(row[s]) == peak;
      ScalingIsExact(row[s], peak);
      assert Mixed(row)[s] == 32767 || Mixed(row)[s] == -32768;
      assert !Fits16(row[s]) && Fits16(Mixed(row)[s]);
    }
  }

  lemma QuotientBounds(a: int, d: int)
    requires 0 < d
    ensures 0 <= a - a / d * d < d
  {
  }

  lemma OnePeak(row: Samples, a: int, b: int)
    requires IsPeak(row, a) && IsPeak(row, b)
    ensures a == b
  {
  }

  /** A sum that does not fit is scaled in proportion: every sample sent stands to full scale as the sum
      does to its peak, rounded down. */
  lemma MixedIsProportional(row: Samples, peak: int, s: nat)
    requires IsPeak(row, peak) && 32767 < peak && s < |row|
    ensures 0 <= row[s] * 32767 - Mixed(row)[s] * peak < peak
  {
    OnePeak(row, peak, Peak(row));
    QuotientBounds(row[s] * 32767, peak);
  }

  /** Every other leg counts once, at its own level: raising one leg raises what each other leg hears by
      as much. */
  lemma {:induction false} EveryLegCounts(frames: seq<Samples>, other: seq<Samples>, i: nat, j: nat, s: nat, n: nat)
    requires Pcm(frames) && Pcm(other) && |frames| == |other| && s < CONFERENCE_FRAME_SAMPLES && n <= |frames|
    requires i < |frames| && j < |frames| && i != j
    requires forall k :: 0 <= k < |frames| && k != j ==> frames[k] == other[k]
    ensures SumOthers(other, i, s, n) - SumOthers(frames, i, s, n) == if j < n then other[j][s] - frames[j][s] else 0
    decreases n
  {
    if n > 0 {
      EveryLegCounts(frames, other, i, j, s, n - 1);
    }
  }

  /** Where every leg is silent nothing is heard. */
  lemma {:induction false} SilenceSums(frames: seq<Samples>, i: nat, s: nat, n: nat)
    requires Pcm(frames) && s < CONFERENCE_FRAME_SAMPLES && n <= |frames|
    requires forall k :: 0 <= k < |frames| ==> frames[k][s] == 0
    ensures SumOthers(frames, i, s, n) == 0
    decreases n
  {
    if n > 0 {
      SilenceSums(frames, i, s, n - 1);
    }
  }

  /** A leg never hears itself: replacing its own frame leaves its row alone. */
  lemma {:induction false} OwnFrameIsIrrelevant(frames: seq<Samples>, other: seq<Samples>, i: nat, s: nat, n: nat)
    requires i < |frames| == |other| && Pcm(frames) && Pcm(other) && s < CONFERENCE_FRAME_SAMPLES && n <= |frames|
    requires forall j :: 0 <= j < |frames| && j != i ==> frames[j] == other[j]
    ensures SumOthers(frames, i, s, n) == SumOthers(other, i, s, n)
    decreases n
  {
    if n > 0 {
      OwnFrameIsIrrelevant(frames, other, i, s, n - 1);
    }
  }

  lemma NeverHearsItself(frames: seq<Samples>, own: Samples, i: nat)
    requires i < |frames| && Pcm(frames) && Pcm(frames[i := own])
    ensures Others(frames[i := own], i) == Others(frames, i)
  {
    forall s | 0 <= s < CONFERENCE_FRAME_SAMPLES
      ensures SumOthers(frames[i := own], i, s, |frames|) == SumOthers(frames, i, s, |frames|)
    {
      OwnFrameIsIrrelevant(frames, frames[i := own], i, s, |frames|);
    }
  }

  /** With two legs each hears the other, sample for sample. */
  lemma TwoLegsHearEachOther(a: Samples, b: Samples)
    requires Pcm([a, b])
    ensures Mixed(Others([a, b], 0)) == b && Mixed(Others([a, b], 1)) == a
  {
    var frames := [a, b];
    assert frames[0] == a && frames[1] == b;
    assert forall s :: 0 <= s < CONFERENCE_FRAME_SAMPLES ==> SumOthers(frames, 0, s, 2) == b[s] by {
      forall s | 0 <= s < CONFERENCE_FRAME_SAMPLES ensures SumOthers(frames, 0, s, 2) == b[s] {
        assert SumOthers(frames, 0, s, 1) == 0;
      }
    }
    assert forall s :: 0 <= s < CONFERENCE_FRAME_SAMPLES ==> SumOthers(frames, 1, s, 2) == a[s] by {
      forall s | 0 <= s < CONFERENCE_FRAME_SAMPLES ensures SumOthers(frames, 1, s, 2) == a[s] {
        assert SumOthers(frames, 1, s, 1) == a[s];
      }
    }
    assert Others(frames, 0) == b && Others(frames, 1) == a;
    MixedFits(a);
    MixedFits(b);
  }

  // ---------- frames of bytes ----------

  /** 16-bit samples of a frame of bytes, and back. */
  function Ints(data: seq<Byte>): (row: Samples)
    ensures |row| == Pieces(|data|, 2)
    ensures forall s :: 0 <= s < |row| ==> Fits16(row[s])
  {
    if |data| < 2 then []
    else
      (ValueInRange(data[..2]); assert HalfRange(2) == 32768;
       [SignedValue(data[..2])] + Ints(data[2..]))
  }

  function Bytes(row: Samples): (data: seq<Byte>)
    ensures |data| == 2 * |row|
  {
    if row == [] then [] else LittleEndian(row[0], 2) + Bytes(row[1..])
  }

  lemma {:induction false} BytesOfInts(data: seq<Byte>)
    requires Whole(|data|, 2)
    ensures Bytes(Ints(data)) == data
    decreases |data|
  {
    if 2 <= |data| {
      BytesOfInts(data[2..]);
      BytesOfValue(data[..2]);
      assert Ints(data)[1..] == Ints(data[2..]);
      assert data == data[..2] + data[2..];
    }
  }

  function Silence(): (data: seq<Byte>)
    ensures |data| == CONFERENCE_FRAME_BYTES
  {
    seq(CONFERENCE_FRAME_BYTES, _ => 0)
  }

  /** A frame of the wrong length counts as silence. */
  function Normalized(frame: seq<Byte>): (data: seq<Byte>)
    ensures |data| == CONFERENCE_FRAME_BYTES
  {
    if |frame| == CONFERENCE_FRAME_BYTES then frame else Silence()
  }

  function Decoded(frames: seq<seq<Byte>>): (d: seq<Samples>)
    ensures |d| == |frames| && Pcm(d)
    ensures forall i :: 0 <= i < |frames| ==> d[i] == Ints(Normalized(frames[i]))
  {
    WholeIsDivisible(CONFERENCE_FRAME_BYTES, 2);
    seq(|frames|, i requires 0 <= i < |frames| => Ints(Normalized(frames[i])))
  }

  /** Sample s of a frame is in bytes 2s and 2s + 1. */
  lemma {:induction false} IntsAt(data: seq<Byte>, s: nat)
    requires s < |Ints(data)|
    ensures 2 * s + 2 <= |data| && Ints(data)[s] == SignedValue(data[2 * s..2 * s + 2])
    decreases s
  {
    if s > 0 {
      IntsAt(data[2..], s - 1);
      assert data[2..][2 * (s - 1)..2 * (s - 1) + 2] == data[2 * s..2 * s + 2];
    }
  }

  lemma {:induction false} IntsOfBytes(row: Samples)
    requires forall s :: 0 <= s < |row| ==> Fits16(row[s])
    ensures Ints(Bytes(row)) == row
    decreases |row|
  {
    if row != [] {
      var data := Bytes(row);
      assert HalfRange(2) == 32768;
      ValueOfBytes(row[0], 2);
      IntsOfBytes(row[1..]);
      assert data[..2] == LittleEndian(row[0], 2) && data[2..] == Bytes(row[1..]);
    }
  }

  /** The other end decodes exactly the row mixed for it. */
  lemma SentIsMixed(row: Samples)
    requires 0 < |row|
    ensures Ints(Bytes(Mixed(row))) == Mixed(row)
  {
    MixedFits(row);
    IntsOfBytes(Mixed(row));
  }

  /** A frame of the wrong length adds nothing to what any leg hears. */
  lemma WrongSizeIsSilent(frames: seq<seq<Byte>>, i: nat, s: nat)
    requires i < |frames| && |frames[i]| != CONFERENCE_FRAME_BYTES && s < CONFERENCE_FRAME_SAMPLES
    ensures Decoded(frames)[i][s] == 0
  {
    WholeIsDivisible(CONFERENCE_FRAME_BYTES, 2);
    IntsAt(Silence(), s);
    assert Silence()[2 * s..2 * s + 2] == [0, 0];
    ContainerValue(0, 0, 0, 0);
  }

  /** The mix of up to a full room, computed in 32- and 64-bit arithmetic with a final clip, is the
      exact one: no sum wraps, no product wraps and the clip changes nothing. */
  method MixFrames(frames: seq<seq<Byte>>) returns (outputs: seq<seq<Byte>>)
    requires |frames| <= MAX_CONFERENCE_LEGS
    ensures |outputs| == |frames|
    ensures forall i :: 0 <= i < |frames| ==> outputs[i] == Bytes(Mixed(Others(Decoded(frames), i)))
  {
    outputs := [];
    var decoded := Decoded(frames);
    for i := 0 to |frames|
      invariant |outputs| == i
      invariant forall j :: 0 <= j < i ==> outputs[j] == Bytes(Mixed(Others(decoded, j)))
    {
      MixedRowIsExact(decoded, i);
      var row := RowFor(decoded, i);
      var sent := ScaleRow(row);
      outputs := outputs + [Bytes(sent)];
    }
  }

  /** The total less the leg's own sample, in 32-bit arithmetic. */
  function RowFor(decoded: seq<Samples>, i: nat): (row: Samples)
    requires i < |decoded| && Pcm(decoded)
    ensures |row| == CONFERENCE_FRAME_SAMPLES
  {
    seq(CONFERENCE_FRAME_SAMPLES, s requires 0 <= s < CONFERENCE_FRAME_SAMPLES =>
      Wrap32(ColumnSum(decoded, s, |decoded|) - decoded[i][s]))
  }

  lemma MixedRowIsExact(decoded: seq<Samples>, i: nat)
    requires i < |decoded| <= MAX_CONFERENCE_LEGS && Pcm(decoded)
    ensures RowFor(decoded, i) == Others(decoded, i)
    ensures forall s :: 0 <= s < CONFERENCE_FRAME_SAMPLES ==> Reach(Others(decoded, i)[s]) < 0x4_0000
  {
    forall s | 0 <= s < CONFERENCE_FRAME_SAMPLES
      ensures RowFor(decoded, i)[s] == Others(decoded, i)[s] && Reach(Others(decoded, i)[s]) < 0x4_0000
    {
      DifferenceIsExact(decoded, i, s);
    }
  }

  method ScaleRow(row: Samples) returns (sent: Samples)
    requires 0 < |row| && forall s :: 0 <= s < |row| ==> Reach(row[s]) < 0x4_0000
    ensures sent == Mixed(row)
  {
    var peak := PeakOf(row);
    MixedFits(row);
    sent := row;
    if peak > 32767 {
      sent := seq(|row|, s requires 0 <= s < |row| => Wrap64(row[s] * 32767) / peak);
      assert forall s :: 0 <= s < |row| ==> Wrap64(row[s] * 32767) == row[s] * 32767;
    }
    sent := seq(|sent|, s requires 0 <= s < |sent| => Clip(sent[s]));
  }

  /** Two well-sized frames: each leg is sent the other's bytes. */
  lemma TwoLegsBitForBit(a: seq<Byte>, b: seq<Byte>)
    requires |a| == |b| == CONFERENCE_FRAME_BYTES
    ensures Bytes(Mixed(Others(Decoded([a, b]), 0))) == b
    ensures Bytes(Mixed(Others(Decoded([a, b]), 1))) == a
  {
    var d := Decoded([a, b]);
    assert d == [Ints(a), Ints(b)];
    TwoLegsHearEachOther(Ints(a), Ints(b));
    WholeIsDivisible(CONFERENCE_FRAME_BYTES, 2);
    BytesOfInts(a);
    BytesOfInts(b);
  }
}
