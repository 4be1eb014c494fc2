/** The rational polyphase resampler, and its meaning: stuff zeros, filter, decimate.
    The filter kernel is an arbitrary sequence; no property below depends on its values. */
module Resampling {
  import opened Arithmetic
  import opened PcmCodec

  /** Filter taps in each phase, and samples of history kept between blocks. */
  const TAPS_PER_PHASE: nat := 24

  // ---------- finite sums ----------

  function Sum(f: int -> real, n: nat): real
  {
    if n == 0 then 0.0 else Sum(f, n - 1) + f(n - 1)
  }

  lemma {:induction false} SumCongruent(f: int -> real, g: int -> real, n: nat)
    requires forall k :: 0 <= k < n ==> f(k) == g(k)
    ensures Sum(f, n) == Sum(g, n)
  {
    if n > 0 {
      SumCongruent(f, g, n - 1);
    }
  }

  /** A block of terms in which at most one is not zero. */
  lemma {:induction false} SumOverBlock(f: int -> real, base: nat, width: nat, p: nat)
    requires forall k :: base <= k < base + width && k != base + p ==> f(k) == 0.0
    ensures Sum(f, base + width) == Sum(f, base) + (if p < width then f(base + p) else 0.0)
    decreases width
  {
    if width > 0 {
      SumOverBlock(f, base, width - 1, p);
    }
  }

  // ---------- the meaning of resampling ----------

  /** A signal is silent before its start and after its end. */
  function At(x: seq<real>, i: int): real
  {
    if 0 <= i < |x| then x[i] else 0.0
  }

  /** The signal with up - 1 zeros after every sample. */
  function Stuffed(x: seq<real>, up: nat, j: int): real
    requires 0 < up
  {
    if j % up == 0 then At(x, j / up) else 0.0
  }

  /** Term k of the convolution of the kernel with the stuffed signal. */
  function FilterTerm(kernel: seq<real>, x: seq<real>, up: nat, j: int): int -> real
    requires 0 < up
  {
    k => At(kernel, k) * Stuffed(x, up, j - k)
  }

  /** Output sample m: the filtered stuffed signal, every down-th sample kept. */
  function Naive(kernel: seq<real>, x: seq<real>, up: nat, down: nat, m: nat): real
    requires 0 < up
  {
    Sum(FilterTerm(kernel, x, up, m * down), |kernel|)
  }

  /** Term t of the gathered form: one phase of the kernel against consecutive samples. */
  function PhaseTerm(kernel: seq<real>, x: seq<real>, up: nat, phase: nat, center: int): int -> real
  {
    t => At(kernel, phase + t * up) * At(x, center - t)
  }

  function Polyphase(kernel: seq<real>, x: seq<real>, up: nat, down: nat, taps: nat, m: nat): real
    requires 0 < up
  {
    Sum(PhaseTerm(kernel, x, up, (m * down) % up, (m * down) / up), taps)
  }

  /** Position j - (t * up + p) of the stuffed signal. */
  lemma StuffedAt(x: seq<real>, up: nat, j: nat, t: nat, p: nat)
    requires p < up
    ensures Stuffed(x, up, j - (t * up + p)) ==
            if p == j % up then At(x, j / up - t) else 0.0
  {
    var q, r := j / up, j % up;
    Distribute(q, t, up);
    if p <= r {
      DivModUnique(j - (t * up + p), up, q - t, r - p);
    } else {
      Distribute(q - t, 1, up);
      DivModUnique(j - (t * up + p), up, q - t - 1, up + r - p);
    }
  }

  /** Of the up kernel values in block t only the one in phase meets a sample. */
  lemma TermInBlock(kernel: seq<real>, x: seq<real>, up: nat, j: nat, t: nat, p: nat)
    requires p < up
    ensures FilterTerm(kernel, x, up, j)(t * up + p) ==
            if p == j % up then PhaseTerm(kernel, x, up, j % up, j / up)(t) else 0.0
  {
    StuffedAt(x, up, j, t, p);
    var h := At(kernel, t * up + p);
    assert h * 0.0 == 0.0;
  }

  lemma OneBlock(kernel: seq<real>, x: seq<real>, up: nat, j: nat, t: nat, base: nat)
    requires 0 < up && base == t * up
    ensures var f := FilterTerm(kernel, x, up, j);
      Sum(f, base + up) == Sum(f, base) + PhaseTerm(kernel, x, up, j % up, j / up)(t)
  {
    var f, p := FilterTerm(kernel, x, up, j), j % up;
    forall k | base <= k < base + up && k != base + p ensures f(k) == 0.0 {
      TermInBlock(kernel, x, up, j, t, k - base);
    }
    TermInBlock(kernel, x, up, j, t, p);
    SumOverBlock(f, base, up, p);
  }

  lemma {:induction false} BlocksOfOnePhase(kernel: seq<real>, x: seq<real>, up: nat, j: nat, taps: nat, n: nat)
    requires 0 < up && n == taps * up
    ensures Sum(FilterTerm(kernel, x, up, j), n) == Sum(PhaseTerm(kernel, x, up, j % up, j / up), taps)
    decreases taps
  {
    if taps > 0 {
      Distribute(taps, 1, up);
      MulMonotone(0, taps - 1, up);
      BlocksOfOnePhase(kernel, x, up, j, taps - 1, n - up);
      OneBlock(kernel, x, up, j, taps - 1, n - up);
    }
  }

  /** The polyphase form is the naive one, for every kernel of taps * up values, every rate pair,
      every signal and every output sample. */
  lemma PolyphaseIsNaive(kernel: seq<real>, x: seq<real>, up: nat, down: nat, taps: nat, m: nat)
    requires 0 < up && |kernel| == taps * up
    ensures Polyphase(kernel, x, up, down, taps, m) == Naive(kernel, x, up, down, m)
  {
    BlocksOfOnePhase(kernel, x, up, m * down, taps, |kernel|);
  }

  /** The first n output samples of a whole stream. */
  function Resampled(kernel: seq<real>, x: seq<real>, up: nat, down: nat, n: nat): (y: seq<real>)
    requires 0 < up
    ensures |y| == n
  {
    seq(n, m requires 0 <= m < n => Naive(kernel, x, up, down, m))
  }

  /** A later sample never changes an earlier output. */
  lemma Causal(kernel: seq<real>, x: seq<real>, later: seq<real>, up: nat, down: nat, taps: nat, m: nat)
    requires 0 < up && |kernel| == taps * up && (m * down) / up < |x|
    ensures Naive(kernel, x + later, up, down, m) == Naive(kernel, x, up, down, m)
  {
    PolyphaseIsNaive(kernel, x, up, down, taps, m);
    PolyphaseIsNaive(kernel, x + later, up, down, taps, m);
    var phase, center := (m * down) % up, (m * down) / up;
    SumCongruent(PhaseTerm(kernel, x + later, up, phase, center), PhaseTerm(kernel, x, up, phase, center), taps);
  }

  // ---------- one block at a time ----------

  /** Where an output centred on a sample of the block reads, tap by tap, in the tail followed by
      the block. */
  function GatherRow(taps: nat, center: nat): (row: seq<int>)
    ensures |row| == taps
  {
    seq(taps, t => taps + center - t)
  }

  /** One phase of the kernel. */
  function CoeffRow(kernel: seq<real>, up: nat, taps: nat, phase: nat): (row: seq<real>)
    requires phase < up && |kernel| == taps * up
    ensures |row| == taps
  {
    seq(taps, t requires 0 <= t < taps =>
      (MulMonotone(t, taps - 1, up); MulMonotone(0, t, up); kernel[phase + t * up]))
  }

  /** Sum of the first n products of a row of coefficients with the samples it gathers. */
  function Dot(coeffs: seq<real>, gather: seq<int>, x: seq<real>, n: nat): real
    requires n <= |coeffs| == |gather|
    requires forall t :: 0 <= t < n ==> 0 <= gather[t] < |x|
  {
    if n == 0 then 0.0 else Dot(coeffs, gather, x, n - 1) + coeffs[n - 1] * x[gather[n - 1]]
  }

  function Zeros(n: nat): (z: seq<real>)
    ensures |z| == n && forall i :: 0 <= i < n ==> z[i] == 0.0
  {
    seq(n, _ => 0.0)
  }

  /** The last taps samples of a signal that was silent before it started. */
  function Tail(heard: seq<real>, taps: nat): (tail: seq<real>)
    ensures |tail| == taps
  {
    (Zeros(taps) + heard)[|heard|..]
  }

  lemma TailOfSilence(taps: nat)
    ensures Tail([], taps) == Zeros(taps)
  {
  }

  lemma TailExtends(heard: seq<real>, block: seq<real>, taps: nat)
    ensures var x := Tail(heard, taps) + block; x[|x| - taps..] == Tail(heard + block, taps)
  {
    var padded := Zeros(taps) + heard;
    assert Zeros(taps) + (heard + block) == padded + block;
    assert Tail(heard, taps) + block == (padded + block)[|heard|..];
  }

  lemma TailAt(heard: seq<real>, block: seq<real>, taps: nat, i: int)
    requires 0 <= taps + i && i < |block|
    ensures (Tail(heard, taps) + block)[taps + i] == At(heard + block, |heard| + i)
  {
  }

  /** The centre of every output of a block is a sample of that block. */
  lemma CenterInBlock(up: nat, down: nat, inSamples: nat, outSamples: nat, o: nat)
    requires 0 < up && 0 < down && inSamples * up == outSamples * down && o < outSamples
    ensures (o * down) / up < inSamples
  {
    MulMonotone(o + 1, outSamples, down);
    Distribute(o, 1, down);
    if inSamples <= (o * down) / up {
      MulMonotone(inSamples, (o * down) / up, up);
    }
  }

  /** Every gather index lies in the tail or the block, every coefficient index in the kernel. */
  lemma IndexesInRange(up: nat, taps: nat, inSamples: nat, phase: nat, center: nat)
    requires phase < up && center < inSamples
    ensures forall t :: 0 <= t < taps ==> 0 < GatherRow(taps, center)[t] < taps + inSamples
    ensures forall t :: 0 <= t < taps ==> 0 <= phase + t * up < taps * up
  {
    forall t | 0 <= t < taps ensures 0 <= phase + t * up < taps * up {
      MulMonotone(t, taps - 1, up);
      MulMonotone(0, t, up);
    }
  }

  /** Output o of the block after `blocks` whole blocks is output blocks * outSamples + o of the stream. */
  lemma StreamPosition(up: nat, down: nat, inSamples: nat, outSamples: nat, blocks: nat, o: nat)
    requires 0 < up && inSamples * up == outSamples * down
    ensures var j := (blocks * outSamples + o) * down;
      j % up == (o * down) % up && j / up == blocks * inSamples + (o * down) / up
  {
    calc {
      (blocks * outSamples + o) * down;
      blocks * (outSamples * down) + o * down;
      (blocks * inSamples) * up + o * down;
    }
    Distribute(blocks * inSamples, (o * down) / up, up);
    DivModUnique((blocks * outSamples + o) * down, up, blocks * inSamples + (o * down) / up, (o * down) % up);
  }

  /** One gathered product is the matching term of the sum over the whole stream. */
  lemma TermOfBlock(kernel: seq<real>, heard: seq<real>, block: seq<real>, up: nat, taps: nat, phase: nat,
                    center: nat, t: nat)
    requires phase < up && |kernel| == taps * up && t < taps && center < |block|
    ensures CoeffRow(kernel, up, taps, phase)[t] * (Tail(heard, taps) + block)[GatherRow(taps, center)[t]]
         == PhaseTerm(kernel, heard + block, up, phase, |heard| + center)(t)
  {
    TailAt(heard, block, taps, center - t);
    MulMonotone(t, taps - 1, up);
    MulMonotone(0, t, up);
  }

  /** So are their sums. */
  lemma {:induction false} StreamDot(kernel: seq<real>, heard: seq<real>, block: seq<real>, up: nat, taps: nat, phase: nat,
                                     center: nat, n: nat)
    requires phase < up && |kernel| == taps * up && center < |block| && n <= taps
    ensures Dot(CoeffRow(kernel, up, taps, phase), GatherRow(taps, center), Tail(heard, taps) + block, n)
         == Sum(PhaseTerm(kernel, heard + block, up, phase, |heard| + center), n)
    decreases n
  {
    if n > 0 {
      StreamDot(kernel, heard, block, up, taps, phase, center, n - 1);
      TermOfBlock(kernel, heard, block, up, taps, phase, center, n - 1);
    }
  }

  /** What one block computes for output o is the naive resampling of the whole stream so far. */
  lemma BlockIsStream(kernel: seq<real>, heard: seq<real>, block: seq<real>, up: nat, down: nat, taps: nat,
                      outSamples: nat, blocks: nat, o: nat)
    requires 0 < up && 0 < down && |kernel| == taps * up && o < outSamples
    requires |block| * up == outSamples * down && |heard| == blocks * |block|
    ensures var phase, center := (o * down) % up, (o * down) / up;
      && center < |block|
      && Dot(CoeffRow(kernel, up, taps, phase), GatherRow(taps, center), Tail(heard, taps) + block, taps)
         == Naive(kernel, heard + block, up, down, blocks * outSamples + o)
  {
    CenterInBlock(up, down, |block|, outSamples, o);
    StreamPosition(up, down, |block|, outSamples, blocks, o);
    StreamDot(kernel, heard, block, up, taps, (o * down) % up, (o * down) / up, taps);
    PolyphaseIsNaive(kernel, heard + block, up, down, taps, blocks * outSamples + o);
  }

  /** Outputs of earlier blocks stay the same when the stream grows by one block. */
  lemma StreamExtends(kernel: seq<real>, heard: seq<real>, block: seq<real>, up: nat, down: nat, taps: nat,
                      outSamples: nat, blocks: nat, out: seq<real>)
    requires 0 < up && 0 < down && |kernel| == taps * up && |out| == outSamples
    requires |block| * up == outSamples * down && |heard| == blocks * |block|
    requires forall o :: 0 <= o < outSamples ==>
      out[o] == Naive(kernel, heard + block, up, down, blocks * outSamples + o)
    ensures Resampled(kernel, heard, up, down, blocks * outSamples) + out
         == Resampled(kernel, heard + block, up, down, (blocks + 1) * outSamples)
  {
    Distribute(blocks, 1, outSamples);
    var before := blocks * outSamples;
    calc {
      |heard| * up;
      (blocks * |block|) * up;
      blocks * (outSamples * down);
      before * down;
    }
    forall m | 0 <= m < before
      ensures Naive(kernel, heard + block, up, down, m) == Naive(kernel, heard, up, down, m)
    {
      CenterInBlock(up, down, |heard|, before, m);
      Causal(kernel, heard, block, up, down, taps, m);
    }
  }

  // ---------- the stateful resampler ----------

  /** Resampling factors in lowest terms. */
  function Up(srcRate: nat, dstRate: nat): (up: nat)
    requires 0 < srcRate && 0 < dstRate
    ensures 0 < up && up * Gcd(srcRate, dstRate) == dstRate
  {
    PositiveQuotient(dstRate, Gcd(srcRate, dstRate));
    dstRate / Gcd(srcRate, dstRate)
  }

  function Down(srcRate: nat, dstRate: nat): (down: nat)
    requires 0 < srcRate && 0 < dstRate
    ensures 0 < down && down * Gcd(srcRate, dstRate) == srcRate
  {
    PositiveQuotient(srcRate, Gcd(srcRate, dstRate));
    srcRate / Gcd(srcRate, dstRate)
  }

  /** The factors are in lowest terms and keep the ratio of the rates, so no filter with fewer phases
      serves the same pair of rates. */
  lemma LowestTerms(srcRate: nat, dstRate: nat, d: nat)
    requires 0 < srcRate && 0 < dstRate && 0 < d
    requires Up(srcRate, dstRate) % d == 0 && Down(srcRate, dstRate) % d == 0
    ensures d == 1
    ensures Up(srcRate, dstRate) * srcRate == Down(srcRate, dstRate) * dstRate
  {
    var g, up, down := Gcd(srcRate, dstRate), Up(srcRate, dstRate), Down(srcRate, dstRate);
    Regroup3(up / d, d, g);
    Regroup3(down / d, d, g);
    NoLargerDivisor(srcRate, dstRate, d, up / d, down / d);
    Regroup3(up, down, g);
    Regroup3(down, up, g);
  }

  lemma Regroup3(a: int, b: int, c: int)
    ensures (a * b) * c == a * (b * c)
  {
  }

  lemma NoLargerDivisor(a: nat, b: nat, d: nat, u: nat, v: nat)
    requires 0 < a && 0 < b && 0 < d && v * (d * Gcd(a, b)) == a && u * (d * Gcd(a, b)) == b
    ensures d == 1
  {
    var g := Gcd(a, b);
    MulMonotone(1, d, g);
    var k := d * g;
    MultipleMod(u, k);
    MultipleMod(v, k);
    GcdIsGreatest(a, b, k);
    PositiveMultiple(g, k);
    if d > 1 {
      MulMonotone(2, d, g);
    }
  }

  /** Blocks that hold a whole number of output samples leave no remainder, so nothing drifts. */
  lemma NoDrift(srcRate: nat, dstRate: nat, inSamples: nat, outSamples: nat)
    requires 0 < srcRate && 0 < dstRate && inSamples * dstRate == outSamples * srcRate
    ensures inSamples * Up(srcRate, dstRate) == outSamples * Down(srcRate, dstRate)
    ensures (inSamples * Up(srcRate, dstRate)) / Down(srcRate, dstRate) == outSamples
  {
    var g, up, down := Gcd(srcRate, dstRate), Up(srcRate, dstRate), Down(srcRate, dstRate);
    calc {
      (inSamples * up) * g;
      inSamples * (up * g);
      outSamples * (down * g);
      (outSamples * down) * g;
    }
    CancelFactor(inSamples * up, outSamples * down, g);
    MultipleMod(outSamples, down);
  }

  /** Equal factors mean equal rates: then blocks pass through untouched. */
  lemma SameFactors(srcRate: nat, dstRate: nat)
    requires 0 < srcRate && 0 < dstRate
    ensures Up(srcRate, dstRate) == Down(srcRate, dstRate) <==> srcRate == dstRate
  {
  }

  /** The converted stream of one channel after a whole number of blocks. */
  function StreamOut(kernel: seq<real>, x: seq<real>, up: nat, down: nat, n: nat): (y: seq<real>)
    requires 0 < up
  {
    if up == down then x else Resampled(kernel, x, up, down, n)
  }

  function PhaseOf(up: nat, down: nat, o: nat): (phase: nat)
    requires 0 < up
    ensures phase == (o * down) % up
  {
    MulMonotone(0, o, down);
    (o * down) % up
  }

  function CenterOf(up: nat, down: nat, o: nat): (center: nat)
    requires 0 < up
    ensures center == (o * down) / up
  {
    MulMonotone(0, o, down);
    DivMonotone(0, o * down, up);
    (o * down) / up
  }

  /** Phase and centre of every output of a block. */
  ghost predicate Positions(up: nat, down: nat, outSamples: nat, phases: seq<nat>, centers: seq<nat>)
    requires 0 < up
  {
    && |phases| == |centers| == outSamples
    && forall o :: 0 <= o < outSamples ==> phases[o] == (o * down) % up && centers[o] == (o * down) / up
  }

  predicate Bounded(s: seq<nat>, bound: nat)
  {
    forall o :: 0 <= o < |s| ==> s[o] < bound
  }

  /** The precomputed tables of one resampler, output by output. */
  function GatherTable(taps: nat, centers: seq<nat>): (gather: seq<seq<int>>)
    ensures |gather| == |centers|
    ensures forall o :: 0 <= o < |centers| ==> gather[o] == GatherRow(taps, centers[o])
  {
    seq(|centers|, o requires 0 <= o < |centers| => GatherRow(taps, centers[o]))
  }

  function CoeffTable(kernel: seq<real>, up: nat, taps: nat, phases: seq<nat>): (coeffs: seq<seq<real>>)
    requires |kernel| == taps * up && Bounded(phases, up)
    ensures |coeffs| == |phases|
    ensures forall o :: 0 <= o < |phases| ==> coeffs[o] == CoeffRow(kernel, up, taps, phases[o])
  {
    seq(|phases|, o requires 0 <= o < |phases| => CoeffRow(kernel, up, taps, phases[o]))
  }

  ghost predicate Readable(gather: seq<seq<int>>, coeffs: seq<seq<real>>, taps: nat, samples: nat)
  {
    && |gather| == |coeffs|
    && (forall o :: 0 <= o < |gather| ==> |gather[o]| == |coeffs[o]| == taps)
    && (forall o, t :: 0 <= o < |gather| && 0 <= t < taps ==> 0 <= gather[o][t] < samples)
  }

  /** One channel of one block: every output gathers its taps. */
  function BlockOut(gather: seq<seq<int>>, coeffs: seq<seq<real>>, x: seq<real>, taps: nat): (out: seq<real>)
    requires Readable(gather, coeffs, taps, |x|)
    ensures |out| == |gather|
  {
    seq(|gather|, o requires 0 <= o < |gather| => Dot(coeffs[o], gather[o], x, taps))
  }

  lemma CentersInBlock(up: nat, down: nat, inSamples: nat, outSamples: nat, phases: seq<nat>, centers: seq<nat>)
    requires 0 < up && 0 < down && inSamples * up == outSamples * down
    requires Positions(up, down, outSamples, phases, centers)
    ensures Bounded(centers, inSamples) && Bounded(phases, up)
  {
    forall o | 0 <= o < outSamples ensures centers[o] < inSamples {
      CenterInBlock(up, down, inSamples, outSamples, o);
    }
  }

  /** Every gather index of every output lies in the tail or the block. */
  lemma TablesReadable(kernel: seq<real>, up: nat, taps: nat, inSamples: nat, phases: seq<nat>, centers: seq<nat>)
    requires |kernel| == taps * up && Bounded(phases, up) && Bounded(centers, inSamples) && |phases| == |centers|
    ensures Readable(GatherTable(taps, centers), CoeffTable(kernel, up, taps, phases), taps, taps + inSamples)
  {
  }

  /** One channel, one block: the outputs continue the naive resampling of the whole stream. */
  lemma BlockContinuesStream(kernel: seq<real>, heard: seq<real>, block: seq<real>, up: nat, down: nat,
                             taps: nat, outSamples: nat, blocks: nat, phases: seq<nat>, centers: seq<nat>)
    requires 0 < up && |kernel| == taps * up && Positions(up, down, outSamples, phases, centers) && Bounded(phases, up)
    requires 0 < down && |block| * up == outSamples * down && |heard| == blocks * |block|
    requires Readable(GatherTable(taps, centers), CoeffTable(kernel, up, taps, phases), taps, taps + |block|)
    ensures Resampled(kernel, heard + block, up, down, (blocks + 1) * outSamples)
         == Resampled(kernel, heard, up, down, blocks * outSamples)
            + BlockOut(GatherTable(taps, centers), CoeffTable(kernel, up, taps, phases), Tail(heard, taps) + block, taps)
  {
    var out := BlockOut(GatherTable(taps, centers), CoeffTable(kernel, up, taps, phases), Tail(heard, taps) + block, taps);
    forall o | 0 <= o < outSamples
      ensures out[o] == Naive(kernel, heard + block, up, down, blocks * outSamples + o)
    {
      BlockIsStream(kernel, heard, block, up, down, taps, outSamples, blocks, o);
    }
    StreamExtends(kernel, heard, block, up, down, taps, outSamples, blocks, out);
  }

  /** The same with the widths as repeated additions. */
  lemma BlockExtends(kernel: seq<real>, heard: seq<real>, block: seq<real>, up: nat, down: nat,
                     taps: nat, outSamples: nat, blocks: nat, phases: seq<nat>, centers: seq<nat>)
    requires 0 < up && |kernel| == taps * up && Positions(up, down, outSamples, phases, centers) && Bounded(phases, up)
    requires 0 < down && |block| * up == outSamples * down && |heard| == Times(blocks, |block|)
    requires Readable(GatherTable(taps, centers), CoeffTable(kernel, up, taps, phases), taps, taps + |block|)
    ensures Resampled(kernel, heard + block, up, down, Times(blocks + 1, outSamples))
         == Resampled(kernel, heard, up, down, Times(blocks, outSamples))
            + BlockOut(GatherTable(taps, centers), CoeffTable(kernel, up, taps, phases), Tail(heard, taps) + block, taps)
  {
    TimesIsProduct(blocks, |block|);
    TimesIsProduct(blocks, outSamples);
    TimesIsProduct(blocks + 1, outSamples);
    BlockContinuesStream(kernel, heard, block, up, down, taps, outSamples, blocks, phases, centers);
  }

  class PolyphaseResampler {
    const up: nat
    const down: nat
    const identity: bool
    const history: nat
    const gather: seq<seq<int>>
    const coeffs: seq<seq<real>>
    var tail: Planar

    ghost const kernel: seq<real>
    ghost const phases: seq<nat>
    ghost const centers: seq<nat>
    ghost const inSamples: nat
    ghost const outSamples: nat
    ghost const channels: nat
    ghost var blocks: nat
    ghost var heard: Planar

    ghost predicate Shape()
    {
      && 0 < up && 0 < down && inSamples * up == outSamples * down
      && (identity <==> up == down)
      && (!identity ==>
        && |kernel| == history * up
        && Positions(up, down, outSamples, phases, centers) && Bounded(phases, up)
        && gather == GatherTable(history, centers) && coeffs == CoeffTable(kernel, up, history, phases)
        && Readable(gather, coeffs, history, history + inSamples))
    }

    ghost predicate Valid()
      reads this
    {
      && Shape()
      && Rectangular(heard, channels, Times(blocks, inSamples))
      && (!identity ==> |tail| == channels && forall c :: 0 <= c < channels ==> tail[c] == Tail(heard[c], history))
    }

    constructor (srcRate: nat, dstRate: nat, inSamples: nat, channels: nat, kernel: seq<real>)
      requires 0 < srcRate && 0 < dstRate && (inSamples * dstRate) % srcRate == 0
      requires srcRate != dstRate ==> |kernel| == TAPS_PER_PHASE * Up(srcRate, dstRate)
      ensures Valid() && blocks == 0
      ensures this.channels == channels && this.inSamples == inSamples && this.kernel == kernel
      ensures up == Up(srcRate, dstRate) && down == Down(srcRate, dstRate)
      ensures outSamples * srcRate == inSamples * dstRate
      ensures forall c :: 0 <= c < channels ==> heard[c] == []
    {
      up, down := Up(srcRate, dstRate), Down(srcRate, dstRate);
      identity := Up(srcRate, dstRate) == Down(srcRate, dstRate);
      history := TAPS_PER_PHASE;
      NoDrift(srcRate, dstRate, inSamples, (inSamples * dstRate) / srcRate);
      SameFactors(srcRate, dstRate);
      var out := (inSamples * Up(srcRate, dstRate)) / Down(srcRate, dstRate);
      if srcRate != dstRate {
        var phase := seq(out, o requires 0 <= o < out => PhaseOf(Up(srcRate, dstRate), Down(srcRate, dstRate), o));
        var center := seq(out, o requires 0 <= o < out => CenterOf(Up(srcRate, dstRate), Down(srcRate, dstRate), o));
        CentersInBlock(Up(srcRate, dstRate), Down(srcRate, dstRate), inSamples, out, phase, center);
        TablesReadable(kernel, Up(srcRate, dstRate), TAPS_PER_PHASE, inSamples, phase, center);
        gather := GatherTable(TAPS_PER_PHASE, center);
        coeffs := CoeffTable(kernel, Up(srcRate, dstRate), TAPS_PER_PHASE, phase);
        tail := seq(channels, _ => Zeros(TAPS_PER_PHASE));
        phases, centers := phase, center;
        TailOfSilence(TAPS_PER_PHASE);
      } else {
        gather, coeffs, tail := [], [], [];
        phases, centers := [], [];
      }
      this.kernel, this.inSamples, this.outSamples, this.channels := kernel, inSamples, out, channels;
      blocks, heard := 0, seq(channels, _ => []);
    }

    /** One block in, one block out. Together the outputs of all calls are the naive resampling of
        all the inputs. */
    method Process(block: Planar) returns (out: Planar)
      requires Valid() && Rectangular(block, channels, inSamples)
      modifies this
      ensures Valid() && blocks == old(blocks) + 1 && heard == Join(old(heard), block)
      ensures Rectangular(out, channels, outSamples)
      ensures forall c :: 0 <= c < channels ==>
        StreamOut(kernel, heard[c], up, down, Times(blocks, outSamples))
        == StreamOut(kernel, old(heard)[c], up, down, Times(old(blocks), outSamples)) + out[c]
    {
      ghost var before, n := heard, blocks;
      heard, blocks := Join(heard, block), blocks + 1;
      if identity {
        SameWidth();
        return block;
      }
      out := Filter(block, before, n);
    }

    lemma SameWidth()
      requires Shape() && identity
      ensures inSamples == outSamples
    {
      CancelFactor(inSamples, outSamples, up);
    }

    /** The table-driven filter: tail and block are read through the gather table, then the tail moves on. */
    method Filter(block: Planar, ghost before: Planar, ghost n: nat) returns (out: Planar)
      requires Shape() && !identity
      requires Rectangular(block, channels, inSamples) && Rectangular(before, channels, Times(n, inSamples))
      requires |tail| == channels && forall c :: 0 <= c < channels ==> tail[c] == Tail(before[c], history)
      modifies `tail
      ensures |tail| == channels && forall c :: 0 <= c < channels ==> tail[c] == Tail(before[c] + block[c], history)
      ensures Rectangular(out, channels, outSamples)
      ensures forall c :: 0 <= c < channels ==>
        Resampled(kernel, before[c] + block[c], up, down, Times(n + 1, outSamples))
        == Resampled(kernel, before[c], up, down, Times(n, outSamples)) + out[c]
    {
      var x := Join(tail, block);
      var keep, rows, cols := history, coeffs, gather;
      tail := seq(|x|, c requires 0 <= c < |x| => x[c][|x[c]| - keep..]);
      out := seq(|x|, c requires 0 <= c < |x| => BlockOut(cols, rows, x[c], keep));
      forall c | 0 <= c < channels
        ensures tail[c] == Tail(before[c] + block[c], history)
        ensures Resampled(kernel, before[c] + block[c], up, down, Times(n + 1, outSamples))
             == Resampled(kernel, before[c], up, down, Times(n, outSamples)) + out[c]
      {
        TailExtends(before[c], block[c], history);
        BlockExtends(kernel, before[c], block[c], up, down, history, outSamples, n, phases, centers);
      }
    }
  }
}
