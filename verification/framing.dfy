/** Cutting a stream into pieces of one size, a part of the stream at a time. */
module Framing {
  import opened Arithmetic

  /** How many whole pieces fit, and whether they fill the stream. */
  function Pieces(length: nat, size: nat): (n: nat)
    requires 0 < size
  {
    if length < size then 0 else 1 + Pieces(length - size, size)
  }

  predicate Whole(length: nat, size: nat)
    requires 0 < size
  {
    if length < size then length == 0 else Whole(length - size, size)
  }

  lemma {:induction false} WholeIsDivisible(length: nat, size: nat)
    requires 0 < size
    ensures Pieces(length, size) == length / size
    ensures Whole(length, size) <==> length % size == 0
  {
    if length < size {
      DivModUnique(length, size, 0, length);
    } else {
      ModStep(length, size);
      WholeIsDivisible(length - size, size);
    }
  }

  lemma {:induction false} PiecesAdd(n: nat, m: nat, size: nat)
    requires 0 < size && Whole(n, size)
    ensures Pieces(n + m, size) == Pieces(n, size) + Pieces(m, size)
    ensures Whole(n + m, size) <==> Whole(m, size)
    decreases n
  {
    if size <= n {
      PiecesAdd(n - size, m, size);
    }
  }

  /** The whole pieces at the start of the stream. */
  function Chunks<T>(s: seq<T>, size: nat): (chunks: seq<seq<T>>)
    requires 0 < size
    ensures forall i :: 0 <= i < |chunks| ==> |chunks[i]| == size
  {
    if |s| < size then [] else [s[..size]] + Chunks(s[size..], size)
  }

  /** What is left after them. */
  function Leftover<T>(s: seq<T>, size: nat): (rest: seq<T>)
    requires 0 < size
    ensures |rest| < size
  {
    if |s| < size then s else Leftover(s[size..], size)
  }

  function Flatten<T>(pieces: seq<seq<T>>): seq<T>
  {
    if pieces == [] then [] else pieces[0] + Flatten(pieces[1..])
  }

  lemma AppendAssociative<T>(a: seq<T>, b: seq<T>, c: seq<T>)
    ensures (a + b) + c == a + (b + c)
  {
  }

  lemma AppendTail<T>(a: seq<T>, b: seq<T>)
    requires a != []
    ensures (a + b)[0] == a[0] && (a + b)[1..] == a[1..] + b
  {
  }

  lemma TakeAndDrop<T>(s: seq<T>, n: nat)
    requires n <= |s|
    ensures s == s[..n] + s[n..]
  {
  }

  lemma DropThenSlice<T>(s: seq<T>, n: nat, lo: nat, hi: nat)
    requires lo <= hi && n + hi <= |s|
    ensures s[n..][lo..hi] == s[n + lo..n + hi]
  {
  }

  lemma {:induction false} FlattenAppend<T>(a: seq<seq<T>>, b: seq<seq<T>>)
    ensures Flatten(a + b) == Flatten(a) + Flatten(b)
  {
    if a == [] {
      assert a + b == b;
    } else {
      FlattenAppend(a[1..], b);
      assert (a + b)[0] == a[0] && (a + b)[1..] == a[1..] + b;
      AppendAssociative(a[0], Flatten(a[1..]), Flatten(b));
    }
  }

  /** Nothing is lost, repeated or put out of order. */
  lemma {:induction false} ChunksThenLeftover<T>(s: seq<T>, size: nat)
    requires 0 < size
    ensures Flatten(Chunks(s, size)) + Leftover(s, size) == s
    decreases |s|
  {
    if size <= |s| {
      ChunksThenLeftover(s[size..], size);
      assert s == s[..size] + s[size..];
    }
  }

  lemma {:induction false} ChunkCount<T>(s: seq<T>, size: nat)
    requires 0 < size
    ensures |Chunks(s, size)| == |s| / size && |Leftover(s, size)| == |s| % size
    decreases |s|
  {
    if |s| < size {
      DivModUnique(|s|, size, 0, |s|);
    } else {
      ModStep(|s|, size);
      ChunkCount(s[size..], size);
    }
  }

  /** Cutting may stop anywhere and go on from what was left. */
  lemma {:induction false} ChunksResume<T>(a: seq<T>, b: seq<T>, size: nat)
    requires 0 < size
    ensures Chunks(a + b, size) == Chunks(a, size) + Chunks(Leftover(a, size) + b, size)
    ensures Leftover(a + b, size) == Leftover(Leftover(a, size) + b, size)
    decreases |a|
  {
    if |a| < size {
      assert Chunks(a, size) == [];
    } else {
      ChunksResume(a[size..], b, size);
      assert (a + b)[size..] == a[size..] + b;
      assert (a + b)[..size] == a[..size];
    }
  }
}
