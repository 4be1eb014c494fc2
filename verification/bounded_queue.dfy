/** Queues that make room by dropping their oldest element, and what a run of one accounts for. */
module BoundedQueues {

  datatype QueueOp<T> = Put(value: T) | Get

  function Offered<T>(q: seq<T>, x: T, bound: nat): seq<T>
  {
    (if |q| >= bound && q != [] then q[1..] else q) + [x]
  }

  function Polled<T>(q: seq<T>): seq<T>
  {
    if q == [] then q else q[1..]
  }

  function Done<T>(q: seq<T>, op: QueueOp<T>, bound: nat): seq<T>
  {
    match op
    case Put(x) => Offered(q, x, bound)
    case Get => Polled(q)
  }

  function Queue<T>(q: seq<T>, ops: seq<QueueOp<T>>, bound: nat): seq<T>
    decreases |ops|
  {
    if ops == [] then q else Queue(Done(q, ops[0], bound), ops[1..], bound)
  }

  function Arrived<T>(ops: seq<QueueOp<T>>): seq<T>
  {
    if ops == [] then [] else (if ops[0].Put? then [ops[0].value] else []) + Arrived(ops[1..])
  }

  /** What left the queue, in the order it left, and whether it was taken or dropped. */
  datatype Exit<T> = Exit(value: T, taken: bool)

  function Leaving<T>(q: seq<T>, op: QueueOp<T>, bound: nat): (left: seq<Exit<T>>)
    ensures |left| <= 1
  {
    if q == [] then []
    else if op.Get? then [Exit(q[0], true)]
    else if |q| >= bound then [Exit(q[0], false)]
    else []
  }

  function Exits<T>(q: seq<T>, ops: seq<QueueOp<T>>, bound: nat): seq<Exit<T>>
    decreases |ops|
  {
    if ops == [] then []
    else
      Leaving(q, ops[0], bound) + Exits(Done(q, ops[0], bound), ops[1..], bound)
  }

  function Values<T>(exits: seq<Exit<T>>): seq<T>
  {
    if exits == [] then [] else [exits[0].value] + Values(exits[1..])
  }

  /** How many left the queue by being taken, or by being dropped. */
  function Count<T>(exits: seq<Exit<T>>, taken: bool): nat
  {
    if exits == [] then 0 else (if exits[0].taken == taken then 1 else 0) + Count(exits[1..], taken)
  }

  lemma {:induction false} ValuesAppend<T>(a: seq<Exit<T>>, b: seq<Exit<T>>)
    ensures Values(a + b) == Values(a) + Values(b)
    decreases |a|
  {
    if a == [] {
      assert a + b == b;
    } else {
      assert (a + b)[0] == a[0] && (a + b)[1..] == a[1..] + b;
      ValuesAppend(a[1..], b);
    }
  }

  lemma {:induction false} CountAppend<T>(a: seq<Exit<T>>, b: seq<Exit<T>>, taken: bool)
    ensures Count(a + b, taken) == Count(a, taken) + Count(b, taken)
    decreases |a|
  {
    if a == [] {
      assert a + b == b;
    } else {
      assert (a + b)[0] == a[0] && (a + b)[1..] == a[1..] + b;
      CountAppend(a[1..], b, taken);
    }
  }

  lemma {:induction false} CountAll<T>(exits: seq<Exit<T>>)
    ensures Count(exits, true) + Count(exits, false) == |Values(exits)|
    decreases |exits|
  {
    if exits != [] {
      CountAll(exits[1..]);
    }
  }

  lemma OneStep<T>(q: seq<T>, op: QueueOp<T>, bound: nat)
    requires |q| <= bound && 0 < bound
    ensures |Done(q, op, bound)| <= bound
    ensures q + (if op.Put? then [op.value] else [])
      == (if q != [] && (op.Get? || |q| >= bound) then [q[0]] else []) + Done(q, op, bound)
  {
  }

  /** A queue never exceeds its bound; what left it and what it still holds are exactly what was in it
      and what arrived, in order of arrival. */
  lemma {:induction false} KeepsOrder<T>(q: seq<T>, ops: seq<QueueOp<T>>, bound: nat)
    requires |q| <= bound && 0 < bound
    ensures |Queue(q, ops, bound)| <= bound
    ensures Values(Exits(q, ops, bound)) + Queue(q, ops, bound) == q + Arrived(ops)
    decreases |ops|
  {
    if ops == [] {
      assert [] + q == q == q + [];
    } else {
      var op, p := ops[0], Done(q, ops[0], bound);
      OneStep(q, op, bound);
      KeepsOrder(p, ops[1..], bound);
      var first := Leaving(q, op, bound);
      ValuesAppend(first, Exits(p, ops[1..], bound));
      var v, more := Values(first), if op.Put? then [op.value] else [];
      assert v == if q != [] && (op.Get? || |q| >= bound) then [q[0]] else [] by {
        if first != [] {
          assert first[1..] == [];
        }
      }
      Joined(v, Values(Exits(p, ops[1..], bound)), Queue(p, ops[1..], bound));
      Joined(v, p, Arrived(ops[1..]));
      Joined(q, more, Arrived(ops[1..]));
    }
  }

  lemma Joined<T>(a: seq<T>, b: seq<T>, c: seq<T>)
    ensures a + (b + c) == (a + b) + c
  {
  }

  /** Everything that arrived was taken, dropped, or is still queued. */
  lemma Accounting<T>(q: seq<T>, ops: seq<QueueOp<T>>, bound: nat)
    requires |q| <= bound && 0 < bound
    ensures |q| + |Arrived(ops)|
      == Count(Exits(q, ops, bound), true) + Count(Exits(q, ops, bound), false) + |Queue(q, ops, bound)|
  {
    KeepsOrder(q, ops, bound);
    CountAll(Exits(q, ops, bound));
    assert |Values(Exits(q, ops, bound)) + Queue(q, ops, bound)| == |q + Arrived(ops)|;
  }

  lemma {:induction false} QueueAppend<T>(q: seq<T>, a: seq<QueueOp<T>>, b: seq<QueueOp<T>>, bound: nat)
    ensures Queue(q, a + b, bound) == Queue(Queue(q, a, bound), b, bound)
    ensures Exits(q, a + b, bound) == Exits(q, a, bound) + Exits(Queue(q, a, bound), b, bound)
    decreases |a|
  {
    if a == [] {
      assert a + b == b;
      assert [] + Exits(q, b, bound) == Exits(q, b, bound);
    } else {
      assert (a + b)[0] == a[0] && (a + b)[1..] == a[1..] + b;
      var p := Done(q, a[0], bound);
      QueueAppend(p, a[1..], b, bound);
      var first := Leaving(q, a[0], bound);
      Joined(first, Exits(p, a[1..], bound), Exits(Queue(p, a[1..], bound), b, bound));
    }
  }

  function Puts<T>(xs: seq<T>): seq<QueueOp<T>>
  {
    if xs == [] then [] else [Put(xs[0])] + Puts(xs[1..])
  }

  /** The last elements of a sequence, as many as there may be. */
  function Newest<T>(s: seq<T>, bound: nat): seq<T>
  {
    if |s| <= bound then s else s[|s| - bound..]
  }

  lemma NewestStep<T>(q: seq<T>, x: T, rest: seq<T>, bound: nat)
    requires |q| <= bound && 0 < bound
    ensures Newest(Offered(q, x, bound) + rest, bound) == Newest(q + ([x] + rest), bound)
  {
    assert Offered(q, x, bound) + rest == (if |q| >= bound then (q + ([x] + rest))[1..] else q + ([x] + rest));
  }

  /** However much arrives, a queue from which nothing is taken holds the newest elements, as many as fit:
      nothing is dropped while there is room. */
  lemma {:induction false} KeepsNewest<T>(q: seq<T>, xs: seq<T>, bound: nat)
    requires |q| <= bound && 0 < bound
    ensures Queue(q, Puts(xs), bound) == Newest(q + xs, bound)
    decreases |xs|
  {
    if xs == [] {
      assert q + xs == q;
    } else {
      assert Puts(xs)[1..] == Puts(xs[1..]);
      KeepsNewest(Offered(q, xs[0], bound), xs[1..], bound);
      NewestStep(q, xs[0], xs[1..], bound);
      assert [xs[0]] + xs[1..] == xs;
    }
  }

  /** Whoever takes from the queue gets the oldest element, if there is one. */
  lemma TakesOldest<T>(q: seq<T>, ops: seq<QueueOp<T>>, bound: nat)
    ensures var p, exits := Queue(q, ops, bound), Exits(q, ops, bound);
      if p == [] then
        Queue(q, ops + [Get], bound) == [] && Exits(q, ops + [Get], bound) == exits
      else
        Queue(q, ops + [Get], bound) == p[1..] && Exits(q, ops + [Get], bound) == exits + [Exit(p[0], true)]
  {
    var p := Queue(q, ops, bound);
    QueueAppend(q, ops, [Get], bound);
    assert [QueueOp<T>.Get][1..] == [];
    assert Queue(p, [Get], bound) == Queue(Polled(p), [], bound);
    assert Exits(p, [Get], bound) == Leaving(p, Get, bound) + Exits(Polled(p), [], bound);
  }
}
