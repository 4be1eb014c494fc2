/** Automation event contexts: what an equal (state, sequence) pair says about the time in between. */
module EventContexts {
  import opened Wrappers
  import opened OrderedDicts
  import opened Tombstones
  import opened RegistryState

  type Contexts = Dict<CallId, EventContext>

  /** Every context has a life of its own, from those begun so far, and counts from its first state. */
  ghost predicate Lives(r: Registry)
  {
    && Distinct(r.contexts)
    && (forall e :: e in r.contexts && e.1.sequence == 0 ==> e.1.state == "")
    && (forall e :: e in r.contexts ==> e.1.life < r.lives)
    && (forall e, x :: e in r.contexts && x in r.contexts && e.1.life == x.1.life ==> e == x)
  }

  /** The same context later in its life: it counted every change of its state. */
  predicate LaterContext(x: EventContext, y: EventContext)
  {
    && x.life == y.life && x.sequence <= y.sequence
    && (x.sequence == y.sequence ==> x.state == y.state)
  }

  /** Contexts whose life had begun are the ones there were, later in life. */
  ghost predicate Ages(a: Registry, b: Registry)
  {
    && a.lives <= b.lives
    && forall e :: e in b.contexts && e.1.life < a.lives ==>
      exists x :: (e.0, x) in a.contexts && LaterContext(x, e.1)
  }

  lemma AgesTransitive(a: Registry, b: Registry, c: Registry)
    requires Ages(a, b) && Ages(b, c)
    ensures Ages(a, c)
  {
    forall e | e in c.contexts && e.1.life < a.lives ensures exists x :: (e.0, x) in a.contexts && LaterContext(x, e.1) {
      var y :| (e.0, y) in b.contexts && LaterContext(y, e.1);
      assert (e.0, y).1.life < a.lives;
      var x :| (e.0, x) in a.contexts && LaterContext(x, y);
    }
  }

  lemma FewerContexts(a: Registry, b: Registry)
    requires Lives(a) && a.lives == b.lives && Distinct(b.contexts)
    requires forall e :: e in b.contexts ==> e in a.contexts
    ensures Lives(b) && Ages(a, b)
  {
    forall e | e in b.contexts ensures exists x :: (e.0, x) in a.contexts && LaterContext(x, e.1) {
      assert (e.0, e.1) in a.contexts && LaterContext(e.1, e.1);
    }
  }

  lemma {:induction false} WithoutKeeps(d: Contexts, ids: set<CallId>)
    requires Distinct(d)
    ensures Distinct(Without(d, ids))
    ensures forall e :: e in Without(d, ids) ==> e in d
    decreases |d|
  {
    if d != [] {
      DistinctTail(d);
      WithoutKeeps(d[1..], ids);
      var t := Without(d[1..], ids);
      if d[0].0 !in ids {
        DistinctTail([d[0]] + t);
        assert ([d[0]] + t)[1..] == t;
        forall i | 0 <= i < |t| ensures t[i].0 != d[0].0 {
          assert t[i] in d[1..];
        }
      } else {
        assert [] + t == t;
      }
    }
  }

  lemma RoomyKeeps(d: Contexts)
    requires Distinct(d)
    ensures Distinct(Roomy(d)) && forall e :: e in Roomy(d) ==> e in d
  {
    if d != [] {
      DistinctTail(d);
    }
  }

  /** The context of a call moves on. */
  lemma AdvancedAges(a: Registry, b: Registry, id: CallId, x: EventContext, state: string)
    requires Lives(a) && (id, x) in a.contexts && a.lives == b.lives
    requires b.contexts == Put(a.contexts, id, Advanced(x, state))
    ensures Lives(b) && Ages(a, b)
  {
    DistinctPut(a.contexts, id, Advanced(x, state));
    forall e ensures e in b.contexts <==> e == (id, Advanced(x, state)) || (e in a.contexts && e.0 != id) {
      EntryPut(a.contexts, id, Advanced(x, state), e);
    }
    forall e | e in b.contexts ensures exists y :: (e.0, y) in a.contexts && LaterContext(y, e.1) {
      if e.0 == id {
        assert (e.0, x) in a.contexts && LaterContext(x, e.1);
      } else {
        assert (e.0, e.1) in a.contexts && LaterContext(e.1, e.1);
      }
    }
  }

  /** A context begins under a life no context had. */
  lemma BegunAges(a: Registry, b: Registry, d: Contexts, id: CallId, state: string)
    requires Lives(a) && Distinct(d) && (forall e :: e in d ==> e in a.contexts)
    requires b.lives == a.lives + 1 && b.contexts == Put(d, id, Advanced(FreshContext(a.lives), state))
    ensures Lives(b) && Ages(a, b)
  {
    var y := Advanced(FreshContext(a.lives), state);
    DistinctPut(d, id, y);
    forall e ensures e in b.contexts <==> e == (id, y) || (e in d && e.0 != id) {
      EntryPut(d, id, y, e);
    }
    forall e | e in b.contexts && e.1.life < a.lives ensures exists x :: (e.0, x) in a.contexts && LaterContext(x, e.1) {
      assert (e.0, e.1) in a.contexts && LaterContext(e.1, e.1);
    }
  }

  lemma EventAges(r: Registry, call: CallId, state: string)
    requires Lives(r)
    ensures Lives(EventFields(r, call, state)) && Ages(r, EventFields(r, call, state))
  {
    var q := EventFields(r, call, state);
    var id, st := Resolve(r, Clean(call)), Clean(state);
    if Clean(call) == "" {
      FewerContexts(r, r);
    } else if Has(r.contexts, id) {
      EntryGet(r.contexts, id, FreshContext(0));
      AdvancedAges(r, q, id, Get(r.contexts, id, FreshContext(0)), st);
    } else {
      RoomyKeeps(r.contexts);
      BegunAges(r, q, Roomy(r.contexts), id, st);
    }
  }

  lemma PopContexts(r: Registry, call: CallId)
    ensures var id := Resolve(r, Clean(call));
      Pop(r, call).contexts == Without(r.contexts, {Clean(call), id} + LegsOf(r, id))
  {
  }

  lemma PopAges(r: Registry, call: CallId)
    requires Lives(r)
    ensures Lives(Pop(r, call)) && Ages(r, Pop(r, call))
  {
    var id := Resolve(r, Clean(call));
    PopContexts(r, call);
    WithoutKeeps(r.contexts, {Clean(call), id} + LegsOf(r, id));
    FewerContexts(r, Pop(r, call));
  }

  lemma FinishAndPopAges(r: Registry, call: CallId, reason: string, state: string)
    requires Lives(r)
    ensures Lives(FinishAndPop(r, call, reason, state)) && Ages(r, FinishAndPop(r, call, reason, state))
  {
    var q := Finish(if Resolve(r, Clean(call)) == "" then r else Buried(r, call), call, reason, state);
    FewerContexts(r, q);
    PopAges(q, call);
    AgesTransitive(r, q, Pop(q, call));
  }

  lemma ContextsLeftAlone(r: Registry, op: Op)
    requires !op.OpEvent? && !op.OpPop? && !op.OpFinishAndPop? && !op.OpClear?
    ensures Step(r, op).contexts == r.contexts && Step(r, op).lives == r.lives
  {
  }

  lemma StepAges(r: Registry, op: Op)
    requires Lives(r)
    ensures Lives(Step(r, op)) && Ages(r, Step(r, op))
  {
    if op.OpEvent? {
      EventAges(r, op.call, op.state);
    } else if op.OpPop? {
      PopAges(r, op.call);
    } else if op.OpFinishAndPop? {
      FinishAndPopAges(r, op.call, op.reason, op.state);
    } else if op.OpClear? {
      FewerContexts(r, Cleared(r));
    } else {
      ContextsLeftAlone(r, op);
      FewerContexts(r, Step(r, op));
    }
  }

  lemma {:induction false} RunAges(r: Registry, ops: seq<Op>)
    requires Lives(r)
    ensures Lives(Run(r, ops)) && Ages(r, Run(r, ops))
    decreases |ops|
  {
    if ops == [] {
      FewerContexts(r, r);
    } else {
      StepAges(r, ops[0]);
      RunAges(Step(r, ops[0]), ops[1..]);
      AgesTransitive(r, Step(r, ops[0]), Run(r, ops));
    }
  }

  /** Within one life of a context an equal (state, sequence) pair, read at both ends of a run, says
      that the context was there, in that state and at that sequence, all the time in between. */
  lemma NoChangeInBetween(r: Registry, before: seq<Op>, after: seq<Op>, id: CallId, x: EventContext,
                          id': CallId, y: EventContext) returns (m: EventContext)
    requires Lives(r) && (id, x) in r.contexts && (id', y) in Run(Run(r, before), after).contexts
    requires x.life == y.life && x.sequence == y.sequence
    ensures id' == id && y.state == x.state
    ensures (id, m) in Run(r, before).contexts && m.life == x.life && m.state == x.state && m.sequence == x.sequence
  {
    var q := Run(r, before);
    RunAges(r, before);
    RunAges(q, after);
    assert (id', y).1.life < q.lives by {
      assert (id, x).1.life < r.lives;
    }
    m :| (id', m) in q.contexts && LaterContext(m, y);
    assert (id', m).1.life < r.lives;
    var z :| (id', z) in r.contexts && LaterContext(z, m);
    assert (id', z) == (id, x);
  }

  // ---------- how long a context lives ----------

  /** The ids whose contexts go when a call ends. */
  function EndIds(r: Registry, call: CallId): set<CallId>
  {
    {Clean(call), Resolve(r, Clean(call))} + LegsOf(r, Resolve(r, Clean(call)))
  }

  /** Whether an event begins a context and a full table gives up this one for it, as its oldest. */
  predicate Evicts(r: Registry, call: CallId, id: CallId)
  {
    && Clean(call) != "" && !Has(r.contexts, Resolve(r, Clean(call)))
    && |r.contexts| >= MAX_EVENT_CONTEXTS && r.contexts[0].0 == id
  }

  /** Whether an operation leaves the context of a session in place. */
  predicate Keeps(r: Registry, op: Op, id: CallId)
  {
    if op.OpPop? || op.OpFinishAndPop? then id !in EndIds(r, op.call)
    else if op.OpEvent? then !Evicts(r, op.call, id)
    else !op.OpClear?
  }

  /** A context of this life is the session's. */
  ghost predicate Lasts(r: Registry, id: CallId, life: nat)
  {
    exists x :: (id, x) in r.contexts && x.life == life
  }

  lemma {:induction false} WithoutHas<V>(d: Dict<CallId, V>, ids: set<CallId>, id: CallId)
    ensures Has(Without(d, ids), id) <==> Has(d, id) && id !in ids
    decreases |d|
  {
    HasCons(d, id);
    if d != [] {
      var t := Without(d[1..], ids);
      WithoutHas(d[1..], ids, id);
      if d[0].0 in ids {
        assert [] + t == t;
      } else {
        assert ([d[0]] + t)[1..] == t;
        HasCons([d[0]] + t, id);
      }
    }
  }

  lemma RoomyHas(d: Contexts, id: CallId)
    requires Distinct(d)
    ensures Has(Roomy(d), id) <==> Has(d, id) && !(|d| >= MAX_EVENT_CONTEXTS && d[0].0 == id)
  {
    HasCons(d, id);
    DistinctTail(d);
  }

  lemma FinishEndIds(r: Registry, call: CallId, reason: string, state: string)
    ensures EndIds(Finish(r, call, reason, state), call) == EndIds(r, call)
  {
    var id := Resolve(r, call);
    var q := Finish(r, call, reason, state);
    assert id in r.sessions ==> q.sessions[id].legs == r.sessions[id].legs;
  }

  lemma FinishAndPopContexts(r: Registry, call: CallId, reason: string, state: string)
    ensures FinishAndPop(r, call, reason, state).contexts == Without(r.contexts, EndIds(r, call))
  {
    var q := if Resolve(r, Clean(call)) == "" then r else Buried(r, call);
    assert EndIds(q, call) == EndIds(r, call);
    FinishEndIds(q, call, reason, state);
    PopContexts(Finish(q, call, reason, state), call);
  }

  lemma EventHas(r: Registry, call: CallId, state: string, id: CallId)
    requires Lives(r) && Has(r.contexts, id)
    ensures Has(EventFields(r, call, state).contexts, id) <==> !Evicts(r, call, id)
  {
    var at, st := Resolve(r, Clean(call)), Clean(state);
    if Clean(call) == "" {
    } else if Has(r.contexts, at) {
      HasPut(r.contexts, at, Advanced(Get(r.contexts, at, FreshContext(0)), st), id);
    } else {
      HasPut(Roomy(r.contexts), at, Advanced(FreshContext(r.lives), st), id);
      RoomyHas(r.contexts, id);
    }
  }

  lemma StepHas(r: Registry, op: Op, id: CallId)
    requires Lives(r) && Has(r.contexts, id)
    ensures Has(Step(r, op).contexts, id) <==> Keeps(r, op, id)
  {
    if op.OpEvent? {
      EventHas(r, op.call, op.state, id);
    } else if op.OpPop? {
      PopContexts(r, op.call);
      WithoutHas(r.contexts, EndIds(r, op.call), id);
    } else if op.OpFinishAndPop? {
      FinishAndPopContexts(r, op.call, op.reason, op.state);
      WithoutHas(r.contexts, EndIds(r, op.call), id);
    } else if !op.OpClear? {
      ContextsLeftAlone(r, op);
    }
  }

  lemma EntryHas(d: Contexts, id: CallId, x: EventContext)
    requires (id, x) in d
    ensures Has(d, id)
  {
    var i :| 0 <= i < |d| && d[i] == (id, x);
    assert d[i].0 == id;
  }

  /** A context that is in place before and after a step is the same one. */
  lemma SameLife(r: Registry, op: Op, id: CallId, x: EventContext, y: EventContext)
    requires Lives(r) && (id, x) in r.contexts && (id, y) in Step(r, op).contexts
    ensures y.life == x.life
  {
    if op.OpEvent? {
      EventSameLife(r, op.call, op.state, id, x, y);
    } else if op.OpPop? {
      PopContexts(r, op.call);
      KeptEntry(r.contexts, EndIds(r, op.call), id, x, y);
    } else if op.OpFinishAndPop? {
      FinishAndPopContexts(r, op.call, op.reason, op.state);
      KeptEntry(r.contexts, EndIds(r, op.call), id, x, y);
    } else if !op.OpClear? {
      ContextsLeftAlone(r, op);
      OneEntry(r.contexts, id, x, y);
    }
  }

  lemma OneEntry(d: Contexts, id: CallId, x: EventContext, y: EventContext)
    requires Distinct(d) && (id, x) in d && (id, y) in d
    ensures x == y
  {
    EntryGet(d, id, x);
  }

  lemma KeptEntry(d: Contexts, ids: set<CallId>, id: CallId, x: EventContext, y: EventContext)
    requires Distinct(d) && (id, x) in d && (id, y) in Without(d, ids)
    ensures x == y
  {
    WithoutKeeps(d, ids);
    OneEntry(d, id, x, y);
  }

  lemma EventSameLife(r: Registry, call: CallId, state: string, id: CallId, x: EventContext, y: EventContext)
    requires Lives(r) && (id, x) in r.contexts && (id, y) in EventFields(r, call, state).contexts
    ensures y.life == x.life
  {
    var at, st := Resolve(r, Clean(call)), Clean(state);
    if Clean(call) == "" {
      OneEntry(r.contexts, id, x, y);
    } else if Has(r.contexts, at) {
      var z := Get(r.contexts, at, FreshContext(0));
      EntryGet(r.contexts, at, FreshContext(0));
      EntryPut(r.contexts, at, Advanced(z, st), (id, y));
      OneEntry(r.contexts, id, x, if id == at then z else y);
    } else {
      RoomyKeeps(r.contexts);
      EntryPut(Roomy(r.contexts), at, Advanced(FreshContext(r.lives), st), (id, y));
      EntryHas(r.contexts, id, x);
      OneEntry(r.contexts, id, x, y);
    }
  }

  /** A context outlives a step exactly when the operation keeps it. */
  lemma StepLasts(r: Registry, op: Op, id: CallId, life: nat)
    requires Lives(r) && Lasts(r, id, life)
    ensures Lasts(Step(r, op), id, life) <==> Keeps(r, op, id)
  {
    var x :| (id, x) in r.contexts && x.life == life;
    EntryHas(r.contexts, id, x);
    StepHas(r, op, id);
    StepAges(r, op);
    LastsHas(Step(r, op), id, life);
    if Keeps(r, op, id) {
      EntryGet(Step(r, op).contexts, id, x);
      SameLife(r, op, id, x, Get(Step(r, op).contexts, id, x));
    }
  }

  lemma LastsHas(r: Registry, id: CallId, life: nat)
    ensures Lasts(r, id, life) ==> Has(r.contexts, id)
  {
    if Lasts(r, id, life) {
      var y :| (id, y) in r.contexts && y.life == life;
      EntryHas(r.contexts, id, y);
    }
  }

  predicate RunKeeps(r: Registry, ops: seq<Op>, id: CallId)
    decreases |ops|
  {
    ops == [] || (Keeps(r, ops[0], id) && RunKeeps(Step(r, ops[0]), ops[1..], id))
  }

  /** A life that is over does not begin again. */
  lemma NeverAgain(r: Registry, ops: seq<Op>, id: CallId, life: nat)
    requires Lives(r) && life < r.lives
    ensures Lasts(Run(r, ops), id, life) ==> Lasts(r, id, life)
  {
    RunAges(r, ops);
    if Lasts(Run(r, ops), id, life) {
      var y :| (id, y) in Run(r, ops).contexts && y.life == life;
      assert (id, y).1.life < r.lives;
      var x :| (id, x) in r.contexts && LaterContext(x, y);
    }
  }

  /** A context outlives a run exactly when every operation of the run keeps it: no pop or finish_and_pop
      of its session or by its id, no clear, and no new context when it is the oldest of a full table. */
  lemma {:induction false} RunLasts(r: Registry, ops: seq<Op>, id: CallId, life: nat)
    requires Lives(r) && Lasts(r, id, life)
    ensures Lasts(Run(r, ops), id, life) <==> RunKeeps(r, ops, id)
    decreases |ops|
  {
    if ops != [] {
      var q := Step(r, ops[0]);
      StepLasts(r, ops[0], id, life);
      StepAges(r, ops[0]);
      if Keeps(r, ops[0], id) {
        RunLasts(q, ops[1..], id, life);
      } else {
        var x :| (id, x) in r.contexts && x.life == life;
        assert (id, x).1.life < r.lives;
        NeverAgain(q, ops[1..], id, life);
      }
    }
  }
}
