/** Generations and revisions: what a callback that kept a stamp may conclude when it runs later. */
module RegistryStamps {
  import opened Wrappers
  import opened OrderedDicts
  import opened Tombstones
  import opened RegistryState

  // ---------- the invariant and the relation every step keeps ----------

  /** No generation is handed out twice, and none is ahead of the counter. */
  ghost predicate Generations(r: Registry)
  {
    && (forall id :: id in r.sessions ==> 0 < r.sessions[id].generation <= r.counter)
    && (forall a, b :: a in r.sessions && b in r.sessions && r.sessions[a].generation == r.sessions[b].generation ==> a == b)
  }

  /** What a stamp protects. */
  ghost predicate SameControl(s: Session, t: Session)
  {
    && s.state == t.state && s.owner == t.owner && s.outcome == t.outcome && s.caller == t.caller
    && s.callee == t.callee && s.routeKind == t.routeKind && s.legs == t.legs
  }

  /** One life of a session, later on: never an older revision, and the same one only unchanged. */
  ghost predicate Later(s: Session, t: Session)
  {
    && s.generation == t.generation && s.revision <= t.revision
    && (s.revision == t.revision ==> SameControl(s, t))
  }

  /** Sessions whose generation was known before are the ones known before, later in life. */
  ghost predicate Evolves(a: Registry, b: Registry)
  {
    && a.counter <= b.counter
    && forall id :: id in b.sessions && b.sessions[id].generation <= a.counter ==>
      id in a.sessions && Later(a.sessions[id], b.sessions[id])
  }

  lemma EvolvesTransitive(a: Registry, b: Registry, c: Registry)
    requires Evolves(a, b) && Evolves(b, c)
    ensures Evolves(a, c)
  {
  }

  /** One session replaced by a later version of itself. */
  lemma Replaced(a: Registry, b: Registry, id: CallId, t: Session)
    requires Generations(a) && id in a.sessions && Later(a.sessions[id], t)
    requires b.sessions == a.sessions[id := t] && b.counter == a.counter
    ensures Generations(b) && Evolves(a, b)
  {
  }

  /** Sessions removed or left alone. */
  lemma Shrunk(a: Registry, b: Registry)
    requires Generations(a) && a.counter == b.counter
    requires forall id :: id in b.sessions ==> id in a.sessions && b.sessions[id] == a.sessions[id]
    ensures Generations(b) && Evolves(a, b)
  {
  }

  lemma UpsertEvolves(r: Registry, id: CallId, f: CallFields)
    requires Generations(r)
    ensures Generations(Upsert(r, id, f)) && Evolves(r, Upsert(r, id, f))
  {
    if id in r.sessions {
      Replaced(r, Upsert(r, id, f), id, Upserted(r.sessions[id], f));
    }
  }

  lemma PreparedEvolves(r: Registry, call: CallId, f: LegFields)
    requires Generations(r)
    ensures Generations(Prepared(r, call, f)) && Evolves(r, Prepared(r, call, f))
  {
    if call in r.sessions {
      Replaced(r, Prepared(r, call, f), call, Annotated(r.sessions[call], f.metadata));
    } else {
      UpsertEvolves(r, call, CallFields(Or(f.state, "active"), "", "", "", "", "", f.metadata));
    }
  }

  lemma PlacedEvolves(q: Registry, call: CallId, leg: CallId, f: LegFields)
    requires Generations(q) && call in q.sessions
    ensures Generations(Placed(q, call, leg, f)) && Evolves(q, Placed(q, call, leg, f))
  {
    Replaced(q, Placed(q, call, leg, f), call, WithLeg(q.sessions[call], leg, f));
  }

  lemma AddLegEvolves(r: Registry, call: CallId, leg: CallId, f: LegFields)
    requires Generations(r)
    ensures Generations(AddLeg(r, call, leg, f)) && Evolves(r, AddLeg(r, call, leg, f))
  {
    var q := Prepared(r, call, f);
    PreparedEvolves(r, call, f);
    PlacedEvolves(q, call, leg, f);
    EvolvesTransitive(r, q, Placed(q, call, leg, f));
  }

  lemma StampEvolves(r: Registry, id: CallId)
    requires Generations(r)
    ensures Generations(Stamp(r, id)) && Evolves(r, Stamp(r, id))
  {
    if id in r.sessions {
      Replaced(r, Stamp(r, id), id, Bumped(r.sessions[id]));
    }
  }

  lemma SameSessions(a: Registry, b: Registry)
    requires Generations(a) && a.counter == b.counter && a.sessions == b.sessions
    ensures Generations(b) && Evolves(a, b)
  {
  }

  /** What claiming or releasing does to sessions: at most one new revision, of one of them. */
  ghost predicate Stamped(a: Registry, b: Registry, id: CallId)
  {
    && a.counter == b.counter
    && (a.sessions == b.sessions
        || (id in a.sessions && b.sessions == a.sessions[id := Bumped(a.sessions[id])]))
  }

  lemma StampedEvolves(a: Registry, b: Registry, id: CallId)
    requires Generations(a) && Stamped(a, b, id)
    ensures Generations(b) && Evolves(a, b)
  {
    if a.sessions == b.sessions {
      SameSessions(a, b);
    } else {
      Replaced(a, b, id, Bumped(a.sessions[id]));
    }
  }

  lemma ClaimStamps(r: Registry, call: CallId, e: EndpointId, role: string, adopt: bool)
    ensures Stamped(r, ClaimEndpoint(r, call, e, role, adopt), Resolve(r, Clean(call)))
  {
  }

  lemma ReleaseClaimStamps(r: Registry, call: CallId, e: EndpointId)
    ensures Stamped(r, ReleaseClaim(r, call, e), Resolve(r, Clean(call)))
  {
  }

  lemma FinishEvolves(r: Registry, call: CallId, reason: string, state: string)
    requires Generations(r)
    ensures Generations(Finish(r, call, reason, state)) && Evolves(r, Finish(r, call, reason, state))
  {
    var id := Resolve(r, call);
    if id in r.sessions {
      Replaced(r, Finish(r, call, reason, state), id, Finish(r, call, reason, state).sessions[id]);
    }
  }

  lemma BeginEvolves(r: Registry, call: CallId)
    requires Generations(r)
    ensures Generations(BeginTermination(r, call)) && Evolves(r, BeginTermination(r, call))
  {
    var id := Resolve(r, Clean(call));
    if BeginSucceeds(r, call) && id in r.sessions {
      Replaced(r, BeginTermination(r, call), id, Terminating(r.sessions[id]));
    }
  }

  lemma FinishAndPopEvolves(r: Registry, call: CallId, reason: string, state: string)
    requires Generations(r)
    ensures Generations(FinishAndPop(r, call, reason, state)) && Evolves(r, FinishAndPop(r, call, reason, state))
  {
    var q := if Resolve(r, Clean(call)) == "" then r else Buried(r, call);
    var q1 := Finish(q, call, reason, state);
    SameSessions(r, q);
    FinishEvolves(q, call, reason, state);
    PopEvolves(q1, call);
    EvolvesTransitive(r, q, q1);
    EvolvesTransitive(r, q1, Pop(q1, call));
  }

  lemma RegisterBridgeEvolves(r: Registry, s: CallId, d: CallId, c: Token, f: BridgeFields, g: Option<int>)
    requires Generations(r)
    ensures Generations(RegisterBridge(r, s, d, c, f, g)) && Evolves(r, RegisterBridge(r, s, d, c, f, g))
  {
    if RegisterAdmitted(r, s, g) {
      var q0 := r.(bridges := Put(r.bridges, s, d));
      var q := Started(r, s, d, f);
      var q1 := AddLeg(q, s, s, SourceLeg(f));
      var q2 := AddLeg(q1, s, d, DestLeg(f));
      SameSessions(r, q0);
      UpsertEvolves(q0, s, CallFields(f.state, f.caller, f.callee, f.routeKind, "", "bridge", f.metadata));
      AddLegEvolves(q, s, s, SourceLeg(f));
      AddLegEvolves(q1, s, d, DestLeg(f));
      EvolvesTransitive(r, q0, q);
      EvolvesTransitive(r, q, q1);
      EvolvesTransitive(r, q1, q2);
      SameSessions(q2, RegisterBridge(r, s, d, c, f, g));
      EvolvesTransitive(r, q2, RegisterBridge(r, s, d, c, f, g));
    }
  }

  lemma TransitionEvolves(r: Registry, call: CallId, c: Change, g: Guard)
    requires Generations(r)
    ensures Generations(Transition(r, call, c, g)) && Evolves(r, Transition(r, call, c, g))
  {
    if TransitionSucceeds(r, call, g) {
      var id := Resolve(r, Clean(call));
      Replaced(r, Transition(r, call, c, g), id, Changed(r.sessions[id], c));
    } else {
      SameSessions(r, r);
    }
  }

  lemma RemoveLegEvolves(r: Registry, call: CallId, leg: CallId)
    requires Generations(r)
    ensures Generations(RemoveLeg(r, call, leg)) && Evolves(r, RemoveLeg(r, call, leg))
  {
    var id := Resolve(r, call);
    if id in r.sessions {
      Replaced(r, RemoveLeg(r, call, leg), id, RemoveLeg(r, call, leg).sessions[id]);
    } else {
      SameSessions(r, r);
    }
  }

  lemma PopSessions(r: Registry, call: CallId)
    ensures Pop(r, call).sessions == r.sessions - {Resolve(r, Clean(call))} && Pop(r, call).counter == r.counter
  {
  }

  lemma PopEvolves(r: Registry, call: CallId)
    requires Generations(r)
    ensures Generations(Pop(r, call)) && Evolves(r, Pop(r, call))
  {
    PopSessions(r, call);
    Shrunk(r, Pop(r, call));
  }

  /** The operations that leave sessions alone. */
  predicate LeavesSessions(op: Op)
  {
    op.OpReleaseClaims? || op.OpTransportBusy? || op.OpTransportIdle? || op.OpEvent? || op.OpDetachBridge?
    || op.OpLinkBridge? || op.OpUnlinkBridge? || op.OpAttachRelay? || op.OpAttachClient? || op.OpTakeClient?
    || op.OpTakeWatcher? || op.OpAttachWatcher? || op.OpAttachMedia? || op.OpTakeMedia? || op.OpForgetWatcher?
  }

  lemma SessionsLeftAlone(r: Registry, op: Op)
    requires LeavesSessions(op)
    ensures Step(r, op).sessions == r.sessions && Step(r, op).counter == r.counter
  {
  }

  lemma ClaimEvolves(r: Registry, call: CallId, e: EndpointId, role: string, adopt: bool)
    requires Generations(r)
    ensures Generations(ClaimEndpoint(r, call, e, role, adopt)) && Evolves(r, ClaimEndpoint(r, call, e, role, adopt))
  {
    ClaimStamps(r, call, e, role, adopt);
    StampedEvolves(r, ClaimEndpoint(r, call, e, role, adopt), Resolve(r, Clean(call)));
  }

  lemma ReleaseClaimEvolves(r: Registry, call: CallId, e: EndpointId)
    requires Generations(r)
    ensures Generations(ReleaseClaim(r, call, e)) && Evolves(r, ReleaseClaim(r, call, e))
  {
    ReleaseClaimStamps(r, call, e);
    StampedEvolves(r, ReleaseClaim(r, call, e), Resolve(r, Clean(call)));
  }

  /** Every operation keeps generations unique and only ever moves a session forward. */
  lemma StepEvolves(r: Registry, op: Op)
    requires Generations(r)
    ensures Generations(Step(r, op)) && Evolves(r, Step(r, op))
  {
    if LeavesSessions(op) {
      SessionsLeftAlone(r, op);
      SameSessions(r, Step(r, op));
    } else {
      match op
      case OpUpsert(id, f) => UpsertEvolves(r, id, f);
      case OpTransition(call, c, g) => TransitionEvolves(r, call, c, g);
      case OpAddLeg(call, leg, f) => AddLegEvolves(r, call, leg, f);
      case OpRemoveLeg(call, leg) => RemoveLegEvolves(r, call, leg);
      case OpClaim(call, e, role, adopt) => ClaimEvolves(r, call, e, role, adopt);
      case OpReleaseClaim(call, e) => ReleaseClaimEvolves(r, call, e);
      case OpBegin(call) => BeginEvolves(r, call);
      case OpFinish(call, reason, state) => FinishEvolves(r, call, reason, state);
      case OpPop(call) => PopEvolves(r, call);
      case OpFinishAndPop(call, reason, state) => FinishAndPopEvolves(r, call, reason, state);
      case OpStamp(call) => StampEvolves(r, Resolve(r, Clean(call)));
      case OpRegisterBridge(s, d, c, f, g) => RegisterBridgeEvolves(r, s, d, c, f, g);
      case OpClear => Shrunk(r, Cleared(r));
      case _ =>
    }
  }

  lemma {:induction false} RunEvolves(r: Registry, ops: seq<Op>)
    requires Generations(r)
    ensures Generations(Run(r, ops)) && Evolves(r, Run(r, ops))
    decreases |ops|
  {
    if ops != [] {
      StepEvolves(r, ops[0]);
      RunEvolves(Step(r, ops[0]), ops[1..]);
      EvolvesTransitive(r, Step(r, ops[0]), Run(r, ops));
    }
  }

  /** Every state reachable from an empty registry satisfies the invariant. */
  lemma ReachableGenerations(holders: Option<map<EndpointId, CallId>>, ops: seq<Op>)
    ensures Generations(Run(EMPTY.(holders := holders), ops))
  {
    RunEvolves(EMPTY.(holders := holders), ops);
  }

  // ---------- what a stamp is worth ----------

  /** A stamp of revision and generation is free of ABA. However the run goes on, popping and
      re-creating calls under the same ids included, if the stamp is still current for any call id
      then it names the session it was read from, and nothing it protects has changed. */
  lemma StampIsAbaFree(r: Registry, id: CallId, ops: seq<Op>, call: CallId, owner: Option<string>)
    requires Generations(r) && id in r.sessions
    requires IsCurrent(Run(r, ops), call, r.sessions[id].revision, Some(r.sessions[id].generation), owner)
    ensures Resolve(Run(r, ops), Clean(call)) == id && id in Run(r, ops).sessions
    ensures SameControl(r.sessions[id], Run(r, ops).sessions[id])
  {
    RunEvolves(r, ops);
  }

  /** Of all transitions that carry one stamp at most one succeeds. */
  lemma OneTransitionPerStamp(r: Registry, call: CallId, change: Change, ops: seq<Op>, later: CallId,
                              revision: int, generation: int, owner: Option<string>, owner': Option<string>)
    requires Generations(r)
    requires TransitionSucceeds(r, call, Guard(Some(revision), Some(generation), owner))
    ensures !TransitionSucceeds(Run(Transition(r, call, change, Guard(Some(revision), Some(generation), owner)), ops),
                                later, Guard(Some(revision), Some(generation), owner'))
  {
    var op := OpTransition(call, change, Guard(Some(revision), Some(generation), owner));
    StepEvolves(r, op);
    RunEvolves(Step(r, op), ops);
    var q, id := Run(Step(r, op), ops), Resolve(r, Clean(call));
    assert Step(r, op).sessions[id].revision == revision + 1;
    var id' := Resolve(q, Clean(later));
    if id' in q.sessions && q.sessions[id'].generation == generation {
      assert Later(Step(r, op).sessions[id'], q.sessions[id']);
    }
  }

  /** A stamp of the revision alone is still current, yet the session it was read from has changed. */
  ghost predicate RevisionComesRound(r: Registry, id: CallId, ops: seq<Op>)
  {
    && Generations(r) && id in r.sessions
    && IsCurrent(Run(r, ops), id, r.sessions[id].revision, None, None)
    && id in Run(r, ops).sessions && !SameControl(r.sessions[id], Run(r, ops).sessions[id])
  }

  function StateOnly(s: string): CallFields
  {
    CallFields(s, "", "", "", "", "", map[])
  }

  /** Of two states taking turns, the one that is n updates from ending in the first of them. */
  function TurnOf(s: string, other: string, n: nat): string
  {
    if n % 2 == 1 then s else other
  }

  /** Updates of a call that move it between two states, ending in the first of them. */
  function UpdateOps(id: CallId, s: string, other: string, n: nat): seq<Op>
    decreases n
  {
    if n == 0 then [] else [OpUpsert(id, StateOnly(TurnOf(s, other, n)))] + UpdateOps(id, s, other, n - 1)
  }

  function Updated(r: Registry, id: CallId, s: string, other: string, n: nat): Registry
    decreases n
  {
    if n == 0 then r else Updated(Upsert(r, id, StateOnly(TurnOf(s, other, n))), id, s, other, n - 1)
  }

  lemma RunHead(r: Registry, op: Op, ops: seq<Op>)
    ensures Run(r, [op] + ops) == Run(Step(r, op), ops)
  {
    assert ([op] + ops)[1..] == ops;
  }

  /** The first of the updates, and the run of those that follow it. */
  lemma UpdateHead(r: Registry, id: CallId, s: string, other: string, n: nat, q: Registry)
    requires n > 0 && Run(Upsert(r, id, StateOnly(TurnOf(s, other, n))), UpdateOps(id, s, other, n - 1)) == q
    ensures Run(r, UpdateOps(id, s, other, n)) == q
  {
    RunHead(r, OpUpsert(id, StateOnly(TurnOf(s, other, n))), UpdateOps(id, s, other, n - 1));
  }

  lemma {:induction false} UpdatedRun(r: Registry, id: CallId, s: string, other: string, n: nat)
    ensures Run(r, UpdateOps(id, s, other, n)) == Updated(r, id, s, other, n)
    decreases n
  {
    if n > 0 {
      UpdatedRun(Upsert(r, id, StateOnly(TurnOf(s, other, n))), id, s, other, n - 1);
      UpdateHead(r, id, s, other, n, Updated(r, id, s, other, n));
    }
  }

  ghost predicate AtRevision(r: Registry, q: Registry, id: CallId, s: string, n: nat)
  {
    && q.legIndex == r.legIndex
    && id in q.sessions && q.sessions[id].state == s && q.sessions[id].revision == n
  }

  lemma UpsertCounts(r: Registry, q: Registry, id: CallId, s: string)
    requires s !in {"", "new"} && q.legIndex == r.legIndex
    ensures id !in q.sessions ==> AtRevision(r, Upsert(q, id, StateOnly(s)), id, s, 1)
    ensures id in q.sessions && q.sessions[id].state != s ==>
      AtRevision(r, Upsert(q, id, StateOnly(s)), id, s, q.sessions[id].revision + 1)
  {
  }

  /** Every update counts one revision. */
  lemma {:induction false} CountsUp(r: Registry, q: Registry, id: CallId, s: string, other: string, n: nat, k: nat)
    requires s !in {"", "new"} && other !in {"", "new"} && s != other
    requires AtRevision(r, q, id, TurnOf(s, other, n + 1), k)
    ensures AtRevision(r, Updated(q, id, s, other, n), id, s, k + n)
    decreases n
  {
    if n > 0 {
      UpsertCounts(r, q, id, TurnOf(s, other, n));
      CountsUp(r, Upsert(q, id, StateOnly(TurnOf(s, other, n))), id, s, other, n - 1, k + 1);
    }
  }

  /** A call created anew reaches any revision. */
  lemma ReachesRevision(r: Registry, id: CallId, s: string, other: string, n: nat)
    requires id !in r.sessions && s !in {"", "new"} && other !in {"", "new"} && s != other && 1 <= n
    ensures AtRevision(r, Updated(r, id, s, other, n), id, s, n)
  {
    UpsertCounts(r, r, id, TurnOf(s, other, n));
    CountsUp(r, Upsert(r, id, StateOnly(TurnOf(s, other, n))), id, s, other, n - 1, 1);
  }

  lemma PoppedLegs(r: Registry, id: CallId)
    requires Clean(id) == id
    ensures id !in Pop(r, id).legIndex
  {
  }

  lemma PoppedThenUpdated(r: Registry, id: CallId, s: string, other: string, n: nat)
    ensures Run(r, [OpPop(id)] + UpdateOps(id, s, other, n)) == Updated(Pop(r, id), id, s, other, n)
  {
    RunHead(r, OpPop(id), UpdateOps(id, s, other, n));
    UpdatedRun(Pop(r, id), id, s, other, n);
  }

  lemma ComesRound(r: Registry, id: CallId, ops: seq<Op>, q: Registry, s: string)
    requires Generations(r) && Clean(id) == id && id in r.sessions && s != r.sessions[id].state
    requires q == Run(r, ops) && id !in q.legIndex
    requires id in q.sessions && q.sessions[id].state == s && q.sessions[id].revision == r.sessions[id].revision
    ensures RevisionComesRound(r, id, ops)
  {
  }

  /** Without the generation a stamp can come round again, for every session that was ever changed: the
      call is popped, created anew under the same id, and updated until it has counted its revisions up
      to the same number. */
  lemma RevisionAloneIsNotEnough(r: Registry, id: CallId, s: string, other: string)
    requires Generations(r) && Clean(id) == id && id in r.sessions && Resolve(r, id) == id && 1 <= r.sessions[id].revision
    requires s !in {"", "new"} && other !in {"", "new"} && s != other && s != r.sessions[id].state
    ensures RevisionComesRound(r, id, [OpPop(id)] + UpdateOps(id, s, other, r.sessions[id].revision))
  {
    var n, p := r.sessions[id].revision, Pop(r, id);
    PopSessions(r, id);
    PoppedLegs(r, id);
    ReachesRevision(p, id, s, other, n);
    PoppedThenUpdated(r, id, s, other, n);
    ComesRound(r, id, [OpPop(id)] + UpdateOps(id, s, other, n), Updated(p, id, s, other, n), s);
  }

  // ---------- how long a session lasts ----------

  /** The session under an id is still the one it was. */
  ghost predicate Stays(a: Registry, b: Registry, id: CallId)
  {
    id in a.sessions ==> id in b.sessions && b.sessions[id].generation == a.sessions[id].generation
  }

  lemma PreparedStays(r: Registry, call: CallId, f: LegFields, id: CallId)
    ensures Stays(r, Prepared(r, call, f), id) && call in Prepared(r, call, f).sessions
  {
  }

  lemma AddLegStays(r: Registry, call: CallId, leg: CallId, f: LegFields, id: CallId)
    ensures Stays(r, AddLeg(r, call, leg, f), id)
  {
    PreparedStays(r, call, f, id);
  }

  lemma RegisterBridgeStays(r: Registry, s: CallId, d: CallId, c: Token, f: BridgeFields, g: Option<int>, id: CallId)
    ensures Stays(r, RegisterBridge(r, s, d, c, f, g), id)
  {
    if RegisterAdmitted(r, s, g) {
      var q := Started(r, s, d, f);
      AddLegStays(q, s, s, SourceLeg(f), id);
      AddLegStays(AddLeg(q, s, s, SourceLeg(f)), s, d, DestLeg(f), id);
    }
  }

  lemma BeginStays(r: Registry, call: CallId, id: CallId)
    ensures Stays(r, BeginTermination(r, call), id)
  {
  }

  /** Whether an operation leaves the session under an id in place. */
  predicate Spares(r: Registry, op: Op, id: CallId)
  {
    if op.OpPop? || op.OpFinishAndPop? then Resolve(r, Clean(op.call)) != id else !op.OpClear?
  }

  lemma UpsertStays(r: Registry, at: CallId, f: CallFields, id: CallId)
    ensures Stays(r, Upsert(r, at, f), id)
  {
  }

  lemma TransitionStays(r: Registry, call: CallId, c: Change, g: Guard, id: CallId)
    ensures Stays(r, Transition(r, call, c, g), id)
  {
  }

  lemma RemoveLegStays(r: Registry, call: CallId, leg: CallId, id: CallId)
    ensures Stays(r, RemoveLeg(r, call, leg), id)
  {
  }

  lemma FinishStays(r: Registry, call: CallId, reason: string, state: string, id: CallId)
    ensures Stays(r, Finish(r, call, reason, state), id)
  {
  }

  lemma FinishKeys(r: Registry, call: CallId, reason: string, state: string)
    ensures Finish(r, call, reason, state).sessions.Keys == r.sessions.Keys
  {
  }

  lemma FinishAndPopSessions(r: Registry, call: CallId, reason: string, state: string, id: CallId)
    ensures var q := FinishAndPop(r, call, reason, state);
      if Resolve(r, Clean(call)) == id then id !in q.sessions
      else Stays(r, q, id) && (id in q.sessions ==> id in r.sessions)
  {
    var q := if Resolve(r, Clean(call)) == "" then r else Buried(r, call);
    var f := Finish(q, call, reason, state);
    FinishStays(q, call, reason, state, id);
    FinishKeys(q, call, reason, state);
    PopSessions(f, call);
    assert f.legIndex == r.legIndex && q.sessions == r.sessions;
  }

  lemma StampedStays(a: Registry, b: Registry, at: CallId, id: CallId)
    requires Stamped(a, b, at)
    ensures Stays(a, b, id)
  {
  }

  predicate EndsSessions(op: Op)
  {
    op.OpPop? || op.OpFinishAndPop? || op.OpClear?
  }

  lemma StepStays(r: Registry, op: Op, id: CallId)
    requires !EndsSessions(op)
    ensures Stays(r, Step(r, op), id)
  {
    if LeavesSessions(op) {
      SessionsLeftAlone(r, op);
    } else {
      match op
      case OpUpsert(at, f) => UpsertStays(r, at, f, id);
      case OpTransition(call, c, g) => TransitionStays(r, call, c, g, id);
      case OpAddLeg(call, leg, f) => AddLegStays(r, call, leg, f, id);
      case OpRemoveLeg(call, leg) => RemoveLegStays(r, call, leg, id);
      case OpClaim(call, e, role, adopt) =>
        ClaimStamps(r, call, e, role, adopt);
        StampedStays(r, Step(r, op), Resolve(r, Clean(call)), id);
      case OpReleaseClaim(call, e) =>
        ReleaseClaimStamps(r, call, e);
        StampedStays(r, Step(r, op), Resolve(r, Clean(call)), id);
      case OpBegin(call) => BeginStays(r, call, id);
      case OpFinish(call, reason, state) => FinishStays(r, call, reason, state, id);
      case OpStamp(call) => StampedStays(r, Step(r, op), Resolve(r, Clean(call)), id);
      case OpRegisterBridge(s, d, c, f, g) => RegisterBridgeStays(r, s, d, c, f, g, id);
      case _ =>
    }
  }

  /** A session outlasts a step exactly when the operation spares it. */
  lemma StepSpares(r: Registry, op: Op, id: CallId)
    requires id in r.sessions
    ensures if Spares(r, op, id) then Stays(r, Step(r, op), id) else id !in Step(r, op).sessions
  {
    if op.OpPop? {
      PopSessions(r, op.call);
    } else if op.OpFinishAndPop? {
      FinishAndPopSessions(r, op.call, op.reason, op.state, id);
    } else if !op.OpClear? {
      StepStays(r, op, id);
    }
  }

  /** Under the id of a session that is gone no session of its generation comes again. */
  lemma NeverBack(a: Registry, b: Registry, id: CallId, generation: int)
    requires Evolves(a, b) && generation <= a.counter && !(id in a.sessions && a.sessions[id].generation == generation)
    ensures !(id in b.sessions && b.sessions[id].generation == generation)
  {
  }

  // ---------- late winners ----------

  /** A generation that is gone stays gone. */
  ghost predicate Gone(r: Registry, generation: int)
  {
    0 < generation <= r.counter && forall id :: id in r.sessions ==> r.sessions[id].generation != generation
  }

  lemma PopRemoves(r: Registry, call: CallId, reason: string, state: string)
    requires Generations(r) && Resolve(r, Clean(call)) in r.sessions
    ensures Gone(FinishAndPop(r, call, reason, state), r.sessions[Resolve(r, Clean(call))].generation)
  {
    var id := Resolve(r, Clean(call));
    var q := FinishAndPop(r, call, reason, state);
    FinishAndPopEvolves(r, call, reason, state);
    FinishedIsAbsent(r, call, reason, state);
    forall other | other in q.sessions ensures q.sessions[other].generation != r.sessions[id].generation {
    }
  }

  lemma FinishedIsAbsent(r: Registry, call: CallId, reason: string, state: string)
    ensures Resolve(r, Clean(call)) !in FinishAndPop(r, call, reason, state).sessions
  {
    PopSessions(Finish(if Resolve(r, Clean(call)) == "" then r else Buried(r, call), call, reason, state), call);
  }

  /** Once finish_and_pop removed a call, its generation is never current again, under any id, and
      registering a bridge for it changes nothing: a late winner cannot resurrect the call. */
  lemma LateWinnerIsRefused(r: Registry, call: CallId, reason: string, state: string, ops: seq<Op>,
                            source: CallId, dest: CallId, client: Token, f: BridgeFields)
    requires Generations(r) && Resolve(r, Clean(call)) in r.sessions
    ensures var g := r.sessions[Resolve(r, Clean(call))].generation;
      var q := Run(FinishAndPop(r, call, reason, state), ops);
      && !IsGenerationCurrent(q, source, g)
      && RegisterBridge(q, source, dest, client, f, Some(g)) == q
  {
    PopRemoves(r, call, reason, state);
    FinishAndPopEvolves(r, call, reason, state);
    RunEvolves(FinishAndPop(r, call, reason, state), ops);
  }
}
