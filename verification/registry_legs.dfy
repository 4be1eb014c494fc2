/** The leg index and the sessions: which operations keep them in agreement, and what that buys. */
module RegistryLegs {
  import opened Wrappers
  import opened OrderedDicts
  import opened Tombstones
  import opened RegistryState
  import opened RegistryStamps

  /** The index sends a leg to a session exactly when that session owns it, and a session id never
      stands for another session. */
  ghost predicate Indexed(r: Registry)
  {
    && (forall leg :: leg in r.legIndex ==> Owns(r, r.legIndex[leg], leg))
    && (forall id, leg :: Owns(r, id, leg) ==> leg in r.legIndex && r.legIndex[leg] == id)
    && (forall id :: id in r.sessions ==> Resolve(r, id) == id)
  }

  predicate Owns(r: Registry, id: CallId, leg: CallId)
  {
    id in r.sessions && leg in r.sessions[id].legs
  }

  /** Following the index twice leads no further than following it once. */
  lemma ResolveIsIdempotent(r: Registry, call: CallId)
    requires Indexed(r)
    ensures Resolve(r, Resolve(r, call)) == Resolve(r, call)
  {
    if call in r.legIndex {
      assert Owns(r, r.legIndex[call], call);
    }
  }

  // ---------- operations that do not touch legs ----------

  ghost predicate SameLegs(a: Registry, b: Registry)
  {
    && a.legIndex == b.legIndex
    && (forall id :: id in a.sessions <==> id in b.sessions)
    && (forall id :: id in a.sessions ==> a.sessions[id].legs == b.sessions[id].legs)
  }

  lemma SameLegsIndexed(a: Registry, b: Registry)
    requires SameLegs(a, b)
    ensures Indexed(a) <==> Indexed(b)
  {
    assert forall id, leg :: Owns(a, id, leg) <==> Owns(b, id, leg);
    assert forall id :: Resolve(a, id) == Resolve(b, id);
  }

  lemma ReplacedSameLegs(a: Registry, b: Registry, id: CallId, t: Session)
    requires id in a.sessions && t.legs == a.sessions[id].legs
    requires b.sessions == a.sessions[id := t] && b.legIndex == a.legIndex
    ensures SameLegs(a, b)
  {
  }

  lemma FinishSameLegs(r: Registry, call: CallId, reason: string, state: string)
    ensures SameLegs(r, Finish(r, call, reason, state))
  {
    var id := Resolve(r, call);
    if id in r.sessions {
      ReplacedSameLegs(r, Finish(r, call, reason, state), id, Finish(r, call, reason, state).sessions[id]);
    }
  }

  lemma BeginSameLegs(r: Registry, call: CallId)
    ensures SameLegs(r, BeginTermination(r, call))
  {
    var id := Resolve(r, Clean(call));
    if BeginSucceeds(r, call) && id in r.sessions {
      ReplacedSameLegs(r, BeginTermination(r, call), id, Terminating(r.sessions[id]));
    }
  }

  lemma TransitionSameLegs(r: Registry, call: CallId, c: Change, g: Guard)
    ensures SameLegs(r, Transition(r, call, c, g))
  {
    var id := Resolve(r, Clean(call));
    if TransitionSucceeds(r, call, g) {
      ReplacedSameLegs(r, Transition(r, call, c, g), id, Changed(r.sessions[id], c));
    }
  }

  lemma StampedSameLegs(a: Registry, b: Registry, id: CallId)
    requires Stamped(a, b, id) && a.legIndex == b.legIndex
    ensures SameLegs(a, b)
  {
    if a.sessions != b.sessions {
      ReplacedSameLegs(a, b, id, Bumped(a.sessions[id]));
    }
  }

  lemma ClaimSameLegs(r: Registry, call: CallId, e: EndpointId, role: string, adopt: bool)
    ensures SameLegs(r, ClaimEndpoint(r, call, e, role, adopt))
  {
    ClaimStamps(r, call, e, role, adopt);
    StampedSameLegs(r, ClaimEndpoint(r, call, e, role, adopt), Resolve(r, Clean(call)));
  }

  lemma ReleaseClaimSameLegs(r: Registry, call: CallId, e: EndpointId)
    ensures SameLegs(r, ReleaseClaim(r, call, e))
  {
    ReleaseClaimStamps(r, call, e);
    StampedSameLegs(r, ReleaseClaim(r, call, e), Resolve(r, Clean(call)));
  }

  lemma ReleaseClaimsSameLegs(r: Registry, call: CallId)
    ensures SameLegs(r, ReleaseClaims(r, call))
  {
  }

  lemma EventSameLegs(r: Registry, call: CallId, state: string)
    ensures SameLegs(r, EventFields(r, call, state))
  {
  }

  lemma DetachSameLegs(r: Registry, call: CallId)
    ensures SameLegs(r, DetachBridge(r, call))
  {
  }

  // ---------- operations that do ----------

  /** Creating a session under a call id is safe exactly when the id does not stand for another. */
  lemma UpsertIndexed(r: Registry, id: CallId, f: CallFields)
    requires Indexed(r)
    ensures Indexed(Upsert(r, id, f)) <==> Resolve(r, id) == id
  {
    var q := Upsert(r, id, f);
    if id in r.sessions {
      ReplacedSameLegs(r, q, id, Upserted(r.sessions[id], f));
      SameLegsIndexed(r, q);
    } else {
      LeglessIndexed(r, q, id, q.sessions[id]);
    }
  }

  lemma LeglessIndexed(r: Registry, q: Registry, id: CallId, t: Session)
    requires Indexed(r) && id !in r.sessions && t.legs == map[]
    requires q.sessions == r.sessions[id := t] && q.legIndex == r.legIndex
    ensures Indexed(q) <==> Resolve(r, id) == id
  {
    forall s, leg ensures Owns(q, s, leg) <==> Owns(r, s, leg) {
    }
    assert id in q.sessions && Resolve(q, id) == Resolve(r, id);
    forall s | s in q.sessions && s != id ensures Resolve(q, s) == s {
      assert Resolve(r, s) == s;
    }
  }

  /** Whether a leg may join a session: it stands for no other, and is no other session's id. */
  predicate Joinable(r: Registry, call: CallId, leg: CallId)
  {
    && (leg in r.legIndex ==> r.legIndex[leg] == call)
    && (leg in r.sessions ==> leg == call)
  }

  lemma PlacedOwns(q: Registry, call: CallId, leg: CallId, f: LegFields, id: CallId, other: CallId)
    requires call in q.sessions
    ensures Owns(Placed(q, call, leg, f), id, other) <==> Owns(q, id, other) || (id == call && other == leg)
  {
  }

  lemma PlacedIndexed(q: Registry, call: CallId, leg: CallId, f: LegFields)
    requires Indexed(q) && call in q.sessions
    ensures Indexed(Placed(q, call, leg, f)) <==> Joinable(q, call, leg)
  {
    var p := Placed(q, call, leg, f);
    forall id, other ensures Owns(p, id, other) <==> Owns(q, id, other) || (id == call && other == leg) {
      PlacedOwns(q, call, leg, f, id, other);
    }
    PlacedShape(q, p, call, leg);
  }

  lemma PlacedShape(q: Registry, p: Registry, call: CallId, leg: CallId)
    requires Indexed(q) && call in q.sessions && p.legIndex == q.legIndex[leg := call]
    requires forall id :: id in p.sessions <==> id in q.sessions
    requires forall id, other :: Owns(p, id, other) <==> Owns(q, id, other) || (id == call && other == leg)
    ensures Indexed(p) <==> Joinable(q, call, leg)
  {
    if leg in q.legIndex && q.legIndex[leg] != call {
      assert Owns(q, q.legIndex[leg], leg) && Owns(p, q.legIndex[leg], leg);
    } else if leg in q.sessions && leg != call {
      assert leg in p.sessions && Resolve(p, leg) == call;
    } else {
      forall id | id in p.sessions ensures Resolve(p, id) == id {
        assert Resolve(q, id) == id;
      }
    }
  }

  lemma PreparedIndexed(r: Registry, call: CallId, f: LegFields)
    requires Indexed(r)
    ensures Indexed(Prepared(r, call, f)) <==> Resolve(r, call) == call
    ensures Prepared(r, call, f).legIndex == r.legIndex
    ensures forall id :: id in Prepared(r, call, f).sessions <==> id == call || id in r.sessions
  {
    if call in r.sessions {
      SameLegsIndexed(r, Prepared(r, call, f));
    } else {
      UpsertIndexed(r, call, CallFields(Or(f.state, "active"), "", "", "", "", "", f.metadata));
    }
  }

  /** A session whose id stands for another stays wrong, whatever leg it is then given. */
  lemma PlacedStaysWrong(r: Registry, call: CallId, leg: CallId, f: LegFields)
    requires Indexed(r) && Resolve(r, call) != call
    ensures !Indexed(AddLeg(r, call, leg, f))
  {
    var q, p := Prepared(r, call, f), AddLeg(r, call, leg, f);
    PreparedIndexed(r, call, f);
    var s := r.legIndex[call];
    assert Owns(r, s, call) && s != call;
    assert p.sessions[s] == r.sessions[s];
    assert Owns(p, s, call);
    assert call in p.sessions;
  }

  lemma AddLegIndexed(r: Registry, call: CallId, leg: CallId, f: LegFields)
    requires Indexed(r)
    ensures Indexed(AddLeg(r, call, leg, f)) <==> Resolve(r, call) == call && Joinable(r, call, leg)
  {
    PreparedIndexed(r, call, f);
    if Resolve(r, call) == call {
      PlacedIndexed(Prepared(r, call, f), call, leg, f);
      assert Joinable(Prepared(r, call, f), call, leg) <==> Joinable(r, call, leg);
    } else {
      PlacedStaysWrong(r, call, leg, f);
    }
  }

  /** Removing a leg is safe exactly when the leg does not belong to a session other than the one
      it is removed from. */
  predicate Removable(r: Registry, call: CallId, leg: CallId)
  {
    Resolve(r, call) in r.sessions && leg in r.legIndex ==> r.legIndex[leg] == Resolve(r, call)
  }

  lemma RemoveLegIndexed(r: Registry, call: CallId, leg: CallId)
    requires Indexed(r)
    ensures Indexed(RemoveLeg(r, call, leg)) <==> Removable(r, call, leg)
  {
    var id, q := Resolve(r, call), RemoveLeg(r, call, leg);
    if id in r.sessions {
      assert q.legIndex == r.legIndex - {leg};
      forall s, other ensures Owns(q, s, other) <==> Owns(r, s, other) && !(s == id && other == leg) {
      }
      assert forall s :: s in q.sessions <==> s in r.sessions;
      RemovedShape(r, q, id, leg);
    }
  }

  lemma RemovedShape(r: Registry, q: Registry, id: CallId, leg: CallId)
    requires Indexed(r) && q.legIndex == r.legIndex - {leg}
    requires forall s :: s in q.sessions <==> s in r.sessions
    requires forall s, other :: Owns(q, s, other) <==> Owns(r, s, other) && !(s == id && other == leg)
    ensures Indexed(q) <==> (leg in r.legIndex ==> r.legIndex[leg] == id)
  {
    if leg in r.legIndex && r.legIndex[leg] != id {
      assert Owns(r, r.legIndex[leg], leg) && Owns(q, r.legIndex[leg], leg);
    } else {
      forall other | other in q.legIndex ensures Owns(q, q.legIndex[other], other) {
        assert Owns(r, r.legIndex[other], other);
      }
      forall s | s in q.sessions ensures Resolve(q, s) == s {
        assert Resolve(r, s) == s;
      }
    }
  }

  lemma PopLegs(r: Registry, call: CallId)
    ensures var id := Resolve(r, Clean(call));
      && Pop(r, call).sessions == r.sessions - {id}
      && Pop(r, call).legIndex == r.legIndex - LegsOf(r, id) - {Clean(call)}
  {
  }

  /** Popping a call, by its own id or by any of its legs, keeps the index and leaves nothing of the
      call in it. */
  lemma PopIndexed(r: Registry, call: CallId)
    requires Indexed(r)
    ensures Indexed(Pop(r, call))
    ensures forall leg :: leg in Pop(r, call).legIndex ==> Pop(r, call).legIndex[leg] != Resolve(r, Clean(call))
    ensures Resolve(r, Clean(call)) !in Pop(r, call).sessions
  {
    var c, q := Clean(call), Pop(r, call);
    var id := Resolve(r, c);
    PopLegs(r, call);
    if c in r.legIndex {
      assert Owns(r, id, c);
    }
    forall s, leg ensures Owns(q, s, leg) <==> Owns(r, s, leg) && s != id {
    }
    forall leg | leg in q.legIndex ensures q.legIndex[leg] != id && Owns(q, q.legIndex[leg], leg) {
      assert Owns(r, r.legIndex[leg], leg);
    }
    forall s, leg | Owns(q, s, leg) ensures leg in q.legIndex && q.legIndex[leg] == s {
      assert Owns(r, s, leg) && r.legIndex[leg] == s && s != id;
      assert leg in LegsOf(r, id) ==> Owns(r, id, leg);
    }
    forall s | s in q.sessions ensures Resolve(q, s) == s {
      assert Resolve(r, s) == s;
    }
  }

  lemma FinishAndPopIndexed(r: Registry, call: CallId, reason: string, state: string)
    requires Indexed(r)
    ensures Indexed(FinishAndPop(r, call, reason, state))
    ensures forall leg :: leg in FinishAndPop(r, call, reason, state).legIndex ==>
      FinishAndPop(r, call, reason, state).legIndex[leg] != Resolve(r, Clean(call))
  {
    var q := if Resolve(r, Clean(call)) == "" then r else Buried(r, call);
    SameLegsIndexed(r, q);
    FinishSameLegs(q, call, reason, state);
    SameLegsIndexed(q, Finish(q, call, reason, state));
    PopIndexed(Finish(q, call, reason, state), call);
  }

  /** A bridge is registered safely exactly when its source stands for itself and its destination may
      join it. */
  predicate Bridgeable(r: Registry, source: CallId, dest: CallId)
  {
    Resolve(r, source) == source && Joinable(r, source, dest)
  }

  lemma StartedIndexed(r: Registry, source: CallId, dest: CallId, f: BridgeFields)
    requires Indexed(r) && Resolve(r, source) == source
    ensures var q := Started(r, source, dest, f);
      Indexed(q) && q.legIndex == r.legIndex && forall id :: id in q.sessions <==> id == source || id in r.sessions
  {
    var q0 := r.(bridges := Put(r.bridges, source, dest));
    SameLegsIndexed(r, q0);
    UpsertIndexed(q0, source, CallFields(f.state, f.caller, f.callee, f.routeKind, "", "bridge", f.metadata));
  }

  /** Adding a session to itself as a leg changes nothing about which other legs may join it. */
  lemma SelfLegIndexed(q: Registry, source: CallId, f: LegFields, dest: CallId)
    requires Indexed(q) && source in q.sessions
    ensures var q1 := AddLeg(q, source, source, f);
      && Indexed(q1) && Resolve(q1, source) == source
      && (Joinable(q1, source, dest) <==> Joinable(q, source, dest))
  {
    assert Resolve(q, source) == source;
    AddLegIndexed(q, source, source, f);
    PreparedIndexed(q, source, f);
    assert AddLeg(q, source, source, f).legIndex == q.legIndex[source := source];
    assert forall id :: id in AddLeg(q, source, source, f).sessions <==> id in q.sessions;
  }

  /** A wrong source stays wrong through all three. */
  lemma BridgingStaysWrong(r: Registry, source: CallId, dest: CallId, client: Token, f: BridgeFields, g: Option<int>)
    requires Indexed(r) && Resolve(r, source) != source && RegisterAdmitted(r, source, g)
    ensures !Indexed(RegisterBridge(r, source, dest, client, f, g))
  {
    var s := r.legIndex[source];
    assert Owns(r, s, source) && s != source;
    var q := RegisterBridge(r, source, dest, client, f, g);
    assert q.sessions[s] == r.sessions[s];
    assert Owns(q, s, source);
    assert source in q.sessions;
  }

  lemma RegisterIndexed(r: Registry, source: CallId, dest: CallId, client: Token, f: BridgeFields, g: Option<int>)
    requires Indexed(r) && RegisterAdmitted(r, source, g)
    ensures Indexed(RegisterBridge(r, source, dest, client, f, g)) <==> Bridgeable(r, source, dest)
  {
    if Resolve(r, source) == source {
      var q := Started(r, source, dest, f);
      var q1 := AddLeg(q, source, source, SourceLeg(f));
      StartedIndexed(r, source, dest, f);
      SelfLegIndexed(q, source, SourceLeg(f), dest);
      AddLegIndexed(q1, source, dest, DestLeg(f));
      SameLegsIndexed(AddLeg(q1, source, dest, DestLeg(f)), RegisterBridge(r, source, dest, client, f, g));
    } else {
      BridgingStaysWrong(r, source, dest, client, f, g);
    }
  }

  // ---------- every step and every run ----------

  /** What the caller of an operation must know about the ids it passes. */
  predicate Respects(r: Registry, op: Op)
  {
    match op
    case OpUpsert(id, _) => Resolve(r, id) == id
    case OpAddLeg(call, leg, _) => Resolve(r, call) == call && Joinable(r, call, leg)
    case OpRemoveLeg(call, leg) => Removable(r, call, leg)
    case OpRegisterBridge(source, dest, _, _, g) => RegisterAdmitted(r, source, g) ==> Bridgeable(r, source, dest)
    case _ => true
  }

  /** Index and sessions agree after a step exactly when the step respected the ids. */
  lemma StepIndexed(r: Registry, op: Op)
    requires Indexed(r)
    ensures Indexed(Step(r, op)) <==> Respects(r, op)
  {
    if op.OpUpsert? {
      UpsertIndexed(r, op.id, op.fields);
    } else if op.OpAddLeg? {
      AddLegIndexed(r, op.call, op.leg, op.legFields);
    } else if op.OpRemoveLeg? {
      RemoveLegIndexed(r, op.call, op.leg);
    } else if op.OpRegisterBridge? {
      if RegisterAdmitted(r, op.source, op.expected) {
        RegisterIndexed(r, op.source, op.dest, op.client, op.bridge, op.expected);
      }
    } else if op.OpPop? {
      PopIndexed(r, op.call);
    } else if op.OpFinishAndPop? {
      FinishAndPopIndexed(r, op.call, op.reason, op.state);
    } else if !op.OpClear? {
      OtherSameLegs(r, op);
      SameLegsIndexed(r, Step(r, op));
    }
  }

  predicate MovesLegs(op: Op)
  {
    op.OpUpsert? || op.OpAddLeg? || op.OpRemoveLeg? || op.OpRegisterBridge? || op.OpPop? || op.OpFinishAndPop? || op.OpClear?
  }

  lemma OtherSameLegs(r: Registry, op: Op)
    requires !MovesLegs(op)
    ensures SameLegs(r, Step(r, op))
  {
    if op.OpFinish? {
      FinishSameLegs(r, op.call, op.reason, op.state);
    } else if op.OpBegin? {
      BeginSameLegs(r, op.call);
    } else if op.OpTransition? {
      TransitionSameLegs(r, op.call, op.change, op.guarded);
    } else if op.OpClaim? {
      ClaimSameLegs(r, op.call, op.endpoint, op.role, op.adopt);
    } else if op.OpReleaseClaim? {
      ReleaseClaimSameLegs(r, op.call, op.endpoint);
    } else if op.OpReleaseClaims? {
      ReleaseClaimsSameLegs(r, op.call);
    } else if op.OpEvent? {
      EventSameLegs(r, op.call, op.state);
    } else if op.OpDetachBridge? {
      DetachSameLegs(r, op.call);
    } else if op.OpStamp? {
      StampedSameLegs(r, Stamp(r, Resolve(r, Clean(op.call))), Resolve(r, Clean(op.call)));
    } else {
      PlainSameLegs(r, op);
    }
  }

  lemma PlainSameLegs(r: Registry, op: Op)
    requires op.OpTransportBusy? || op.OpTransportIdle? || op.OpLinkBridge? || op.OpUnlinkBridge? || op.OpAttachRelay?
      || op.OpAttachClient? || op.OpTakeClient? || op.OpTakeWatcher? || op.OpAttachWatcher? || op.OpAttachMedia?
      || op.OpTakeMedia? || op.OpForgetWatcher?
    ensures Step(r, op).sessions == r.sessions && Step(r, op).legIndex == r.legIndex
  {
  }

  ghost predicate RunRespects(r: Registry, ops: seq<Op>)
    decreases |ops|
  {
    ops == [] || (Respects(r, ops[0]) && RunRespects(Step(r, ops[0]), ops[1..]))
  }

  /** Over every run whose steps respect the ids, index and sessions agree throughout. */
  lemma {:induction false} RunIndexed(r: Registry, ops: seq<Op>)
    requires Indexed(r) && RunRespects(r, ops)
    ensures Indexed(Run(r, ops))
    decreases |ops|
  {
    if ops != [] {
      StepIndexed(r, ops[0]);
      RunIndexed(Step(r, ops[0]), ops[1..]);
    }
  }

  /** The first step that does not respect the ids breaks the agreement. */
  lemma DisrespectIsSeen(r: Registry, ops: seq<Op>, op: Op)
    requires Indexed(r) && RunRespects(r, ops) && !Respects(Run(r, ops), op)
    ensures !Indexed(Run(r, ops + [op]))
  {
    RunIndexed(r, ops);
    RunAppend(r, ops, [op]);
    RunOne(Run(r, ops), op);
    StepIndexed(Run(r, ops), op);
  }
}
