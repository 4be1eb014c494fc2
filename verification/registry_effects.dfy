/** What the operations of the call registry write, field by field, and to whom they say no. */
module RegistryEffects {
  import opened Wrappers
  import opened OrderedDicts
  import opened Tombstones
  import opened RegistryState
  import opened RegistryLegs

  /** Metadata after an update: a value given replaces the one before, an empty one counts as not given. */
  ghost predicate MetadataAfter(was: Metadata, given: Metadata, now: Metadata)
  {
    && (forall k :: k in now <==> k in was || (k in given && given[k] != ""))
    && (forall k :: k in now ==> now[k] == if k in given && given[k] != "" then given[k] else was[k])
  }

  /** No other session is touched. */
  ghost predicate Others(r: Registry, q: Registry, id: CallId)
  {
    forall other :: other != id ==>
      (other in q.sessions <==> other in r.sessions)
      && (other in r.sessions ==> q.sessions[other] == r.sessions[other])
  }

  function Blank(generation: nat): Session
  {
    Session(generation, 0, "new", "", "", "", "", "", "", map[], map[])
  }

  // ---------- sessions ----------

  /** An upsert creates a session under the next generation or takes the one there is. Each field takes the
      value given for it and keeps its own where none is given; the revision moves when anything changed. */
  lemma UpsertWrites(r: Registry, id: CallId, f: CallFields)
    ensures var q := Upsert(r, id, f);
      var was := if id in r.sessions then r.sessions[id] else Blank(r.counter + 1);
      && id in q.sessions && Others(r, q, id) && q.counter == r.counter + (if id in r.sessions then 0 else 1)
      && var now := q.sessions[id];
      && now.state == (if f.state == "" then was.state else f.state)
      && now.owner == (if f.owner == "" then was.owner else f.owner)
      && now.caller == (if f.caller == "" then was.caller else f.caller)
      && now.callee == (if f.callee == "" then was.callee else f.callee)
      && now.routeKind == (if f.routeKind == "" then was.routeKind else f.routeKind)
      && now.terminalReason == (if f.terminalReason == "" then was.terminalReason else f.terminalReason)
      && now.outcome == was.outcome && now.legs == was.legs && now.generation == was.generation
      && MetadataAfter(was.metadata, f.metadata, now.metadata)
      && now.revision == was.revision + if now.(revision := was.revision) == was then 0 else 1
  {
  }

  /** Whether a transition may happen: the session is there, not over by owner or state, and every stamp that
      was expected is its own. */
  ghost predicate MayChange(r: Registry, id: CallId, g: Guard)
  {
    && id in r.sessions
    && (g.revision.Some? ==> g.revision.value == r.sessions[id].revision)
    && (g.generation.Some? ==> g.generation.value == r.sessions[id].generation)
    && (g.owner.Some? ==> g.owner.value == r.sessions[id].owner)
    && r.sessions[id].owner != "terminal"
    && r.sessions[id].state !in {"idle", "busy", "declined", "cancelled", "media_incompatible", "transport_unreachable",
                                 "auth_required_unsupported", "protocol_error", "error"}
  }

  /** A transition that may happen writes each field it is given, owner and outcome even when empty, and counts
      one revision; any other changes nothing. */
  lemma TransitionWrites(r: Registry, call: CallId, c: Change, g: Guard)
    ensures var q, id := Transition(r, call, c, g), Resolve(r, Clean(call));
      if !MayChange(r, id, g) then q == r
      else
        var was := r.sessions[id];
        && id in q.sessions && Others(r, q, id)
        && var now := q.sessions[id];
        && now.state == (if c.state == "" then was.state else c.state)
        && now.owner == (if c.owner.Some? then c.owner.value else was.owner)
        && now.outcome == (if c.outcome.Some? then c.outcome.value else was.outcome)
        && now.caller == (if c.caller == "" then was.caller else c.caller)
        && now.callee == (if c.callee == "" then was.callee else c.callee)
        && now.routeKind == (if c.routeKind == "" then was.routeKind else c.routeKind)
        && now.terminalReason == was.terminalReason && now.legs == was.legs && now.generation == was.generation
        && MetadataAfter(was.metadata, c.metadata, now.metadata)
        && now.revision == was.revision + 1
  {
  }

  /** Finishing ends a session: its state is the one given, its owner "terminal", and a reason, if given, becomes
      terminal reason and outcome. */
  lemma FinishWrites(r: Registry, call: CallId, reason: string, state: string)
    ensures var q, id := Finish(r, call, reason, state), Resolve(r, call);
      if id !in r.sessions then q == r
      else
        var was := r.sessions[id];
        && id in q.sessions && Others(r, q, id)
        && var now := q.sessions[id];
        && now.state == state && now.owner == "terminal" && !Live(now)
        && now.terminalReason == (if reason == "" then was.terminalReason else reason)
        && now.outcome == (if reason == "" then was.outcome else reason)
        && now.caller == was.caller && now.callee == was.callee && now.routeKind == was.routeKind
        && now.legs == was.legs && now.metadata == was.metadata && now.generation == was.generation
        && now.revision == was.revision + 1
  {
  }

  lemma MarkedOnce(s: Session)
    ensures Terminating(s) == s.(metadata := s.metadata["pbx_phase" := "terminating"],
      revision := s.revision + if "pbx_phase" in s.metadata && s.metadata["pbx_phase"] == "terminating" then 0 else 1)
  {
    if "pbx_phase" in s.metadata && s.metadata["pbx_phase"] == "terminating" {
      assert s.metadata["pbx_phase" := "terminating"] == s.metadata;
    }
  }

  /** Beginning a termination marks the session, once, and leaves all else of it alone. */
  lemma BeginMarks(r: Registry, call: CallId)
    requires Resolve(r, Clean(call)) in r.sessions
    ensures var q, id := BeginTermination(r, call), Resolve(r, Clean(call));
      if !BeginSucceeds(r, call) then q == r
      else
        var was := r.sessions[id];
        var marked := "pbx_phase" in was.metadata && was.metadata["pbx_phase"] == "terminating";
        && id in q.sessions && Others(r, q, id)
        && q.sessions[id] == was.(metadata := was.metadata["pbx_phase" := "terminating"],
                                  revision := was.revision + if marked then 0 else 1)
  {
    var id := Resolve(r, Clean(call));
    MarkedOnce(r.sessions[id]);
    if BeginSucceeds(r, call) {
      assert BeginTermination(r, call).sessions == r.sessions[id := Terminating(r.sessions[id])];
    }
  }

  // ---------- legs ----------

  lemma LegWritten(s: Session, leg: CallId, f: LegFields)
    ensures var t := WithLeg(s, leg, f);
      && leg in t.legs && t.legs[leg].role == f.role
      && t.legs[leg].state == (if f.state != "" then f.state else if leg in s.legs then s.legs[leg].state else "idle")
      && t.legs[leg].sipCallId == (if f.sipCallId != "" then f.sipCallId
                                   else if leg in s.legs then s.legs[leg].sipCallId else leg)
  {
  }

  lemma PreparedLegs(r: Registry, call: CallId, f: LegFields)
    ensures var q := Prepared(r, call, f);
      && q.sessions[call].legs == (if call in r.sessions then r.sessions[call].legs else map[])
      && Others(r, q, call) && q.legIndex == r.legIndex
  {
  }

  /** Adding a leg: the leg is the session's under the role given, with the state and the SIP call id given or
      those it had, at first "idle" and its own id; the index leads from it to the session. */
  lemma AddLegWrites(r: Registry, call: CallId, leg: CallId, f: LegFields)
    ensures var q := AddLeg(r, call, leg, f);
      && call in q.sessions && Others(r, q, call) && q.legIndex == r.legIndex[leg := call]
      && Resolve(q, leg) == call && (forall other :: other != leg ==> Resolve(q, other) == Resolve(r, other))
      && leg in q.sessions[call].legs
      && var known := call in r.sessions && leg in r.sessions[call].legs;
      var now := q.sessions[call].legs[leg];
      && now.role == f.role
      && now.state == (if f.state != "" then f.state else if known then r.sessions[call].legs[leg].state else "idle")
      && now.sipCallId == (if f.sipCallId != "" then f.sipCallId
                           else if known then r.sessions[call].legs[leg].sipCallId else leg)
  {
    var q := Prepared(r, call, f);
    PreparedLegs(r, call, f);
    LegWritten(q.sessions[call], leg, f);
    assert AddLeg(r, call, leg, f).sessions == q.sessions[call := WithLeg(q.sessions[call], leg, f)];
  }

  /** The session it is added to: a new one begins in the leg's state, or "active"; one that is there keeps
      everything but its metadata and other legs stay as they are. Whatever says something new counts. */
  lemma AddLegSession(r: Registry, call: CallId, leg: CallId, f: LegFields)
    ensures var now := AddLeg(r, call, leg, f).sessions[call];
      var was := if call in r.sessions then r.sessions[call] else Blank(r.counter + 1);
      && now.state == (if call in r.sessions then was.state else if f.state == "" then "active" else f.state)
      && now.owner == was.owner && now.outcome == was.outcome && now.caller == was.caller && now.callee == was.callee
      && now.routeKind == was.routeKind && now.generation == was.generation
      && MetadataAfter(was.metadata, f.metadata, now.metadata)
      && (forall other :: other in now.legs && other != leg <==> other in was.legs && other != leg)
      && (forall other :: other in was.legs && other != leg ==> now.legs[other] == was.legs[other])
      && (now.revision == was.revision <==> now == was)
  {
  }

  /** While index and sessions agree, whatever is done by a leg is done to the session that has it, and an id that
      is no leg of any session stands for itself. */
  lemma LegsStandForSessions(r: Registry, id: CallId, leg: CallId)
    requires Indexed(r)
    ensures id in r.sessions && leg in r.sessions[id].legs ==> Resolve(r, leg) == id
    ensures (forall s :: s in r.sessions ==> leg !in r.sessions[s].legs) ==> Resolve(r, leg) == leg
  {
    assert id in r.sessions && leg in r.sessions[id].legs ==> Owns(r, id, leg);
    if leg in r.legIndex {
      assert Owns(r, r.legIndex[leg], leg);
    }
  }

  /** Removing a leg takes it from its session and from the index, and nothing else. */
  lemma RemoveLegWrites(r: Registry, call: CallId, leg: CallId)
    ensures var q, id := RemoveLeg(r, call, leg), Resolve(r, call);
      if id !in r.sessions then q == r
      else
        && id in q.sessions && Others(r, q, id) && q.legIndex == r.legIndex - {leg}
        && q.sessions[id].legs == r.sessions[id].legs - {leg}
        && q.sessions[id].revision == r.sessions[id].revision + (if leg in r.sessions[id].legs then 1 else 0)
        && q.sessions[id].(legs := map[], revision := 0) == r.sessions[id].(legs := map[], revision := 0)
  {
  }

  // ---------- endpoints ----------

  /** Who gets an endpoint: a call with an id, when there is an endpoint registry and it has the endpoint free or
      already with that call, or, if the claim may adopt, with one named like a physical transport. */
  lemma ClaimGranted(r: Registry, call: CallId, endpoint: EndpointId, adopt: bool)
    ensures var e, id := Clean(endpoint), Resolve(r, Clean(call));
      && (ClaimOutcome(r, call, endpoint, adopt) == Claimed <==>
            && r.holders.Some? && e != "" && id != ""
            && (e in r.holders.value && r.holders.value[e] != id ==> adopt && "physical:" <= r.holders.value[e]))
      && (ClaimOutcome(r, call, endpoint, adopt) == NotConfigured <==> r.holders == None || e == "")
      && (ClaimOutcome(r, call, endpoint, adopt) == EmptyCall <==> r.holders.Some? && e != "" && id == "")
  {
  }

  lemma RecordedWrites(r: Registry, id: CallId, e: EndpointId, role: string)
    ensures var q := Recorded(r, id, e, role);
      && id in q.claims && e in q.claims[id] && q.claims[id][e] == (if role == "" then "endpoint" else role)
      && q.holders == r.holders
      && q.sessions == if id !in r.sessions || (e in ClaimsOf(r, id) && ClaimsOf(r, id)[e] == q.claims[id][e])
                       then r.sessions
                       else r.sessions[id := r.sessions[id].(revision := r.sessions[id].revision + 1)]
  {
  }

  /** A claim that is granted is recorded under its role, "endpoint" if it names none, and counts one revision of
      the session unless it says nothing new. */
  lemma ClaimWrites(r: Registry, call: CallId, endpoint: EndpointId, role: string, adopt: bool)
    requires ClaimOutcome(r, call, endpoint, adopt) == Claimed
    ensures var q, e, id := ClaimEndpoint(r, call, endpoint, role, adopt), Clean(endpoint), Resolve(r, Clean(call));
      && id in q.claims && e in q.claims[id] && q.claims[id][e] == (if role == "" then "endpoint" else role)
      && q.holders == Some(r.holders.value[e := id])
      && q.sessions == if id !in r.sessions || (e in ClaimsOf(r, id) && ClaimsOf(r, id)[e] == q.claims[id][e])
                       then r.sessions
                       else r.sessions[id := r.sessions[id].(revision := r.sessions[id].revision + 1)]
  {
    var e, id := Clean(endpoint), Resolve(r, Clean(call));
    RecordedWrites(r.(holders := Some(r.holders.value[e := id])), id, e, role);
  }

  /** A phone that reports itself busy takes its endpoint only if nobody has it. */
  lemma BusyTakesFree(r: Registry, endpoint: EndpointId, token: string)
    ensures var q := TransportBusy(r, endpoint, token);
      if r.holders.Some? && endpoint !in r.holders.value && token != ""
      then q == r.(holders := Some(r.holders.value[endpoint := token])) else q == r
  {
  }

  // ---------- events ----------

  lemma EventsIn(d: Dict<CallId, EventContext>, id: CallId, x: EventContext)
    ensures Has(Put(d, id, x), id) && Get(Put(d, id, x), id, EventContext(0, "", "", 0)) == x
  {
    GetPut(d, id, x, id, EventContext(0, "", "", 0));
    HasPut(d, id, x, id);
  }

  lemma KnownContext(d: Dict<CallId, EventContext>, id: CallId, lives: nat)
    ensures Get(d, id, EventContext(0, "", "", lives))
         == if Has(d, id) then Get(d, id, FreshContext(0)) else FreshContext(lives)
  {
    if Has(d, id) {
      GetSame(d, id, FreshContext(0), EventContext(0, "", "", lives));
    } else {
      GetAbsent(d, id, EventContext(0, "", "", lives));
    }
  }

  /** A state that is new to a call counts one in its context, with the state before it; the same state, or
      none, counts nothing. A context begins at zero without a state, and the oldest of 256 makes room. */
  lemma EventCounts(r: Registry, call: CallId, state: string)
    requires Clean(call) != ""
    ensures var q, id := EventFields(r, call, state), Resolve(r, Clean(call));
      var was := Get(r.contexts, id, EventContext(0, "", "", r.lives));
      var now := Get(q.contexts, id, EventContext(0, "", "", 0));
      && Has(q.contexts, id)
      && (if Clean(state) == "" || Clean(state) == was.state then now == was
          else now == EventContext(was.sequence + 1, Clean(state), was.state, was.life))
      && |q.contexts| == if Has(r.contexts, id) || |r.contexts| >= 256 then |r.contexts| else |r.contexts| + 1
  {
    var id := Resolve(r, Clean(call));
    var d := if Has(r.contexts, id) then r.contexts else Roomy(r.contexts);
    var was := if Has(r.contexts, id) then Get(r.contexts, id, FreshContext(0)) else FreshContext(r.lives);
    var x := Advanced(was, Clean(state));
    assert EventFields(r, call, state).contexts == Put(d, id, x);
    EventsIn(d, id, x);
    KnownContext(r.contexts, id, r.lives);
    PutSize(d, id, x);
    if !Has(r.contexts, id) {
      RoomyLacks(r.contexts, id);
    }
  }

  lemma {:induction false} GetSame<V>(d: Dict<CallId, V>, id: CallId, a: V, b: V)
    requires Has(d, id)
    ensures Get(d, id, a) == Get(d, id, b)
    decreases |d|
  {
    HasCons(d, id);
    if d != [] && d[0].0 != id {
      GetSame(d[1..], id, a, b);
    }
  }

  lemma {:induction false} GetAbsent<V>(d: Dict<CallId, V>, id: CallId, a: V)
    requires !Has(d, id)
    ensures Get(d, id, a) == a
    decreases |d|
  {
    HasCons(d, id);
    if d != [] {
      GetAbsent(d[1..], id, a);
    }
  }

  lemma RoomyLacks(d: Dict<CallId, EventContext>, id: CallId)
    requires !Has(d, id)
    ensures !Has(Roomy(d), id) && |Roomy(d)| == if |d| >= 256 then |d| - 1 else |d|
  {
    HasCons(d, id);
  }

  lemma {:induction false} PutSize<V>(d: Dict<CallId, V>, id: CallId, v: V)
    ensures |Put(d, id, v)| == |d| + if Has(d, id) then 0 else 1
    decreases |d|
  {
    HasCons(d, id);
    if d != [] && d[0].0 != id {
      PutSize(d[1..], id, v);
    }
  }

  // ---------- bridges ----------

  /** What a caller learns from detaching a bridge: both ids, what was held for them, and whether it called by
      the destination's id, which then is not to be hung up again. */
  lemma DetachTells(r: Registry, call: CallId)
    ensures var d, pair := DetachedBy(r, call), BridgeFor(r, call);
      if pair.0 == "" then d == Detached("", "", None, None, None, false)
      else
        && d.source == pair.0 && d.dest == pair.1 && (d.calledByDest <==> call == pair.1)
        && d.relay == (if pair.0 in r.relays then Some(r.relays[pair.0]) else None)
        && d.client == (if pair.1 != "" && pair.1 in r.clients then Some(r.clients[pair.1]) else None)
        && d.watcher == (if pair.1 != "" && pair.1 in r.watchers then Some(r.watchers[pair.1]) else None)
  {
  }

  /** Registering a bridge that is admitted: the pair is recorded, the source's session is there with the owner
      "bridge" and has both legs in their roles, and the client is held for the destination. */
  lemma RegisterWrites(r: Registry, s: CallId, d: CallId, c: Token, f: BridgeFields, g: Option<int>)
    requires RegisterAdmitted(r, s, g)
    ensures var q := RegisterBridge(r, s, d, c, f, g);
      && q.bridges == Put(r.bridges, s, d) && q.clients == r.clients[d := c]
      && s in q.sessions && Others(r, q, s) && q.legIndex == r.legIndex[s := s][d := s]
      && q.sessions[s].owner == "bridge" && (f.state != "" ==> q.sessions[s].state == f.state)
      && d in q.sessions[s].legs && q.sessions[s].legs[d].role == f.destRole
      && s in q.sessions[s].legs && (s != d ==> q.sessions[s].legs[s].role == f.sourceRole)
      && (s != d && f.sourceState != "" ==> q.sessions[s].legs[s].state == f.sourceState)
      && (f.destState != "" ==> q.sessions[s].legs[d].state == f.destState)
      && (f.destState == "" && f.state != "" ==> q.sessions[s].legs[d].state == f.state)
  {
    var q0 := Started(r, s, d, f);
    var q1 := AddLeg(q0, s, s, SourceLeg(f));
    UpsertWrites(r.(bridges := Put(r.bridges, s, d)), s,
                 CallFields(f.state, f.caller, f.callee, f.routeKind, "", "bridge", f.metadata));
    AddLegWrites(q0, s, s, SourceLeg(f));
    AddLegSession(q0, s, s, SourceLeg(f));
    AddLegWrites(q1, s, d, DestLeg(f));
    AddLegSession(q1, s, d, DestLeg(f));
  }

  /** A bridge is admitted when no generation is expected, or the expected one is the live session's and not
      remembered as terminated. */
  lemma AdmitsTheLive(r: Registry, source: CallId, expected: int)
    ensures RegisterAdmitted(r, source, None)
    ensures RegisterAdmitted(r, source, Some(expected)) <==>
      MayChange(r, Resolve(r, Clean(source)), Guard(None, Some(expected), None))
      && !IsTerminated(r, source, Some(expected))
  {
  }

  // ---------- clearing ----------

  /** Clearing the runtime empties every table but the count of generations, and gives back every endpoint that a
      call holds and has claimed under an id that stands for itself; whatever else is held stays held. */
  lemma ClearEmpties(r: Registry, e: EndpointId, id: CallId)
    ensures var q := Cleared(r);
      && q.sessions == map[] && q.legIndex == map[] && q.tombstones == [] && q.contexts == [] && q.bridges == []
      && q.relays == map[] && q.clients == map[] && q.watchers == map[] && q.media == map[] && q.counter == r.counter
      && (q.holders.Some? <==> r.holders.Some?)
      && (r.holders.Some? && e in r.holders.value && r.holders.value[e] == id ==>
            && (id in r.claims && e in r.claims[id] && Resolve(r, Clean(id)) == id ==>
                  e !in q.holders.value && id !in q.claims)
            && (id !in r.claims || e !in r.claims[id] ==> e in q.holders.value && q.holders.value[e] == id))
  {
    if id in r.claims && Resolve(r, Clean(id)) == id {
      assert id in ReleasedIds(r, r.claims.Keys);
    }
  }
}
