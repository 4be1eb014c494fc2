/** The call registry as the object it is: every method changes its tables step by step, and what it
    does to the whole state is the step of the same name in RegistryState. */
module CallRegistries {
  import opened Wrappers
  import opened OrderedDicts
  import opened Tombstones
  import opened RegistryState

  lemma SameMetadata(m: Metadata, clean: Metadata)
    ensures m + clean == m <==> forall key :: key in clean ==> key in m && m[key] == clean[key]
  {
    if m + clean == m {
      forall key | key in clean ensures key in m && m[key] == clean[key] {
        assert key in m + clean && (m + clean)[key] == clean[key];
      }
    }
  }

  lemma {:induction false} WithoutMore<V>(d: Dict<CallId, V>, done: set<CallId>, id: CallId)
    ensures Remove(Without(d, done), id) == Without(d, done + {id})
    decreases |d|
  {
    if d != [] {
      var t, more := Without(d[1..], done), Without(d[1..], done + {id});
      WithoutMore(d[1..], done, id);
      assert [] + t == t && [] + more == more;
      RemoveHead(d[0], t, id);
    }
  }

  lemma RemoveHead<V>(head: (CallId, V), t: Dict<CallId, V>, id: CallId)
    ensures Remove([head] + t, id) == if head.0 == id then Remove(t, id) else [head] + Remove(t, id)
  {
    assert ([head] + t)[1..] == t;
  }

  lemma {:induction false} WithoutNone<V>(d: Dict<CallId, V>)
    ensures Without(d, {}) == d
    decreases |d|
  {
    if d != [] {
      WithoutNone(d[1..]);
    }
  }

  lemma EachStep(d: Dict<CallId, int>, id: CallId, rest: seq<CallId>, generation: int)
    ensures RememberEach(d, [id] + rest, generation)
      == RememberEach(if id == "" then d else Remember(d, id, generation), rest, generation)
  {
    assert ([id] + rest)[1..] == rest;
  }

  datatype ClaimError = EndpointBusy | CallIdEmpty

  class CallRegistry {
    var sessions: map<CallId, Session>
    var legIndex: map<CallId, CallId>
    var counter: nat
    var endpointClaims: map<CallId, map<EndpointId, string>>
    var endpointRegistry: Option<map<EndpointId, CallId>>
    var terminated: Dict<CallId, int>
    var eventContexts: Dict<CallId, EventContext>
    var lives: nat
    var bridgeClients: Dict<CallId, CallId>
    var relays: map<CallId, Token>
    var sipClients: map<CallId, Token>
    var clientWatchers: map<CallId, Token>
    var softphoneMedia: map<CallId, Token>

    ghost function State(): Registry
      reads this
    {
      Registry(sessions, legIndex, counter, endpointClaims, endpointRegistry, terminated, eventContexts, lives,
               bridgeClients, relays, sipClients, clientWatchers, softphoneMedia)
    }

    constructor (endpoints: Option<map<EndpointId, CallId>>)
      ensures State() == EMPTY.(holders := endpoints)
    {
      sessions, legIndex, counter, endpointClaims := map[], map[], 0, map[];
      endpointRegistry, terminated, eventContexts, lives := endpoints, [], [], 0;
      bridgeClients, relays, sipClients, clientWatchers, softphoneMedia := [], map[], map[], map[], map[];
    }

    function ResolveSessionId(call: CallId): (id: CallId)
      reads this
      ensures id == Resolve(State(), call)
    {
      if call in legIndex then legIndex[call] else call
    }

    // ---------- sessions and legs ----------

    method Upsert(id: CallId, f: CallFields)
      modifies `sessions, `counter
      ensures State() == RegistryState.Upsert(old(State()), id, f)
    {
      var session: Session;
      if id in sessions {
        session := sessions[id];
      } else {
        counter := counter + 1;
        session := NewSession(counter);
      }
      session := Refreshed(session, f);
      sessions := sessions[id := session];
    }

    /** One attribute: a value that says something replaces what was there. */
    static method Replaced(current: string, value: string) returns (now: string, differs: bool)
      ensures now == Or(value, current)
      ensures differs <==> now != current
    {
      if value != "" && current != value {
        return value, true;
      }
      return current, false;
    }

    static method Refreshed(known: Session, f: CallFields) returns (session: Session)
      ensures session == Upserted(known, f)
    {
      var state, d0 := Replaced(known.state, f.state);
      var owner, d1 := Replaced(known.owner, f.owner);
      var caller, d2 := Replaced(known.caller, f.caller);
      var callee, d3 := Replaced(known.callee, f.callee);
      var routeKind, d4 := Replaced(known.routeKind, f.routeKind);
      var reason, d5 := Replaced(known.terminalReason, f.terminalReason);
      var changed := d0 || d1 || d2 || d3 || d4 || d5;
      session := known.(state := state, owner := owner, caller := caller, callee := callee, routeKind := routeKind,
                        terminalReason := reason);
      var clean := Meaningful(f.metadata);
      SameMetadata(known.metadata, clean);
      if exists key | key in clean :: key !in known.metadata || known.metadata[key] != clean[key] {
        session, changed := session.(metadata := known.metadata + clean), true;
      }
      if changed {
        session := session.(revision := session.revision + 1);
      }
    }

    method Transition(call: CallId, c: Change, g: Guard) returns (applied: Option<Session>)
      modifies `sessions
      ensures State() == RegistryState.Transition(old(State()), call, c, g)
      ensures applied.Some? <==> TransitionSucceeds(old(State()), call, g)
      ensures applied.Some? ==> var id := Resolve(old(State()), Clean(call));
        id in sessions && applied.value == sessions[id]
    {
      var id := ResolveSessionId(Clean(call));
      if id !in sessions {
        return None;
      }
      var session := sessions[id];
      if g.revision != None && session.revision != g.revision.value {
        return None;
      }
      if g.generation != None && session.generation != g.generation.value {
        return None;
      }
      if g.owner != None && session.owner != g.owner.value {
        return None;
      }
      if session.owner == "terminal" || session.state in TERMINAL_STATES {
        return None;
      }
      session := Applied(session, c);
      sessions := sessions[id := session];
      return Some(session);
    }

    static method Applied(known: Session, c: Change) returns (session: Session)
      ensures session == Changed(known, c)
    {
      session := known.(state := if c.state != "" then c.state else known.state);
      session := session.(owner := if c.owner != None then c.owner.value else session.owner);
      session := session.(outcome := if c.outcome != None then c.outcome.value else session.outcome);
      session := session.(caller := if c.caller != "" then c.caller else session.caller);
      session := session.(callee := if c.callee != "" then c.callee else session.callee);
      session := session.(routeKind := if c.routeKind != "" then c.routeKind else session.routeKind);
      session := session.(metadata := session.metadata + Meaningful(c.metadata), revision := session.revision + 1);
    }

    method AddLeg(call: CallId, leg: CallId, f: LegFields)
      modifies `sessions, `counter, `legIndex
      ensures State() == RegistryState.AddLeg(old(State()), call, leg, f)
    {
      if call !in sessions {
        Upsert(call, CallFields(Or(f.state, "active"), "", "", "", "", "", f.metadata));
      } else {
        var clean, known := Meaningful(f.metadata), sessions[call];
        SameMetadata(known.metadata, clean);
        if exists key | key in clean :: key !in known.metadata || known.metadata[key] != clean[key] {
          known := known.(metadata := known.metadata + clean, revision := known.revision + 1);
        }
        sessions := sessions[call := known];
      }
      assert State() == Prepared(old(State()), call, f);
      PlaceLeg(call, leg, f);
    }

    method PlaceLeg(call: CallId, leg: CallId, f: LegFields)
      requires call in sessions
      modifies `sessions, `legIndex
      ensures State() == Placed(old(State()), call, leg, f)
    {
      var session := sessions[call];
      var changed, entry := false, Leg(f.role, Or(f.sipCallId, leg), "idle");
      if leg in session.legs {
        entry := session.legs[leg];
      } else {
        changed := true;
      }
      var nextState := if f.state != "" then f.state else entry.state;
      var nextSipCallId := if f.sipCallId != "" then f.sipCallId else entry.sipCallId;
      if entry.role != f.role || entry.state != nextState || entry.sipCallId != nextSipCallId {
        changed := true;
      }
      session := session.(legs := session.legs[leg := Leg(f.role, nextSipCallId, nextState)]);
      legIndex := legIndex[leg := call];
      if changed {
        session := session.(revision := session.revision + 1);
      }
      sessions := sessions[call := session];
    }

    method RemoveLeg(call: CallId, leg: CallId) returns (removed: Option<Leg>)
      modifies `sessions, `legIndex
      ensures State() == RegistryState.RemoveLeg(old(State()), call, leg)
      ensures var id := Resolve(old(State()), call);
        removed == if id in old(sessions) && leg in old(sessions)[id].legs then Some(old(sessions)[id].legs[leg]) else None
    {
      var id := ResolveSessionId(call);
      if id !in sessions {
        return None;
      }
      var session := sessions[id];
      removed := None;
      if leg in session.legs {
        removed := Some(session.legs[leg]);
        session := session.(legs := session.legs - {leg}, revision := session.revision + 1);
      }
      legIndex := legIndex - {leg};
      sessions := sessions[id := session];
    }

    // ---------- endpoint claims ----------

    /** What the endpoint registry promises: an endpoint another call holds is refused, unless the
        holder is a physical transport and the claim may adopt it. */
    method HoldEndpoint(e: EndpointId, id: CallId, adopt: bool) returns (held: bool)
      requires endpointRegistry.Some?
      modifies `endpointRegistry
      ensures var was := old(endpointRegistry).value;
        && (!held <==> e in was && was[e] != id && !(adopt && PHYSICAL <= was[e]))
        && endpointRegistry == if held then Some(was[e := id]) else Some(was)
    {
      var holders := endpointRegistry.value;
      if e in holders && holders[e] != id && !(adopt && PHYSICAL <= holders[e]) {
        return false;
      }
      endpointRegistry := Some(holders[e := id]);
      return true;
    }

    method RecordClaim(id: CallId, e: EndpointId, role: string)
      modifies `sessions, `endpointClaims
      ensures State() == Recorded(old(State()), id, e, role)
    {
      var claims := if id in endpointClaims then endpointClaims[id] else map[];
      var known := e in claims && claims[e] == Or(role, "endpoint");
      endpointClaims := endpointClaims[id := claims[e := Or(role, "endpoint")]];
      if !known && id in sessions {
        sessions := sessions[id := sessions[id].(revision := sessions[id].revision + 1)];
      }
    }

    method ClaimEndpoint(call: CallId, endpoint: EndpointId, role: string, adopt: bool) returns (won: Result<bool, ClaimError>)
      modifies `sessions, `endpointClaims, `endpointRegistry
      ensures State() == RegistryState.ClaimEndpoint(old(State()), call, endpoint, role, adopt)
      ensures won == match ClaimOutcome(old(State()), call, endpoint, adopt)
        case Claimed => Ok(true)
        case NotConfigured => Ok(false)
        case EmptyCall => Err(CallIdEmpty)
        case Busy => Err(EndpointBusy)
    {
      var e := Clean(endpoint);
      if endpointRegistry == None || e == "" {
        return Ok(false);
      }
      var id := ResolveSessionId(Clean(call));
      if id == "" {
        return Err(CallIdEmpty);
      }
      var held := HoldEndpoint(e, id, adopt);
      if !held {
        return Err(EndpointBusy);
      }
      RecordClaim(id, e, role);
      return Ok(true);
    }

    method ReleaseEndpointClaims(call: CallId)
      modifies `endpointClaims, `endpointRegistry
      ensures State() == RegistryState.ReleaseClaims(old(State()), call)
    {
      var id := ResolveSessionId(Clean(call));
      var claims := if id in endpointClaims then endpointClaims[id] else map[];
      if endpointRegistry != None {
        FreeEach(id, claims.Keys);
      }
      endpointClaims := endpointClaims - {id};
    }

    method FreeEach(id: CallId, endpoints: set<EndpointId>)
      requires endpointRegistry.Some?
      modifies `endpointRegistry
      ensures endpointRegistry.Some?
      ensures endpointRegistry.value == Freed(old(endpointRegistry).value, endpoints, id)
    {
      ghost var was := endpointRegistry.value;
      var left := endpoints;
      while left != {}
        invariant endpointRegistry.Some? && left <= endpoints
        invariant endpointRegistry.value == Freed(was, endpoints - left, id)
        decreases left
      {
        var e :| e in left;
        var holders := endpointRegistry.value;
        if e in holders && holders[e] == id {
          endpointRegistry := Some(holders - {e});
        }
        left := left - {e};
      }
    }

    method ReleaseEndpointClaim(call: CallId, endpoint: EndpointId) returns (released: bool)
      modifies `sessions, `endpointClaims, `endpointRegistry
      ensures State() == RegistryState.ReleaseClaim(old(State()), call, endpoint)
      ensures released <==> ClaimReleased(old(State()), call, endpoint)
    {
      var id, e := ResolveSessionId(Clean(call)), Clean(endpoint);
      if e == "" || id !in endpointClaims || e !in endpointClaims[id] {
        return false;
      }
      released := false;
      if endpointRegistry != None {
        var holders := endpointRegistry.value;
        if e in holders && holders[e] == id {
          endpointRegistry, released := Some(holders - {e}), true;
        }
      }
      var claims := endpointClaims[id] - {e};
      endpointClaims := if claims == map[] then endpointClaims - {id} else endpointClaims[id := claims];
      if id in sessions {
        sessions := sessions[id := sessions[id].(revision := sessions[id].revision + 1)];
      }
    }

    // ---------- termination ----------

    method RememberTerminated(ids: seq<CallId>, generation: int)
      modifies `terminated
      ensures terminated == RememberAll(old(terminated), seq(|ids|, i requires 0 <= i < |ids| => Clean(ids[i])), generation)
    {
      ghost var cleaned := seq(|ids|, i requires 0 <= i < |ids| => Clean(ids[i]));
      var i := 0;
      assert cleaned[0..] == cleaned;
      while i < |ids|
        invariant 0 <= i <= |ids|
        invariant RememberEach(terminated, cleaned[i..], generation) == RememberEach(old(terminated), cleaned, generation)
      {
        assert cleaned[i..] == [cleaned[i]] + cleaned[i + 1..];
        EachStep(terminated, cleaned[i], cleaned[i + 1..], generation);
        RememberOne(Clean(ids[i]), generation);
        i := i + 1;
      }
      assert cleaned[i..] == [];
      Evict();
    }

    method RememberOne(id: CallId, generation: int)
      modifies `terminated
      ensures terminated == if id == "" then old(terminated) else Remember(old(terminated), id, generation)
    {
      if id != "" {
        terminated := Remove(terminated, id) + [(id, generation)];
      }
    }

    method Evict()
      modifies `terminated
      ensures terminated == Trim(old(terminated), MAX_TERMINATED_CALL_IDS)
    {
      while |terminated| > MAX_TERMINATED_CALL_IDS
        invariant Trim(terminated, MAX_TERMINATED_CALL_IDS) == Trim(old(terminated), MAX_TERMINATED_CALL_IDS)
        decreases |terminated|
      {
        terminated := terminated[1..];
      }
    }

    method IsTerminatedCall(call: CallId, generation: Option<int>) returns (found: bool)
      ensures found <==> IsTerminated(State(), call, generation)
    {
      var c := Clean(call);
      var candidates := [c, ResolveSessionId(c)];
      var i := 0;
      while i < 2
        invariant 0 <= i <= 2
        invariant forall k :: 0 <= k < i ==>
          !(Has(terminated, candidates[k])
            && (generation == None || generation == Some(Get(terminated, candidates[k], 0))))
      {
        if Has(terminated, candidates[i]) && (generation == None || generation == Some(Get(terminated, candidates[i], 0))) {
          assert candidates[i] in candidates;
          return true;
        }
        i := i + 1;
      }
      return false;
    }

    method IsCurrentGeneration(call: CallId, generation: int) returns (current: bool)
      ensures current <==> IsGenerationCurrent(State(), call, generation)
    {
      var id := ResolveSessionId(Clean(call));
      if id !in sessions || sessions[id].generation != generation {
        return false;
      }
      var over := IsTerminatedCall(call, Some(generation));
      return sessions[id].owner != "terminal" && sessions[id].state !in TERMINAL_STATES && !over;
    }

    method BeginTermination(call: CallId) returns (begun: bool)
      modifies `sessions, `terminated
      ensures State() == RegistryState.BeginTermination(old(State()), call)
      ensures begun <==> BeginSucceeds(old(State()), call)
    {
      if Clean(call) == "" {
        return false;
      }
      var id := ResolveSessionId(Clean(call));
      var over := IsTerminatedCall(call, None);
      if over {
        return false;
      }
      Bury(call);
      if id in sessions {
        var session := sessions[id];
        if !("pbx_phase" in session.metadata && session.metadata["pbx_phase"] == "terminating") {
          session := session.(metadata := session.metadata["pbx_phase" := "terminating"], revision := session.revision + 1);
        }
        sessions := sessions[id := session];
      }
      return true;
    }

    method Bury(call: CallId)
      modifies `terminated
      ensures State() == Buried(old(State()), call)
    {
      var id := ResolveSessionId(Clean(call));
      RememberTerminated([call, id], if id in sessions then sessions[id].generation else 0);
      assert seq(2, i requires 0 <= i < 2 => Clean([call, id][i])) == [Clean(call), Clean(id)];
    }

    method Finish(call: CallId, reason: string, state: string)
      modifies `sessions
      ensures State() == RegistryState.Finish(old(State()), call, reason, state)
    {
      var id := ResolveSessionId(call);
      if id in sessions {
        var session := sessions[id];
        session := session.(state := state, terminalReason := Or(reason, session.terminalReason), owner := "terminal");
        session := session.(outcome := Or(reason, session.outcome), revision := session.revision + 1);
        sessions := sessions[id := session];
      }
    }

    method Pop(call: CallId) returns (popped: Option<Session>)
      modifies `endpointClaims, `endpointRegistry, `sessions, `bridgeClients, `legIndex, `eventContexts
      ensures State() == RegistryState.Pop(old(State()), call)
      ensures var id := Resolve(old(State()), Clean(call));
        popped == if id in old(sessions) then Some(old(sessions)[id]) else None
    {
      var c := Clean(call);
      var id := ResolveSessionId(c);
      ReleaseEndpointClaims(id);
      popped := if id in sessions then Some(sessions[id]) else None;
      var legs := if popped.Some? then popped.value.legs.Keys else {};
      assert legs == LegsOf(old(State()), id);
      Forget(c, id, legs);
    }

    method Forget(c: CallId, id: CallId, legs: set<CallId>)
      modifies `sessions, `bridgeClients, `legIndex, `eventContexts
      ensures State() == old(State()).(
        sessions := old(sessions) - {id}, bridges := Remove(old(bridgeClients), id),
        legIndex := old(legIndex) - legs - {c}, contexts := Without(old(eventContexts), {c, id} + legs))
    {
      sessions := sessions - {id};
      bridgeClients := Remove(bridgeClients, id);
      ForgetLegs(legs);
      legIndex := legIndex - {c};
      ForgetContexts({c, id} + legs);
    }

    method ForgetLegs(legs: set<CallId>)
      modifies `legIndex
      ensures legIndex == old(legIndex) - legs
    {
      var left := legs;
      while left != {}
        invariant left <= legs && legIndex == old(legIndex) - (legs - left)
        decreases left
      {
        var leg :| leg in left;
        legIndex, left := legIndex - {leg}, left - {leg};
      }
    }

    method ForgetContexts(ids: set<CallId>)
      modifies `eventContexts
      ensures eventContexts == Without(old(eventContexts), ids)
    {
      var left, done := ids, {};
      WithoutNone(eventContexts);
      while left != {}
        invariant left + done == ids
        invariant eventContexts == Without(old(eventContexts), done)
        decreases left
      {
        var id :| id in left;
        WithoutMore(old(eventContexts), done, id);
        eventContexts := Remove(eventContexts, id);
        left, done := left - {id}, done + {id};
      }
      assert done == ids;
    }

    method FinishAndPop(call: CallId, reason: string, state: string) returns (popped: Option<Session>)
      modifies this
      ensures State() == RegistryState.FinishAndPop(old(State()), call, reason, state)
    {
      var id := ResolveSessionId(Clean(call));
      if id != "" {
        Bury(call);
      }
      Finish(call, reason, state);
      popped := Pop(call);
    }

    // ---------- automation events ----------

    method AdvanceEvents(call: CallId, state: string)
      modifies `eventContexts, `lives
      ensures State() == EventFields(old(State()), call, state)
    {
      if Clean(call) == "" {
        return;
      }
      var id := ResolveSessionId(Clean(call));
      var context := OpenContext(id);
      context := Advance(context, Clean(state));
      eventContexts := Put(eventContexts, id, context);
    }

    /** The context of a session, a new one if it has none; a full table gives up its oldest. */
    method OpenContext(id: CallId) returns (context: EventContext)
      modifies `eventContexts, `lives
      ensures Has(old(eventContexts), id) ==>
        eventContexts == old(eventContexts) && lives == old(lives) && context == Get(old(eventContexts), id, FreshContext(0))
      ensures !Has(old(eventContexts), id) ==>
        eventContexts == Roomy(old(eventContexts)) && lives == old(lives) + 1 && context == FreshContext(old(lives))
    {
      if Has(eventContexts, id) {
        return Get(eventContexts, id, FreshContext(0));
      }
      if |eventContexts| >= MAX_EVENT_CONTEXTS {
        eventContexts := eventContexts[1..];
      }
      context := FreshContext(lives);
      lives := lives + 1;
    }

    static method Advance(known: EventContext, state: string) returns (context: EventContext)
      ensures context == Advanced(known, state)
    {
      context := known;
      if state != "" && state != context.state {
        context := context.(previousState := context.state, state := state, sequence := context.sequence + 1);
      }
    }

    // ---------- bridges ----------

    method FindBridge(call: CallId) returns (source: CallId, dest: CallId)
      ensures (source, dest) == BridgeFor(State(), call)
    {
      if Has(bridgeClients, call) && call != "" {
        return call, Get(bridgeClients, call, "");
      }
      var i := 0;
      while i < |bridgeClients|
        invariant 0 <= i <= |bridgeClients|
        invariant BridgeTo(bridgeClients, call) == BridgeTo(bridgeClients[i..], call)
      {
        assert bridgeClients[i..][0] == bridgeClients[i] && bridgeClients[i..][1..] == bridgeClients[i + 1..];
        if bridgeClients[i].1 == call {
          return bridgeClients[i].0, bridgeClients[i].1;
        }
        i := i + 1;
      }
      return "", "";
    }

    method DetachBridge(call: CallId) returns (d: Detached)
      modifies `bridgeClients, `relays, `sipClients, `clientWatchers
      ensures State() == RegistryState.DetachBridge(old(State()), call)
      ensures d == DetachedBy(old(State()), call)
    {
      var source, dest := FindBridge(call);
      if source == "" {
        return NOTHING;
      }
      bridgeClients := Remove(bridgeClients, source);
      var relay, client, watcher := Take(relays, source), None, None;
      relays := relays - {source};
      if dest != "" {
        client, watcher := Take(sipClients, dest), Take(clientWatchers, dest);
        sipClients := sipClients - {dest};
        clientWatchers := clientWatchers - {dest};
      }
      return Detached(source, dest, relay, client, watcher, call == dest);
    }

    method RegisterBridge(source: CallId, dest: CallId, client: Token, f: BridgeFields, expected: Option<int>)
      returns (admitted: bool)
      modifies this
      ensures State() == RegistryState.RegisterBridge(old(State()), source, dest, client, f, expected)
      ensures admitted <==> RegisterAdmitted(old(State()), source, expected)
    {
      if expected != None {
        var current := IsCurrentGeneration(source, expected.value);
        if !current {
          return false;
        }
      }
      bridgeClients := Put(bridgeClients, source, dest);
      Upsert(source, CallFields(f.state, f.caller, f.callee, f.routeKind, "", "bridge", f.metadata));
      AddLeg(source, source, LegFields(f.sourceRole, if f.sourceState != "" then f.sourceState else f.state, "", map[]));
      AddLeg(source, dest, LegFields(f.destRole, if f.destState != "" then f.destState else f.state, "", map[]));
      sipClients := sipClients[dest := client];
      return true;
    }

    method ClearRuntime()
      modifies this
      ensures State() == Cleared(old(State()))
    {
      ReleaseAllEndpointClaims();
      sessions, legIndex, softphoneMedia, sipClients := map[], map[], map[], map[];
      clientWatchers, relays, bridgeClients, eventContexts, terminated := map[], map[], [], [], [];
    }

    method ReleaseAllEndpointClaims()
      modifies `endpointClaims, `endpointRegistry
      ensures var ids := ReleasedIds(old(State()), old(endpointClaims).Keys);
        endpointClaims == old(endpointClaims) - ids && endpointRegistry == StillHeld(old(State()), ids)
    {
      ghost var r := State();
      var left := endpointClaims.Keys;
      ghost var done: set<CallId> := {};
      NothingReleased(r);
      while left != {}
        invariant left + done == old(endpointClaims).Keys
        invariant endpointClaims == r.claims - ReleasedIds(r, done)
        invariant endpointRegistry == StillHeld(r, ReleasedIds(r, done))
        decreases left
      {
        var id :| id in left;
        ghost var was := State();
        ReleaseEndpointClaims(id);
        OneMoreReleased(r, was, done, id);
        left, done := left - {id}, done + {id};
      }
      assert done == old(endpointClaims).Keys;
    }
  }

  lemma NothingReleased(r: Registry)
    ensures ReleasedIds(r, {}) == {} && StillHeld(r, {}) == r.holders && r.claims - {} == r.claims
  {
    if r.holders.Some? {
      assert StillHeld(r, {}).value == r.holders.value;
    }
  }

  lemma FreedStill(r: Registry, ids: set<CallId>, m: CallId)
    requires r.holders.Some?
    ensures Freed(StillHeld(r, ids).value, ClaimsOf(r, m).Keys, m) == StillHeld(r, ids + {m}).value
  {
  }

  lemma FreedNothing(h: map<EndpointId, CallId>, m: CallId)
    ensures Freed(h, {}, m) == h
  {
  }

  /** Releasing one more call's claims, if they were not released before. */
  lemma OneMoreReleased(r: Registry, was: Registry, done: set<CallId>, call: CallId)
    requires was.claims == r.claims - ReleasedIds(r, done) && was.holders == StillHeld(r, ReleasedIds(r, done))
    requires was.legIndex == r.legIndex
    ensures ReleaseClaims(was, call).claims == r.claims - ReleasedIds(r, done + {call})
    ensures ReleaseClaims(was, call).holders == StillHeld(r, ReleasedIds(r, done + {call}))
  {
    var ids, m := ReleasedIds(r, done), Resolve(r, Clean(call));
    assert ReleasedIds(r, done + {call}) == ids + {m};
    assert Resolve(was, Clean(call)) == m;
    ReleasedFrom(r, was, ids, m);
    assert ReleaseClaims(was, call).claims == was.claims - {m};
  }

  lemma ReleasedFrom(r: Registry, was: Registry, ids: set<CallId>, m: CallId)
    requires was.claims == r.claims - ids && was.holders == StillHeld(r, ids)
    ensures was.claims - {m} == r.claims - (ids + {m})
    ensures match was.holders
      case None => StillHeld(r, ids + {m}) == None
      case Some(h) => StillHeld(r, ids + {m}) == Some(Freed(h, ClaimsOf(was, m).Keys, m))
  {
    if r.holders.Some? {
      FreedStill(r, ids, m);
      if m in ids {
        assert ids + {m} == ids && ClaimsOf(was, m).Keys == {};
        FreedNothing(was.holders.value, m);
      } else {
        assert ClaimsOf(was, m) == ClaimsOf(r, m);
      }
    }
  }
}
