/** The call registry as a value, and every registry operation as one step on it.
    The registry runs without a bound session owner, so it hands out generations itself. */
module RegistryState {
  import opened Wrappers
  import opened OrderedDicts
  import opened Tombstones

  type EndpointId = string
  type Token = nat
  type Metadata = map<string, string>

  const TERMINAL_STATES: set<string> := {
    "idle", "busy", "declined", "cancelled", "media_incompatible", "transport_unreachable",
    "auth_required_unsupported", "protocol_error", "error"
  }
  const MAX_EVENT_CONTEXTS: nat := 256
  const PHYSICAL: string := "physical:"

  datatype Leg = Leg(role: string, sipCallId: CallId, state: string)

  datatype Session = Session(
    generation: nat, revision: nat, state: string, owner: string, outcome: string,
    caller: string, callee: string, routeKind: string, terminalReason: string,
    legs: map<CallId, Leg>, metadata: Metadata)

  /** State of the automation events of one call. The life number names one life of the context: it
      is bookkeeping of the model, not read by any operation. */
  datatype EventContext = EventContext(sequence: nat, state: string, previousState: string, life: nat)

  datatype Registry = Registry(
    sessions: map<CallId, Session>,
    legIndex: map<CallId, CallId>,
    counter: nat,
    claims: map<CallId, map<EndpointId, string>>,
    holders: Option<map<EndpointId, CallId>>,
    tombstones: Dict<CallId, int>,
    contexts: Dict<CallId, EventContext>,
    lives: nat,
    bridges: Dict<CallId, CallId>,
    relays: map<CallId, Token>,
    clients: map<CallId, Token>,
    watchers: map<CallId, Token>,
    media: map<CallId, Token>)

  // ---------- identifiers ----------

  predicate IsSpace(c: char)
  {
    || '\t' <= c <= '\r' || c == ' ' || ('\U{1c}' <= c <= '\U{1f}')
    || c == '\U{85}' || c == '\U{a0}' || c == '\U{1680}' || ('\U{2000}' <= c <= '\U{200a}')
    || c == '\U{2028}' || c == '\U{2029}' || c == '\U{202f}' || c == '\U{205f}' || c == '\U{3000}'
  }

  function StripLeft(s: string): string
  {
    if s != "" && IsSpace(s[0]) then StripLeft(s[1..]) else s
  }

  function StripRight(s: string): string
  {
    if s != "" && IsSpace(s[|s| - 1]) then StripRight(s[..|s| - 1]) else s
  }

  /** An identifier as most operations read it. */
  function Clean(id: string): string
  {
    StripRight(StripLeft(id))
  }

  lemma {:induction false} StripLeftStops(s: string)
    ensures StripLeft(s) == "" || !IsSpace(StripLeft(s)[0])
    ensures |StripLeft(s)| <= |s| && StripLeft(s) == s[|s| - |StripLeft(s)|..]
    decreases |s|
  {
    if s != "" && IsSpace(s[0]) {
      StripLeftStops(s[1..]);
    }
  }

  lemma {:induction false} StripRightStops(s: string)
    ensures StripRight(s) == "" || !IsSpace(StripRight(s)[|StripRight(s)| - 1])
    ensures StripRight(s) <= s
    decreases |s|
  {
    if s != "" && IsSpace(s[|s| - 1]) {
      StripRightStops(s[..|s| - 1]);
    }
  }

  /** Cleaning an identifier twice changes no more than cleaning it once. */
  lemma CleanTwice(id: string)
    ensures Clean(Clean(id)) == Clean(id)
  {
    StripLeftStops(id);
    StripRightStops(StripLeft(id));
    var c := Clean(id);
    if c != "" {
      assert c[0] == StripLeft(id)[0];
      assert StripLeft(c) == c && StripRight(c) == c;
    } else {
      assert StripLeft(c) == c;
    }
  }

  lemma {:induction false} StripLeftDrops(a: string, s: string)
    requires (forall i :: 0 <= i < |a| ==> IsSpace(a[i])) && (s == "" || !IsSpace(s[0]))
    ensures StripLeft(a + s) == s
    decreases |a|
  {
    if a == "" {
      assert a + s == s;
    } else {
      assert (a + s)[1..] == a[1..] + s;
      StripLeftDrops(a[1..], s);
    }
  }

  lemma {:induction false} StripRightDrops(s: string, b: string)
    requires (forall i :: 0 <= i < |b| ==> IsSpace(b[i])) && (s == "" || !IsSpace(s[|s| - 1]))
    ensures StripRight(s + b) == s
    decreases |b|
  {
    if b == "" {
      assert s + b == s;
    } else {
      assert (s + b)[..|s + b| - 1] == s + b[..|b| - 1];
      StripRightDrops(s, b[..|b| - 1]);
    }
  }

  /** Cleaning takes off the white space around an identifier, all of it and nothing else. */
  lemma CleanStrips(a: string, s: string, b: string)
    requires forall i :: 0 <= i < |a| ==> IsSpace(a[i])
    requires forall i :: 0 <= i < |b| ==> IsSpace(b[i])
    requires s != "" && !IsSpace(s[0]) && !IsSpace(s[|s| - 1])
    ensures Clean(a + s + b) == s
    ensures forall c :: c in " \t\r\n" ==> IsSpace(c)
    ensures forall c :: '!' <= c <= '~' ==> !IsSpace(c)
  {
    assert a + s + b == a + (s + b);
    StripLeftDrops(a, s + b);
    StripRightDrops(s, b);
  }

  /** A leg stands for its session; any other id for itself. */
  function Resolve(r: Registry, id: CallId): CallId
  {
    if id in r.legIndex then r.legIndex[id] else id
  }

  // ---------- reading ----------

  function IsTerminated(r: Registry, call: CallId, generation: Option<int>): bool
  {
    exists candidate :: candidate in [Clean(call), Resolve(r, Clean(call))] && Has(r.tombstones, candidate)
      && (generation == None || generation == Some(Get(r.tombstones, candidate, 0)))
  }

  predicate Live(s: Session)
  {
    s.owner != "terminal" && s.state !in TERMINAL_STATES
  }

  predicate IsCurrent(r: Registry, call: CallId, revision: int, generation: Option<int>, owner: Option<string>)
  {
    var id := Resolve(r, Clean(call));
    && id in r.sessions
    && r.sessions[id].revision == revision
    && (generation == None || generation == Some(r.sessions[id].generation))
    && (owner == None || owner == Some(r.sessions[id].owner))
  }

  predicate IsGenerationCurrent(r: Registry, call: CallId, generation: int)
  {
    var id := Resolve(r, Clean(call));
    && id in r.sessions
    && r.sessions[id].generation == generation
    && Live(r.sessions[id])
    && !IsTerminated(r, call, Some(generation))
  }

  // ---------- sessions and legs ----------

  datatype CallFields = CallFields(
    state: string, caller: string, callee: string, routeKind: string, terminalReason: string,
    owner: string, metadata: Metadata)

  function Or(value: string, fallback: string): string
  {
    if value != "" then value else fallback
  }

  /** Metadata without the values that mean nothing. */
  function Meaningful(m: Metadata): Metadata
  {
    map k | k in m && m[k] != "" :: m[k]
  }

  function NewSession(generation: nat): Session
  {
    Session(generation, 0, "new", "", "", "", "", "", "", map[], map[])
  }

  function Bumped(s: Session): Session
  {
    s.(revision := s.revision + 1)
  }

  function Upserted(s: Session, f: CallFields): Session
  {
    var t := s.(state := Or(f.state, s.state), owner := Or(f.owner, s.owner), caller := Or(f.caller, s.caller),
                callee := Or(f.callee, s.callee), routeKind := Or(f.routeKind, s.routeKind),
                terminalReason := Or(f.terminalReason, s.terminalReason),
                metadata := s.metadata + Meaningful(f.metadata));
    if t == s then s else Bumped(t)
  }

  function Upsert(r: Registry, id: CallId, f: CallFields): (q: Registry)
    ensures q == r.(sessions := q.sessions, counter := q.counter)
  {
    if id in r.sessions then r.(sessions := r.sessions[id := Upserted(r.sessions[id], f)])
    else r.(counter := r.counter + 1, sessions := r.sessions[id := Upserted(NewSession(r.counter + 1), f)])
  }

  datatype Change = Change(
    state: string, owner: Option<string>, outcome: Option<string>, caller: string, callee: string,
    routeKind: string, metadata: Metadata)

  datatype Guard = Guard(revision: Option<int>, generation: Option<int>, owner: Option<string>)

  predicate Admits(g: Guard, s: Session)
  {
    && (g.revision == None || g.revision == Some(s.revision))
    && (g.generation == None || g.generation == Some(s.generation))
    && (g.owner == None || g.owner == Some(s.owner))
    && Live(s)
  }

  predicate TransitionSucceeds(r: Registry, call: CallId, g: Guard)
  {
    var id := Resolve(r, Clean(call));
    id in r.sessions && Admits(g, r.sessions[id])
  }

  function OrElse(value: Option<string>, fallback: string): string
  {
    match value case None => fallback case Some(v) => v
  }

  function Changed(s: Session, c: Change): Session
  {
    Bumped(s.(state := Or(c.state, s.state), owner := OrElse(c.owner, s.owner), outcome := OrElse(c.outcome, s.outcome),
              caller := Or(c.caller, s.caller), callee := Or(c.callee, s.callee),
              routeKind := Or(c.routeKind, s.routeKind), metadata := s.metadata + Meaningful(c.metadata)))
  }

  function Transition(r: Registry, call: CallId, c: Change, g: Guard): (q: Registry)
    ensures q == r.(sessions := q.sessions)
  {
    var id := Resolve(r, Clean(call));
    if TransitionSucceeds(r, call, g) then r.(sessions := r.sessions[id := Changed(r.sessions[id], c)]) else r
  }

  datatype LegFields = LegFields(role: string, state: string, sipCallId: CallId, metadata: Metadata)

  /** A session with new metadata, stamped only when that says something new. */
  function Annotated(s: Session, m: Metadata): Session
  {
    var t := s.(metadata := s.metadata + Meaningful(m));
    if t == s then s else Bumped(t)
  }

  function WithLeg(s: Session, leg: CallId, f: LegFields): Session
  {
    var known := leg in s.legs;
    var was := if known then s.legs[leg] else Leg(f.role, Or(f.sipCallId, leg), "idle");
    var now := Leg(f.role, Or(f.sipCallId, was.sipCallId), Or(f.state, was.state));
    var t := s.(legs := s.legs[leg := now]);
    if known && now == was then t else Bumped(t)
  }

  /** The session a leg is added to, created when there is none. */
  function Prepared(r: Registry, call: CallId, f: LegFields): (q: Registry)
    ensures call in q.sessions && q == r.(sessions := q.sessions, counter := q.counter)
  {
    if call in r.sessions then r.(sessions := r.sessions[call := Annotated(r.sessions[call], f.metadata)])
    else Upsert(r, call, CallFields(Or(f.state, "active"), "", "", "", "", "", f.metadata))
  }

  function Placed(q: Registry, call: CallId, leg: CallId, f: LegFields): (p: Registry)
    requires call in q.sessions
    ensures p == q.(sessions := p.sessions, legIndex := p.legIndex)
  {
    q.(sessions := q.sessions[call := WithLeg(q.sessions[call], leg, f)], legIndex := q.legIndex[leg := call])
  }

  function AddLeg(r: Registry, call: CallId, leg: CallId, f: LegFields): (q: Registry)
    ensures q == r.(sessions := q.sessions, counter := q.counter, legIndex := q.legIndex)
  {
    Placed(Prepared(r, call, f), call, leg, f)
  }

  function RemoveLeg(r: Registry, call: CallId, leg: CallId): (q: Registry)
    ensures q == r.(sessions := q.sessions, legIndex := q.legIndex)
  {
    var id := Resolve(r, call);
    if id !in r.sessions then r
    else
      var s := r.sessions[id];
      var t := if leg in s.legs then Bumped(s.(legs := s.legs - {leg})) else s;
      r.(sessions := r.sessions[id := t], legIndex := r.legIndex - {leg})
  }

  // ---------- endpoint claims ----------

  datatype ClaimResult = Claimed | NotConfigured | EmptyCall | Busy

  function ClaimOutcome(r: Registry, call: CallId, endpoint: EndpointId, adopt: bool): ClaimResult
  {
    var e, id := Clean(endpoint), Resolve(r, Clean(call));
    if r.holders == None || e == "" then NotConfigured
    else if id == "" then EmptyCall
    else
      var held := r.holders.value;
      if e in held && held[e] != id && !(adopt && PHYSICAL <= held[e]) then Busy else Claimed
  }

  function Stamp(r: Registry, id: CallId): (q: Registry)
    ensures q == r.(sessions := q.sessions)
  {
    if id in r.sessions then r.(sessions := r.sessions[id := Bumped(r.sessions[id])]) else r
  }

  function ClaimsOf(r: Registry, id: CallId): map<EndpointId, string>
  {
    if id in r.claims then r.claims[id] else map[]
  }

  /** A claim noted under its call; a new or changed one gives the session a new revision. */
  function Recorded(r: Registry, id: CallId, e: EndpointId, role: string): (q: Registry)
    ensures q == r.(sessions := q.sessions, claims := q.claims)
  {
    var mine, named := ClaimsOf(r, id), Or(role, "endpoint");
    var q := r.(claims := r.claims[id := mine[e := named]]);
    if e in mine && mine[e] == named then q else Stamp(q, id)
  }

  function ClaimEndpoint(r: Registry, call: CallId, endpoint: EndpointId, role: string, adopt: bool): (q: Registry)
    ensures q == r.(sessions := q.sessions, claims := q.claims, holders := q.holders)
  {
    if ClaimOutcome(r, call, endpoint, adopt) != Claimed then r
    else
      var e, id := Clean(endpoint), Resolve(r, Clean(call));
      Recorded(r.(holders := Some(r.holders.value[e := id])), id, e, role)
  }

  /** The endpoints left when those among some that the call holds are given back. */
  function Freed(h: map<EndpointId, CallId>, endpoints: set<EndpointId>, id: CallId): map<EndpointId, CallId>
  {
    map e | e in h && !(e in endpoints && h[e] == id) :: h[e]
  }

  function ReleaseClaims(r: Registry, call: CallId): (q: Registry)
    ensures q == r.(claims := q.claims, holders := q.holders)
  {
    var id := Resolve(r, Clean(call));
    var held := match r.holders
      case None => None
      case Some(h) => Some(Freed(h, ClaimsOf(r, id).Keys, id));
    r.(holders := held, claims := r.claims - {id})
  }

  predicate ClaimReleased(r: Registry, call: CallId, endpoint: EndpointId)
  {
    var e, id := Clean(endpoint), Resolve(r, Clean(call));
    e != "" && e in ClaimsOf(r, id) && r.holders.Some? && e in r.holders.value && r.holders.value[e] == id
  }

  function ReleaseClaim(r: Registry, call: CallId, endpoint: EndpointId): (q: Registry)
    ensures q == r.(sessions := q.sessions, claims := q.claims, holders := q.holders)
  {
    var e, id := Clean(endpoint), Resolve(r, Clean(call));
    if e == "" || e !in ClaimsOf(r, id) then r
    else
      var held := if ClaimReleased(r, call, endpoint) then Some(r.holders.value - {e}) else r.holders;
      var rest := ClaimsOf(r, id) - {e};
      Stamp(r.(holders := held, claims := if rest == map[] then r.claims - {id} else r.claims[id := rest]), id)
  }

  /** A physical phone reports itself busy under its own token; a held endpoint stays held. */
  function TransportBusy(r: Registry, endpoint: EndpointId, token: string): (q: Registry)
    ensures q == r.(holders := q.holders)
  {
    match r.holders
    case Some(h) => if endpoint in h || token == "" then r else r.(holders := Some(h[endpoint := token]))
    case None => r
  }

  /** Whether a phone that reports itself idle gives its endpoint back: whichever call holds it, or only
      the one the report names. */
  predicate IdleFrees(r: Registry, endpoint: EndpointId, expected: string)
  {
    && r.holders.Some? && endpoint in r.holders.value
    && (expected == "" || r.holders.value[endpoint] == expected)
  }

  /** The endpoint registry frees the endpoint; the claims recorded here are not told. */
  function TransportIdle(r: Registry, endpoint: EndpointId, expected: string): (q: Registry)
    ensures q == r.(holders := q.holders)
  {
    if IdleFrees(r, endpoint, expected) then r.(holders := Some(r.holders.value - {endpoint})) else r
  }

  // ---------- termination ----------

  function GenerationOf(r: Registry, id: CallId): int
  {
    if id in r.sessions then r.sessions[id].generation else 0
  }

  predicate BeginSucceeds(r: Registry, call: CallId)
  {
    Clean(call) != "" && !IsTerminated(r, call, None)
  }

  function Terminating(s: Session): Session
  {
    if "pbx_phase" in s.metadata && s.metadata["pbx_phase"] == "terminating" then s
    else Bumped(s.(metadata := s.metadata["pbx_phase" := "terminating"]))
  }

  /** A call and the session it stands for are remembered as terminated. */
  function Buried(r: Registry, call: CallId): (q: Registry)
    ensures q == r.(tombstones := q.tombstones)
  {
    var id := Resolve(r, Clean(call));
    r.(tombstones := RememberAll(r.tombstones, [Clean(call), Clean(id)], GenerationOf(r, id)))
  }

  function Marked(r: Registry, id: CallId): (q: Registry)
    ensures q == r.(sessions := q.sessions)
  {
    if id in r.sessions then r.(sessions := r.sessions[id := Terminating(r.sessions[id])]) else r
  }

  function BeginTermination(r: Registry, call: CallId): (q: Registry)
    ensures q == r.(sessions := q.sessions, tombstones := q.tombstones)
  {
    if BeginSucceeds(r, call) then Marked(Buried(r, call), Resolve(r, Clean(call))) else r
  }

  function Finish(r: Registry, call: CallId, reason: string, state: string): (q: Registry)
    ensures q == r.(sessions := q.sessions)
  {
    var id := Resolve(r, call);
    if id !in r.sessions then r
    else
      var s := r.sessions[id];
      var t := Bumped(s.(state := state, terminalReason := Or(reason, s.terminalReason), owner := "terminal",
                         outcome := Or(reason, s.outcome)));
      r.(sessions := r.sessions[id := t])
  }

  function LegsOf(r: Registry, id: CallId): set<CallId>
  {
    if id in r.sessions then r.sessions[id].legs.Keys else {}
  }

  /** Drop the keys of a set, keeping the order of the others. */
  function Without<V>(d: Dict<CallId, V>, ids: set<CallId>): Dict<CallId, V>
  {
    if d == [] then [] else (if d[0].0 in ids then [] else [d[0]]) + Without(d[1..], ids)
  }

  function Pop(r: Registry, call: CallId): (q: Registry)
    ensures q == r.(claims := q.claims, holders := q.holders, sessions := q.sessions, bridges := q.bridges,
                    legIndex := q.legIndex, contexts := q.contexts)
  {
    var c := Clean(call);
    var id := Resolve(r, c);
    ReleaseClaims(r, id).(
      sessions := r.sessions - {id},
      bridges := Remove(r.bridges, id),
      legIndex := r.legIndex - LegsOf(r, id) - {c},
      contexts := Without(r.contexts, {c, id} + LegsOf(r, id)))
  }

  function FinishAndPop(r: Registry, call: CallId, reason: string, state: string): Registry
  {
    Pop(Finish(if Resolve(r, Clean(call)) == "" then r else Buried(r, call), call, reason, state), call)
  }

  // ---------- automation events ----------

  function FreshContext(life: nat): EventContext
  {
    EventContext(0, "", "", life)
  }

  function Advanced(x: EventContext, state: string): EventContext
  {
    if state == "" || state == x.state then x
    else x.(previousState := x.state, state := state, sequence := x.sequence + 1)
  }

  /** Make room for one more context when the table is full: the oldest one goes. */
  function Roomy(d: Dict<CallId, EventContext>): Dict<CallId, EventContext>
  {
    if |d| >= MAX_EVENT_CONTEXTS then d[1..] else d
  }

  function EventsAt(d: Dict<CallId, EventContext>, lives: nat, id: CallId, state: string): Dict<CallId, EventContext>
  {
    if Has(d, id) then Put(d, id, Advanced(Get(d, id, FreshContext(0)), state))
    else Put(Roomy(d), id, Advanced(FreshContext(lives), state))
  }

  function EventFields(r: Registry, call: CallId, state: string): (q: Registry)
    ensures q == r.(contexts := q.contexts, lives := q.lives)
  {
    if Clean(call) == "" then r
    else
      var id := Resolve(r, Clean(call));
      r.(contexts := EventsAt(r.contexts, r.lives, id, Clean(state)),
         lives := if Has(r.contexts, id) then r.lives else r.lives + 1)
  }

  // ---------- bridges and their resources ----------

  /** Source and destination of the bridge a call id belongs to, empty when there is none. */
  function BridgeFor(r: Registry, call: CallId): (CallId, CallId)
  {
    if Has(r.bridges, call) && call != "" then (call, Get(r.bridges, call, ""))
    else BridgeTo(r.bridges, call)
  }

  function BridgeTo(d: Dict<CallId, CallId>, dest: CallId): (CallId, CallId)
  {
    if d == [] then ("", "") else if d[0].1 == dest then d[0] else BridgeTo(d[1..], dest)
  }

  function Take(m: map<CallId, Token>, id: CallId): Option<Token>
  {
    if id in m then Some(m[id]) else None
  }

  datatype Detached = Detached(
    source: CallId, dest: CallId, relay: Option<Token>, client: Option<Token>, watcher: Option<Token>, calledByDest: bool)

  const NOTHING: Detached := Detached("", "", None, None, None, false)

  function DetachedBy(r: Registry, call: CallId): Detached
  {
    var (source, dest) := BridgeFor(r, call);
    if source == "" then NOTHING
    else Detached(source, dest, Take(r.relays, source), if dest == "" then None else Take(r.clients, dest),
                  if dest == "" then None else Take(r.watchers, dest), call == dest)
  }

  function DetachBridge(r: Registry, call: CallId): (q: Registry)
    ensures q == r.(bridges := q.bridges, relays := q.relays, clients := q.clients, watchers := q.watchers)
  {
    var (source, dest) := BridgeFor(r, call);
    if source == "" then r
    else
      var ends := if dest == "" then {} else {dest};
      r.(bridges := Remove(r.bridges, source), relays := r.relays - {source},
         clients := r.clients - ends, watchers := r.watchers - ends)
  }

  datatype BridgeFields = BridgeFields(
    state: string, caller: string, callee: string, routeKind: string, metadata: Metadata,
    sourceRole: string, destRole: string, sourceState: string, destState: string)

  predicate RegisterAdmitted(r: Registry, source: CallId, expected: Option<int>)
  {
    expected == None || IsGenerationCurrent(r, source, expected.value)
  }

  /** The session a bridge starts from, recorded as the source of the destination. */
  function Started(r: Registry, source: CallId, dest: CallId, f: BridgeFields): (q: Registry)
    ensures q == r.(sessions := q.sessions, counter := q.counter, bridges := q.bridges)
  {
    Upsert(r.(bridges := Put(r.bridges, source, dest)), source,
           CallFields(f.state, f.caller, f.callee, f.routeKind, "", "bridge", f.metadata))
  }

  function SourceLeg(f: BridgeFields): LegFields
  {
    LegFields(f.sourceRole, Or(f.sourceState, f.state), "", map[])
  }

  function DestLeg(f: BridgeFields): LegFields
  {
    LegFields(f.destRole, Or(f.destState, f.state), "", map[])
  }

  function Bridged(r: Registry, source: CallId, dest: CallId, f: BridgeFields): (q: Registry)
    ensures q == r.(sessions := q.sessions, counter := q.counter, bridges := q.bridges, legIndex := q.legIndex)
  {
    AddLeg(AddLeg(Started(r, source, dest, f), source, source, SourceLeg(f)), source, dest, DestLeg(f))
  }

  function RegisterBridge(r: Registry, source: CallId, dest: CallId, client: Token, f: BridgeFields, expected: Option<int>)
    : Registry
  {
    if RegisterAdmitted(r, source, expected) then
      Bridged(r, source, dest, f).(clients := r.clients[dest := client])
    else r
  }

  // ---------- runs ----------

  datatype Op =
    | OpUpsert(id: CallId, fields: CallFields)
    | OpTransition(call: CallId, change: Change, guarded: Guard)
    | OpAddLeg(call: CallId, leg: CallId, legFields: LegFields)
    | OpRemoveLeg(call: CallId, leg: CallId)
    | OpClaim(call: CallId, endpoint: EndpointId, role: string, adopt: bool)
    | OpReleaseClaims(call: CallId)
    | OpReleaseClaim(call: CallId, endpoint: EndpointId)
    | OpTransportBusy(endpoint: EndpointId, provisional: string)
    | OpTransportIdle(endpoint: EndpointId, expectedHolder: string)
    | OpBegin(call: CallId)
    | OpFinish(call: CallId, reason: string, state: string)
    | OpPop(call: CallId)
    | OpFinishAndPop(call: CallId, reason: string, state: string)
    | OpEvent(call: CallId, state: string)
    | OpStamp(call: CallId)
    | OpRegisterBridge(source: CallId, dest: CallId, client: Token, bridge: BridgeFields, expected: Option<int>)
    | OpDetachBridge(call: CallId)
    | OpLinkBridge(source: CallId, dest: CallId)
    | OpUnlinkBridge(source: CallId)
    | OpAttachRelay(call: CallId, token: Token)
    | OpAttachClient(call: CallId, token: Token)
    | OpTakeClient(call: CallId)
    | OpTakeWatcher(call: CallId)
    | OpAttachWatcher(call: CallId, token: Token)
    | OpAttachMedia(call: CallId, token: Token)
    | OpTakeMedia(call: CallId)
    | OpForgetWatcher(call: CallId, token: Token)
    | OpClear

  const EMPTY: Registry := Registry(map[], map[], 0, map[], None, [], [], 0, [], map[], map[], map[], map[])

  /** The ids under which some calls' claims are released. */
  function ReleasedIds(r: Registry, calls: set<CallId>): set<CallId>
  {
    set call | call in calls :: Resolve(r, Clean(call))
  }

  /** The endpoints still held when the claims of some calls are given back. */
  function StillHeld(r: Registry, ids: set<CallId>): Option<map<EndpointId, CallId>>
  {
    match r.holders
    case None => None
    case Some(h) => Some(map e | e in h && !(h[e] in ids && e in ClaimsOf(r, h[e])) :: h[e])
  }

  /** Every claim is released under the id its call resolves to; only generations go on. */
  function Cleared(r: Registry): Registry
  {
    var ids := ReleasedIds(r, r.claims.Keys);
    Registry(map[], map[], r.counter, r.claims - ids, StillHeld(r, ids), [], [], r.lives, [], map[], map[], map[], map[])
  }

  function Step(r: Registry, op: Op): Registry
  {
    match op
    case OpUpsert(id, f) => Upsert(r, id, f)
    case OpTransition(call, c, g) => Transition(r, call, c, g)
    case OpAddLeg(call, leg, f) => AddLeg(r, call, leg, f)
    case OpRemoveLeg(call, leg) => RemoveLeg(r, call, leg)
    case OpClaim(call, e, role, adopt) => ClaimEndpoint(r, call, e, role, adopt)
    case OpReleaseClaims(call) => ReleaseClaims(r, call)
    case OpReleaseClaim(call, e) => ReleaseClaim(r, call, e)
    case OpTransportBusy(e, p) => TransportBusy(r, e, p)
    case OpTransportIdle(e, x) => TransportIdle(r, e, x)
    case OpBegin(call) => BeginTermination(r, call)
    case OpFinish(call, reason, state) => Finish(r, call, reason, state)
    case OpPop(call) => Pop(r, call)
    case OpFinishAndPop(call, reason, state) => FinishAndPop(r, call, reason, state)
    case OpEvent(call, state) => EventFields(r, call, state)
    case OpStamp(call) => Stamp(r, Resolve(r, Clean(call)))
    case OpRegisterBridge(s, d, c, f, g) => RegisterBridge(r, s, d, c, f, g)
    case OpDetachBridge(call) => DetachBridge(r, call)
    case OpLinkBridge(s, d) => r.(bridges := Put(r.bridges, s, d))
    case OpUnlinkBridge(s) => r.(bridges := Remove(r.bridges, s))
    case OpAttachRelay(call, t) => r.(relays := r.relays[call := t])
    case OpAttachClient(call, t) => r.(clients := r.clients[call := t])
    case OpTakeClient(call) => r.(clients := r.clients - {call})
    case OpTakeWatcher(call) => r.(watchers := r.watchers - {call})
    case OpAttachWatcher(call, t) => r.(watchers := r.watchers[call := t])
    case OpAttachMedia(call, t) => r.(media := r.media[call := t])
    case OpTakeMedia(call) => r.(media := r.media - {call})
    case OpForgetWatcher(call, t) => if Take(r.watchers, call) == Some(t) then r.(watchers := r.watchers - {call}) else r
    case OpClear => Cleared(r)
  }

  function Run(r: Registry, ops: seq<Op>): Registry
    decreases |ops|
  {
    if ops == [] then r else Run(Step(r, ops[0]), ops[1..])
  }

  lemma {:induction false} RunAppend(r: Registry, a: seq<Op>, b: seq<Op>)
    ensures Run(r, a + b) == Run(Run(r, a), b)
    decreases |a|
  {
    if a == [] {
      assert a + b == b;
    } else {
      assert (a + b)[0] == a[0] && (a + b)[1..] == a[1..] + b;
      RunAppend(Step(r, a[0]), a[1..], b);
    }
  }

  lemma RunOne(r: Registry, op: Op)
    ensures Run(r, [op]) == Step(r, op)
  {
    assert [op][1..] == [];
  }

  lemma RunMore(r: Registry, ops: seq<Op>, op: Op)
    ensures Run(r, ops + [op]) == Step(Run(r, ops), op)
  {
    RunAppend(r, ops, [op]);
    RunOne(Run(r, ops), op);
  }

  lemma RunTwo(r: Registry, first: Op, second: Op)
    ensures Run(r, [first, second]) == Step(Step(r, first), second)
  {
    RunAppend(r, [first], [second]);
    assert [first] + [second] == [first, second];
    RunOne(r, first);
    RunOne(Step(r, first), second);
  }

  lemma RunThree(r: Registry, first: Op, second: Op, third: Op)
    ensures Run(r, [first, second, third]) == Step(Step(Step(r, first), second), third)
  {
    RunAppend(r, [first], [second, third]);
    assert [first] + [second, third] == [first, second, third];
    RunOne(r, first);
    RunTwo(Step(r, first), second, third);
  }
}
