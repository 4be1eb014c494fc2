/** Bridge teardown as a protocol: detach and take what the bridge owns, wait for its cleanup, then
    finish the session. Other steps, other teardowns of the same bridge included, run in between. */
module Bridges {
  import opened Wrappers
  import opened OrderedDicts
  import opened Tombstones
  import opened RegistryState
  import opened RegistryStamps

  // ---------- pairs ----------

  /** Every id takes part in at most one bridge. */
  ghost predicate Paired(d: Dict<CallId, CallId>)
  {
    && Distinct(d)
    && (forall i :: 0 <= i < |d| ==> d[i].0 != "" && d[i].1 != "")
    && (forall i, j :: 0 <= i < |d| && 0 <= j < |d| && (d[i].0 == d[j].1 || d[i].1 == d[j].1) ==> i == j)
  }

  predicate Takes(d: Dict<CallId, CallId>, id: CallId)
  {
    exists i :: 0 <= i < |d| && (d[i].0 == id || d[i].1 == id)
  }

  lemma {:induction false} GetIs<V>(d: Dict<CallId, V>, i: nat, default: V)
    requires Distinct(d) && i < |d|
    ensures Has(d, d[i].0) && Get(d, d[i].0, default) == d[i].1
    decreases |d|
  {
    if i > 0 {
      DistinctTail(d);
      assert d[1..][i - 1] == d[i];
      GetIs(d[1..], i - 1, default);
    }
  }

  lemma {:induction false} BridgeToFirst(d: Dict<CallId, CallId>, i: nat)
    requires i < |d| && forall j :: 0 <= j < i ==> d[j].1 != d[i].1
    ensures BridgeTo(d, d[i].1) == d[i]
    decreases |d|
  {
    if i > 0 {
      assert d[1..][i - 1] == d[i];
      assert forall j :: 0 <= j < i - 1 ==> d[1..][j] == d[j + 1];
      BridgeToFirst(d[1..], i - 1);
    }
  }

  lemma {:induction false} BridgeToNone(d: Dict<CallId, CallId>, id: CallId)
    requires forall j :: 0 <= j < |d| ==> d[j].1 != id
    ensures BridgeTo(d, id) == ("", "")
    decreases |d|
  {
    if d != [] {
      assert forall j :: 0 <= j < |d| - 1 ==> d[1..][j] == d[j + 1];
      BridgeToNone(d[1..], id);
    }
  }

  /** A bridge is found, as the same pair, from either of its ids. */
  lemma SamePairFromEitherEnd(r: Registry, i: nat)
    requires Paired(r.bridges) && i < |r.bridges|
    ensures BridgeFor(r, r.bridges[i].0) == r.bridges[i]
    ensures BridgeFor(r, r.bridges[i].1) == r.bridges[i]
  {
    var d := r.bridges;
    GetIs(d, i, "");
    BridgeToFirst(d, i);
    if Has(d, d[i].1) {
      var j :| 0 <= j < |d| && d[j].0 == d[i].1;
      GetIs(d, i, "");
    }
  }

  lemma NoPair(r: Registry, id: CallId)
    requires !Takes(r.bridges, id)
    ensures BridgeFor(r, id) == ("", "")
  {
    BridgeToNone(r.bridges, id);
  }

  // ---------- keeping ids in at most one bridge ----------

  /** The same by entries instead of positions. */
  ghost predicate PairedEntries(d: Dict<CallId, CallId>)
  {
    forall e, x :: e in d && x in d ==> e.0 != "" && e.1 != "" && (e.0 == x.1 || e.1 == x.1 ==> e == x)
  }

  lemma PairedByEntry(d: Dict<CallId, CallId>)
    requires Distinct(d)
    ensures Paired(d) <==> PairedEntries(d)
  {
    if PairedEntries(d) {
      forall i, j | 0 <= i < |d| && 0 <= j < |d| && (d[i].0 == d[j].1 || d[i].1 == d[j].1) ensures i == j {
        assert d[i] in d && d[j] in d && d[i].0 == d[j].0;
      }
    }
    if Paired(d) {
      forall e, x | e in d && x in d ensures e.0 != "" && e.1 != "" && (e.0 == x.1 || e.1 == x.1 ==> e == x) {
        var i :| 0 <= i < |d| && d[i] == e;
        var j :| 0 <= j < |d| && d[j] == x;
      }
    }
  }

  /** A source and destination that take part in no bridge of another source. */
  ghost predicate FreshPair(d: Dict<CallId, CallId>, s: CallId, v: CallId)
  {
    && s != "" && v != ""
    && forall e :: e in d && e.0 != s ==> e.0 != v && e.1 != s && e.1 != v
  }

  /** Recording a bridge keeps every id in at most one bridge exactly when its ids are fresh. */
  lemma PutPaired(d: Dict<CallId, CallId>, s: CallId, v: CallId)
    requires Paired(d)
    ensures Paired(Put(d, s, v)) <==> FreshPair(d, s, v)
  {
    var q := Put(d, s, v);
    DistinctPut(d, s, v);
    PairedByEntry(d);
    PairedByEntry(q);
    forall e ensures e in q <==> e == (s, v) || (e in d && e.0 != s) {
      EntryPut(d, s, v, e);
    }
    assert (s, v) in q;
    if PairedEntries(q) {
      forall e | e in d && e.0 != s ensures e.0 != v && e.1 != s && e.1 != v {
        assert e in q;
      }
    }
  }

  lemma RemovePaired(d: Dict<CallId, CallId>, s: CallId)
    requires Paired(d)
    ensures Paired(Remove(d, s))
  {
    DistinctRemove(d, s);
    PairedByEntry(d);
    PairedByEntry(Remove(d, s));
    forall e ensures e in Remove(d, s) <==> e in d && e.0 != s {
      EntryRemove(d, s, e);
    }
  }

  predicate Registers(r: Registry, op: Op)
  {
    op.OpRegisterBridge? && RegisterAdmitted(r, op.source, op.expected)
  }

  /** Whether a step records a bridge: by registering it, or in the table alone. */
  predicate Records(r: Registry, op: Op)
  {
    Registers(r, op) || op.OpLinkBridge?
  }

  /** The bridge a step removes, if any, by its source. */
  function Removes(r: Registry, op: Op): CallId
  {
    if op.OpDetachBridge? then BridgeFor(r, op.call).0
    else if op.OpPop? || op.OpFinishAndPop? then Resolve(r, Clean(op.call))
    else if op.OpUnlinkBridge? then op.source
    else ""
  }

  lemma FinishAndPopBridges(r: Registry, call: CallId, reason: string, state: string)
    ensures FinishAndPop(r, call, reason, state).bridges == Remove(r.bridges, Resolve(r, Clean(call)))
  {
    var q := if Resolve(r, Clean(call)) == "" then r else Buried(r, call);
    assert Finish(q, call, reason, state).bridges == r.bridges;
  }

  lemma BridgesLeftAlone(r: Registry, op: Op)
    requires !op.OpRegisterBridge? && !op.OpLinkBridge? && !op.OpUnlinkBridge? && !op.OpDetachBridge?
    requires !op.OpPop? && !op.OpFinishAndPop? && !op.OpClear?
    ensures Step(r, op).bridges == r.bridges
  {
  }

  lemma NothingRemoved(d: Dict<CallId, CallId>)
    requires Paired(d)
    ensures Remove(d, "") == d
  {
    RemoveAbsent(d, "");
  }

  /** What a step does to the bridges. */
  lemma BridgesAfter(r: Registry, op: Op)
    requires Paired(r.bridges)
    ensures Step(r, op).bridges ==
      if Records(r, op) then Put(r.bridges, op.source, op.dest)
      else if op.OpClear? then []
      else Remove(r.bridges, Removes(r, op))
  {
    NothingRemoved(r.bridges);
    if op.OpFinishAndPop? {
      FinishAndPopBridges(r, op.call, op.reason, op.state);
    } else if !op.OpRegisterBridge? && !op.OpLinkBridge? && !op.OpUnlinkBridge? && !op.OpDetachBridge? && !op.OpPop?
              && !op.OpClear? {
      BridgesLeftAlone(r, op);
    }
  }

  /** A step keeps every id in at most one bridge exactly when a bridge it records is fresh. */
  lemma StepPaired(r: Registry, op: Op)
    requires Paired(r.bridges)
    ensures Paired(Step(r, op).bridges) <==> (Records(r, op) ==> FreshPair(r.bridges, op.source, op.dest))
  {
    BridgesAfter(r, op);
    if Records(r, op) {
      PutPaired(r.bridges, op.source, op.dest);
    } else {
      RemovePaired(r.bridges, Removes(r, op));
    }
  }

  // ---------- the protocol ----------

  /** What one teardown hands to its cleanup. */
  datatype Bundle = Bundle(relay: Option<Token>, client: Option<Token>, watcher: Option<Token>, media: Option<Token>)

  datatype Kind = Relay | Client | Watcher | Media

  /** The registry, what was handed to cleanups so far, and the sources whose cleanup is under way. */
  datatype System = System(reg: Registry, handed: seq<Bundle>, waiting: multiset<CallId>)

  datatype Move =
    | Other(op: Op)
    | Begin(call: CallId)
    | Complete(source: CallId, reason: string)

  predicate Handled(s: System, call: CallId)
  {
    call != "" && BridgeFor(s.reg, call).0 != ""
  }

  function BundleFor(r: Registry, call: CallId): Bundle
  {
    var d := DetachedBy(r, call);
    Bundle(d.relay, if d.dest != "" then d.client else None, if d.dest != "" then d.watcher else None,
           Take(r.media, d.source))
  }

  /** Up to the wait: the bridge is detached and everything it owns is taken. */
  function Begun(s: System, call: CallId): System
  {
    if !Handled(s, call) then s
    else
      var source := BridgeFor(s.reg, call).0;
      var q := DetachBridge(s.reg, call);
      System(q.(media := q.media - {source}), s.handed + [BundleFor(s.reg, call)], s.waiting + multiset{source})
  }

  /** After the wait: the session ends. */
  function Completed(s: System, source: CallId, reason: string): System
  {
    if source in s.waiting then
      s.(reg := FinishAndPop(s.reg, source, Or(reason, "local_hangup"), "idle"), waiting := s.waiting - multiset{source})
    else s
  }

  function Do(s: System, m: Move): System
  {
    match m
    case Other(op) => s.(reg := Step(s.reg, op))
    case Begin(call) => Begun(s, call)
    case Complete(source, reason) => Completed(s, source, reason)
  }

  function DoAll(s: System, moves: seq<Move>): System
    decreases |moves|
  {
    if moves == [] then s else DoAll(Do(s, moves[0]), moves[1..])
  }

  // ---------- every resource is handed over at most once ----------

  function Table(r: Registry, k: Kind): map<CallId, Token>
  {
    match k case Relay => r.relays case Client => r.clients case Watcher => r.watchers case Media => r.media
  }

  function Part(b: Bundle, k: Kind): Option<Token>
  {
    match k case Relay => b.relay case Client => b.client case Watcher => b.watcher case Media => b.media
  }

  /** Where a resource can be: in one of the tables, or with the cleanup of one teardown. */
  datatype Place = Held(kind: Kind, id: CallId) | Given(kind: Kind, teardown: nat)

  predicate At(s: System, p: Place, t: Token)
  {
    match p
    case Held(k, id) => id in Table(s.reg, k) && Table(s.reg, k)[id] == t
    case Given(k, i) => i < |s.handed| && Part(s.handed[i], k) == Some(t)
  }

  /** No resource is in two places. */
  ghost predicate OnePlace(s: System)
  {
    forall p, q, t :: At(s, p, t) && At(s, q, t) ==> p == q
  }

  /** Moving resources between places, without copying, keeps them in one place. */
  lemma Moved(a: System, b: System, origin: Place -> Place)
    requires OnePlace(a)
    requires forall p, t :: At(b, p, t) ==> At(a, origin(p), t)
    requires forall p, q, t :: At(b, p, t) && At(b, q, t) && origin(p) == origin(q) ==> p == q
    ensures OnePlace(b)
  {
  }

  lemma Fewer(a: System, b: System)
    requires OnePlace(a) && forall p, t :: At(b, p, t) ==> At(a, p, t)
    ensures OnePlace(b)
  {
    Moved(a, b, p => p);
  }

  /** Putting a resource somewhere is safe exactly when it is nowhere else. */
  lemma PutSomewhere(a: System, b: System, target: Place, token: Token)
    requires OnePlace(a)
    requires forall p, t :: At(b, p, t) <==> if p == target then t == token else At(a, p, t)
    ensures OnePlace(b) <==> forall p :: At(a, p, token) ==> p == target
  {
    if OnePlace(b) {
      forall p | At(a, p, token) ensures p == target {
        assert At(b, target, token);
        assert p != target ==> At(b, p, token);
      }
    }
  }

  function Origin(n: nat, source: CallId, dest: CallId, p: Place): Place
  {
    if p.Given? && p.teardown == n then
      match p.kind
      case Relay => Held(Relay, source)
      case Client => Held(Client, dest)
      case Watcher => Held(Watcher, dest)
      case Media => Held(Media, source)
    else p
  }

  /** A teardown hands over what the tables held for the bridge, and leaves none of it in them. */
  lemma HandsOverAll(s: System, call: CallId, p: Place, t: Token)
    requires Handled(s, call)
    ensures var (source, dest) := BridgeFor(s.reg, call);
      var mine := {Held(Relay, source), Held(Media, source)}
                  + if dest == "" then {} else {Held(Client, dest), Held(Watcher, dest)};
      var given := p.Given? && p.teardown == |s.handed|;
      At(Begun(s, call), p, t) <==>
        At(s, Origin(|s.handed|, source, dest, p), t)
        && if given then Origin(|s.handed|, source, dest, p) in mine else p !in mine
  {
    var (source, dest) := BridgeFor(s.reg, call);
    var b := Begun(s, call);
    match p
    case Held(k, id) =>
      assert Table(b.reg, k) == Table(s.reg, k) - (
        match k
        case Relay => {source}
        case Media => {source}
        case Client => if dest == "" then {} else {dest}
        case Watcher => if dest == "" then {} else {dest});
    case Given(k, i) =>
      assert b.handed == s.handed + [BundleFor(s.reg, call)];
  }

  lemma BegunOnePlace(s: System, call: CallId)
    requires OnePlace(s)
    ensures OnePlace(Begun(s, call))
  {
    if Handled(s, call) {
      var (source, dest) := BridgeFor(s.reg, call);
      var n, b := |s.handed|, Begun(s, call);
      forall p, t | At(b, p, t) ensures At(s, Origin(n, source, dest, p), t) {
        HandsOverAll(s, call, p, t);
      }
      forall p, q, t | At(b, p, t) && At(b, q, t) && Origin(n, source, dest, p) == Origin(n, source, dest, q)
        ensures p == q
      {
        HandsOverAll(s, call, p, t);
        HandsOverAll(s, call, q, t);
      }
      Moved(s, b, p => Origin(n, source, dest, p));
    }
  }

  /** Where a step puts a resource, if it attaches one. */
  function Target(r: Registry, op: Op): Option<(Place, Token)>
  {
    if Registers(r, op) then Some((Held(Client, op.dest), op.client))
    else if op.OpAttachClient? then Some((Held(Client, op.call), op.token))
    else if op.OpAttachRelay? then Some((Held(Relay, op.call), op.token))
    else if op.OpAttachWatcher? then Some((Held(Watcher, op.call), op.token))
    else if op.OpAttachMedia? then Some((Held(Media, op.call), op.token))
    else None
  }

  /** A table entry after a step: what is attached there, or what was there, or nothing. */
  ghost predicate EntryAfter(r: Registry, op: Op, k: Kind, id: CallId)
  {
    var after := Take(Table(Step(r, op), k), id);
    match Target(r, op)
    case Some((place, token)) => after == if place == Held(k, id) then Some(token) else Take(Table(r, k), id)
    case None => after == Take(Table(r, k), id) || after == None
  }

  /** No table changes but by attaching, and by dropping what another owner took or what ended. */
  lemma TablesAfter(r: Registry, op: Op, k: Kind, id: CallId)
    ensures EntryAfter(r, op, k, id)
  {
    if op.OpRegisterBridge? {
      RegisterEntry(r, op, k, id);
    } else if op.OpDetachBridge? {
      DetachEntry(r, op, k, id);
    } else if op.OpClear? {
      ClearEntry(r, op, k, id);
    } else if op.OpAttachRelay? || op.OpAttachClient? || op.OpAttachWatcher? || op.OpAttachMedia? {
      AttachEntry(r, op, k, id);
    } else if TouchesTables(op) {
      TakeEntry(r, op, k, id);
    } else {
      OtherEntry(r, op, k, id);
    }
  }

  lemma RegisterEntry(r: Registry, op: Op, k: Kind, id: CallId)
    requires op.OpRegisterBridge?
    ensures EntryAfter(r, op, k, id)
  {
    RegisterTables(r, op.source, op.dest, op.client, op.bridge, op.expected);
  }

  lemma DetachEntry(r: Registry, op: Op, k: Kind, id: CallId)
    requires op.OpDetachBridge?
    ensures EntryAfter(r, op, k, id)
  {
    DetachTables(r, op.call, k, id);
  }

  lemma ClearEntry(r: Registry, op: Op, k: Kind, id: CallId)
    requires op.OpClear?
    ensures EntryAfter(r, op, k, id)
  {
  }

  lemma OtherEntry(r: Registry, op: Op, k: Kind, id: CallId)
    requires !TouchesTables(op)
    ensures EntryAfter(r, op, k, id)
  {
    TablesLeftAlone(r, op);
  }

  lemma AttachEntry(r: Registry, op: Op, k: Kind, id: CallId)
    requires op.OpAttachRelay? || op.OpAttachClient? || op.OpAttachWatcher? || op.OpAttachMedia?
    ensures EntryAfter(r, op, k, id)
  {
  }

  lemma TakeEntry(r: Registry, op: Op, k: Kind, id: CallId)
    requires op.OpTakeClient? || op.OpTakeWatcher? || op.OpTakeMedia? || op.OpForgetWatcher?
    ensures EntryAfter(r, op, k, id)
  {
  }

  predicate TouchesTables(op: Op)
  {
    op.OpRegisterBridge? || op.OpDetachBridge? || op.OpAttachRelay? || op.OpAttachClient? || op.OpTakeClient?
    || op.OpTakeWatcher? || op.OpAttachWatcher? || op.OpAttachMedia? || op.OpTakeMedia? || op.OpForgetWatcher? || op.OpClear?
  }

  ghost predicate SameTables(r: Registry, q: Registry)
  {
    q.relays == r.relays && q.clients == r.clients && q.watchers == r.watchers && q.media == r.media
  }

  lemma TablesLeftAlone(r: Registry, op: Op)
    requires !TouchesTables(op)
    ensures SameTables(r, Step(r, op))
  {
    if op.OpFinishAndPop? {
      FinishAndPopTables(r, op.call, op.reason, op.state);
    }
  }

  lemma RegisterTables(r: Registry, s: CallId, d: CallId, client: Token, f: BridgeFields, g: Option<int>)
    ensures SameTables(r.(clients := if RegisterAdmitted(r, s, g) then r.clients[d := client] else r.clients),
                       RegisterBridge(r, s, d, client, f, g))
  {
  }

  lemma DetachTables(r: Registry, call: CallId, k: Kind, id: CallId)
    ensures var after := Take(Table(DetachBridge(r, call), k), id); after == Take(Table(r, k), id) || after == None
  {
  }

  lemma FinishAndPopTables(r: Registry, call: CallId, reason: string, state: string)
    ensures SameTables(r, FinishAndPop(r, call, reason, state))
  {
    var q := if Resolve(r, Clean(call)) == "" then r else Buried(r, call);
    assert SameTables(r, Finish(q, call, reason, state));
  }

  lemma AtHeld(s: System, k: Kind, id: CallId, t: Token)
    ensures At(s, Held(k, id), t) <==> Take(Table(s.reg, k), id) == Some(t)
  {
  }

  /** An attached resource is in no other place. */
  ghost predicate FreshTarget(s: System, op: Op)
  {
    match Target(s.reg, op)
    case Some((place, token)) => forall p :: At(s, p, token) ==> p == place
    case None => true
  }

  lemma OtherOnePlace(s: System, op: Op)
    requires OnePlace(s)
    ensures OnePlace(Do(s, Other(op))) <==> FreshTarget(s, op)
  {
    var b := s.(reg := Step(s.reg, op));
    forall p, t
      ensures match Target(s.reg, op)
        case Some((place, token)) => At(b, p, t) <==> if p == place then t == token else At(s, p, t)
        case None => At(b, p, t) ==> At(s, p, t)
    {
      if p.Held? {
        TablesAfter(s.reg, op, p.kind, p.id);
        AtHeld(s, p.kind, p.id, t);
        AtHeld(b, p.kind, p.id, t);
      }
    }
    match Target(s.reg, op)
    case Some((place, token)) => PutSomewhere(s, b, place, token);
    case None => Fewer(s, b);
  }

  lemma CompletedOnePlace(s: System, source: CallId, reason: string)
    requires OnePlace(s)
    ensures OnePlace(Completed(s, source, reason))
  {
    var b := Completed(s, source, reason);
    FinishAndPopTables(s.reg, source, Or(reason, "local_hangup"), "idle");
    forall p, t | At(b, p, t) ensures At(s, p, t) {
    }
    Fewer(s, b);
  }

  /** A move keeps every resource in one place exactly when what it attaches is fresh. */
  lemma MoveOnePlace(s: System, m: Move)
    requires OnePlace(s)
    ensures OnePlace(Do(s, m)) <==> (m.Other? ==> FreshTarget(s, m.op))
  {
    if m.Other? {
      OtherOnePlace(s, m.op);
    } else if m.Begin? {
      BegunOnePlace(s, m.call);
    } else {
      CompletedOnePlace(s, m.source, m.reason);
    }
  }

  ghost predicate AllFresh(s: System, moves: seq<Move>)
    decreases |moves|
  {
    moves == [] || ((moves[0].Other? ==> FreshTarget(s, moves[0].op)) && AllFresh(Do(s, moves[0]), moves[1..]))
  }

  lemma {:induction false} AllOnePlace(s: System, moves: seq<Move>)
    requires OnePlace(s) && AllFresh(s, moves)
    ensures OnePlace(DoAll(s, moves))
    decreases |moves|
  {
    if moves != [] {
      MoveOnePlace(s, moves[0]);
      AllOnePlace(Do(s, moves[0]), moves[1..]);
    }
  }

  /** Under any interleaving of teardowns with everything else, no relay, client, watcher or media
      reaches two cleanups, or reaches a cleanup and is still held. */
  lemma NoSecondCleanup(s: System, moves: seq<Move>, i: nat, k: Kind, p: Place, t: Token)
    requires OnePlace(s) && AllFresh(s, moves)
    requires i < |DoAll(s, moves).handed| && Part(DoAll(s, moves).handed[i], k) == Some(t)
    requires At(DoAll(s, moves), p, t)
    ensures p == Given(k, i)
  {
    AllOnePlace(s, moves);
    assert At(DoAll(s, moves), Given(k, i), t);
  }

  // ---------- one caller is handled ----------

  /** How many teardowns by one of the ids report that they handled a bridge. */
  function HandledCount(s: System, moves: seq<Move>, ids: set<CallId>): nat
    decreases |moves|
  {
    if moves == [] then 0
    else (if moves[0].Begin? && moves[0].call in ids && Handled(s, moves[0].call) then 1 else 0)
         + HandledCount(Do(s, moves[0]), moves[1..], ids)
  }

  predicate Unregistered(d: Dict<CallId, CallId>, ids: set<CallId>)
  {
    forall e :: e in d ==> e.0 !in ids && e.1 !in ids
  }

  /** No move records a bridge with one of the ids, and whatever is recorded is fresh. */
  ghost predicate Elsewhere(s: System, moves: seq<Move>, ids: set<CallId>)
    decreases |moves|
  {
    moves == []
    || ((moves[0].Other? && Records(s.reg, moves[0].op) ==>
           && moves[0].op.source !in ids && moves[0].op.dest !in ids
           && FreshPair(s.reg.bridges, moves[0].op.source, moves[0].op.dest))
        && Elsewhere(Do(s, moves[0]), moves[1..], ids))
  }

  lemma BegunBridges(s: System, call: CallId)
    requires Paired(s.reg.bridges)
    ensures Begun(s, call).reg.bridges ==
      if Handled(s, call) then Remove(s.reg.bridges, BridgeFor(s.reg, call).0) else s.reg.bridges
  {
  }

  /** What a move does to the bridges: it records a fresh one, or takes some away. */
  lemma MoveBridges(s: System, m: Move, e: (CallId, CallId))
    requires Paired(s.reg.bridges) && e in Do(s, m).reg.bridges
    ensures e in s.reg.bridges || (m.Other? && Records(s.reg, m.op) && e == (m.op.source, m.op.dest))
  {
    if m.Other? {
      BridgesAfter(s.reg, m.op);
      if Records(s.reg, m.op) {
        EntryPut(s.reg.bridges, m.op.source, m.op.dest, e);
      } else {
        EntryRemove(s.reg.bridges, Removes(s.reg, m.op), e);
      }
    } else if m.Begin? {
      BegunBridges(s, m.call);
      EntryRemove(s.reg.bridges, BridgeFor(s.reg, m.call).0, e);
    } else if m.source in s.waiting {
      FinishAndPopBridges(s.reg, m.source, Or(m.reason, "local_hangup"), "idle");
      EntryRemove(s.reg.bridges, Resolve(s.reg, Clean(m.source)), e);
    }
  }

  lemma MovePaired(s: System, m: Move)
    requires Paired(s.reg.bridges)
    requires m.Other? && Records(s.reg, m.op) ==> FreshPair(s.reg.bridges, m.op.source, m.op.dest)
    ensures Paired(Do(s, m).reg.bridges)
  {
    if m.Other? {
      StepPaired(s.reg, m.op);
    } else if m.Begin? {
      BegunBridges(s, m.call);
      RemovePaired(s.reg.bridges, BridgeFor(s.reg, m.call).0);
    } else if m.source in s.waiting {
      FinishAndPopBridges(s.reg, m.source, Or(m.reason, "local_hangup"), "idle");
      RemovePaired(s.reg.bridges, Resolve(s.reg, Clean(m.source)));
    }
  }

  lemma UnregisteredIsUnhandled(s: System, ids: set<CallId>, id: CallId)
    requires Unregistered(s.reg.bridges, ids) && id in ids
    ensures !Handled(s, id)
  {
    forall i | 0 <= i < |s.reg.bridges| ensures s.reg.bridges[i].0 != id && s.reg.bridges[i].1 != id {
      assert s.reg.bridges[i] in s.reg.bridges;
    }
    NoPair(s.reg, id);
  }

  lemma {:induction false} NoneHandled(s: System, moves: seq<Move>, ids: set<CallId>)
    requires Paired(s.reg.bridges) && Unregistered(s.reg.bridges, ids) && Elsewhere(s, moves, ids)
    ensures HandledCount(s, moves, ids) == 0
    decreases |moves|
  {
    if moves != [] {
      var m := moves[0];
      if m.Begin? && m.call in ids {
        UnregisteredIsUnhandled(s, ids, m.call);
      }
      MovePaired(s, m);
      forall e | e in Do(s, m).reg.bridges ensures e.0 !in ids && e.1 !in ids {
        MoveBridges(s, m, e);
      }
      NoneHandled(Do(s, m), moves[1..], ids);
    }
  }

  /** A handled teardown takes the bridge away from both its ids. */
  lemma HandledOnceThenGone(s: System, i: nat, call: CallId)
    requires Paired(s.reg.bridges) && i < |s.reg.bridges|
    requires call in {s.reg.bridges[i].0, s.reg.bridges[i].1}
    ensures Handled(s, call) && BridgeFor(s.reg, call) == s.reg.bridges[i]
    ensures Paired(Begun(s, call).reg.bridges)
    ensures Unregistered(Begun(s, call).reg.bridges, {s.reg.bridges[i].0, s.reg.bridges[i].1})
  {
    SamePairFromEitherEnd(s.reg, i);
    BegunBridges(s, call);
    var d, pair := s.reg.bridges, s.reg.bridges[i];
    RemovePaired(d, pair.0);
    PairedByEntry(d);
    forall e | e in Begun(s, call).reg.bridges ensures e.0 !in {pair.0, pair.1} && e.1 !in {pair.0, pair.1} {
      EntryRemove(d, pair.0, e);
    }
  }

  /** Of all teardowns of one bridge, by source or by destination id and however they interleave with
      each other and with everything else, the first is handled and no other is, until one of the ids
      is registered again. */
  lemma OneCallerIsHandled(s: System, i: nat, call: CallId, moves: seq<Move>)
    requires Paired(s.reg.bridges) && i < |s.reg.bridges|
    requires call in {s.reg.bridges[i].0, s.reg.bridges[i].1}
    requires Elsewhere(Begun(s, call), moves, {s.reg.bridges[i].0, s.reg.bridges[i].1})
    ensures HandledCount(s, [Begin(call)] + moves, {s.reg.bridges[i].0, s.reg.bridges[i].1}) == 1
  {
    HandledOnceThenGone(s, i, call);
    assert ([Begin(call)] + moves)[1..] == moves;
    NoneHandled(Begun(s, call), moves, {s.reg.bridges[i].0, s.reg.bridges[i].1});
  }

  // ---------- which session the cleanup ends ----------

  /** Whether a move ends the session under an id. */
  predicate Ends(s: System, m: Move, id: CallId)
  {
    match m
    case Other(op) => !Spares(s.reg, op, id)
    case Begin(_) => false
    case Complete(source, _) => source in s.waiting && Resolve(s.reg, Clean(source)) == id
  }

  ghost predicate NoneEnds(s: System, moves: seq<Move>, id: CallId)
    decreases |moves|
  {
    moves == [] || (!Ends(s, moves[0], id) && NoneEnds(Do(s, moves[0]), moves[1..], id))
  }

  lemma BegunSessions(s: System, call: CallId)
    ensures Begun(s, call).reg.sessions == s.reg.sessions && Begun(s, call).reg.counter == s.reg.counter
  {
  }

  lemma MoveEvolves(s: System, m: Move)
    requires Generations(s.reg)
    ensures Generations(Do(s, m).reg) && Evolves(s.reg, Do(s, m).reg)
  {
    if m.Other? {
      StepEvolves(s.reg, m.op);
    } else if m.Begin? {
      BegunSessions(s, m.call);
      SameSessions(s.reg, Begun(s, m.call).reg);
    } else if m.source in s.waiting {
      FinishAndPopEvolves(s.reg, m.source, Or(m.reason, "local_hangup"), "idle");
    } else {
      SameSessions(s.reg, s.reg);
    }
  }

  lemma MoveSpares(s: System, m: Move, id: CallId)
    requires id in s.reg.sessions
    ensures if Ends(s, m, id) then id !in Do(s, m).reg.sessions else Stays(s.reg, Do(s, m).reg, id)
  {
    if m.Other? {
      StepSpares(s.reg, m.op, id);
    } else if m.Begin? {
      BegunSessions(s, m.call);
    } else if m.source in s.waiting {
      FinishAndPopSessions(s.reg, m.source, Or(m.reason, "local_hangup"), "idle", id);
    }
  }

  lemma {:induction false} AllEvolve(s: System, moves: seq<Move>)
    requires Generations(s.reg)
    ensures Generations(DoAll(s, moves).reg) && Evolves(s.reg, DoAll(s, moves).reg)
    decreases |moves|
  {
    if moves == [] {
      SameSessions(s.reg, s.reg);
    } else {
      MoveEvolves(s, moves[0]);
      AllEvolve(Do(s, moves[0]), moves[1..]);
      EvolvesTransitive(s.reg, Do(s, moves[0]).reg, DoAll(s, moves).reg);
    }
  }

  /** Over every interleaving a session is still there exactly when no move ended it. */
  lemma {:induction false} LastsExactly(s: System, moves: seq<Move>, id: CallId, generation: int)
    requires Generations(s.reg) && id in s.reg.sessions && s.reg.sessions[id].generation == generation
    ensures var q := DoAll(s, moves).reg;
      (id in q.sessions && q.sessions[id].generation == generation) <==> NoneEnds(s, moves, id)
    decreases |moves|
  {
    if moves != [] {
      MoveEvolves(s, moves[0]);
      MoveSpares(s, moves[0], id);
      if Ends(s, moves[0], id) {
        AllEvolve(Do(s, moves[0]), moves[1..]);
        NeverBack(Do(s, moves[0]).reg, DoAll(s, moves).reg, id, generation);
      } else {
        LastsExactly(Do(s, moves[0]), moves[1..], id, generation);
      }
    }
  }

  /** A teardown has detached the bridge of a session, moves followed, and its cleanup is still to end. */
  ghost predicate TornDown(s: System, call: CallId, id: CallId, moves: seq<Move>, w: System)
  {
    var source := BridgeFor(s.reg, call).0;
    && Generations(s.reg) && Handled(s, call)
    && id == Resolve(s.reg, Clean(source)) && id in s.reg.sessions
    && w == DoAll(Begun(s, call), moves) && source in w.waiting
  }

  /** After the wait the cleanup ends whatever session the source id stands for then, and no other. That is
      the session whose bridge was detached exactly when the id stands for the same session id as before and
      no move in between ended that session: the cleanup asks for no generation. */
  lemma EndsItsOwnExactly(s: System, call: CallId, id: CallId, moves: seq<Move>, w: System, reason: string)
    requires TornDown(s, call, id, moves, w)
    ensures var source := BridgeFor(s.reg, call).0;
      var ends := Resolve(w.reg, Clean(source));
      && Completed(w, source, reason).reg.sessions.Keys == w.reg.sessions.Keys - {ends}
      && (ends in w.reg.sessions && w.reg.sessions[ends].generation == s.reg.sessions[id].generation
          <==> ends == id && NoneEnds(Begun(s, call), moves, id))
  {
    var source, b := BridgeFor(s.reg, call).0, Begun(s, call);
    var ends := Resolve(w.reg, Clean(source));
    BegunSessions(s, call);
    SameSessions(s.reg, b.reg);
    LastsExactly(b, moves, id, s.reg.sessions[id].generation);
    AllEvolve(b, moves);
    CompletedSessions(w, source, reason);
  }

  lemma CompletedSessions(w: System, source: CallId, reason: string)
    requires source in w.waiting
    ensures Completed(w, source, reason).reg.sessions.Keys == w.reg.sessions.Keys - {Resolve(w.reg, Clean(source))}
  {
    var q := if Resolve(w.reg, Clean(source)) == "" then w.reg else Buried(w.reg, source);
    var f := Finish(q, source, Or(reason, "local_hangup"), "idle");
    PopSessions(f, source);
    assert f.sessions.Keys == w.reg.sessions.Keys;
  }

  /** So a call that ends and is created again under the source id during the cleanup loses its new session. */
  lemma EndsALaterSession(s: System, call: CallId, f: CallFields, reason: string)
    requires Generations(s.reg) && Handled(s, call)
    requires var id := BridgeFor(s.reg, call).0; Clean(id) == id && Resolve(s.reg, id) == id && id in s.reg.sessions
    ensures var id := BridgeFor(s.reg, call).0;
      var w := Begun(s, call).(reg := Upsert(Pop(Begun(s, call).reg, id), id, f));
      && id in w.reg.sessions && w.reg.sessions[id].generation != s.reg.sessions[id].generation
      && id !in Completed(w, id, reason).reg.sessions
  {
    var id, b := BridgeFor(s.reg, call).0, Begun(s, call);
    BegunSessions(s, call);
    SameSessions(s.reg, b.reg);
    CreatedAgain(b.reg, id, f);
    assert id in b.waiting;
    CompletedSessions(b.(reg := Upsert(Pop(b.reg, id), id, f)), id, reason);
  }

  lemma CreatedAgain(r: Registry, id: CallId, f: CallFields)
    requires Clean(id) == id && Resolve(r, id) == id
    ensures var q := Upsert(Pop(r, id), id, f);
      && id in q.sessions && q.sessions[id].generation == r.counter + 1 && Resolve(q, Clean(id)) == id
  {
    PoppedLegs(r, id);
    PoppedAt(r, id);
    CreatedNew(Pop(r, id), id, f);
  }

  lemma PoppedAt(r: Registry, id: CallId)
    requires Clean(id) == id
    ensures Pop(r, id).counter == r.counter && (Resolve(r, id) == id ==> id !in Pop(r, id).sessions)
  {
    PopSessions(r, id);
  }

  lemma CreatedNew(r: Registry, id: CallId, f: CallFields)
    requires id !in r.sessions
    ensures id in Upsert(r, id, f).sessions && Upsert(r, id, f).sessions[id].generation == r.counter + 1
    ensures Upsert(r, id, f).legIndex == r.legIndex
  {
  }
}
