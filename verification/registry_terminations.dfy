/** Teardown ownership over whole runs: the memory of terminated calls as a window on a log, and how
    long it lets only one caller begin the termination of a call. */
module RegistryTerminations {
  import opened Wrappers
  import opened OrderedDicts
  import opened Tombstones
  import opened RegistryState
  import opened RegistryStamps

  /** What an operation appends to the log of terminated ids. */
  function Appended(r: Registry, op: Op): seq<Entry>
  {
    if op.OpBegin? && BeginSucceeds(r, op.call) then Burial(r, op.call)
    else if op.OpFinishAndPop? && Resolve(r, Clean(op.call)) != "" then Burial(r, op.call)
    else []
  }

  /** A call id and the session it stands for, under the generation of that session. */
  function Burial(r: Registry, call: CallId): seq<Entry>
  {
    var id := Resolve(r, Clean(call));
    Logged([Clean(call), Clean(id)], GenerationOf(r, id))
  }

  /** The log after a run: clearing the runtime starts it anew. */
  function RunLog(r: Registry, ops: seq<Op>, log: seq<Entry>): seq<Entry>
    decreases |ops|
  {
    if ops == [] then log
    else RunLog(Step(r, ops[0]), ops[1..], if ops[0].OpClear? then [] else log + Appended(r, ops[0]))
  }

  // ---------- the memory refines the log ----------

  lemma BuriedRefines(r: Registry, call: CallId, log: seq<Entry>)
    requires Refines(r.tombstones, log)
    ensures Refines(Buried(r, call).tombstones, log + Burial(r, call))
  {
    var id := Resolve(r, Clean(call));
    RememberRefines(r.tombstones, log, [Clean(call), Clean(id)], GenerationOf(r, id));
  }

  lemma BeginTombstones(r: Registry, call: CallId)
    ensures BeginTermination(r, call).tombstones ==
      if BeginSucceeds(r, call) then Buried(r, call).tombstones else r.tombstones
  {
  }

  lemma FinishAndPopTombstones(r: Registry, call: CallId, reason: string, state: string)
    ensures FinishAndPop(r, call, reason, state).tombstones ==
      if Resolve(r, Clean(call)) != "" then Buried(r, call).tombstones else r.tombstones
  {
    var q := if Resolve(r, Clean(call)) == "" then r else Buried(r, call);
    assert Finish(q, call, reason, state).tombstones == q.tombstones;
  }

  lemma OthersKeepTombstones(r: Registry, op: Op)
    requires !op.OpBegin? && !op.OpFinishAndPop? && !op.OpClear?
    ensures Step(r, op).tombstones == r.tombstones
  {
  }

  lemma EmptyRefines()
    ensures Refines([], [])
  {
    assert Latest([]) == [];
  }

  lemma NothingAppended(log: seq<Entry>)
    ensures log + [] == log
  {
  }

  lemma StepRefines(r: Registry, op: Op, log: seq<Entry>)
    requires Refines(r.tombstones, log)
    ensures Refines(Step(r, op).tombstones, if op.OpClear? then [] else log + Appended(r, op))
  {
    NothingAppended(log);
    if op.OpBegin? {
      BeginTombstones(r, op.call);
      BuriedRefines(r, op.call, log);
    } else if op.OpFinishAndPop? {
      FinishAndPopTombstones(r, op.call, op.reason, op.state);
      BuriedRefines(r, op.call, log);
    } else if op.OpClear? {
      EmptyRefines();
    } else {
      OthersKeepTombstones(r, op);
    }
  }

  /** Over every run the memory holds exactly the last 512 distinct ids of the log, oldest first,
      each with its latest generation. */
  lemma {:induction false} RunRefines(r: Registry, ops: seq<Op>, log: seq<Entry>)
    requires Refines(r.tombstones, log)
    ensures Refines(Run(r, ops).tombstones, RunLog(r, ops, log))
    decreases |ops|
  {
    if ops != [] {
      StepRefines(r, ops[0], log);
      RunRefines(Step(r, ops[0]), ops[1..], if ops[0].OpClear? then [] else log + Appended(r, ops[0]));
    }
  }

  lemma {:induction false} LogGrows(r: Registry, ops: seq<Op>, log: seq<Entry>)
    requires forall i :: 0 <= i < |ops| ==> !ops[i].OpClear?
    ensures RunLog(r, ops, log) == log + RunLog(r, ops, [])
    decreases |ops|
  {
    if ops != [] {
      var more := Appended(r, ops[0]);
      LogGrows(Step(r, ops[0]), ops[1..], log + more);
      LogGrows(Step(r, ops[0]), ops[1..], [] + more);
      assert [] + more == more;
      AppendAssociative(log, more, RunLog(Step(r, ops[0]), ops[1..], []));
    }
  }

  // ---------- how long an id stays remembered ----------

  /** An id stays remembered at least while fewer than 512 other ids are remembered after it. */
  lemma StaysRemembered(before: seq<Entry>, e: Entry, since: seq<Entry>, d: Dict<CallId, int>)
    requires Refines(d, before + [e] + since)
    requires |Ids(since) - {e.0}| < MAX_TERMINATED_CALL_IDS
    ensures Has(d, e.0)
  {
    InIds(since, e.0);
    if !Has(since, e.0) {
      assert Ids(since) - {e.0} == Ids(since);
      RememberedWhile(before, e.0, e.1, since, d);
    } else {
      var i := LastNamed(since, e.0);
      var rest := since[i + 1..];
      assert before + [e] + since == (before + [e] + since[..i]) + [since[i]] + rest;
      forall id | id in Ids(rest) ensures id in Ids(since) - {e.0} {
        var j :| 0 <= j < |rest| && rest[j].0 == id;
        assert since[i + 1 + j].0 == id;
      }
      SubsetSize(Ids(rest), Ids(since) - {e.0});
      RememberedWhile(before + [e] + since[..i], e.0, since[i].1, rest, d);
    }
  }

  lemma SubsetSize(a: set<CallId>, b: set<CallId>)
    requires a <= b
    ensures |a| <= |b|
  {
    assert b == a + (b - a);
  }

  // ---------- one caller begins ----------

  lemma BurialIs(r: Registry, call: CallId)
    requires Clean(call) != "" && Clean(Resolve(r, Clean(call))) != ""
    ensures var id := Resolve(r, Clean(call));
      Burial(r, call) == [(Clean(call), GenerationOf(r, id)), (Clean(id), GenerationOf(r, id))]
  {
    var id := Resolve(r, Clean(call));
    assert [Clean(call), Clean(id)][1..] == [Clean(id)];
    assert [Clean(id)][1..] == [];
    assert Logged([Clean(id)], GenerationOf(r, id)) == [(Clean(id), GenerationOf(r, id))];
  }

  /** The log of a run that starts with the burial of a call: the session's id is named, then the rest. */
  lemma LogAfterBurial(r: Registry, q: Registry, call: CallId, ops: seq<Op>, log: seq<Entry>) returns (before: seq<Entry>)
    requires Clean(call) != "" && Clean(Resolve(r, Clean(call))) != ""
    requires forall i :: 0 <= i < |ops| ==> !ops[i].OpClear?
    ensures var id := Resolve(r, Clean(call));
      RunLog(q, ops, log + Burial(r, call)) == before + [(Clean(id), GenerationOf(r, id))] + RunLog(q, ops, [])
  {
    var id := Resolve(r, Clean(call));
    BurialIs(r, call);
    before := log + [(Clean(call), GenerationOf(r, id))];
    LogGrows(q, ops, log + Burial(r, call));
    assert log + Burial(r, call) == before + [(Clean(id), GenerationOf(r, id))];
  }

  /** The ids a run remembers. */
  function Remembered(r: Registry, ops: seq<Op>): set<CallId>
  {
    Ids(RunLog(r, ops, []))
  }

  lemma RunAfterBurial(r: Registry, q: Registry, call: CallId, ops: seq<Op>, log: seq<Entry>) returns (before: seq<Entry>)
    requires Clean(call) != "" && Clean(Resolve(r, Clean(call))) != ""
    requires forall i :: 0 <= i < |ops| ==> !ops[i].OpClear?
    requires Refines(q.tombstones, log + Burial(r, call))
    ensures var id := Resolve(r, Clean(call));
      Refines(Run(q, ops).tombstones, before + [(Clean(id), GenerationOf(r, id))] + RunLog(q, ops, []))
  {
    RunRefines(q, ops, log + Burial(r, call));
    before := LogAfterBurial(r, q, call, ops, log);
  }

  lemma TombstonesAfterBegin(r: Registry, log: seq<Entry>, call: CallId, ops: seq<Op>) returns (before: seq<Entry>)
    requires Refines(r.tombstones, log) && BeginSucceeds(r, call)
    requires Clean(Resolve(r, Clean(call))) != ""
    requires forall i :: 0 <= i < |ops| ==> !ops[i].OpClear?
    ensures var id, q := Resolve(r, Clean(call)), BeginTermination(r, call);
      Refines(Run(q, ops).tombstones, before + [(Clean(id), GenerationOf(r, id))] + RunLog(q, ops, []))
  {
    var q := BeginTermination(r, call);
    BeginTombstones(r, call);
    BuriedRefines(r, call, log);
    before := RunAfterBurial(r, q, call, ops, log);
  }

  lemma RememberedIsTerminated(p: Registry, other: CallId)
    ensures IsTerminated(p, other, None) <==> Has(p.tombstones, Clean(other)) || Has(p.tombstones, Resolve(p, Clean(other)))
  {
    var pair := [Clean(other), Resolve(p, Clean(other))];
    assert pair[0] in pair && pair[1] in pair;
  }

  lemma StillRefused(p: Registry, before: seq<Entry>, e: Entry, since: seq<Entry>, other: CallId)
    requires Refines(p.tombstones, before + [e] + since) && |Ids(since) - {e.0}| < MAX_TERMINATED_CALL_IDS
    requires Resolve(p, Clean(other)) == e.0
    ensures !BeginSucceeds(p, other)
  {
    StaysRemembered(before, e, since, p.tombstones);
    RememberedIsTerminated(p, other);
  }

  /** Whether begin_termination succeeds, read off the log alone, in every state of every run: when the
      log remembers neither the id nor the session it stands for. */
  lemma BeginExactly(r: Registry, log: seq<Entry>, ops: seq<Op>, call: CallId)
    requires Refines(r.tombstones, log)
    ensures BeginSucceeds(Run(r, ops), call) <==>
      && Clean(call) != ""
      && !Remembers(RunLog(r, ops, log), Clean(call))
      && !Remembers(RunLog(r, ops, log), Resolve(Run(r, ops), Clean(call)))
  {
    var p, l := Run(r, ops), RunLog(r, ops, log);
    RunRefines(r, ops, log);
    RememberedExactly(l, Clean(call), p.tombstones);
    RememberedExactly(l, Resolve(p, Clean(call)), p.tombstones);
    RememberedIsTerminated(p, call);
  }

  /** A log that names an id keeps naming it over a run that does not clear the runtime. */
  lemma StillNamed(q: Registry, ops: seq<Op>, log: seq<Entry>, id: CallId)
    requires Has(log, id) && forall i :: 0 <= i < |ops| ==> !ops[i].OpClear?
    ensures Has(RunLog(q, ops, log), id)
  {
    LogGrows(q, ops, log);
    HasAppend(log, RunLog(q, ops, []), id);
  }

  lemma BurialNames(r: Registry, call: CallId, log: seq<Entry>)
    requires Clean(call) != "" && Clean(Resolve(r, Clean(call))) != ""
    ensures Has(log + Burial(r, call), Clean(Resolve(r, Clean(call))))
  {
    BurialIs(r, call);
    assert Burial(r, call)[1].0 == Clean(Resolve(r, Clean(call)));
    HasAppend(log, Burial(r, call), Clean(Resolve(r, Clean(call))));
  }

  /** A caller has begun the termination of session id, and a run without a clear followed. */
  ghost predicate BegunThenRan(r: Registry, log: seq<Entry>, call: CallId, id: CallId, ops: seq<Op>)
  {
    && Refines(r.tombstones, log)
    && BeginSucceeds(r, call)
    && id == Resolve(r, Clean(call)) && id != "" && Clean(id) == id
    && forall i :: 0 <= i < |ops| ==> !ops[i].OpClear?
  }

  /** Once one caller has begun the termination of a session, nobody else begins it, by the
      session's id or by any id that stands for it, while fewer than 512 other ids are remembered.
      The session may be popped and created again meanwhile. */
  lemma OneBeginPerSession(r: Registry, log: seq<Entry>, call: CallId, id: CallId, ops: seq<Op>, other: CallId)
    requires BegunThenRan(r, log, call, id, ops)
    requires Resolve(Run(BeginTermination(r, call), ops), Clean(other)) == id
    requires |Remembered(BeginTermination(r, call), ops) - {id}| < MAX_TERMINATED_CALL_IDS
    ensures !BeginSucceeds(Run(BeginTermination(r, call), ops), other)
  {
    var q := BeginTermination(r, call);
    var before := TombstonesAfterBegin(r, log, call, ops);
    StillRefused(Run(q, ops), before, (id, GenerationOf(r, id)), RunLog(q, ops, []), other);
  }

  /** How far the ids remembered since the last mention of an id have come. */
  function SinceLast(r: Registry, ops: seq<Op>, log: seq<Entry>, id: CallId): nat
  {
    |Ids(AfterLast(RunLog(r, ops, log), id))|
  }

  lemma NamedBeginExactly(r: Registry, log: seq<Entry>, ops: seq<Op>, id: CallId)
    requires Refines(r.tombstones, log) && Has(log, id) && forall i :: 0 <= i < |ops| ==> !ops[i].OpClear?
    requires id != "" && Clean(id) == id && Resolve(Run(r, ops), id) == id
    ensures BeginSucceeds(Run(r, ops), id) <==> MAX_TERMINATED_CALL_IDS <= SinceLast(r, ops, log, id)
  {
    StillNamed(r, ops, log, id);
    BeginExactly(r, log, ops, id);
  }

  /** The bound is exact, whatever the run does with the call, its own finish_and_pop and its re-creation
      included: a session's termination can begin a second time exactly when 512 other ids have been
      remembered since the session was remembered last. */
  lemma SecondBeginExactly(r: Registry, log: seq<Entry>, call: CallId, id: CallId, ops: seq<Op>)
    requires BegunThenRan(r, log, call, id, ops)
    requires Resolve(Run(BeginTermination(r, call), ops), id) == id
    ensures BeginSucceeds(Run(BeginTermination(r, call), ops), id) <==>
      MAX_TERMINATED_CALL_IDS <= SinceLast(BeginTermination(r, call), ops, log + Burial(r, call), id)
  {
    BeginTombstones(r, call);
    BuriedRefines(r, call, log);
    BurialNames(r, call, log);
    NamedBeginExactly(BeginTermination(r, call), log + Burial(r, call), ops, id);
  }

  lemma EndedRefines(r: Registry, log: seq<Entry>, id: CallId, reason: string, state: string)
    requires Refines(r.tombstones, log) && Clean(id) == id && id != "" && Resolve(r, id) == id
    ensures Refines(FinishAndPop(r, id, reason, state).tombstones, log + Burial(r, id)) && Has(log + Burial(r, id), id)
  {
    FinishAndPopTombstones(r, id, reason, state);
    BuriedRefines(r, id, log);
    BurialNames(r, id, log);
  }

  /** The memory does not ask for the generation. After a call has ended in q, and however often it is
      created again, its termination can begin exactly when 512 other ids have been remembered since the
      id was remembered last. */
  lemma ReusedIdBeginsExactly(r: Registry, log: seq<Entry>, id: CallId, reason: string, state: string, q: Registry,
                              ops: seq<Op>)
    requires Refines(r.tombstones, log) && Clean(id) == id && id != "" && Resolve(r, id) == id
    requires q == FinishAndPop(r, id, reason, state) && forall i :: 0 <= i < |ops| ==> !ops[i].OpClear?
    requires Resolve(Run(q, ops), id) == id
    ensures BeginSucceeds(Run(q, ops), id) <==> MAX_TERMINATED_CALL_IDS <= SinceLast(q, ops, log + Burial(r, id), id)
  {
    EndedRefines(r, log, id, reason, state);
    NamedBeginExactly(q, log + Burial(r, id), ops, id);
  }

  lemma EndedIsRemembered(r: Registry, log: seq<Entry>, id: CallId, reason: string, state: string)
    requires Refines(r.tombstones, log) && Clean(id) == id && id != "" && Resolve(r, id) == id
    ensures Has(FinishAndPop(r, id, reason, state).tombstones, id)
  {
    FinishAndPopTombstones(r, id, reason, state);
    BuriedRefines(r, id, log);
    var e := (id, GenerationOf(r, id));
    BurialIs(r, id);
    assert log + [e, e] == (log + [e]) + [e] + [];
    StaysRemembered(log + [e], e, [], Buried(r, id).tombstones);
  }

  /** So a call created again at once is a new session whose termination cannot begin. */
  lemma ReusedIdCannotBegin(r: Registry, log: seq<Entry>, id: CallId, reason: string, state: string, f: CallFields)
    requires Refines(r.tombstones, log) && Clean(id) == id && id != "" && Resolve(r, id) == id
    ensures var q := Upsert(FinishAndPop(r, id, reason, state), id, f);
      id in q.sessions && !BeginSucceeds(q, id)
  {
    EndedIsRemembered(r, log, id, reason, state);
    RememberedIsTerminated(Upsert(FinishAndPop(r, id, reason, state), id, f), id);
  }

  // ---------- late winners during the teardown ----------

  /** What a memory says of an id under a generation. */
  lemma TerminatedAs(q: Registry, call: CallId, generation: int)
    ensures IsTerminated(q, call, Some(generation)) <==>
      || (Has(q.tombstones, Clean(call)) && Get(q.tombstones, Clean(call), 0) == generation)
      || (Has(q.tombstones, Resolve(q, Clean(call))) && Get(q.tombstones, Resolve(q, Clean(call)), 0) == generation)
  {
    var pair := [Clean(call), Resolve(q, Clean(call))];
    assert pair[0] in pair && pair[1] in pair;
  }

  /** The log remembers an id, and named it last with this generation. */
  predicate RemembersAs(log: seq<Entry>, id: CallId, generation: int)
  {
    Remembers(log, id) && LastGeneration(log, id) == generation
  }

  lemma CurrentIn(q: Registry, log: seq<Entry>, call: CallId, generation: int)
    requires Refines(q.tombstones, log)
    ensures var id := Resolve(q, Clean(call));
      IsGenerationCurrent(q, call, generation) <==>
        && id in q.sessions && q.sessions[id].generation == generation && Live(q.sessions[id])
        && !RemembersAs(log, Clean(call), generation) && !RemembersAs(log, id, generation)
  {
    RememberedExactly(log, Clean(call), q.tombstones);
    RememberedExactly(log, Resolve(q, Clean(call)), q.tombstones);
    TerminatedAs(q, call, generation);
  }

  /** Whether a generation is current, in every state of every run: the session is there in that life, not
      over, and the log does not remember the id or its session in that life. */
  lemma CurrentExactly(r: Registry, log: seq<Entry>, ops: seq<Op>, call: CallId, generation: int)
    requires Refines(r.tombstones, log)
    ensures var q, l := Run(r, ops), RunLog(r, ops, log);
      var id := Resolve(q, Clean(call));
      IsGenerationCurrent(q, call, generation) <==>
        && id in q.sessions && q.sessions[id].generation == generation && Live(q.sessions[id])
        && !RemembersAs(l, Clean(call), generation) && !RemembersAs(l, id, generation)
  {
    RunRefines(r, ops, log);
    CurrentIn(Run(r, ops), RunLog(r, ops, log), call, generation);
  }

  /** An operation that remembers the id does so for the session under that very id. */
  predicate BuriesAsItself(r: Registry, op: Op, id: CallId)
  {
    (op.OpBegin? || op.OpFinishAndPop?) && id in {Clean(op.call), Clean(Resolve(r, Clean(op.call)))} ==>
      Resolve(r, Clean(op.call)) == id
  }

  predicate AllBuryAsItself(r: Registry, ops: seq<Op>, id: CallId)
    decreases |ops|
  {
    ops == [] || (BuriesAsItself(r, ops[0], id) && AllBuryAsItself(Step(r, ops[0]), ops[1..], id))
  }

  /** While the session lives in this life, the log's last word on its id is this life. */
  ghost predicate InThisLife(r: Registry, log: seq<Entry>, id: CallId, generation: int)
  {
    Has(log, id) && (id in r.sessions && r.sessions[id].generation == generation ==> LastGeneration(log, id) == generation)
  }

  lemma BurialGeneration(r: Registry, call: CallId, id: CallId, generation: int)
    requires id in r.sessions && r.sessions[id].generation == generation && id != ""
    requires Has(Burial(r, call), id)
    ensures id in {Clean(call), Clean(Resolve(r, Clean(call)))}
    ensures Resolve(r, Clean(call)) == id ==> LastGeneration(Burial(r, call), id) == generation
  {
    LoggedOnce([Clean(call), Clean(Resolve(r, Clean(call)))], GenerationOf(r, Resolve(r, Clean(call))), id);
  }

  lemma StepInThisLife(r: Registry, op: Op, log: seq<Entry>, id: CallId, generation: int)
    requires Generations(r) && InThisLife(r, log, id, generation) && id != "" && !op.OpClear?
    requires generation <= r.counter && BuriesAsItself(r, op, id)
    ensures InThisLife(Step(r, op), log + Appended(r, op), id, generation)
    ensures generation <= Step(r, op).counter
  {
    StepEvolves(r, op);
    if !(id in r.sessions && r.sessions[id].generation == generation) {
      NeverBack(r, Step(r, op), id, generation);
    }
    LastGenerationAppend(log, Appended(r, op), id);
    if id in r.sessions && r.sessions[id].generation == generation && Has(Appended(r, op), id) {
      BurialGeneration(r, op.call, id, generation);
    }
  }

  lemma {:induction false} RunInThisLife(r: Registry, ops: seq<Op>, log: seq<Entry>, id: CallId, generation: int)
    requires Generations(r) && InThisLife(r, log, id, generation) && id != "" && generation <= r.counter
    requires AllBuryAsItself(r, ops, id) && forall i :: 0 <= i < |ops| ==> !ops[i].OpClear?
    ensures InThisLife(Run(r, ops), RunLog(r, ops, log), id, generation)
    decreases |ops|
  {
    if ops != [] {
      StepEvolves(r, ops[0]);
      StepInThisLife(r, ops[0], log, id, generation);
      RunInThisLife(Step(r, ops[0]), ops[1..], log + Appended(r, ops[0]), id, generation);
    }
  }

  lemma BegunInThisLife(r: Registry, log: seq<Entry>, call: CallId, id: CallId)
    requires BegunThenRan(r, log, call, id, []) && Generations(r) && id in r.sessions
    ensures var q := BeginTermination(r, call);
      && Generations(q) && Refines(q.tombstones, log + Burial(r, call)) && r.sessions[id].generation <= q.counter
      && InThisLife(q, log + Burial(r, call), id, r.sessions[id].generation)
  {
    BeginEvolves(r, call);
    BeginTombstones(r, call);
    BuriedRefines(r, call, log);
    BurialNames(r, call, log);
    BurialIs(r, call);
    LoggedOnce([Clean(call), Clean(id)], GenerationOf(r, id), id);
    LastGenerationAppend(log, Burial(r, call), id);
  }

  /** From the moment begin_termination succeeds for a session until its id is forgotten, in every state of
      every run, its generation is current under no id that stands for it: a late winner that registers a
      bridge for it changes nothing, though the session may still be there and live. This is so as long
      as nobody remembers the id on behalf of another session. */
  lemma LateWinnerDuringTeardown(r: Registry, log: seq<Entry>, call: CallId, id: CallId, ops: seq<Op>, other: CallId,
                                 dest: CallId, client: Token, f: BridgeFields)
    requires BegunThenRan(r, log, call, id, ops) && Generations(r) && id in r.sessions
    requires AllBuryAsItself(BeginTermination(r, call), ops, id)
    requires SinceLast(BeginTermination(r, call), ops, log + Burial(r, call), id) < 512
    requires Resolve(Run(BeginTermination(r, call), ops), Clean(other)) == id
    ensures var q, g := Run(BeginTermination(r, call), ops), r.sessions[id].generation;
      !IsGenerationCurrent(q, other, g) && RegisterBridge(q, other, dest, client, f, Some(g)) == q
  {
    var b, l := BeginTermination(r, call), log + Burial(r, call);
    BegunInThisLife(r, log, call, id);
    RunInThisLife(b, ops, l, id, r.sessions[id].generation);
    CurrentExactly(b, l, ops, other, r.sessions[id].generation);
  }

  /** A session whose teardown has begun, and another session to which its id is added as a leg. */
  ghost predicate LegOfAnother(b: Registry, log: seq<Entry>, id: CallId, other: CallId)
  {
    && Generations(b) && Refines(b.tombstones, log)
    && id in b.sessions && Live(b.sessions[id]) && Resolve(b, id) == id && id != "" && Clean(id) == id
    && other in b.sessions && other != id && Clean(other) == other && other != ""
  }

  lemma JoinedOther(b: Registry, id: CallId, other: CallId, f: LegFields)
    requires id in b.sessions && other in b.sessions && other != id
    ensures var q := AddLeg(b, other, id, f);
      && q.legIndex == b.legIndex[id := other] && q.tombstones == b.tombstones && other in q.sessions
      && q.sessions[other].generation == b.sessions[other].generation && id in q.sessions[other].legs
      && id in q.sessions && q.sessions[id] == b.sessions[id]
  {
  }

  lemma PoppedOther(q: Registry, id: CallId, other: CallId, reason: string, state: string)
    requires id in q.sessions && other in q.sessions && other != id && Clean(id) == id
    requires Resolve(q, id) == other && id in q.legIndex
    ensures var p := FinishAndPop(q, id, reason, state);
      && id in p.sessions && p.sessions[id] == q.sessions[id] && Resolve(p, id) == id
  {
    var p := Finish(if Resolve(q, Clean(id)) == "" then q else Buried(q, id), id, reason, state);
    assert p.sessions[id] == q.sessions[id] && p.legIndex == q.legIndex;
    PopSessions(p, id);
    assert id !in Pop(p, id).legIndex;
  }

  /** Why that is needed: when the id is added as a leg to another session and finish_and_pop is called with it,
      the memory takes the generation of the other session, and the torn down one is current again. */
  lemma MisburialRevives(b: Registry, log: seq<Entry>, id: CallId, other: CallId, f: LegFields,
                         reason: string, state: string)
    requires LegOfAnother(b, log, id, other)
    ensures IsGenerationCurrent(FinishAndPop(AddLeg(b, other, id, f), id, reason, state), id, b.sessions[id].generation)
  {
    var q := AddLeg(b, other, id, f);
    var l, p := log + Burial(q, id), FinishAndPop(q, id, reason, state);
    JoinedOther(b, id, other, f);
    PoppedOther(q, id, other, reason, state);
    FinishAndPopTombstones(q, id, reason, state);
    BuriedRefines(q, id, log);
    LoggedOnce([Clean(id), Clean(other)], GenerationOf(q, other), id);
    LastGenerationAppend(log, Burial(q, id), id);
    assert GenerationOf(q, other) != b.sessions[id].generation;
    CurrentIn(p, l, id, b.sessions[id].generation);
  }
}
