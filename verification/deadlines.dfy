/** Call deadlines: a timer that emits one event if its call is still in the phase it was armed for. */
module Deadlines {
  import opened Wrappers
  import opened OrderedDicts
  import opened Tombstones
  import opened RegistryState
  import opened EventContexts

  datatype Status = Waiting | Cancelling | Over

  /** One timer task. The life of the context it was armed on is bookkeeping: no operation reads it. */
  datatype Timer = Timer(call: CallId, phase: string, state: string, sequence: nat, life: nat, status: Status)

  datatype Emission = Emission(timer: nat, call: CallId, phase: string, state: string, sequence: nat, life: nat)

  /** All tasks ever started, the one registered for each call, and the events emitted. */
  datatype Timers = Timers(tasks: seq<Timer>, armed: map<CallId, nat>, emitted: seq<Emission>)

  datatype Request = Request(call: CallId, phase: string, expectedState: string, expectedSequence: int)

  datatype Refusal = UnknownCall | UnknownPhase | WrongPhase | NotActive | WrongState | WrongSequence

  function ContextOf(r: Registry, call: CallId): Option<EventContext>
  {
    var id := Resolve(r, Clean(call));
    if Has(r.contexts, id) then Some(Get(r.contexts, id, FreshContext(0))) else None
  }

  /** Whether the registry still owns anything of the call; invites pending elsewhere are a parameter. */
  predicate Owned(r: Registry, call: CallId, invited: bool)
  {
    var id := Resolve(r, call);
    || (id in r.sessions && r.sessions[id].state !in TERMINAL_STATES)
    || invited || Has(r.bridges, call) || call in r.media
  }

  function Refused(r: Registry, q: Request, invited: bool): Option<Refusal>
  {
    match ContextOf(r, q.call)
    case None => Some(UnknownCall)
    case Some(x) =>
      if q.phase !in {"calling", "ringing"} then Some(UnknownPhase)
      else if x.state !in (if q.phase == "calling" then {"calling", "connecting"} else {"ringing", "remote_ringing"}) then
        Some(WrongPhase)
      else if !Owned(r, Clean(q.call), invited) then Some(NotActive)
      else if q.expectedState != "" && x.state != q.expectedState then Some(WrongState)
      else if q.expectedSequence != 0 && x.sequence != q.expectedSequence then Some(WrongSequence)
      else None
  }

  /** Unregister a call's timer and, unless it is over, cancel it. */
  function Cancel(t: Timers, call: CallId): Timers
  {
    var c := Clean(call);
    if c !in t.armed then t
    else
      var i := t.armed[c];
      var waits := i < |t.tasks| && t.tasks[i].status == Waiting;
      t.(armed := t.armed - {c}, tasks := if waits then t.tasks[i := t.tasks[i].(status := Cancelling)] else t.tasks)
  }

  /** A timer on the phase a call is in now. */
  function NewTimer(r: Registry, q: Request): Timer
    requires ContextOf(r, q.call).Some?
  {
    var x := ContextOf(r, q.call).value;
    Timer(Clean(q.call), q.phase, x.state, x.sequence, x.life, Waiting)
  }

  function Arm(t: Timers, r: Registry, q: Request, invited: bool): Timers
  {
    if Refused(r, q, invited) != None then t
    else
      var u := Cancel(t, q.call);
      u.(armed := u.armed[Clean(q.call) := |u.tasks|], tasks := u.tasks + [NewTimer(r, q)])
  }

  /** The last thing every task does: unregister itself, if it is the one registered. */
  function Left(t: Timers, i: nat): Timers
    requires i < |t.tasks|
  {
    var c := t.tasks[i].call;
    t.(tasks := t.tasks[i := t.tasks[i].(status := Over)],
       armed := if c in t.armed && t.armed[c] == i then t.armed - {c} else t.armed)
  }

  /** Whether a deadline still belongs to the phase it was armed for. */
  predicate Current(x: EventContext, state: string, sequence: nat)
  {
    x.state == state && x.sequence == sequence
  }

  predicate Fires(t: Timers, r: Registry, i: nat)
  {
    && i < |t.tasks| && t.tasks[i].status == Waiting
    && ContextOf(r, t.tasks[i].call).Some?
    && Current(ContextOf(r, t.tasks[i].call).value, t.tasks[i].state, t.tasks[i].sequence)
  }

  /** The time is up. */
  function Wake(t: Timers, r: Registry, i: nat): Timers
  {
    if i >= |t.tasks| || t.tasks[i].status != Waiting then t
    else
      var k := t.tasks[i];
      var emitted := if Fires(t, r, i) then
          var x := ContextOf(r, k.call).value;
          t.emitted + [Emission(i, k.call, k.phase, x.state, x.sequence, x.life)]
        else t.emitted;
      Left(t.(emitted := emitted), i)
  }

  /** The cancellation reaches the task. */
  function Unwind(t: Timers, i: nat): Timers
  {
    if i < |t.tasks| && t.tasks[i].status == Cancelling then Left(t, i) else t
  }

  // ---------- what is armed and what is told ----------

  /** Whether a context is in a phase: calling or connecting in the first, ringing here or there in the second. */
  ghost predicate InNamedPhase(x: EventContext, phase: string)
  {
    || (phase == "calling" && (x.state == "calling" || x.state == "connecting"))
    || (phase == "ringing" && (x.state == "ringing" || x.state == "remote_ringing"))
  }

  /** Something of the call is still there: a session not over, an invite pending elsewhere, a bridge, or media. */
  ghost predicate StillActive(r: Registry, call: CallId, invited: bool)
  {
    || (Resolve(r, call) in r.sessions
        && r.sessions[Resolve(r, call)].state !in {"idle", "busy", "declined", "cancelled", "media_incompatible",
             "transport_unreachable", "auth_required_unsupported", "protocol_error", "error"})
    || invited || Has(r.bridges, call) || call in r.media
  }

  /** Who may arm a deadline, and why not: the call has a context, that is in the phase named, the call is still
      active, and state and sequence are as expected where that was said; the first of these to fail is told. */
  lemma ArmsExactly(r: Registry, q: Request, invited: bool)
    ensures Refused(r, q, invited) == Some(UnknownCall) <==> ContextOf(r, q.call) == None
    ensures ContextOf(r, q.call).Some? ==>
      var x := ContextOf(r, q.call).value;
      var phased, active := InNamedPhase(x, q.phase), StillActive(r, Clean(q.call), invited);
      var state, sequence := q.expectedState in {"", x.state}, q.expectedSequence == 0 || q.expectedSequence == x.sequence;
      && (Refused(r, q, invited) == None <==> phased && active && state && sequence)
      && (Refused(r, q, invited) == Some(UnknownPhase) <==> q.phase != "calling" && q.phase != "ringing")
      && (Refused(r, q, invited) == Some(WrongPhase) <==> (q.phase == "calling" || q.phase == "ringing") && !phased)
      && (Refused(r, q, invited) == Some(NotActive) <==> phased && !active)
      && (Refused(r, q, invited) == Some(WrongState) <==> phased && active && !state)
      && (Refused(r, q, invited) == Some(WrongSequence) <==> phased && active && state && !sequence)
  {
  }

  /** A deadline that is armed waits on the state and sequence the call has now, for the phase named, and is the
      one registered for the call; one that is refused changes nothing. */
  lemma ArmedWaits(t: Timers, r: Registry, q: Request, invited: bool)
    ensures var u := Arm(t, r, q, invited);
      if Refused(r, q, invited).Some? then u == t
      else
        var i := |t.tasks|;
        && |u.tasks| == i + 1 && u.armed == t.armed[Clean(q.call) := i] && u.emitted == t.emitted
        && ContextOf(r, q.call).Some? && u.tasks[i].status == Waiting
        && u.tasks[i].call == Clean(q.call) && u.tasks[i].phase == q.phase
        && u.tasks[i].state == ContextOf(r, q.call).value.state
        && u.tasks[i].sequence == ContextOf(r, q.call).value.sequence
  {
    assert t.armed - {Clean(q.call)} + map[Clean(q.call) := |t.tasks|] == t.armed[Clean(q.call) := |t.tasks|];
  }

  /** What is told when the time is up, and when: a timer that still waits tells its own call and phase, with the
      armed state and sequence, exactly when the call's context still has both; then it is over. */
  lemma WakeTells(t: Timers, r: Registry, i: nat)
    requires i < |t.tasks| && t.tasks[i].status == Waiting
    ensures var u, k, x := Wake(t, r, i), t.tasks[i], ContextOf(r, t.tasks[i].call);
      && |u.tasks| == |t.tasks| && u.tasks[i].status == Over
      && if x.Some? && x.value.state == k.state && x.value.sequence == k.sequence
         then u.emitted == t.emitted + [Emission(i, k.call, k.phase, k.state, k.sequence, x.value.life)]
         else u.emitted == t.emitted
  {
  }

  // ---------- invariant ----------

  /** Exactly the waiting tasks are registered, each under its own call: so one call has at most one. */
  ghost predicate Registered(t: Timers)
  {
    && (forall c :: c in t.armed ==>
          t.armed[c] < |t.tasks| && t.tasks[t.armed[c]].call == c && t.tasks[t.armed[c]].status == Waiting)
    && (forall i :: 0 <= i < |t.tasks| && t.tasks[i].status == Waiting ==>
          t.tasks[i].call in t.armed && t.armed[t.tasks[i].call] == i)
  }

  datatype Event =
    | Progress(op: Op)
    | Set(request: Request, invited: bool)
    | Drop(call: CallId)
    | Timeout(task: nat)
    | Unwound(task: nat)

  datatype World = World(reg: Registry, timers: Timers)

  function Next(w: World, e: Event): World
  {
    match e
    case Progress(op) => w.(reg := Step(w.reg, op))
    case Set(q, invited) => w.(timers := Arm(w.timers, w.reg, q, invited))
    case Drop(call) => w.(timers := Cancel(w.timers, call))
    case Timeout(i) => w.(timers := Wake(w.timers, w.reg, i))
    case Unwound(i) => w.(timers := Unwind(w.timers, i))
  }

  function After(w: World, es: seq<Event>): World
    decreases |es|
  {
    if es == [] then w else After(Next(w, es[0]), es[1..])
  }

  lemma CancelRegistered(t: Timers, call: CallId)
    requires Registered(t)
    ensures Registered(Cancel(t, call)) && Clean(call) !in Cancel(t, call).armed
  {
  }

  lemma ArmRegistered(t: Timers, r: Registry, q: Request, invited: bool)
    requires Registered(t)
    ensures Registered(Arm(t, r, q, invited))
  {
    CancelRegistered(t, q.call);
  }

  lemma LeftRegistered(t: Timers, i: nat)
    requires Registered(t) && i < |t.tasks|
    ensures Registered(Left(t, i))
  {
  }

  lemma NextRegistered(w: World, e: Event)
    requires Registered(w.timers)
    ensures Registered(Next(w, e).timers)
  {
    if e.Set? {
      ArmRegistered(w.timers, w.reg, e.request, e.invited);
    } else if e.Drop? {
      CancelRegistered(w.timers, e.call);
    } else if e.Timeout? && e.task < |w.timers.tasks| && w.timers.tasks[e.task].status == Waiting {
      LeftRegistered(w.timers.(emitted := Wake(w.timers, w.reg, e.task).emitted), e.task);
    } else if e.Unwound? && e.task < |w.timers.tasks| {
      LeftRegistered(w.timers, e.task);
    }
  }

  lemma {:induction false} AfterRegistered(w: World, es: seq<Event>)
    requires Registered(w.timers)
    ensures Registered(After(w, es).timers)
    decreases |es|
  {
    if es != [] {
      NextRegistered(w, es[0]);
      AfterRegistered(Next(w, es[0]), es[1..]);
    }
  }

  // ---------- superseded and cancelled timers ----------

  /** A task that is not waiting: it was cancelled, replaced, or is over. */
  predicate Silenced(t: Timers, i: nat)
  {
    i < |t.tasks| && t.tasks[i].status != Waiting
  }

  function By(emitted: seq<Emission>, i: nat): seq<Emission>
  {
    if emitted == [] then []
    else (if emitted[0].timer == i then [emitted[0]] else []) + By(emitted[1..], i)
  }

  lemma Rebracket(a: seq<Emission>, b: seq<Emission>, c: seq<Emission>)
    ensures a + (b + c) == (a + b) + c
  {
  }

  lemma {:induction false} ByOneMore(emitted: seq<Emission>, m: Emission, i: nat)
    ensures By(emitted + [m], i) == By(emitted, i) + if m.timer == i then [m] else []
    decreases |emitted|
  {
    var last := if m.timer == i then [m] else [];
    if emitted == [] {
      assert emitted + [m] == [m] && [m][1..] == [];
      assert By([m], i) == last + By([], i);
    } else {
      assert (emitted + [m])[1..] == emitted[1..] + [m];
      ByOneMore(emitted[1..], m, i);
      Rebracket(if emitted[0].timer == i then [emitted[0]] else [], By(emitted[1..], i), last);
    }
  }

  /** What one event adds to the emissions of a timer. */
  lemma EmissionsAfter(w: World, e: Event, i: nat)
    ensures |By(Next(w, e).timers.emitted, i)| == |By(w.timers.emitted, i)| +
      if e == Timeout(i) && Fires(w.timers, w.reg, i) then 1 else 0
    ensures !(e == Timeout(i) && Fires(w.timers, w.reg, i)) ==>
      By(Next(w, e).timers.emitted, i) == By(w.timers.emitted, i)
  {
    if e.Timeout? && Fires(w.timers, w.reg, e.task) {
      ByOneMore(w.timers.emitted, Next(w, e).timers.emitted[|w.timers.emitted|], i);
    }
  }

  lemma SilencedStep(w: World, e: Event, i: nat)
    requires Silenced(w.timers, i)
    ensures Silenced(Next(w, e).timers, i)
    ensures By(Next(w, e).timers.emitted, i) == By(w.timers.emitted, i)
  {
    EmissionsAfter(w, e, i);
  }

  /** A superseded or cancelled timer emits nothing, ever again. */
  lemma {:induction false} SilencedForGood(w: World, es: seq<Event>, i: nat)
    requires Silenced(w.timers, i)
    ensures Silenced(After(w, es).timers, i)
    ensures By(After(w, es).timers.emitted, i) == By(w.timers.emitted, i)
    decreases |es|
  {
    if es != [] {
      SilencedStep(w, es[0], i);
      SilencedForGood(Next(w, es[0]), es[1..], i);
    }
  }

  /** Arming a call again or cancelling its deadline silences the timer it had. */
  lemma ReplacedIsSilenced(w: World, call: CallId, e: Event)
    requires Registered(w.timers) && Clean(call) in w.timers.armed
    requires e == Drop(call) || (e.Set? && e.request.call == call && Refused(w.reg, e.request, e.invited) == None)
    ensures Silenced(Next(w, e).timers, w.timers.armed[Clean(call)])
  {
  }

  /** Whatever ends, a timer takes only its own registration with it: the newer one stays. */
  lemma LeavesTheNewer(w: World, e: Event, c: CallId)
    requires Registered(w.timers) && c in w.timers.armed
    requires (e.Timeout? && e.task != w.timers.armed[c]) || e.Unwound?
    ensures c in Next(w, e).timers.armed && Next(w, e).timers.armed[c] == w.timers.armed[c]
  {
  }

  /** Every timer emits at most once. */
  lemma {:induction false} EmitsAtMostOnce(w: World, es: seq<Event>, i: nat)
    requires i < |w.timers.tasks| && w.timers.tasks[i].status == Waiting && By(w.timers.emitted, i) == []
    ensures |By(After(w, es).timers.emitted, i)| <= 1
    decreases |es|
  {
    if es != [] {
      var w1 := Next(w, es[0]);
      EmissionsAfter(w, es[0], i);
      ArmedStep(w, es[0], i);
      if w1.timers.tasks[i].status == Waiting {
        EmitsAtMostOnce(w1, es[1..], i);
      } else {
        SilencedForGood(w1, es[1..], i);
      }
    }
  }

  /** A timer keeps what it was armed with, and is over once its time was up. */
  lemma ArmedStep(w: World, e: Event, i: nat)
    requires i < |w.timers.tasks|
    ensures i < |Next(w, e).timers.tasks|
    ensures Next(w, e).timers.tasks[i] == w.timers.tasks[i].(status := Next(w, e).timers.tasks[i].status)
    ensures e == Timeout(i) ==> Next(w, e).timers.tasks[i].status != Waiting
  {
  }

  // ---------- the phase a deadline was armed for ----------

  /** The registry steps among events. */
  function Progressed(es: seq<Event>): seq<Op>
  {
    if es == [] then [] else (if es[0].Progress? then [es[0].op] else []) + Progressed(es[1..])
  }

  lemma {:induction false} RegistryRuns(w: World, es: seq<Event>)
    ensures After(w, es).reg == Run(w.reg, Progressed(es))
    decreases |es|
  {
    if es != [] {
      RegistryRuns(Next(w, es[0]), es[1..]);
      if es[0].Progress? {
        assert ([es[0].op] + Progressed(es[1..]))[1..] == Progressed(es[1..]);
      } else {
        assert [] + Progressed(es[1..]) == Progressed(es[1..]);
      }
    }
  }

  lemma {:induction false} ArmedStays(w: World, es: seq<Event>, i: nat)
    requires i < |w.timers.tasks|
    ensures i < |After(w, es).timers.tasks|
    ensures After(w, es).timers.tasks[i] == w.timers.tasks[i].(status := After(w, es).timers.tasks[i].status)
    decreases |es|
  {
    if es != [] {
      ArmedStep(w, es[0], i);
      ArmedStays(Next(w, es[0]), es[1..], i);
    }
  }

  /** The context a call has now, as an entry of the table. */
  lemma ContextEntry(r: Registry, call: CallId)
    requires Lives(r) && ContextOf(r, call).Some?
    ensures (Resolve(r, Clean(call)), ContextOf(r, call).value) in r.contexts
  {
    EntryGet(r.contexts, Resolve(r, Clean(call)), FreshContext(0));
  }

  /** The context a timer was armed on was in the armed phase at one point of the time since. */
  ghost predicate InPhase(r: Registry, id: CallId, k: Timer)
  {
    exists m :: (id, m) in r.contexts && m.life == k.life && Current(m, k.state, k.sequence)
  }

  ghost predicate InPhaseThroughout(w: World, es: seq<Event>, id: CallId, k: Timer)
  {
    forall n :: 0 <= n <= |es| ==> InPhase(After(w, es[..n]).reg, id, k)
  }

  /** A deadline that is armed, and what happened after. */
  ghost predicate ArmedThen(w: World, q: Request, invited: bool, w0: World, es: seq<Event>, w2: World, i: nat)
  {
    && Lives(w.reg) && Refused(w.reg, q, invited) == None
    && w0 == Next(w, Set(q, invited)) && w2 == After(w0, es) && i == |Cancel(w.timers, q.call).tasks|
  }

  /** It fires on the very context it was armed on, which was in the armed phase at every point in between. */
  ghost predicate OwnPhase(w: World, q: Request, w0: World, es: seq<Event>, w2: World)
    requires ContextOf(w.reg, q.call).Some? && ContextOf(w2.reg, q.call).Some?
  {
    && ContextOf(w2.reg, q.call).value.life == ContextOf(w.reg, q.call).value.life
    && InPhaseThroughout(w0, es, Resolve(w.reg, Clean(q.call)), NewTimer(w.reg, q))
  }

  lemma ArmedFacts(w: World, q: Request, invited: bool, w0: World, es: seq<Event>, w2: World, i: nat)
    requires ArmedThen(w, q, invited, w0, es, w2, i)
    ensures ContextOf(w.reg, q.call).Some? && w0.reg == w.reg
    ensures i < |w2.timers.tasks| && w2.timers.tasks[i] == NewTimer(w.reg, q).(status := w2.timers.tasks[i].status)
    ensures w2.reg == Run(w.reg, Progressed(es))
  {
    assert w0.timers.tasks[i] == NewTimer(w.reg, q);
    ArmedStays(w0, es, i);
    RegistryRuns(w0, es);
  }

  lemma ContextAgain(r: Registry, call: CallId)
    ensures ContextOf(r, Clean(call)) == ContextOf(r, call)
  {
    CleanTwice(call);
  }

  /** The split of a run of events is a split of the registry's run. */
  lemma SplitRun(w: World, es: seq<Event>, n: nat)
    requires n <= |es|
    ensures After(w, es[..n]).reg == Run(w.reg, Progressed(es[..n]))
    ensures After(w, es).reg == Run(After(w, es[..n]).reg, Progressed(es[n..]))
  {
    AfterAppend(w, es[..n], es[n..]);
    assert es[..n] + es[n..] == es;
    RegistryRuns(w, es[..n]);
    RegistryRuns(After(w, es[..n]), es[n..]);
  }

  lemma PrefixInPhase(w: World, es: seq<Event>, n: nat, id: CallId, x: EventContext, y: EventContext, k: Timer)
    requires n <= |es| && Lives(w.reg) && (id, x) in w.reg.contexts && (id, y) in After(w, es).reg.contexts
    requires y.life == x.life == k.life && Current(x, k.state, k.sequence) && Current(y, k.state, k.sequence)
    ensures InPhase(After(w, es[..n]).reg, id, k)
  {
    SplitRun(w, es, n);
    var m := NoChangeInBetween(w.reg, Progressed(es[..n]), Progressed(es[n..]), id, x, id, y);
    assert (id, m) in After(w, es[..n]).reg.contexts;
  }

  lemma {:induction false} AfterAppend(w: World, a: seq<Event>, b: seq<Event>)
    ensures After(w, a + b) == After(After(w, a), b)
    decreases |a|
  {
    if a == [] {
      assert a + b == b;
    } else {
      assert (a + b)[0] == a[0] && (a + b)[1..] == a[1..] + b;
      AfterAppend(Next(w, a[0]), a[1..], b);
    }
  }

  /** The context that makes a deadline fire is the one it was armed on exactly when the call id still
      stands for the same session and every operation since kept that session's context. */
  lemma SameContextExactly(r: Registry, ops: seq<Op>, call: CallId)
    requires Lives(r) && ContextOf(r, call).Some? && ContextOf(Run(r, ops), call).Some?
    ensures ContextOf(Run(r, ops), call).value.life == ContextOf(r, call).value.life <==>
      Resolve(Run(r, ops), Clean(call)) == Resolve(r, Clean(call)) && RunKeeps(r, ops, Resolve(r, Clean(call)))
  {
    var id, id', q := Resolve(r, Clean(call)), Resolve(Run(r, ops), Clean(call)), Run(r, ops);
    var x, y := ContextOf(r, call).value, ContextOf(q, call).value;
    RunAges(r, ops);
    ContextEntry(r, call);
    ContextEntry(q, call);
    assert (id, x).1.life < r.lives && Lasts(r, id, x.life);
    RunLasts(r, ops, id, x.life);
    if y.life == x.life {
      assert (id', y).1.life < r.lives;
      var z :| (id', z) in r.contexts && LaterContext(z, y);
      assert (id', z) == (id, x);
      assert Lasts(q, id, x.life);
    }
    if id' == id && Lasts(q, id, x.life) {
      var z :| (id, z) in q.contexts && z.life == x.life;
      OneEntry(q.contexts, id, y, z);
    }
  }

  /** A deadline that fires does so in the phase it was armed for, unchanged at every point since, exactly
      when the call id still stands for the same session and every operation since kept that session's
      context: none ended its call, cleared the runtime, or evicted it from the full table. */
  lemma FiresInItsPhaseExactly(w: World, q: Request, invited: bool, w0: World, es: seq<Event>, w2: World, i: nat)
    requires ArmedThen(w, q, invited, w0, es, w2, i) && Fires(w2.timers, w2.reg, i)
    ensures ContextOf(w.reg, q.call).Some? && ContextOf(w2.reg, q.call).Some?
    ensures OwnPhase(w, q, w0, es, w2) <==>
      && Resolve(w2.reg, Clean(q.call)) == Resolve(w.reg, Clean(q.call))
      && RunKeeps(w.reg, Progressed(es), Resolve(w.reg, Clean(q.call)))
  {
    ArmedFacts(w, q, invited, w0, es, w2, i);
    ContextAgain(w2.reg, q.call);
    SameContextExactly(w.reg, Progressed(es), q.call);
    var x, y := ContextOf(w.reg, q.call).value, ContextOf(w2.reg, q.call).value;
    var id, k := Resolve(w.reg, Clean(q.call)), NewTimer(w.reg, q);
    ContextEntry(w.reg, q.call);
    RunAges(w.reg, Progressed(es));
    ContextEntry(w2.reg, q.call);
    if y.life == x.life {
      forall n | 0 <= n <= |es| ensures InPhase(After(w0, es[..n]).reg, id, k) {
        PrefixInPhase(w0, es, n, id, x, y, k);
      }
    }
  }

  // ---------- a deadline outlives its call ----------

  /** Events that move a call between two states, ending in the first of them. */
  function Alternating(call: CallId, s: string, other: string, n: nat): seq<Op>
    decreases n
  {
    if n == 0 then [] else Alternating(call, other, s, n - 1) + [OpEvent(call, s)]
  }

  /** A call whose context began with this life is in some state at some sequence. */
  ghost predicate Reached(r: Registry, q: Registry, call: CallId, s: string, n: nat)
  {
    && q.legIndex == r.legIndex && ContextOf(q, call).Some?
    && var x := ContextOf(q, call).value;
      x.state == s && x.sequence == n && x.life == r.lives
  }

  lemma Advances(r: Registry, q: Registry, call: CallId, s: string, other: string, n: nat)
    requires Tidy(call) && call !in r.legIndex && Reached(r, q, call, other, n) && Tidy(s) && s != other
    ensures Reached(r, EventFields(q, call, s), call, s, n + 1)
  {
    var x := ContextOf(q, call).value;
    GetPut(q.contexts, call, Advanced(x, s), call, FreshContext(0));
    HasPut(q.contexts, call, Advanced(x, s), call);
  }

  predicate Tidy(s: string)
  {
    s != "" && Clean(s) == s
  }

  /** The registry after the events. */
  function Alternated(r: Registry, call: CallId, s: string, other: string, n: nat): Registry
    decreases n
  {
    if n == 0 then r else EventFields(Alternated(r, call, other, s, n - 1), call, s)
  }

  lemma {:induction false} AlternatingRun(r: Registry, call: CallId, s: string, other: string, n: nat)
    ensures Run(r, Alternating(call, s, other, n)) == Alternated(r, call, s, other, n)
    decreases n
  {
    if n > 0 {
      AlternatingRun(r, call, other, s, n - 1);
      RunMore(r, Alternating(call, other, s, n - 1), OpEvent(call, s));
    }
  }

  /** A call without a context reaches any state at any sequence, in a new life. */
  lemma {:induction false} ReachesSequence(r: Registry, call: CallId, s: string, other: string, n: nat)
    requires Tidy(call) && call !in r.legIndex && !Has(r.contexts, call) && Tidy(s) && Tidy(other) && s != other && 1 <= n
    ensures Reached(r, Alternated(r, call, s, other, n), call, s, n)
    decreases n
  {
    if n == 1 {
      assert Alternated(r, call, other, s, n - 1) == r;
      NewContext(r, call, s);
    } else {
      ReachesSequence(r, call, other, s, n - 1);
      Advances(r, Alternated(r, call, other, s, n - 1), call, s, other, n - 1);
    }
  }

  /** A deadline stays armed when its call ends, and forgets nothing. Whatever came in between, once the
      call's context is gone a new call of the same id can reach the state and the sequence the deadline
      was armed at, whatever they were, and it fires for the new call. */
  lemma FiresForALaterCall(t: Timers, r: Registry, q: Request, invited: bool, x: EventContext, r1: Registry, other: string)
    requires Lives(r) && Refused(r, q, invited) == None && ContextOf(r, q.call) == Some(x)
    requires Clean(q.call) == q.call && q.call != "" && q.call !in r1.legIndex && !Has(r1.contexts, q.call)
    requires Clean(x.state) == x.state && Clean(other) == other && other != "" && other != x.state
    ensures var r2 := Run(r1, Alternating(q.call, x.state, other, x.sequence));
      && Fires(Arm(t, r, q, invited), r2, |Cancel(t, q.call).tasks|)
      && ContextOf(r2, q.call).Some? && ContextOf(r2, q.call).value.life == r1.lives
  {
    ContextEntry(r, q.call);
    assert x.state != "" && 1 <= x.sequence;
    ReachesSequence(r1, q.call, x.state, other, x.sequence);
    AlternatingRun(r1, q.call, x.state, other, x.sequence);
    var r2 := Run(r1, Alternating(q.call, x.state, other, x.sequence));
    FiresOn(Arm(t, r, q, invited), r2, |Cancel(t, q.call).tasks|, NewTimer(r, q), ContextOf(r2, q.call).value);
  }

  /** So ending the call is enough. */
  lemma FiresForTheNextCall(t: Timers, r: Registry, q: Request, invited: bool,
                            x: EventContext, reason: string, other: string)
    requires Lives(r) && Refused(r, q, invited) == None && ContextOf(r, q.call) == Some(x)
    requires Clean(q.call) == q.call && q.call != "" && q.call !in r.legIndex
    requires Clean(x.state) == x.state && Clean(other) == other && other != "" && other != x.state
    ensures var r2 := Run(FinishAndPop(r, q.call, reason, "idle"), Alternating(q.call, x.state, other, x.sequence));
      && Fires(Arm(t, r, q, invited), r2, |Cancel(t, q.call).tasks|)
      && ContextOf(r2, q.call).Some? && ContextOf(r2, q.call).value.life != x.life
  {
    ContextEntry(r, q.call);
    EndedHasNoContext(r, q.call, reason, "idle");
    FiresForALaterCall(t, r, q, invited, x, FinishAndPop(r, q.call, reason, "idle"), other);
  }

  lemma FiresOn(t: Timers, r: Registry, i: nat, k: Timer, x: EventContext)
    requires i < |t.tasks| && t.tasks[i] == k && k.status == Waiting
    requires ContextOf(r, k.call) == Some(x) && Current(x, k.state, k.sequence)
    ensures Fires(t, r, i)
  {
  }

  lemma EndedHasNoContext(r: Registry, call: CallId, reason: string, state: string)
    requires Clean(call) == call && call !in r.legIndex
    ensures var q := FinishAndPop(r, call, reason, state);
      !Has(q.contexts, call) && q.lives == r.lives && call !in q.legIndex
  {
    var q := Finish(if Resolve(r, Clean(call)) == "" then r else Buried(r, call), call, reason, state);
    PopContexts(q, call);
    WithoutHas(q.contexts, {Clean(call), call} + LegsOf(q, call), call);
  }

  lemma NewContext(r: Registry, call: CallId, s: string)
    requires Clean(call) == call && call != "" && call !in r.legIndex && !Has(r.contexts, call)
    requires Clean(s) == s && s != ""
    ensures ContextOf(EventFields(r, call, s), call) == Some(EventContext(1, s, "", r.lives))
    ensures EventFields(r, call, s).lives == r.lives + 1
  {
    var x := EventContext(1, s, "", r.lives);
    GetPut(Roomy(r.contexts), call, x, call, FreshContext(0));
    HasPut(Roomy(r.contexts), call, x, call);
  }

  // ---------- the timers as the program keeps them ----------

  class CallDeadlines {
    var deadlines: map<CallId, nat>
    var tasks: seq<Timer>
    var emitted: seq<Emission>

    ghost function State(): Timers
      reads this
    {
      Timers(tasks, deadlines, emitted)
    }

    constructor ()
      ensures State() == Timers([], map[], []) && Registered(State())
    {
      deadlines, tasks, emitted := map[], [], [];
    }

    method CancelCallDeadline(call: CallId)
      modifies `deadlines, `tasks
      ensures State() == Cancel(old(State()), call)
    {
      var c := Clean(call);
      if c in deadlines {
        var task := deadlines[c];
        deadlines := deadlines - {c};
        if task < |tasks| && tasks[task].status == Waiting {
          tasks := tasks[task := tasks[task].(status := Cancelling)];
        }
      }
    }

    method SetCallDeadline(r: Registry, q: Request, invited: bool) returns (refusal: Option<Refusal>)
      modifies `deadlines, `tasks
      ensures State() == Arm(old(State()), r, q, invited)
      ensures refusal == Refused(r, q, invited)
    {
      var id := Resolve(r, Clean(q.call));
      if !Has(r.contexts, id) {
        return Some(UnknownCall);
      }
      var context := Get(r.contexts, id, FreshContext(0));
      if q.phase != "calling" && q.phase != "ringing" {
        return Some(UnknownPhase);
      }
      var allowed := if q.phase == "calling" then {"calling", "connecting"} else {"ringing", "remote_ringing"};
      if context.state !in allowed {
        return Some(WrongPhase);
      }
      if !Owned(r, Clean(q.call), invited) {
        return Some(NotActive);
      }
      if q.expectedState != "" && context.state != q.expectedState {
        return Some(WrongState);
      }
      if q.expectedSequence != 0 && context.sequence != q.expectedSequence {
        return Some(WrongSequence);
      }
      CancelCallDeadline(q.call);
      tasks := tasks + [Timer(Clean(q.call), q.phase, context.state, context.sequence, context.life, Waiting)];
      deadlines := deadlines[Clean(q.call) := |tasks| - 1];
      return None;
    }

    /** A task resumes: after its time is up it may emit, after a cancellation it does not, and either
        way it unregisters itself last. */
    method Resume(r: Registry, task: nat)
      requires task < |tasks| && tasks[task].status != Over
      modifies this
      ensures State() == if old(tasks)[task].status == Waiting then Wake(old(State()), r, task) else Unwind(old(State()), task)
    {
      var timer := tasks[task];
      if timer.status == Waiting {
        var id := Resolve(r, Clean(timer.call));
        if Has(r.contexts, id) {
          var current := Get(r.contexts, id, FreshContext(0));
          if current.state == timer.state && current.sequence == timer.sequence {
            emitted := emitted + [Emission(task, timer.call, timer.phase, current.state, current.sequence, current.life)];
          }
        }
      }
      tasks := tasks[task := timer.(status := Over)];
      if timer.call in deadlines && deadlines[timer.call] == task {
        deadlines := deadlines - {timer.call};
      }
    }
  }
}
