/** The life of an Assist media session: start and stop race at every wait, media updates are prepared
    and committed in two steps, and every resource is given back once. */
module AssistSessions {
  import opened Wrappers
  import opened Framing
  import opened PcmCodec

  // ---------- the media contract ----------

  /** A negotiated contract. The identity tells contract objects apart even when all else is equal;
      codecs and converters are determined by the formats they are built for. */
  datatype Invite = Invite(
    identity: nat, callId: string, remoteHost: string, remotePort: int, recvFormat: int, sendFormat: int,
    direction: string, held: bool)

  datatype Media = Media(decoder: int, encoder: int, rxConverter: int, txConverter: int, canReceive: bool, canSend: bool)

  function MediaOf(v: Invite): Media
  {
    Media(v.recvFormat, v.sendFormat, v.recvFormat, v.sendFormat,
          v.direction in {"recvonly", "sendrecv"}, v.direction in {"sendonly", "sendrecv"} && !v.held)
  }

  /** An update ready to commit: the contract it was prepared from and the one it brings. */
  datatype Update = Update(previous: Invite, updated: Invite)

  predicate ResetsSource(u: Update)
  {
    || u.updated.remoteHost != u.previous.remoteHost
    || u.updated.remotePort != u.previous.remotePort
    || u.updated.recvFormat != u.previous.recvFormat
  }

  // ---------- the session ----------

  datatype Kind = Sender | Pipeline | Tts

  datatype Status = Running | Cancelling | Finished

  /** A task; late means that it was published after the session was told to close. */
  datatype Task = Task(kind: Kind, status: Status, late: bool)

  /** Where the pipeline task is: not there yet, before its greeting, running the pipeline for a turn, waiting
      for the turn's speech, waiting for the queue to empty, or out of its loop. */
  datatype Phase = Unborn | Started | Asking | Awaiting(speech: nat) | Draining | Left

  /** The reservation is given back once per release. Sockets are numbered in the order they are
      opened; spared is the task that called stop, which stop cannot cancel. Replaced contracts are
      recorded in the order they were replaced. */
  datatype Session = Session(
    invite: Invite, media: Media, remotePort: int, remoteSsrc: Option<int>,
    prepared: seq<Update>, replaced: seq<nat>,
    transport: Option<nat>, open: set<nat>, binds: nat, starting: bool, stopping: bool, closed: bool, cleaned: bool,
    releases: nat, tasks: seq<Task>, slots: map<Kind, nat>, spared: Option<nat>, phase: Phase)

  function Fresh(v: Invite): Session
  {
    Session(v, MediaOf(v), v.remotePort, None, [], [], None, {}, 0, false, false, false, false, 0, [], map[], None, Unborn)
  }

  datatype Op =
    | StartBegin
    | StartBound(fails: bool)
    | StopBegin(current: Option<Kind>)
    | StopFinish
    | TtsEnd
    | Greet
    | AskEnds
    | SpeechEnds
    | Drained
    | TaskEnds(task: nat)
    | Prepare(updated: Invite, supported: bool)
    | Commit(update: nat)
    | Packet(ssrc: int, port: int)

  predicate Ended(s: Session)
  {
    s.closed || s.cleaned
  }

  function Publish(s: Session, k: Kind): Session
  {
    s.(tasks := s.tasks + [Task(k, Running, s.closed)], slots := s.slots[k := |s.tasks|])
  }

  /** Up to the socket bind. One start holds the lock; the others wait for it. */
  function AfterStartBegin(s: Session): Session
  {
    if s.starting || s.transport.Some? || Ended(s) then s else s.(starting := true)
  }

  /** After the bind. If stop won the race the socket is closed before anything is published. */
  function AfterStartBound(s: Session, fails: bool): Session
  {
    if !s.starting then s
    else if fails then s.(starting := false)
    else if Ended(s) then s.(starting := false, binds := s.binds + 1)
    else
      var q := s.(starting := false, transport := Some(s.binds), open := s.open + {s.binds}, binds := s.binds + 1);
      Publish(Publish(q, Sender), Pipeline).(phase := Started)
  }

  predicate InSlot(s: Session, k: Kind, i: nat)
  {
    k in s.slots && s.slots[k] == i
  }

  /** A running task that is told to end. */
  function Told(t: Task, b: bool): Task
  {
    if b && t.status.Running? then t.(status := Cancelling) else t
  }

  /** Cancel what runs in the three slots, but for the caller itself. */
  function Cancelled(s: Session, current: Option<Kind>): seq<Task>
  {
    seq(|s.tasks|, i requires 0 <= i < |s.tasks| =>
      Told(s.tasks[i], InSlot(s, s.tasks[i].kind, i) && current != Some(s.tasks[i].kind)))
  }

  /** Up to the wait for the tasks. One stop holds the lock; after the cleanup there is nothing to do. */
  function AfterStopBegin(s: Session, current: Option<Kind>): Session
  {
    if s.stopping || s.cleaned then s
    else s.(closed := true, stopping := true, tasks := Cancelled(s, current),
            spared := if current.Some? && current.value in s.slots then Some(s.slots[current.value]) else None)
  }

  /** After the wait, whether the tasks have ended or the wait itself was cancelled. */
  function AfterStopFinish(s: Session): Session
  {
    if !s.stopping then s
    else s.(stopping := false, cleaned := true, releases := s.releases + 1,
            transport := None, open := if s.transport.Some? then s.open - {s.transport.value} else s.open)
  }

  predicate Speaking(s: Session)
  {
    Tts in s.slots && s.slots[Tts] < |s.tasks| && !s.tasks[s.slots[Tts]].status.Finished?
  }

  /** The pipeline has speech to play. Whether the session is closed is not asked. */
  function AfterTtsEnd(s: Session): Session
  {
    if Speaking(s) then s else Publish(s, Tts)
  }

  /** A task ends. When it is the pipeline's, by an error at any of its waits or by being cancelled, the
      loop is left. */
  function AfterTaskEnds(s: Session, i: nat): Session
  {
    if i < |s.tasks| then
      s.(tasks := s.tasks[i := s.tasks[i].(status := Finished)], phase := if InSlot(s, Pipeline, i) then Left else s.phase)
    else s
  }

  // ---------- turns ----------

  predicate Works(s: Session)
  {
    Pipeline in s.slots && s.slots[Pipeline] < |s.tasks| && !s.tasks[s.slots[Pipeline]].status.Finished?
  }

  /** A turn forgets the speech task of the turn before it and runs the pipeline. */
  function AfterTurn(s: Session): Session
  {
    s.(slots := s.slots - {Tts}, phase := Asking)
  }

  /** The greeting does not ask whether the session is closed. */
  function AfterGreet(s: Session): Session
  {
    if s.phase.Started? && Works(s) then AfterTurn(s) else s
  }

  /** The head of the loop: a closed session leaves it, an open one begins the next turn. */
  function NextTurn(s: Session): Session
    requires Works(s)
  {
    if s.closed then AfterTaskEnds(s, s.slots[Pipeline]) else AfterTurn(s)
  }

  /** The pipeline has run without error. The turn waits for its speech, if it has any; if that has ended
      it waits for the queue. */
  function AfterAskEnds(s: Session): Session
  {
    if !s.phase.Asking? || !Works(s) then s
    else if Tts !in s.slots then NextTurn(s)
    else s.(phase := if Speaking(s) then Awaiting(s.slots[Tts]) else Draining)
  }

  /** The speech that the turn waited for has ended without error. */
  function AfterSpeechEnds(s: Session): Session
  {
    if s.phase.Awaiting? && Works(s) && s.phase.speech < |s.tasks| && s.tasks[s.phase.speech].status.Finished?
    then s.(phase := Draining)
    else s
  }

  /** The queue has been sent. */
  function AfterDrained(s: Session): Session
  {
    if s.phase.Draining? && Works(s) then NextTurn(s) else s
  }

  predicate Preparable(s: Session, updated: Invite, supported: bool)
  {
    updated.callId == s.invite.callId && !Ended(s) && supported
  }

  function AfterPrepare(s: Session, updated: Invite, supported: bool): Session
  {
    if Preparable(s, updated, supported) then s.(prepared := s.prepared + [Update(s.invite, updated)]) else s
  }

  predicate Commits(s: Session, i: nat)
  {
    i < |s.prepared| && !Ended(s) && s.invite.identity == s.prepared[i].previous.identity
  }

  function AfterCommit(s: Session, i: nat): Session
  {
    if !Commits(s, i) then s
    else
      var u := s.prepared[i];
      s.(invite := u.updated, media := MediaOf(u.updated), remotePort := u.updated.remotePort,
         remoteSsrc := if ResetsSource(u) then None else s.remoteSsrc, replaced := s.replaced + [u.previous.identity])
  }

  /** A packet that passed the checks before it latches its source, or follows the one latched. */
  function AfterPacket(s: Session, ssrc: int, port: int): Session
  {
    if s.closed || (s.remoteSsrc.Some? && s.remoteSsrc.value != ssrc) then s
    else s.(remoteSsrc := Some(ssrc), remotePort := port)
  }

  function Step(s: Session, op: Op): Session
  {
    match op
    case StartBegin => AfterStartBegin(s)
    case StartBound(fails) => AfterStartBound(s, fails)
    case StopBegin(current) => AfterStopBegin(s, current)
    case StopFinish => AfterStopFinish(s)
    case TtsEnd => AfterTtsEnd(s)
    case Greet => AfterGreet(s)
    case AskEnds => AfterAskEnds(s)
    case SpeechEnds => AfterSpeechEnds(s)
    case Drained => AfterDrained(s)
    case TaskEnds(i) => AfterTaskEnds(s, i)
    case Prepare(v, supported) => AfterPrepare(s, v, supported)
    case Commit(i) => AfterCommit(s, i)
    case Packet(ssrc, port) => AfterPacket(s, ssrc, port)
  }

  function Run(s: Session, ops: seq<Op>): Session
    decreases |ops|
  {
    if ops == [] then s else Run(Step(s, ops[0]), ops[1..])
  }

  // ---------- resources ----------

  /** The reservation is given back by the cleanup and only by it; the open sockets are the published
      transport; no socket is open after the cleanup. */
  ghost predicate Owned(s: Session)
  {
    && s.releases == (if s.cleaned then 1 else 0)
    && (s.stopping ==> s.closed && !s.cleaned)
    && (s.closed <==> s.stopping || s.cleaned)
    && s.open == (if s.transport.Some? then {s.transport.value} else {})
    && (s.transport.Some? ==> s.transport.value < s.binds && !s.starting && !s.cleaned)
  }

  predicate Turns(op: Op)
  {
    op.Greet? || op.AskEnds? || op.SpeechEnds? || op.Drained?
  }

  /** The pipeline's steps move tasks, slots and its own place, and nothing else. */
  lemma TurnsTouch(s: Session, op: Op)
    requires Turns(op)
    ensures var q := Step(s, op); q == s.(tasks := q.tasks, slots := q.slots, phase := q.phase)
  {
  }

  lemma StepOwned(s: Session, op: Op)
    requires Owned(s)
    ensures Owned(Step(s, op))
    ensures s.closed ==> Step(s, op).closed
    ensures s.cleaned ==> Step(s, op).cleaned
  {
    if Turns(op) {
      TurnsTouch(s, op);
    }
  }

  // ---------- tasks ----------

  /** A slot holds a task of its kind. */
  ghost predicate Slotted(s: Session)
  {
    forall k :: k in s.slots ==> s.slots[k] < |s.tasks| && s.tasks[s.slots[k]].kind == k
  }

  /** Whether an operation begins a turn of an open session. */
  predicate BeginsTurn(s: Session, op: Op)
  {
    && !s.closed && Works(s)
    && ((op.Greet? && s.phase.Started?) || (op.AskEnds? && s.phase.Asking? && Tts !in s.slots)
        || (op.Drained? && s.phase.Draining?))
  }

  predicate Plays(s: Session)
  {
    Tts in s.slots && s.slots[Tts] < |s.tasks| && s.tasks[s.slots[Tts]].status.Running?
  }

  /** The speech a step drops: it plays, and a turn forgets it. */
  function Drops(s: Session, op: Op): set<nat>
  {
    if BeginsTurn(s, op) && Plays(s) then {s.slots[Tts]} else {}
  }

  function Dropped(s: Session, ops: seq<Op>): set<nat>
    decreases |ops|
  {
    if ops == [] then {} else Drops(s, ops[0]) + Dropped(Step(s, ops[0]), ops[1..])
  }

  /** Dropped speech is out of reach: no slot holds it, so it was never told to end; it was published before
      the session closed and did not close it. */
  ghost predicate OutOfReach(s: Session, i: nat)
  {
    && i < |s.tasks| && s.tasks[i].kind == Tts && !s.tasks[i].late && !s.tasks[i].status.Cancelling?
    && s.spared != Some(i)
    && (Tts in s.slots ==> s.slots[Tts] != i)
  }

  /** Every running task of an open session is in the slot of its kind or was dropped; those of a closed
      one are the task that stopped it, those published since and those dropped. */
  ghost predicate Accounted(s: Session, dropped: set<nat>)
  {
    && Slotted(s)
    && (!s.closed ==> s.spared == None)
    && (!s.closed ==> forall i :: 0 <= i < |s.tasks| && s.tasks[i].status.Running? ==>
          InSlot(s, s.tasks[i].kind, i) || i in dropped)
    && (s.closed ==> forall i :: 0 <= i < |s.tasks| && s.tasks[i].status.Running? ==>
          s.tasks[i].late || s.spared == Some(i) || i in dropped)
    && (forall i :: 0 <= i < |s.tasks| && s.tasks[i].late ==> s.closed && s.tasks[i].kind == Tts)
    && (forall i :: i in dropped ==> OutOfReach(s, i))
  }

  /** Before the first socket nothing sends and no pipeline runs. */
  predicate Quiet(s: Session)
  {
    s.transport == None && !s.closed ==> Sender !in s.slots && Pipeline !in s.slots && s.phase.Unborn?
  }

  lemma CancelledRuns(s: Session, current: Option<Kind>, dropped: set<nat>, i: nat)
    requires Accounted(s, dropped) && !s.closed && !s.stopping && !s.cleaned
    requires i < |s.tasks| && Cancelled(s, current)[i].status.Running?
    ensures AfterStopBegin(s, current).spared == Some(i) || i in dropped
  {
    assert InSlot(s, s.tasks[i].kind, i) || i in dropped;
  }

  lemma CancelledMisses(s: Session, current: Option<Kind>, i: nat)
    requires OutOfReach(s, i) && Slotted(s) && !s.stopping && !s.cleaned
    ensures OutOfReach(AfterStopBegin(s, current), i)
  {
    assert !InSlot(s, s.tasks[i].kind, i);
  }

  lemma CancelledAccounted(s: Session, current: Option<Kind>, dropped: set<nat>)
    requires Accounted(s, dropped) && !s.closed && !s.stopping && !s.cleaned
    ensures Accounted(AfterStopBegin(s, current), dropped)
  {
    var q := AfterStopBegin(s, current);
    forall i | 0 <= i < |q.tasks| && q.tasks[i].status.Running? ensures q.spared == Some(i) || i in dropped {
      CancelledRuns(s, current, dropped, i);
    }
    forall i | i in dropped ensures OutOfReach(q, i) {
      CancelledMisses(s, current, i);
    }
  }

  lemma PublishAccounted(s: Session, k: Kind, dropped: set<nat>)
    requires Accounted(s, dropped) && (k in s.slots ==> !s.tasks[s.slots[k]].status.Running?) && (s.closed ==> k == Tts)
    ensures Accounted(Publish(s, k), dropped)
  {
    var q := Publish(s, k);
    assert forall i :: 0 <= i < |s.tasks| ==> q.tasks[i] == s.tasks[i];
    forall i | 0 <= i < |q.tasks| && q.tasks[i].status.Running? && !s.closed
      ensures InSlot(q, q.tasks[i].kind, i) || i in dropped
    {
      if i < |s.tasks| {
        assert InSlot(s, s.tasks[i].kind, i) || i in dropped;
      }
    }
    forall i | i in dropped ensures OutOfReach(q, i) {
      assert OutOfReach(s, i);
    }
  }

  lemma StartAccounted(s: Session, fails: bool, dropped: set<nat>)
    requires Accounted(s, dropped) && Quiet(s) && Owned(s)
    ensures Accounted(AfterStartBound(s, fails), dropped) && Quiet(AfterStartBound(s, fails))
  {
    if s.starting && !fails && !Ended(s) {
      var q := s.(starting := false, transport := Some(s.binds), open := s.open + {s.binds}, binds := s.binds + 1);
      PublishAccounted(q, Sender, dropped);
      PublishAccounted(Publish(q, Sender), Pipeline, dropped);
      EndingKeepsAccounted(Publish(Publish(q, Sender), Pipeline), AfterStartBound(s, fails), dropped);
    } else {
      SameTasks(s, AfterStartBound(s, fails), dropped);
    }
  }

  /** Tasks that end, and nothing else, leave the rest accounted for. */
  lemma EndingKeepsAccounted(s: Session, q: Session, dropped: set<nat>)
    requires Accounted(s, dropped) && |q.tasks| == |s.tasks|
    requires forall i :: 0 <= i < |s.tasks| ==> q.tasks[i] == s.tasks[i] || q.tasks[i] == s.tasks[i].(status := Finished)
    requires q.slots == s.slots && q.spared == s.spared && (s.closed <==> q.closed)
    ensures Accounted(q, dropped)
  {
    forall i | 0 <= i < |q.tasks| && q.tasks[i].status.Running? && !s.closed
      ensures InSlot(q, q.tasks[i].kind, i) || i in dropped
    {
      assert InSlot(s, s.tasks[i].kind, i) || i in dropped;
    }
    forall i | i in dropped ensures OutOfReach(q, i) {
      assert OutOfReach(s, i);
    }
  }

  /** The speech that a turn beginning now would drop. */
  function AtStake(s: Session): set<nat>
  {
    if !s.closed && Plays(s) then {s.slots[Tts]} else {}
  }

  lemma TurnAccounted(s: Session, dropped: set<nat>)
    requires Accounted(s, dropped) && Quiet(s) && Works(s)
    ensures Accounted(AfterTurn(s), dropped + AtStake(s)) && Quiet(AfterTurn(s))
  {
    var q, all := AfterTurn(s), dropped + AtStake(s);
    forall i | 0 <= i < |q.tasks| && q.tasks[i].status.Running? && !s.closed
      ensures InSlot(q, q.tasks[i].kind, i) || i in all
    {
      assert InSlot(s, s.tasks[i].kind, i) || i in dropped;
    }
    forall i | i in all ensures OutOfReach(q, i) {
      assert i in dropped ==> OutOfReach(s, i);
    }
  }

  lemma PhaseAccounted(s: Session, phase: Phase, dropped: set<nat>)
    requires Accounted(s, dropped) && Quiet(s) && Works(s)
    ensures Accounted(s.(phase := phase), dropped) && Quiet(s.(phase := phase))
  {
    EndingKeepsAccounted(s, s.(phase := phase), dropped);
  }

  lemma NextTurnAccounted(s: Session, dropped: set<nat>)
    requires Accounted(s, dropped) && Quiet(s) && Works(s)
    ensures Accounted(NextTurn(s), dropped + AtStake(s)) && Quiet(NextTurn(s))
  {
    if s.closed {
      EndingKeepsAccounted(s, NextTurn(s), dropped);
      assert dropped + {} == dropped;
    } else {
      TurnAccounted(s, dropped);
    }
  }

  /** A step of the pipeline loses exactly the speech that plays when it begins a turn. */
  lemma TurnsAccounted(s: Session, op: Op, dropped: set<nat>)
    requires Accounted(s, dropped) && Quiet(s) && Turns(op)
    ensures Accounted(Step(s, op), dropped + Drops(s, op)) && Quiet(Step(s, op))
  {
    assert dropped + {} == dropped;
    if Works(s) {
      if op.Greet? {
        TurnAccounted(s, dropped);
      } else if op.AskEnds? {
        NextTurnAccounted(s, dropped);
        PhaseAccounted(s, if Tts in s.slots && Speaking(s) then Awaiting(s.slots[Tts]) else Draining, dropped);
      } else if op.SpeechEnds? {
        PhaseAccounted(s, Draining, dropped);
      } else {
        NextTurnAccounted(s, dropped);
      }
    }
  }

  lemma StepAccounted(s: Session, op: Op, dropped: set<nat>)
    requires Accounted(s, dropped) && Quiet(s) && Owned(s)
    ensures Accounted(Step(s, op), dropped + Drops(s, op)) && Quiet(Step(s, op))
  {
    assert !Turns(op) ==> dropped + Drops(s, op) == dropped;
    if op.StopBegin? {
      if !s.stopping && !s.cleaned {
        CancelledAccounted(s, op.current, dropped);
      }
    } else if op.StartBound? {
      StartAccounted(s, op.fails, dropped);
    } else if op.TtsEnd? {
      if !Speaking(s) {
        PublishAccounted(s, Tts, dropped);
      }
    } else if op.TaskEnds? {
      EndingKeepsAccounted(s, AfterTaskEnds(s, op.task), dropped);
    } else if Turns(op) {
      TurnsAccounted(s, op, dropped);
    } else {
      OthersKeepTasks(s, op);
      SameTasks(s, Step(s, op), dropped);
    }
  }

  lemma SameTasks(s: Session, q: Session, dropped: set<nat>)
    requires Accounted(s, dropped) && Quiet(s) && (s.closed <==> q.closed)
    requires q.tasks == s.tasks && q.slots == s.slots && q.spared == s.spared && (q.closed || q.transport == s.transport)
    requires q.phase == s.phase
    ensures Accounted(q, dropped) && Quiet(q)
  {
    EndingKeepsAccounted(s, q, dropped);
  }

  lemma OthersKeepTasks(s: Session, op: Op)
    requires Owned(s) && !op.StopBegin? && !op.StartBound? && !op.TtsEnd? && !op.TaskEnds? && !Turns(op)
    ensures var q := Step(s, op);
      && q.tasks == s.tasks && q.slots == s.slots && q.spared == s.spared && (q.closed <==> s.closed)
      && (q.closed || q.transport == s.transport) && q.phase == s.phase
  {
  }

  /** A step of a closed session publishes a task exactly when the pipeline reports speech while none is
      playing: start never does. */
  lemma PublishesLate(s: Session, op: Op)
    requires Owned(s) && s.closed
    ensures |Step(s, op).tasks| > |s.tasks| <==> op.TtsEnd? && !Speaking(s)
  {
  }

  // ---------- updates ----------

  /** What the session uses is what its one contract says: codecs, converters and directions, and the port
      it sends to until the other end has been heard. */
  predicate Coherent(s: Session)
  {
    && s.media == MediaOf(s.invite)
    && (s.remoteSsrc == None ==> s.remotePort == s.invite.remotePort)
  }

  /** The updates that a run commits, in order. */
  function Committed(s: Session, ops: seq<Op>): seq<Update>
    decreases |ops|
  {
    if ops == [] then []
    else
      var rest := Committed(Step(s, ops[0]), ops[1..]);
      if ops[0].Commit? && Commits(s, ops[0].update) then [s.prepared[ops[0].update]] + rest else rest
  }

  /** Each update takes over from the contract that the one before it brought. */
  predicate Chained(from: nat, updates: seq<Update>)
    decreases |updates|
  {
    updates == [] || (updates[0].previous.identity == from && Chained(updates[0].updated.identity, updates[1..]))
  }

  function Identities(updates: seq<Update>): seq<nat>
  {
    seq(|updates|, i requires 0 <= i < |updates| => updates[i].previous.identity)
  }

  lemma StepCommits(s: Session, op: Op)
    requires Coherent(s)
    ensures Coherent(Step(s, op))
    ensures s.prepared <= Step(s, op).prepared
    ensures if op.Commit? && Commits(s, op.update) then
              var u := s.prepared[op.update];
              && Step(s, op).invite == u.updated && u.previous.identity == s.invite.identity
              && Step(s, op).replaced == s.replaced + [u.previous.identity]
            else
              Step(s, op).invite == s.invite && Step(s, op).replaced == s.replaced
  {
    if Turns(op) {
      TurnsTouch(s, op);
    }
  }

  lemma {:induction false} CommittedChain(s: Session, ops: seq<Op>)
    requires Coherent(s)
    ensures var us := Committed(s, ops);
      && Coherent(Run(s, ops))
      && Chained(s.invite.identity, us)
      && Run(s, ops).invite == (if us == [] then s.invite else us[|us| - 1].updated)
    decreases |ops|
  {
    if ops != [] {
      var q, rest := Step(s, ops[0]), Committed(Step(s, ops[0]), ops[1..]);
      StepCommits(s, ops[0]);
      CommittedChain(q, ops[1..]);
      if ops[0].Commit? && Commits(s, ops[0].update) {
        AppendTail([s.prepared[ops[0].update]], rest);
      }
    }
  }

  lemma {:induction false} CommittedReplaced(s: Session, ops: seq<Op>)
    requires Coherent(s)
    ensures Run(s, ops).replaced == s.replaced + Identities(Committed(s, ops))
    decreases |ops|
  {
    if ops == [] {
      assert s.replaced + [] == s.replaced;
    } else {
      var rest := Committed(Step(s, ops[0]), ops[1..]);
      StepCommits(s, ops[0]);
      CommittedReplaced(Step(s, ops[0]), ops[1..]);
      if ops[0].Commit? && Commits(s, ops[0].update) {
        var u := s.prepared[ops[0].update];
        assert Identities([u] + rest) == [u.previous.identity] + Identities(rest);
        AppendAssociative(s.replaced, [u.previous.identity], Identities(rest));
      }
    }
  }

  lemma {:induction false} CommittedWerePrepared(s: Session, ops: seq<Op>, u: Update)
    requires Coherent(s)
    ensures s.prepared <= Run(s, ops).prepared
    ensures u in Committed(s, ops) ==> u in Run(s, ops).prepared
    decreases |ops|
  {
    if ops != [] {
      StepCommits(s, ops[0]);
      CommittedWerePrepared(Step(s, ops[0]), ops[1..], u);
      if ops[0].Commit? && Commits(s, ops[0].update) {
        assert s.prepared[ops[0].update] == Run(s, ops).prepared[ops[0].update];
      }
    }
  }

  /** Updates are all or nothing, in every run: those that committed form a chain from contract to
      contract, the contract in force is the last of that chain, and codecs, converters, directions and
      port are all its own. An update that lost the race leaves no trace. */
  lemma CommitIsAtomic(s: Session, ops: seq<Op>)
    requires Coherent(s)
    ensures var q, us := Run(s, ops), Committed(s, ops);
      && Coherent(q)
      && Chained(s.invite.identity, us)
      && q.invite == (if us == [] then s.invite else us[|us| - 1].updated)
      && q.replaced == s.replaced + Identities(us)
      && (forall u :: u in us ==> u in q.prepared)
  {
    CommittedChain(s, ops);
    CommittedReplaced(s, ops);
    forall u | u in Committed(s, ops) ensures u in Run(s, ops).prepared {
      CommittedWerePrepared(s, ops, u);
    }
  }

  lemma SourceStep(s: Session, op: Op)
    requires s.remoteSsrc.Some?
    ensures (op.Commit? && Commits(s, op.update) ==> !ResetsSource(s.prepared[op.update])) ==>
      Step(s, op).remoteSsrc == s.remoteSsrc
  {
  }

  /** In every state of every run the contract in force, and it alone, says what the session does: it receives
      when the contract's direction lets it, sends when the direction lets it and the call is not held, decodes
      and converts what it hears in the format it receives, and what it says in the format it sends. */
  lemma ContractRules(v: Invite, ops: seq<Op>)
    ensures var s := Run(Fresh(v), ops);
      && (s.media.canReceive <==> s.invite.direction == "recvonly" || s.invite.direction == "sendrecv")
      && (s.media.canSend <==> (s.invite.direction == "sendonly" || s.invite.direction == "sendrecv") && !s.invite.held)
      && s.media.decoder == s.invite.recvFormat && s.media.rxConverter == s.invite.recvFormat
      && s.media.encoder == s.invite.sendFormat && s.media.txConverter == s.invite.sendFormat
      && (s.remoteSsrc == None ==> s.remotePort == s.invite.remotePort)
  {
    CommittedChain(Fresh(v), ops);
  }

  /** An update is prepared exactly when it is for the same call, its media are supported and the session has
      not ended; it commits exactly when the session has not ended and the contract object it was
      prepared from is still in force. It then puts its own contract in force, and the source is
      forgotten exactly when host, port or received format changed. */
  lemma UpdatesExactly(s: Session, v: Invite, supported: bool, i: nat)
    ensures var q := Step(s, Prepare(v, supported));
      if v.callId == s.invite.callId && supported && !s.closed && !s.cleaned
      then q.prepared == s.prepared + [Update(s.invite, v)] else q == s
    ensures var q := Step(s, Commit(i));
      if i < |s.prepared| && !s.closed && !s.cleaned && s.prepared[i].previous.identity == s.invite.identity then
        var before, now := s.prepared[i].previous, s.prepared[i].updated;
        && q.invite == now && q.remotePort == now.remotePort
        && q.remoteSsrc == if before.remoteHost == now.remoteHost && before.remotePort == now.remotePort
                              && before.recvFormat == now.recvFormat then s.remoteSsrc else None
      else q == s
  {
  }

  /** A packet of the source, or of any while there is none, is followed to its port until the session closes. */
  lemma PacketIsFollowed(s: Session, ssrc: int, port: int)
    ensures var q := Step(s, Packet(ssrc, port));
      if !s.closed && (s.remoteSsrc == None || s.remoteSsrc == Some(ssrc))
      then q.remoteSsrc == Some(ssrc) && q.remotePort == port else q == s
  {
  }

  /** Once a source is latched it stays the source for the rest of any run, unless a committed update
      moves the other end or changes the format received from it. */
  lemma {:induction false} SourceIsKept(s: Session, ops: seq<Op>)
    requires s.remoteSsrc.Some? && (forall u :: u in Committed(s, ops) ==> !ResetsSource(u))
    ensures Run(s, ops).remoteSsrc == s.remoteSsrc
    decreases |ops|
  {
    if ops != [] {
      var rest := Committed(Step(s, ops[0]), ops[1..]);
      assert forall u :: u in rest ==> u in Committed(s, ops);
      if ops[0].Commit? && Commits(s, ops[0].update) {
        assert s.prepared[ops[0].update] in Committed(s, ops);
      }
      SourceStep(s, ops[0]);
      SourceIsKept(Step(s, ops[0]), ops[1..]);
    }
  }

  /** No contract comes back once it was replaced, and an update that can still commit brings a new one. */
  ghost predicate Onward(s: Session)
  {
    && s.invite.identity !in s.replaced
    && (forall i, j :: 0 <= i < j < |s.replaced| ==> s.replaced[i] != s.replaced[j])
    && (forall u :: u in s.prepared ==>
          u.previous.identity in s.replaced
          || (&& u.previous.identity == s.invite.identity
              && u.updated.identity !in s.replaced && u.updated.identity != s.invite.identity))
  }

  /** The object an update brings has never been the session's contract. */
  predicate BringsNew(s: Session, op: Op)
  {
    op.Prepare? && Preparable(s, op.updated, op.supported) ==>
      op.updated.identity !in s.replaced && op.updated.identity != s.invite.identity
  }

  /** A step keeps contracts from coming back exactly when the update it prepares brings a new one. */
  lemma StepOnward(s: Session, op: Op)
    requires Onward(s)
    ensures Onward(Step(s, op)) <==> BringsNew(s, op)
  {
    if op.Prepare? && Preparable(s, op.updated, op.supported) {
      PrepareOnward(s, op.updated, op.supported);
    } else if op.Commit? {
      CommitOnward(s, op.update);
    }
  }

  lemma PrepareOnward(s: Session, updated: Invite, supported: bool)
    requires Onward(s) && Preparable(s, updated, supported)
    ensures Onward(AfterPrepare(s, updated, supported)) <==>
      updated.identity !in s.replaced && updated.identity != s.invite.identity
  {
    var q := AfterPrepare(s, updated, supported);
    assert Update(s.invite, updated) == q.prepared[|s.prepared|];
    assert Update(s.invite, updated) in q.prepared;
  }

  lemma CommitOnward(s: Session, i: nat)
    requires Onward(s)
    ensures Onward(AfterCommit(s, i))
  {
    if Commits(s, i) {
      var q, u := AfterCommit(s, i), s.prepared[i];
      assert u in s.prepared;
      forall id ensures id in q.replaced <==> id in s.replaced || id == s.invite.identity {
      }
    }
  }

  // ---------- runs ----------

  ghost predicate Sound(s: Session, dropped: set<nat>)
  {
    Owned(s) && Accounted(s, dropped) && Quiet(s) && Coherent(s)
  }

  lemma StepSound(s: Session, op: Op, dropped: set<nat>)
    requires Sound(s, dropped)
    ensures Sound(Step(s, op), dropped + Drops(s, op))
    ensures s.closed ==> Step(s, op).closed
    ensures s.cleaned ==> Step(s, op).cleaned
  {
    StepOwned(s, op);
    StepAccounted(s, op, dropped);
    StepCommits(s, op);
  }

  lemma {:induction false} RunSound(s: Session, ops: seq<Op>, dropped: set<nat>)
    requires Sound(s, dropped)
    ensures Sound(Run(s, ops), dropped + Dropped(s, ops))
    ensures s.closed ==> Run(s, ops).closed
    ensures s.cleaned ==> Run(s, ops).cleaned
    decreases |ops|
  {
    if ops == [] {
      assert dropped + {} == dropped;
    } else {
      var q, now := Step(s, ops[0]), dropped + Drops(s, ops[0]);
      StepSound(s, ops[0], dropped);
      RunSound(q, ops[1..], now);
      assert now + Dropped(q, ops[1..]) == dropped + Dropped(s, ops);
    }
  }

  /** However start, stop, turns and updates interleave: after the cleanup the reservation has been given
      back exactly once and no socket is open. */
  lemma CleanedUp(v: Invite, ops: seq<Op>)
    requires Run(Fresh(v), ops).cleaned
    ensures var s := Run(Fresh(v), ops); s.releases == 1 && s.open == {} && s.transport == None
  {
    RunSound(Fresh(v), ops, {});
  }

  /** After the cleanup no task runs untold, except the one that stopped the session, speech reported since
      it was closed, and exactly the speech that a turn dropped and that still plays. */
  lemma LeftRunningExactly(v: Invite, ops: seq<Op>, i: nat)
    requires Run(Fresh(v), ops).cleaned && i < |Run(Fresh(v), ops).tasks|
    ensures var s, t := Run(Fresh(v), ops), Run(Fresh(v), ops).tasks[i];
      && (t.late ==> t.kind == Tts)
      && (t.status.Running? && !t.late && s.spared != Some(i) <==> t.status.Running? && i in Dropped(Fresh(v), ops))
      && (i in Dropped(Fresh(v), ops) ==> t.kind == Tts && !t.status.Cancelling?)
  {
    RunSound(Fresh(v), ops, {});
    var s := Run(Fresh(v), ops);
    assert {} + Dropped(Fresh(v), ops) == Dropped(Fresh(v), ops);
    assert i in Dropped(Fresh(v), ops) ==> OutOfReach(s, i);
  }

  /** What start and stop achieve: a start of an open session whose socket binds publishes the socket and runs
      sender and pipeline, and a stop begun and finished leaves any session closed and cleaned up, every
      task in a slot told to end but the one that called it. */
  lemma StartsAndStops(s: Session, current: Option<Kind>, i: nat)
    requires Owned(s) && Slotted(s)
    ensures !s.closed && s.transport == None && !s.starting ==>
      var q := Step(Step(s, StartBegin), StartBound(false));
      && q.transport == Some(s.binds) && q.open == {s.binds}
      && q.tasks == s.tasks + [Task(Sender, Running, false), Task(Pipeline, Running, false)]
      && Sender in q.slots && q.slots[Sender] == |s.tasks| && Pipeline in q.slots && q.slots[Pipeline] == |s.tasks| + 1
    ensures !s.stopping && !s.cleaned ==>
      Step(Step(s, StopBegin(current)), StopFinish).closed && Step(Step(s, StopBegin(current)), StopFinish).cleaned
    ensures !s.stopping && !s.cleaned && i < |s.tasks| && InSlot(s, s.tasks[i].kind, i) && current != Some(s.tasks[i].kind)
      ==> !Step(s, StopBegin(current)).tasks[i].status.Running?
  {
    assert s.tasks + [Task(Sender, Running, false)] + [Task(Pipeline, Running, false)]
        == s.tasks + [Task(Sender, Running, false), Task(Pipeline, Running, false)];
  }

  // ---------- speech and turns ----------

  /** Speech is reported only while the pipeline runs for a turn. */
  predicate ReportsWhileAsking(s: Session, ops: seq<Op>)
    decreases |ops|
  {
    ops == [] || ((ops[0].TtsEnd? ==> s.phase.Asking?) && ReportsWhileAsking(Step(s, ops[0]), ops[1..]))
  }

  /** Outside the pipeline's runs no speech has begun that the current turn does not wait for. */
  predicate Calm(s: Session)
  {
    match s.phase
    case Unborn => Tts !in s.slots
    case Started => Tts !in s.slots
    case Awaiting(speech) => InSlot(s, Tts, speech)
    case Draining => Tts in s.slots && !Speaking(s)
    case _ => true
  }

  lemma TurnsCalm(s: Session, op: Op)
    requires Calm(s) && Slotted(s) && Turns(op)
    ensures Calm(Step(s, op)) && Drops(s, op) == {}
  {
  }

  lemma StepCalm(s: Session, op: Op)
    requires Calm(s) && Quiet(s) && Owned(s) && Slotted(s) && (op.TtsEnd? ==> s.phase.Asking?)
    ensures Calm(Step(s, op)) && Drops(s, op) == {}
  {
    if Turns(op) {
      TurnsCalm(s, op);
    }
  }

  lemma {:induction false} CalmDropsNothing(s: Session, ops: seq<Op>, dropped: set<nat>)
    requires Sound(s, dropped) && Calm(s) && ReportsWhileAsking(s, ops)
    ensures Dropped(s, ops) == {}
    decreases |ops|
  {
    if ops != [] {
      StepCalm(s, ops[0]);
      StepSound(s, ops[0], dropped);
      CalmDropsNothing(Step(s, ops[0]), ops[1..], dropped + Drops(s, ops[0]));
    }
  }

  /** When speech is reported only while the pipeline runs for a turn, the wait at the end of the turn keeps
      it all within reach of stop: after the cleanup no task runs untold but the one that stopped the
      session and speech reported since it was closed. */
  lemma LeftRunning(v: Invite, ops: seq<Op>, i: nat)
    requires ReportsWhileAsking(Fresh(v), ops) && Run(Fresh(v), ops).cleaned && i < |Run(Fresh(v), ops).tasks|
    ensures Dropped(Fresh(v), ops) == {}
    ensures var s, t := Run(Fresh(v), ops), Run(Fresh(v), ops).tasks[i];
      t.status.Running? ==> s.spared == Some(i) || (t.late && t.kind == Tts)
  {
    CalmDropsNothing(Fresh(v), ops, {});
    LeftRunningExactly(v, ops, i);
  }

  /** No turn begins. */
  predicate NoTurn(s: Session, ops: seq<Op>)
    decreases |ops|
  {
    ops == [] || (!BeginsTurn(s, ops[0]) && NoTurn(Step(s, ops[0]), ops[1..]))
  }

  /** Speech is reported while none plays, and does not end. */
  predicate SpeechIsLeft(s: Session, ops: seq<Op>)
    decreases |ops|
  {
    ops != [] && ((ops[0].TtsEnd? && !Speaking(s) && TaskEnds(|s.tasks|) !in ops[1..])
                  || SpeechIsLeft(Step(s, ops[0]), ops[1..]))
  }

  lemma PlaysAfterTurn(s: Session, op: Op)
    requires Slotted(s) && Turns(op) && !Step(s, op).closed && !BeginsTurn(s, op)
    ensures Plays(s) ==> Plays(Step(s, op)) && Step(s, op).slots[Tts] == s.slots[Tts]
    ensures !Plays(s) ==> !Plays(Step(s, op))
  {
  }

  lemma PlaysAfterOther(s: Session, op: Op)
    requires Slotted(s) && !Turns(op) && !Step(s, op).closed 
    ensures Plays(s) && op != TaskEnds(s.slots[Tts]) ==> Plays(Step(s, op)) && Step(s, op).slots[Tts] == s.slots[Tts]
    ensures op.TtsEnd? && !Speaking(s) ==> Plays(Step(s, op)) && Step(s, op).slots[Tts] == |s.tasks|
    ensures !(Plays(s) && op != TaskEnds(s.slots[Tts])) && !(op.TtsEnd? && !Speaking(s)) ==> !Plays(Step(s, op))
  {
  }

  lemma PlaysAfter(s: Session, op: Op)
    requires Slotted(s) && !Step(s, op).closed && !BeginsTurn(s, op)
    ensures Plays(s) && op != TaskEnds(s.slots[Tts]) ==> Plays(Step(s, op)) && Step(s, op).slots[Tts] == s.slots[Tts]
    ensures op.TtsEnd? && !Speaking(s) ==> Plays(Step(s, op)) && Step(s, op).slots[Tts] == |s.tasks|
    ensures !(Plays(s) && op != TaskEnds(s.slots[Tts])) && !(op.TtsEnd? && !Speaking(s)) ==> !Plays(Step(s, op))
  {
    if Turns(op) {
      PlaysAfterTurn(s, op);
    } else {
      PlaysAfterOther(s, op);
    }
  }

  lemma ClosedStep(s: Session, op: Op)
    requires s.closed
    ensures Step(s, op).closed
  {
  }

  lemma {:induction false} ClosedStays(s: Session, ops: seq<Op>)
    requires s.closed
    ensures Run(s, ops).closed
    decreases |ops|
  {
    if ops != [] {
      ClosedStep(s, ops[0]);
      ClosedStays(Step(s, ops[0]), ops[1..]);
    }
  }

  /** Between two turns of an open session speech plays exactly if it played and has not ended, or was
      reported and has not ended. */
  lemma {:induction false} PlaysExactly(s: Session, ops: seq<Op>, dropped: set<nat>)
    requires Sound(s, dropped) && NoTurn(s, ops) && !Run(s, ops).closed
    ensures Plays(Run(s, ops)) <==> (Plays(s) && TaskEnds(s.slots[Tts]) !in ops) || SpeechIsLeft(s, ops)
    decreases |ops|
  {
    if ops != [] {
      var q := Step(s, ops[0]);
      StepSound(s, ops[0], dropped);
      if q.closed {
        ClosedStays(q, ops[1..]);
      }
      PlaysAfter(s, ops[0]);
      PlaysExactly(q, ops[1..], dropped + Drops(s, ops[0]));
      assert ops == [ops[0]] + ops[1..];
    }
  }

  lemma AwaitStep(s: Session, op: Op, dropped: set<nat>)
    requires Sound(s, dropped) && !s.closed
    requires s.phase.Awaiting? && op != TaskEnds(s.phase.speech) && InSlot(s, Tts, s.phase.speech) && Plays(s)
    ensures Step(s, op).phase in {s.phase, Left}
  {
  }

  lemma LeftStep(s: Session, op: Op, dropped: set<nat>)
    requires Sound(s, dropped) && !s.closed && s.phase.Left?
    ensures Step(s, op).phase.Left?
  {
  }

  /** A turn waits for its speech until that has ended, unless the loop is left. */
  lemma {:induction false} WaitsForSpeech(s: Session, ops: seq<Op>, t: nat, dropped: set<nat>)
    requires Sound(s, dropped) && NoTurn(s, ops) && !Run(s, ops).closed && TaskEnds(t) !in ops
    requires s.phase.Left? || (s.phase == Awaiting(t) && InSlot(s, Tts, t) && Plays(s))
    ensures Run(s, ops).phase in {Awaiting(t), Left}
    decreases |ops|
  {
    if ops != [] {
      var q := Step(s, ops[0]);
      assert ops == [ops[0]] + ops[1..];
      StepSound(s, ops[0], dropped);
      if s.closed {
        ClosedStays(s, ops);
      }
      if q.closed {
        ClosedStays(q, ops[1..]);
      }
      if s.phase.Left? {
        LeftStep(s, ops[0], dropped);
      } else {
        AwaitStep(s, ops[0], dropped);
        PlaysAfter(s, ops[0]);
      }
      WaitsForSpeech(q, ops[1..], t, dropped + Drops(s, ops[0]));
    }
  }

  /** In every run: the turn that follows a turn with speech drops speech exactly when, since the pipeline
      had run for that turn, speech was reported that has not ended. The turn's own speech is not
      dropped: it was waited for. */
  lemma TurnDropsExactly(v: Invite, before: seq<Op>, s: Session, since: seq<Op>, q: Session)
    requires s == Run(Fresh(v), before) && s.phase.Asking? && Works(s) && Tts in s.slots
    requires q == Run(Step(s, AskEnds), since) && NoTurn(Step(s, AskEnds), since) && BeginsTurn(q, Drained)
    ensures Drops(q, Drained) != {} <==> SpeechIsLeft(Step(s, AskEnds), since)
  {
    var w, dropped := Step(s, AskEnds), {} + Dropped(Fresh(v), before);
    RunSound(Fresh(v), before, {});
    StepSound(s, AskEnds, dropped);
    PlaysExactly(w, since, dropped + Drops(s, AskEnds));
    if Plays(w) && TaskEnds(w.slots[Tts]) !in since {
      WaitsForSpeech(w, since, w.slots[Tts], dropped + Drops(s, AskEnds));
    }
  }

  /** The greeting drops speech exactly when some was reported before it and has not ended. */
  lemma GreetingDropsExactly(v: Invite, before: seq<Op>)
    requires NoTurn(Fresh(v), before) && BeginsTurn(Run(Fresh(v), before), Greet)
    ensures Drops(Run(Fresh(v), before), Greet) != {} <==> SpeechIsLeft(Fresh(v), before)
  {
    PlaysExactly(Fresh(v), before, {});
  }

  /** Stop cannot end speech that a turn dropped: in any later run it ends only by itself. */
  lemma {:induction false} DroppedPlaysOn(s: Session, ops: seq<Op>, i: nat, dropped: set<nat>)
    requires Sound(s, dropped) && i in dropped && s.tasks[i].status.Running?
    requires forall op :: op in ops ==> op != TaskEnds(i)
    ensures i < |Run(s, ops).tasks| && Run(s, ops).tasks[i].status.Running?
    ensures !Run(s, ops).tasks[i].late && Run(s, ops).spared != Some(i)
    decreases |ops|
  {
    assert OutOfReach(s, i);
    if ops != [] {
      assert ops[0] in ops && forall op :: op in ops[1..] ==> op in ops;
      StepSound(s, ops[0], dropped);
      UntoldStays(s, ops[0], i);
      DroppedPlaysOn(Step(s, ops[0]), ops[1..], i, dropped + Drops(s, ops[0]));
    }
  }

  /** A turn with speech, its wait, speech that is reported while the queue empties, the next turn. */
  function LateReport(): seq<Op>
  {
    [StartBegin, StartBound(false), Greet, TtsEnd, AskEnds, TaskEnds(2), SpeechEnds, TtsEnd, Drained]
  }

  /** An open session on its first socket. */
  function On(v: Invite, tasks: seq<Task>, slots: map<Kind, nat>, phase: Phase): Session
  {
    Fresh(v).(transport := Some(0), open := {0}, binds := 1, tasks := tasks, slots := slots, phase := phase)
  }

  const STARTED_TASKS: seq<Task> := [Task(Sender, Running, false), Task(Pipeline, Running, false)]

  const STARTED_SLOTS: map<Kind, nat> := map[Sender := 0, Pipeline := 1]

  function Spoken(status: Status): seq<Task>
  {
    STARTED_TASKS + [Task(Tts, status, false)]
  }

  lemma {:induction false} RunAppend(s: Session, a: seq<Op>, b: seq<Op>)
    ensures Run(s, a + b) == Run(Run(s, a), b)
    ensures Dropped(s, a + b) == Dropped(s, a) + Dropped(Run(s, a), b)
    decreases |a|
  {
    if a == [] {
      assert a + b == b;
      assert {} + Dropped(s, b) == Dropped(s, b);
    } else {
      AppendTail(a, b);
      RunAppend(Step(s, a[0]), a[1..], b);
    }
  }

  lemma RunMore(s: Session, ops: seq<Op>, op: Op)
    ensures Run(s, ops + [op]) == Step(Run(s, ops), op)
    ensures Dropped(s, ops + [op]) == Dropped(s, ops) + Drops(Run(s, ops), op)
  {
    RunAppend(s, ops, [op]);
    RunOne(Run(s, ops), op);
  }

  lemma RunOne(s: Session, op: Op)
    ensures Run(s, [op]) == Step(s, op) && Dropped(s, [op]) == Drops(s, op)
  {
    assert [op][1..] == [];
    assert Drops(s, op) + {} == Drops(s, op);
  }

  lemma StartsOn(v: Invite)
    ensures Step(Step(Fresh(v), StartBegin), StartBound(false)) == On(v, STARTED_TASKS, STARTED_SLOTS, Started)
  {
    assert [] + [Task(Sender, Running, false)] + [Task(Pipeline, Running, false)] == STARTED_TASKS;
    assert map[][Sender := 0][Pipeline := 1] == STARTED_SLOTS;
  }

  lemma GreetsOn(v: Invite)
    ensures Step(On(v, STARTED_TASKS, STARTED_SLOTS, Started), Greet) == On(v, STARTED_TASKS, STARTED_SLOTS, Asking)
  {
    assert STARTED_SLOTS - {Tts} == STARTED_SLOTS;
  }

  lemma SpeaksOn(v: Invite, tasks: seq<Task>, slots: map<Kind, nat>, phase: Phase)
    requires !Speaking(On(v, tasks, slots, phase))
    ensures Step(On(v, tasks, slots, phase), TtsEnd)
         == On(v, tasks + [Task(Tts, Running, false)], slots[Tts := |tasks|], phase)
  {
  }

  lemma WaitsOn(v: Invite)
    ensures Step(On(v, Spoken(Running), STARTED_SLOTS[Tts := 2], Asking), AskEnds)
         == On(v, Spoken(Running), STARTED_SLOTS[Tts := 2], Awaiting(2))
  {
  }

  lemma EndsOn(v: Invite)
    ensures Step(Step(On(v, Spoken(Running), STARTED_SLOTS[Tts := 2], Awaiting(2)), TaskEnds(2)), SpeechEnds)
         == On(v, Spoken(Finished), STARTED_SLOTS[Tts := 2], Draining)
  {
    assert Spoken(Running)[2 := Task(Tts, Finished, false)] == Spoken(Finished);
  }

  lemma TurnsOn(v: Invite)
    ensures var s := On(v, Spoken(Finished) + [Task(Tts, Running, false)], STARTED_SLOTS[Tts := 2][Tts := 3], Draining);
      && Drops(s, Drained) == {3}
      && Step(s, Drained) == On(v, Spoken(Finished) + [Task(Tts, Running, false)], STARTED_SLOTS, Asking)
  {
    assert STARTED_SLOTS[Tts := 2][Tts := 3] - {Tts} == STARTED_SLOTS;
  }

  lemma LateReportBegins(v: Invite)
    ensures Run(Fresh(v), [StartBegin, StartBound(false), Greet, TtsEnd])
         == On(v, Spoken(Running), STARTED_SLOTS[Tts := 2], Asking)
  {
    RunOne(Fresh(v), StartBegin);
    RunMore(Fresh(v), [StartBegin], StartBound(false));
    StartsOn(v);
    RunMore(Fresh(v), [StartBegin, StartBound(false)], Greet);
    GreetsOn(v);
    RunMore(Fresh(v), [StartBegin, StartBound(false), Greet], TtsEnd);
    SpeaksOn(v, STARTED_TASKS, STARTED_SLOTS, Asking);
    assert [StartBegin] + [StartBound(false)] == [StartBegin, StartBound(false)];
    assert [StartBegin, StartBound(false)] + [Greet] == [StartBegin, StartBound(false), Greet];
    assert [StartBegin, StartBound(false), Greet] + [TtsEnd] == [StartBegin, StartBound(false), Greet, TtsEnd];
  }

  lemma LateReportEnds(v: Invite)
    ensures Run(On(v, Spoken(Running), STARTED_SLOTS[Tts := 2], Asking), [AskEnds, TaskEnds(2), SpeechEnds])
         == On(v, Spoken(Finished), STARTED_SLOTS[Tts := 2], Draining)
  {
    var s := On(v, Spoken(Running), STARTED_SLOTS[Tts := 2], Asking);
    RunOne(s, AskEnds);
    WaitsOn(v);
    RunMore(s, [AskEnds], TaskEnds(2));
    RunMore(s, [AskEnds, TaskEnds(2)], SpeechEnds);
    EndsOn(v);
    assert [AskEnds] + [TaskEnds(2)] == [AskEnds, TaskEnds(2)];
    assert [AskEnds, TaskEnds(2)] + [SpeechEnds] == [AskEnds, TaskEnds(2), SpeechEnds];
  }

  lemma LateReportWaits(v: Invite)
    ensures Run(On(v, Spoken(Running), STARTED_SLOTS[Tts := 2], Asking), [AskEnds, TaskEnds(2), SpeechEnds] + [TtsEnd])
         == On(v, Spoken(Finished) + [Task(Tts, Running, false)], STARTED_SLOTS[Tts := 2][Tts := 3], Draining)
  {
    var s, three := On(v, Spoken(Running), STARTED_SLOTS[Tts := 2], Asking), [AskEnds, TaskEnds(2), SpeechEnds];
    LateReportEnds(v);
    RunMore(s, three, TtsEnd);
    SpeaksOn(v, Spoken(Finished), STARTED_SLOTS[Tts := 2], Draining);
  }

  lemma LateReportDrops(v: Invite)
    ensures Run(Fresh(v), LateReport()) == On(v, Spoken(Finished) + [Task(Tts, Running, false)], STARTED_SLOTS, Asking)
    ensures 3 in Dropped(Fresh(v), LateReport())
  {
    var first := [StartBegin, StartBound(false), Greet, TtsEnd];
    var second := [AskEnds, TaskEnds(2), SpeechEnds] + [TtsEnd];
    assert LateReport() == first + second + [Drained];
    RunAppend(Fresh(v), first, second);
    LateReportBegins(v);
    LateReportWaits(v);
    RunMore(Fresh(v), first + second, Drained);
    TurnsOn(v);
  }

  lemma LateReportForgets(v: Invite)
    ensures var s := Run(Fresh(v), LateReport());
      && !s.closed && !s.stopping && !s.cleaned && 3 < |s.tasks| && s.tasks[3] == Task(Tts, Running, false)
      && forall k :: k in s.slots ==> s.slots[k] != 3
  {
    LateReportDrops(v);
  }

  /** Stop does not reach a running task that no slot holds. */
  lemma StopMisses(s: Session, i: nat)
    requires !s.closed && !s.stopping && !s.cleaned
    requires i < |s.tasks| && s.tasks[i].status.Running? && forall k :: k in s.slots ==> s.slots[k] != i
    ensures var q := Run(s, [StopBegin(None), StopFinish]);
      q.cleaned && i < |q.tasks| && q.tasks[i] == s.tasks[i] && q.spared == None
  {
    assert [StopBegin(None), StopFinish] == [StopBegin(None)] + [StopFinish];
    RunOne(s, StopBegin(None));
    RunMore(s, [StopBegin(None)], StopFinish);
  }

  /** Stopped after that, the session leaves the speech running. */
  lemma LateReportLeaks(v: Invite)
    ensures var s := Run(Fresh(v), LateReport() + [StopBegin(None), StopFinish]);
      s.cleaned && 3 < |s.tasks| && s.tasks[3] == Task(Tts, Running, false) && s.spared == None
  {
    LateReportForgets(v);
    RunAppend(Fresh(v), LateReport(), [StopBegin(None), StopFinish]);
    StopMisses(Run(Fresh(v), LateReport()), 3);
  }

  lemma UntoldStays(s: Session, op: Op, i: nat)
    requires OutOfReach(s, i) && Slotted(s) && op != TaskEnds(i)
    ensures i < |Step(s, op).tasks| && Step(s, op).tasks[i] == s.tasks[i]
  {
    assert s.tasks[i].kind == Tts && !InSlot(s, Tts, i);
  }

  /** Whether a run reports speech to a closed session. */
  predicate SpeaksLate(s: Session, ops: seq<Op>)
    decreases |ops|
  {
    ops != [] && ((s.closed && ops[0].TtsEnd? && !Speaking(s)) || SpeaksLate(Step(s, ops[0]), ops[1..]))
  }

  /** A closed session gains no task, in any run, exactly when no speech is reported to it. */
  lemma {:induction false} NoLateTask(s: Session, ops: seq<Op>)
    requires Owned(s) && s.closed
    ensures |Run(s, ops).tasks| >= |s.tasks|
    ensures |Run(s, ops).tasks| > |s.tasks| <==> SpeaksLate(s, ops)
    decreases |ops|
  {
    if ops != [] {
      StepOwned(s, ops[0]);
      PublishesLate(s, ops[0]);
      TasksStay(s, ops[0]);
      NoLateTask(Step(s, ops[0]), ops[1..]);
    }
  }

  lemma TasksStay(s: Session, op: Op)
    ensures |s.tasks| <= |Step(s, op).tasks|
  {
  }

  /** An update never commits after stop has begun, whatever came before it. */
  lemma {:induction false} NeverAfterStop(s: Session, ops: seq<Op>)
    requires s.closed && Owned(s)
    ensures Run(s, ops).invite == s.invite && Run(s, ops).media == s.media && Run(s, ops).replaced == s.replaced
    decreases |ops|
  {
    if ops != [] {
      StepOwned(s, ops[0]);
      NeverAfterStop(Step(s, ops[0]), ops[1..]);
    }
  }

  lemma {:induction false} ReplacedGrows(s: Session, ops: seq<Op>)
    ensures s.replaced <= Run(s, ops).replaced
    decreases |ops|
  {
    if ops != [] {
      assert s.replaced <= Step(s, ops[0]).replaced;
      ReplacedGrows(Step(s, ops[0]), ops[1..]);
    }
  }

  ghost predicate AllNew(s: Session, ops: seq<Op>)
    decreases |ops|
  {
    ops == [] || (BringsNew(s, ops[0]) && AllNew(Step(s, ops[0]), ops[1..]))
  }

  lemma {:induction false} RunOnward(s: Session, ops: seq<Op>)
    requires Onward(s) && AllNew(s, ops)
    ensures Onward(Run(s, ops))
    decreases |ops|
  {
    if ops != [] {
      StepOnward(s, ops[0]);
      RunOnward(Step(s, ops[0]), ops[1..]);
    }
  }

  /** Of all updates prepared from one contract at most one commits: once one has, in no later state of
      any run does another, as long as updates bring contracts of their own. */
  lemma OneCommitPerContract(s: Session, i: nat, ops: seq<Op>, j: nat)
    requires Onward(s) && Commits(s, i) && AllNew(AfterCommit(s, i), ops)
    requires j < |Run(AfterCommit(s, i), ops).prepared|
    requires Run(AfterCommit(s, i), ops).prepared[j].previous.identity == s.invite.identity
    ensures !Commits(Run(AfterCommit(s, i), ops), j)
  {
    var q := AfterCommit(s, i);
    assert Step(s, Commit(i)) == q;
    StepOnward(s, Commit(i));
    RunOnward(q, ops);
    ReplacedGrows(q, ops);
    assert s.invite.identity == q.replaced[|s.replaced|];
    assert s.invite.identity in Run(q, ops).replaced;
  }

  /** The check is by identity. An update that brings the session's own contract object again commits
      and leaves every other update from that contract free to commit too. */
  lemma SameObjectCommitsTwice(s: Session, supported: bool, other: Invite)
    requires Preparable(s, s.invite, supported) && Preparable(s, other, supported)
    ensures var n := |s.prepared|;
      var q := AfterPrepare(AfterPrepare(s, s.invite, supported), other, supported);
      Commits(q, n) && Commits(AfterCommit(q, n), n + 1)
  {
  }

  // ---------- speech as frames ----------

  const ASSIST_FRAME_BYTES: nat := 640

  function Zeros(n: nat): seq<Byte>
  {
    seq(n, _ => 0)
  }

  /** The frames of some speech: whole frames, the last one padded with silence. */
  function SpeechFrames(pcm: seq<Byte>): seq<seq<Byte>>
  {
    var rest := Leftover(pcm, ASSIST_FRAME_BYTES);
    Chunks(pcm, ASSIST_FRAME_BYTES) + if rest == [] then [] else [rest + Zeros(ASSIST_FRAME_BYTES - |rest|)]
  }

  function Padding(pcm: seq<Byte>): (n: nat)
    ensures n < ASSIST_FRAME_BYTES
  {
    var rest := Leftover(pcm, ASSIST_FRAME_BYTES);
    if rest == [] then 0 else ASSIST_FRAME_BYTES - |rest|
  }

  lemma FlattenOne(piece: seq<Byte>)
    ensures Flatten([piece]) == piece
  {
    var none: seq<seq<Byte>> := [];
    assert [piece][1..] == none;
    assert Flatten([piece]) == piece + Flatten(none);
  }

  /** Every frame is whole, and together they are the speech followed by less than a frame of silence. */
  lemma SpeechIsKept(pcm: seq<Byte>)
    ensures forall i :: 0 <= i < |SpeechFrames(pcm)| ==> |SpeechFrames(pcm)[i]| == 640
    ensures Flatten(SpeechFrames(pcm)) == pcm + Zeros(Padding(pcm))
  {
    var chunks, rest := Chunks(pcm, ASSIST_FRAME_BYTES), Leftover(pcm, ASSIST_FRAME_BYTES);
    ChunksThenLeftover(pcm, ASSIST_FRAME_BYTES);
    if rest == [] {
      assert chunks + [] == chunks && Zeros(0) == [];
      assert Flatten(chunks) + [] == Flatten(chunks);
    } else {
      var last := rest + Zeros(ASSIST_FRAME_BYTES - |rest|);
      FlattenAppend(chunks, [last]);
      FlattenOne(last);
      AppendAssociative(Flatten(chunks), rest, Zeros(ASSIST_FRAME_BYTES - |rest|));
    }
  }

  lemma {:induction false} FlattenTake(chunks: seq<seq<Byte>>, i: nat)
    requires i < |chunks|
    ensures Flatten(chunks[..i + 1]) == Flatten(chunks[..i]) + chunks[i]
  {
    assert chunks[..i + 1] == chunks[..i] + [chunks[i]];
    FlattenAppend(chunks[..i], [chunks[i]]);
    FlattenOne(chunks[i]);
  }

  /** Speech arrives in chunks of any size. The frames made of it do not depend on how it was cut: they
      are those of the whole, or, if the session closes before some chunk, the whole frames of what
      came before that chunk. */
  method StreamTts(chunks: seq<seq<Byte>>, closedBefore: nat) returns (frames: seq<seq<Byte>>)
    ensures closedBefore >= |chunks| ==> frames == SpeechFrames(Flatten(chunks))
    ensures closedBefore < |chunks| ==> frames == Chunks(Flatten(chunks[..closedBefore]), ASSIST_FRAME_BYTES)
  {
    frames := [];
    var pending: seq<Byte> := [];
    var i := 0;
    assert chunks[..0] == [];
    while i < |chunks|
      invariant 0 <= i <= |chunks| && i <= closedBefore
      invariant frames == Chunks(Flatten(chunks[..i]), ASSIST_FRAME_BYTES)
      invariant pending == Leftover(Flatten(chunks[..i]), ASSIST_FRAME_BYTES)
    {
      if i == closedBefore {
        return;
      }
      FlattenTake(chunks, i);
      ChunksResume(Flatten(chunks[..i]), chunks[i], ASSIST_FRAME_BYTES);
      pending := pending + chunks[i];
      frames, pending := CutWhole(frames, pending);
      i := i + 1;
    }
    assert chunks[..i] == chunks;
    if pending != [] {
      frames := frames + [pending + Zeros(ASSIST_FRAME_BYTES - |pending|)];
    }
  }

  method CutWhole(done: seq<seq<Byte>>, bytes: seq<Byte>) returns (frames: seq<seq<Byte>>, pending: seq<Byte>)
    ensures frames == done + Chunks(bytes, ASSIST_FRAME_BYTES)
    ensures pending == Leftover(bytes, ASSIST_FRAME_BYTES)
  {
    frames, pending := done, bytes;
    while |pending| >= ASSIST_FRAME_BYTES
      invariant frames + Chunks(pending, ASSIST_FRAME_BYTES) == done + Chunks(bytes, ASSIST_FRAME_BYTES)
      invariant Leftover(pending, ASSIST_FRAME_BYTES) == Leftover(bytes, ASSIST_FRAME_BYTES)
      decreases |pending|
    {
      var frame := pending[..ASSIST_FRAME_BYTES];
      AppendAssociative(frames, [frame], Chunks(pending[ASSIST_FRAME_BYTES..], ASSIST_FRAME_BYTES));
      frames := frames + [frame];
      pending := pending[ASSIST_FRAME_BYTES..];
    }
  }

  lemma SlotsOfOne(s: Session, current: Option<Kind>, i: nat, first: Task, second: Task, third: Task)
    requires i < |s.tasks| && Slotted(s)
    requires first == Told(s.tasks[i], InSlot(s, Pipeline, i) && current != Some(Pipeline))
    requires second == Told(first, InSlot(s, Tts, i) && current != Some(Tts))
    requires third == Told(second, InSlot(s, Sender, i) && current != Some(Sender))
    ensures third == Told(s.tasks[i], InSlot(s, s.tasks[i].kind, i) && current != Some(s.tasks[i].kind))
  {
    assert forall k :: InSlot(s, k, i) ==> k == s.tasks[i].kind;
  }

  lemma ThreeSlots(s: Session, current: Option<Kind>, first: seq<Task>, second: seq<Task>, third: seq<Task>)
    requires |first| == |second| == |third| == |s.tasks| && Slotted(s)
    requires forall i :: 0 <= i < |first| ==>
      first[i] == Told(s.tasks[i], InSlot(s, Pipeline, i) && current != Some(Pipeline))
    requires forall i :: 0 <= i < |first| ==> second[i] == Told(first[i], InSlot(s, Tts, i) && current != Some(Tts))
    requires forall i :: 0 <= i < |first| ==>
      third[i] == Told(second[i], InSlot(s, Sender, i) && current != Some(Sender))
    ensures third == Cancelled(s, current)
  {
    forall i | 0 <= i < |third| ensures third[i] == Cancelled(s, current)[i] {
      SlotsOfOne(s, current, i, first[i], second[i], third[i]);
    }
  }

  // ---------- the session as the program keeps it ----------

  /** The coroutines start and stop are split at their waits. */
  class AssistMediaSession {
    var invite: Invite
    var media: Media
    var remotePort: int
    var remoteSsrc: Option<int>
    var prepared: seq<Update>
    var replaced: seq<nat>
    var transport: Option<nat>
    var open: set<nat>
    var binds: nat
    var starting: bool
    var stopping: bool
    var closed: bool
    var cleaned: bool
    var releases: nat
    var tasks: seq<Task>
    var slots: map<Kind, nat>
    var spared: Option<nat>
    var phase: Phase

    ghost function State(): Session
      reads this
    {
      Session(invite, media, remotePort, remoteSsrc, prepared, replaced, transport, open, binds, starting, stopping,
              closed, cleaned, releases, tasks, slots, spared, phase)
    }

    constructor (v: Invite)
      ensures State() == Fresh(v) && Sound(State(), {}) && Onward(State())
    {
      invite, media, remotePort, remoteSsrc, prepared, replaced := v, MediaOf(v), v.remotePort, None, [], [];
      transport, open, binds, starting, stopping, closed, cleaned := None, {}, 0, false, false, false, false;
      releases, tasks, slots, spared, phase := 0, [], map[], None, Unborn;
    }

    method PrepareMediaUpdate(updated: Invite, supported: bool) returns (ok: bool)
      modifies `prepared
      ensures State() == AfterPrepare(old(State()), updated, supported)
      ensures ok <==> Preparable(old(State()), updated, supported)
    {
      if updated.callId != invite.callId {
        return false;
      }
      if closed || cleaned {
        return false;
      }
      if !supported {
        return false;
      }
      prepared := prepared + [Update(invite, updated)];
      return true;
    }

    method CommitUpdate(update: nat) returns (ok: bool)
      requires update < |prepared|
      modifies `invite, `media, `remotePort, `remoteSsrc, `replaced
      ensures State() == AfterCommit(old(State()), update)
      ensures ok <==> Commits(old(State()), update)
    {
      var u := prepared[update];
      if closed || cleaned {
        return false;
      }
      if invite.identity != u.previous.identity {
        return false;
      }
      Adopt(u);
      replaced := replaced + [u.previous.identity];
      invite := u.updated;
      return true;
    }

    method Adopt(u: Update)
      modifies `media, `remotePort, `remoteSsrc
      ensures media == MediaOf(u.updated) && remotePort == u.updated.remotePort
      ensures remoteSsrc == if ResetsSource(u) then None else old(remoteSsrc)
    {
      var built := MediaOf(u.updated);
      media := media.(decoder := built.decoder, encoder := built.encoder);
      media := media.(rxConverter := built.rxConverter, txConverter := built.txConverter);
      remotePort := u.updated.remotePort;
      if u.updated.remoteHost != u.previous.remoteHost || u.updated.remotePort != u.previous.remotePort
         || u.updated.recvFormat != u.previous.recvFormat {
        remoteSsrc := None;
      }
      media := media.(canReceive := built.canReceive, canSend := built.canSend);
    }

    method BeginStart() returns (binding: bool)
      modifies `starting
      ensures State() == AfterStartBegin(old(State()))
    {
      if starting || transport != None || closed || cleaned {
        return false;
      }
      starting := true;
      return true;
    }

    method FinishStart(fails: bool) returns (started: bool)
      requires starting
      modifies `starting, `transport, `open, `binds, `tasks, `slots, `phase
      ensures State() == AfterStartBound(old(State()), fails)
      ensures started <==> !fails && !Ended(old(State()))
    {
      starting := false;
      if fails {
        return false;
      }
      var socket := binds;
      binds := binds + 1;
      if closed || cleaned {
        return false;
      }
      PublishTransport(socket);
      return true;
    }

    method PublishTransport(socket: nat)
      modifies `transport, `open, `tasks, `slots, `phase
      ensures var bound := old(State()).(transport := Some(socket), open := old(open) + {socket});
        State() == Publish(Publish(bound, Sender), Pipeline).(phase := Started)
    {
      open := open + {socket};
      transport := Some(socket);
      CreateTask(Sender);
      CreateTask(Pipeline);
      phase := Started;
    }

    method CreateTask(k: Kind)
      modifies `tasks, `slots
      ensures State() == Publish(old(State()), k)
    {
      tasks := tasks + [Task(k, Running, closed)];
      slots := slots[k := |tasks| - 1];
    }

    method BeginStop(current: Option<Kind>) returns (begun: bool)
      requires !stopping && Slotted(State())
      modifies `closed, `stopping, `tasks, `spared
      ensures State() == AfterStopBegin(old(State()), current)
      ensures begun <==> !old(cleaned)
    {
      if cleaned {
        return false;
      }
      CancelTasks(current);
      closed, stopping := true, true;
      spared := if current != None && current.value in slots then Some(slots[current.value]) else None;
      return true;
    }

    method CancelTasks(current: Option<Kind>)
      requires Slotted(State())
      modifies `tasks
      ensures tasks == Cancelled(old(State()), current)
    {
      CancelSlot(Pipeline, current);
      ghost var first := tasks;
      CancelSlot(Tts, current);
      ghost var second := tasks;
      CancelSlot(Sender, current);
      ThreeSlots(old(State()), current, first, second, tasks);
    }

    method CancelSlot(k: Kind, current: Option<Kind>)
      modifies `tasks
      ensures |tasks| == old(|tasks|)
      ensures forall i :: 0 <= i < |tasks| ==>
        tasks[i] == Told(old(tasks)[i], k in slots && slots[k] == i && current != Some(k))
    {
      if k in slots && current != Some(k) && slots[k] < |tasks| && tasks[slots[k]].status == Running {
        tasks := tasks[slots[k] := tasks[slots[k]].(status := Cancelling)];
      }
    }

    method FinishStop()
      requires stopping
      modifies `stopping, `cleaned, `releases, `transport, `open
      ensures State() == AfterStopFinish(old(State()))
    {
      if transport != None {
        open := open - {transport.value};
        transport := None;
      }
      releases := releases + 1;
      cleaned := true;
      stopping := false;
    }

    method BeginTurn()
      modifies `slots, `phase
      ensures State() == AfterTurn(old(State()))
    {
      slots := slots - {Tts};
      phase := Asking;
    }

    method Greet()
      requires phase == Started && Works(State())
      modifies `slots, `phase
      ensures State() == AfterGreet(old(State()))
    {
      BeginTurn();
    }

    method LoopHead() returns (again: bool)
      requires Works(State())
      modifies `slots, `phase, `tasks
      ensures State() == NextTurn(old(State()))
      ensures again <==> !closed
    {
      if closed {
        tasks := tasks[slots[Pipeline] := tasks[slots[Pipeline]].(status := Finished)];
        phase := Left;
        return false;
      }
      BeginTurn();
      return true;
    }

    method FinishAsking() returns (waits: bool)
      requires phase == Asking && Works(State())
      modifies `slots, `phase, `tasks
      ensures State() == AfterAskEnds(old(State()))
      ensures waits <==> Tts in old(slots)
    {
      if Tts !in slots {
        var again := LoopHead();
        return false;
      }
      var speech := slots[Tts];
      phase := if speech < |tasks| && tasks[speech].status != Finished then Awaiting(speech) else Draining;
      return true;
    }

    method ResumeAfterSpeech()
      requires phase.Awaiting? && Works(State()) && phase.speech < |tasks| && tasks[phase.speech].status == Finished
      modifies `phase
      ensures State() == AfterSpeechEnds(old(State()))
    {
      phase := Draining;
    }

    method ResumeAfterQueue() returns (again: bool)
      requires phase == Draining && Works(State())
      modifies `slots, `phase, `tasks
      ensures State() == AfterDrained(old(State()))
      ensures again <==> !closed
    {
      again := LoopHead();
    }

    method PipelineSpeaks()
      modifies `tasks, `slots
      ensures State() == AfterTtsEnd(old(State()))
    {
      if Tts in slots && slots[Tts] < |tasks| && tasks[slots[Tts]].status != Finished {
        return;
      }
      CreateTask(Tts);
    }
  }
}
