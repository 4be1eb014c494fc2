/** Endpoint claims: the endpoint registry knows one holder of an endpoint, and as long as nobody takes
    the endpoint behind the call's back, the recorded claims agree with it and are exclusive. */
module RegistryClaims {
  import opened Wrappers
  import opened OrderedDicts
  import opened Tombstones
  import opened RegistryState
  import opened RegistryLegs

  predicate Claims(r: Registry, id: CallId, e: EndpointId)
  {
    e in ClaimsOf(r, id)
  }

  predicate Held(r: Registry, e: EndpointId, holder: CallId)
  {
    r.holders.Some? && e in r.holders.value && r.holders.value[e] == holder
  }

  /** Every recorded claim on the endpoint is what the endpoint registry says. */
  ghost predicate Backed(r: Registry, e: EndpointId)
  {
    forall id :: Claims(r, id, e) ==> Held(r, e, id)
  }

  /** No endpoint that is backed is in the claims of two calls. */
  lemma Exclusive(r: Registry, a: CallId, b: CallId, e: EndpointId)
    requires Backed(r, e) && Claims(r, a, e) && Claims(r, b, e)
    ensures a == b
  {
    assert Held(r, e, a) && Held(r, e, b);
  }

  /** An endpoint in a call's claims is busy for every other call. */
  lemma RecordedIsBusy(r: Registry, id: CallId, endpoint: EndpointId, other: CallId)
    requires Backed(r, Clean(endpoint)) && Claims(r, id, Clean(endpoint)) && Clean(endpoint) != ""
    requires Resolve(r, Clean(other)) !in {id, ""}
    ensures ClaimOutcome(r, other, endpoint, false) == Busy
    ensures ClaimOutcome(r, other, endpoint, true) == Busy <==> !(PHYSICAL <= id)
  {
    assert Held(r, Clean(endpoint), id);
  }

  // ---------- claiming ----------

  lemma ClaimEffect(r: Registry, call: CallId, endpoint: EndpointId, role: string, adopt: bool)
    requires ClaimOutcome(r, call, endpoint, adopt) == Claimed
    ensures var q := ClaimEndpoint(r, call, endpoint, role, adopt);
      var e, id := Clean(endpoint), Resolve(r, Clean(call));
      && r.holders.Some? && q.holders == Some(r.holders.value[e := id])
      && q.claims == r.claims[id := ClaimsOf(r, id)[e := Or(role, "endpoint")]]
  {
  }

  /** A successful claim gives the call the endpoint and touches nobody else's; a failed one, busy
      or not, changes nothing at all. */
  lemma ClaimingIsLocal(r: Registry, call: CallId, endpoint: EndpointId, role: string, adopt: bool,
                        id: CallId, e: EndpointId)
    ensures var q := ClaimEndpoint(r, call, endpoint, role, adopt);
      var won := ClaimOutcome(r, call, endpoint, adopt) == Claimed;
      var mine := id == Resolve(r, Clean(call)) && e == Clean(endpoint);
      && (Claims(q, id, e) <==> Claims(r, id, e) || (won && mine))
      && (Held(q, e, id) <==> if won && e == Clean(endpoint) then mine else Held(r, e, id))
      && (!won ==> q == r)
  {
    if ClaimOutcome(r, call, endpoint, adopt) == Claimed {
      ClaimEffect(r, call, endpoint, role, adopt);
    }
  }

  /** A claim takes an endpoint out of another call's hands when it may adopt, the holder is another call
      whose name begins like that of a physical transport, and the holder's claim is recorded. */
  predicate Adopts(r: Registry, call: CallId, endpoint: EndpointId, adopt: bool)
  {
    var e, id := Clean(endpoint), Resolve(r, Clean(call));
    && adopt && r.holders.Some? && e != "" && id != ""
    && e in r.holders.value && r.holders.value[e] != id
    && PHYSICAL <= r.holders.value[e] && Claims(r, r.holders.value[e], e)
  }

  lemma ClaimBacked(r: Registry, call: CallId, endpoint: EndpointId, role: string, adopt: bool, e: EndpointId)
    requires Backed(r, e)
    ensures Backed(ClaimEndpoint(r, call, endpoint, role, adopt), e)
      <==> !(e == Clean(endpoint) && Adopts(r, call, endpoint, adopt))
  {
    var q := ClaimEndpoint(r, call, endpoint, role, adopt);
    var id := Resolve(r, Clean(call));
    if e == Clean(endpoint) && Adopts(r, call, endpoint, adopt) {
      var victim := r.holders.value[e];
      ClaimingIsLocal(r, call, endpoint, role, adopt, victim, e);
      assert Claims(q, victim, e) && !Held(q, e, victim);
    } else {
      forall s | Claims(q, s, e) ensures Held(q, e, s) {
        ClaimingIsLocal(r, call, endpoint, role, adopt, s, e);
        assert Claims(r, s, e) ==> Held(r, e, s);
      }
    }
  }

  // ---------- phones that report themselves ----------

  /** A phone that reports itself idle takes its endpoint out of the hands of the call that holds it. */
  predicate Idles(r: Registry, endpoint: EndpointId, expected: string)
  {
    IdleFrees(r, endpoint, expected) && Claims(r, r.holders.value[endpoint], endpoint)
  }

  lemma IdleIsLocal(r: Registry, endpoint: EndpointId, expected: string, id: CallId, e: EndpointId)
    ensures var q := TransportIdle(r, endpoint, expected);
      && (Claims(q, id, e) <==> Claims(r, id, e))
      && (Held(q, e, id) <==> Held(r, e, id) && !(e == endpoint && IdleFrees(r, endpoint, expected)))
  {
  }

  /** When the report frees the endpoint, its claims stay backed exactly when no call has any on it. */
  lemma IdleBacked(r: Registry, endpoint: EndpointId, expected: string)
    requires Backed(r, endpoint) && IdleFrees(r, endpoint, expected)
    ensures Backed(TransportIdle(r, endpoint, expected), endpoint) <==> forall id :: !Claims(r, id, endpoint)
    ensures Idles(r, endpoint, expected) <==> exists id :: Claims(r, id, endpoint)
  {
    var q := TransportIdle(r, endpoint, expected);
    forall id ensures Claims(q, id, endpoint) <==> Claims(r, id, endpoint)
              ensures !Held(q, endpoint, id)
    {
      IdleIsLocal(r, endpoint, expected, id, endpoint);
    }
    forall id | Claims(r, id, endpoint) ensures id == r.holders.value[endpoint] {
      assert Held(r, endpoint, id);
    }
  }

  lemma IdleElsewhere(r: Registry, endpoint: EndpointId, expected: string, e: EndpointId)
    requires Backed(r, e) && !(e == endpoint && IdleFrees(r, endpoint, expected))
    ensures Backed(TransportIdle(r, endpoint, expected), e)
  {
    forall id | Claims(TransportIdle(r, endpoint, expected), id, e)
      ensures Held(TransportIdle(r, endpoint, expected), e, id)
    {
      IdleIsLocal(r, endpoint, expected, id, e);
    }
  }

  lemma BusyBacked(r: Registry, endpoint: EndpointId, token: string, e: EndpointId)
    requires Backed(r, e)
    ensures Backed(TransportBusy(r, endpoint, token), e)
  {
    var q := TransportBusy(r, endpoint, token);
    forall id | Claims(q, id, e) ensures Held(q, e, id) {
      assert Claims(r, id, e);
      assert Held(r, e, id);
    }
  }

  // ---------- releasing ----------

  /** Releasing a call's claims frees what they held and nothing else. */
  lemma ReleaseFreesItsOwn(r: Registry, call: CallId, id: CallId, e: EndpointId)
    ensures var q, mine := ReleaseClaims(r, call), Resolve(r, Clean(call));
      && (Claims(q, id, e) <==> Claims(r, id, e) && id != mine)
      && (Held(q, e, id) <==> Held(r, e, id) && !(id == mine && Claims(r, id, e)))
  {
    var q, mine := ReleaseClaims(r, call), Resolve(r, Clean(call));
    assert q.claims == r.claims - {mine};
  }

  lemma ReleaseBacked(r: Registry, call: CallId, e: EndpointId)
    requires Backed(r, e)
    ensures Backed(ReleaseClaims(r, call), e)
  {
    forall id | Claims(ReleaseClaims(r, call), id, e) ensures Held(ReleaseClaims(r, call), e, id) {
      ReleaseFreesItsOwn(r, call, id, e);
    }
  }

  lemma ReleaseOneEffect(r: Registry, call: CallId, endpoint: EndpointId)
    ensures var q := ReleaseClaim(r, call, endpoint);
      var e, mine := Clean(endpoint), Resolve(r, Clean(call));
      if e == "" || !Claims(r, mine, e) then q == r
      else
        && q.claims == (if ClaimsOf(r, mine) - {e} == map[] then r.claims - {mine}
                        else r.claims[mine := ClaimsOf(r, mine) - {e}])
        && q.holders == (if ClaimReleased(r, call, endpoint) then Some(r.holders.value - {e}) else r.holders)
  {
  }

  /** Releasing one claim frees that endpoint, if it was the call's, and nothing else. */
  lemma ReleaseFreesOne(r: Registry, call: CallId, endpoint: EndpointId, id: CallId, e: EndpointId)
    ensures var q := ReleaseClaim(r, call, endpoint);
      var it := id == Resolve(r, Clean(call)) && e == Clean(endpoint) && e != "";
      && (Claims(q, id, e) <==> Claims(r, id, e) && !it)
      && (Held(q, e, id) <==> Held(r, e, id) && !(it && Claims(r, id, e)))
  {
    var mine := Resolve(r, Clean(call));
    ReleaseOneEffect(r, call, endpoint);
    if Clean(endpoint) != "" && Claims(r, mine, Clean(endpoint)) {
      if ClaimsOf(r, mine) - {Clean(endpoint)} == map[] {
        assert forall x :: Claims(r, mine, x) ==> x == Clean(endpoint) || x in ClaimsOf(r, mine) - {Clean(endpoint)};
      }
    }
  }

  lemma ReleaseOneBacked(r: Registry, call: CallId, endpoint: EndpointId, e: EndpointId)
    requires Backed(r, e)
    ensures Backed(ReleaseClaim(r, call, endpoint), e)
  {
    forall id | Claims(ReleaseClaim(r, call, endpoint), id, e) ensures Held(ReleaseClaim(r, call, endpoint), e, id) {
      ReleaseFreesOne(r, call, endpoint, id, e);
    }
  }

  lemma ClearBacked(r: Registry, e: EndpointId)
    requires Backed(r, e)
    ensures Backed(Cleared(r), e)
  {
    var q := Cleared(r);
    var ids := ReleasedIds(r, r.claims.Keys);
    assert q.claims == r.claims - ids;
    forall id | Claims(q, id, e) ensures Held(q, e, id) {
      assert Claims(r, id, e) && id !in ids;
      assert Held(r, e, id);
    }
  }

  // ---------- the end of a call ----------

  lemma PopClaims(r: Registry, call: CallId)
    ensures var q := ReleaseClaims(r, Resolve(r, Clean(call)));
      Pop(r, call).claims == q.claims && Pop(r, call).holders == q.holders
  {
  }

  lemma ReleaseReads(a: Registry, b: Registry, call: CallId)
    requires a.claims == b.claims && a.holders == b.holders && a.legIndex == b.legIndex
    ensures ReleaseClaims(a, call).claims == ReleaseClaims(b, call).claims
    ensures ReleaseClaims(a, call).holders == ReleaseClaims(b, call).holders
  {
  }

  lemma FinishAndPopClaims(r: Registry, call: CallId, reason: string, state: string)
    ensures var q := ReleaseClaims(r, Resolve(r, Clean(call)));
      FinishAndPop(r, call, reason, state).claims == q.claims && FinishAndPop(r, call, reason, state).holders == q.holders
  {
    var q := if Resolve(r, Clean(call)) == "" then r else Buried(r, call);
    var q1 := Finish(q, call, reason, state);
    PopClaims(q1, call);
    ReleaseReads(r, q1, Resolve(r, Clean(call)));
  }

  /** The claims released when a call ends are those of the session its id stands for, as long as that
      session's id carries no surrounding space. */
  lemma EndsUnderOneId(r: Registry, call: CallId)
    requires Indexed(r) && Clean(Resolve(r, Clean(call))) == Resolve(r, Clean(call))
    ensures var id := Resolve(r, Clean(call)); Resolve(r, Clean(id)) == id
  {
    ResolveIsIdempotent(r, Clean(call));
  }

  /** Ending a call, by its own id or by any of its legs, frees exactly the endpoints claimed under the id
      that its session's id, once cleaned, stands for: its own, when it needs no cleaning. */
  lemma FinishFreesItsOwn(r: Registry, call: CallId, reason: string, state: string, id: CallId, e: EndpointId)
    ensures var q, session := FinishAndPop(r, call, reason, state), Resolve(r, Clean(call));
      var mine := Resolve(r, Clean(session));
      && (Claims(q, id, e) <==> Claims(r, id, e) && id != mine)
      && (Held(q, e, id) <==> Held(r, e, id) && !(id == mine && Claims(r, id, e)))
      && (Indexed(r) && Clean(session) == session ==> mine == session)
  {
    FinishAndPopClaims(r, call, reason, state);
    if Indexed(r) && Clean(Resolve(r, Clean(call))) == Resolve(r, Clean(call)) {
      EndsUnderOneId(r, call);
    }
    ReleaseFreesItsOwn(r, Resolve(r, Clean(call)), id, e);
  }

  // ---------- every step and every run ----------

  predicate LeavesClaims(op: Op)
  {
    !(op.OpClaim? || op.OpReleaseClaims? || op.OpReleaseClaim? || op.OpTransportBusy? || op.OpTransportIdle? || op.OpPop?
      || op.OpFinishAndPop? || op.OpClear?)
  }

  lemma ClaimsLeftAlone(r: Registry, op: Op)
    requires LeavesClaims(op)
    ensures Step(r, op).claims == r.claims && Step(r, op).holders == r.holders
  {
  }

  lemma SameClaimsBacked(a: Registry, b: Registry, e: EndpointId)
    requires a.claims == b.claims && a.holders == b.holders && Backed(a, e)
    ensures Backed(b, e)
  {
    forall id | Claims(b, id, e) ensures Held(b, e, id) {
      assert Claims(a, id, e);
      assert Held(a, e, id);
    }
  }

  /** A step takes an endpoint behind the back of the call that claimed it. */
  predicate Takes(r: Registry, op: Op, e: EndpointId)
  {
    || (op.OpClaim? && e == Clean(op.endpoint) && Adopts(r, op.call, op.endpoint, op.adopt))
    || (op.OpTransportIdle? && e == op.endpoint && Idles(r, op.endpoint, op.expectedHolder))
  }

  lemma IdleStepBacked(r: Registry, op: Op, e: EndpointId)
    requires op.OpTransportIdle? && Backed(r, e)
    ensures Backed(Step(r, op), e) <==> !Takes(r, op, e)
  {
    if e == op.endpoint && IdleFrees(r, op.endpoint, op.expectedHolder) {
      IdleBacked(r, op.endpoint, op.expectedHolder);
    } else {
      IdleElsewhere(r, op.endpoint, op.expectedHolder, e);
    }
  }

  lemma EndStepBacked(r: Registry, op: Op, e: EndpointId)
    requires (op.OpPop? || op.OpFinishAndPop?) && Backed(r, e)
    ensures Backed(Step(r, op), e)
  {
    if op.OpPop? {
      PopClaims(r, op.call);
    } else {
      FinishAndPopClaims(r, op.call, op.reason, op.state);
    }
    ReleaseBacked(r, Resolve(r, Clean(op.call)), e);
    SameClaimsBacked(ReleaseClaims(r, Resolve(r, Clean(op.call))), Step(r, op), e);
  }

  /** The claims on an endpoint stay backed over a step exactly when the step does not take the endpoint. */
  lemma StepBacked(r: Registry, op: Op, e: EndpointId)
    requires Backed(r, e)
    ensures Backed(Step(r, op), e) <==> !Takes(r, op, e)
  {
    if op.OpClaim? {
      ClaimBacked(r, op.call, op.endpoint, op.role, op.adopt, e);
    } else if op.OpReleaseClaims? {
      ReleaseBacked(r, op.call, e);
    } else if op.OpReleaseClaim? {
      ReleaseOneBacked(r, op.call, op.endpoint, e);
    } else if op.OpTransportBusy? {
      BusyBacked(r, op.endpoint, op.provisional, e);
    } else if op.OpTransportIdle? {
      IdleStepBacked(r, op, e);
    } else if op.OpPop? || op.OpFinishAndPop? {
      EndStepBacked(r, op, e);
    } else if op.OpClear? {
      ClearBacked(r, e);
    } else {
      ClaimsLeftAlone(r, op);
      SameClaimsBacked(r, Step(r, op), e);
    }
  }

  /** Some step of a run takes the endpoint. */
  predicate RunTakes(r: Registry, ops: seq<Op>, e: EndpointId)
    decreases |ops|
  {
    ops != [] && (Takes(r, ops[0], e) || RunTakes(Step(r, ops[0]), ops[1..], e))
  }

  /** Over every run that takes an endpoint from nobody its claims stay backed, hence exclusive, whatever
      happens to other endpoints; and the step that takes it is seen at once. */
  lemma {:induction false} RunBacked(r: Registry, ops: seq<Op>, e: EndpointId)
    requires Backed(r, e) && !RunTakes(r, ops, e)
    ensures Backed(Run(r, ops), e)
    ensures forall op :: Takes(Run(r, ops), op, e) ==> !Backed(Step(Run(r, ops), op), e)
    decreases |ops|
  {
    if ops == [] {
      forall op | Takes(r, op, e) ensures !Backed(Step(r, op), e) {
        StepBacked(r, op, e);
      }
    } else {
      StepBacked(r, ops[0], e);
      RunBacked(Step(r, ops[0]), ops[1..], e);
    }
  }

  // ---------- exclusive claims ----------

  /** At most one call claims the endpoint, whatever the endpoint registry says. */
  ghost predicate Sole(r: Registry, e: EndpointId)
  {
    forall a, b :: Claims(r, a, e) && Claims(r, b, e) ==> a == b
  }

  /** A claim is granted on an endpoint while the claim of another call on it is recorded. */
  ghost predicate Doubles(r: Registry, op: Op, e: EndpointId)
  {
    && op.OpClaim? && e == Clean(op.endpoint) && ClaimOutcome(r, op.call, op.endpoint, op.adopt) == Claimed
    && exists id :: id != Resolve(r, Clean(op.call)) && Claims(r, id, e)
  }

  lemma FewerClaims(r: Registry, op: Op, id: CallId, e: EndpointId)
    requires !op.OpClaim?
    ensures Claims(Step(r, op), id, e) ==> Claims(r, id, e)
  {
    if op.OpReleaseClaims? {
      ReleaseFreesItsOwn(r, op.call, id, e);
    } else if op.OpReleaseClaim? {
      ReleaseFreesOne(r, op.call, op.endpoint, id, e);
    } else if op.OpPop? {
      PopClaims(r, op.call);
      ReleaseFreesItsOwn(r, Resolve(r, Clean(op.call)), id, e);
    } else if op.OpFinishAndPop? {
      FinishFreesItsOwn(r, op.call, op.reason, op.state, id, e);
    } else if LeavesClaims(op) {
      ClaimsLeftAlone(r, op);
    }
  }

  /** Claims on an endpoint stay exclusive over a step exactly when it grants no claim on it beside the
      recorded claim of another call. */
  lemma StepSole(r: Registry, op: Op, e: EndpointId)
    requires Sole(r, e)
    ensures Sole(Step(r, op), e) <==> !Doubles(r, op, e)
  {
    forall id ensures !op.OpClaim? ==> (Claims(Step(r, op), id, e) ==> Claims(r, id, e)) {
      if !op.OpClaim? {
        FewerClaims(r, op, id, e);
      }
    }
    if op.OpClaim? {
      ClaimSole(r, op.call, op.endpoint, op.role, op.adopt, e);
    }
  }

  lemma ClaimSole(r: Registry, call: CallId, endpoint: EndpointId, role: string, adopt: bool, e: EndpointId)
    requires Sole(r, e)
    ensures Sole(ClaimEndpoint(r, call, endpoint, role, adopt), e) <==>
      !(&& e == Clean(endpoint) && ClaimOutcome(r, call, endpoint, adopt) == Claimed
        && exists id :: id != Resolve(r, Clean(call)) && Claims(r, id, e))
  {
    var q := ClaimEndpoint(r, call, endpoint, role, adopt);
    var mine, won := Resolve(r, Clean(call)), ClaimOutcome(r, call, endpoint, adopt) == Claimed && e == Clean(endpoint);
    forall id ensures Claims(q, id, e) <==> (Claims(r, id, e) || (won && id == mine)) {
      ClaimingIsLocal(r, call, endpoint, role, adopt, id, e);
    }
    if won && exists id :: id != mine && Claims(r, id, e) {
      var id :| id != mine && Claims(r, id, e);
      assert Claims(q, id, e) && Claims(q, mine, e);
    }
  }

  ghost predicate RunDoubles(r: Registry, ops: seq<Op>, e: EndpointId)
    decreases |ops|
  {
    ops != [] && (Doubles(r, ops[0], e) || RunDoubles(Step(r, ops[0]), ops[1..], e))
  }

  lemma {:induction false} RunSole(r: Registry, ops: seq<Op>, e: EndpointId)
    requires Sole(r, e) && !RunDoubles(r, ops, e)
    ensures Sole(Run(r, ops), e)
    decreases |ops|
  {
    if ops != [] {
      StepSole(r, ops[0], e);
      RunSole(Step(r, ops[0]), ops[1..], e);
    }
  }

  // ---------- ordinary runs ----------

  /** No call that has claims, or that a leg stands for, is named like a physical transport. */
  ghost predicate PlainNames(r: Registry)
  {
    && (forall id :: id in r.claims ==> !(PHYSICAL <= id))
    && (forall leg :: leg in r.legIndex ==> !(PHYSICAL <= r.legIndex[leg]))
  }

  /** An operation that names no call like a physical transport. */
  predicate NamesPlainly(op: Op)
  {
    match op
    case OpClaim(call, _, _, _) => !(PHYSICAL <= Clean(call))
    case OpAddLeg(call, _, _) => !(PHYSICAL <= call)
    case OpRegisterBridge(source, _, _, _, _) => !(PHYSICAL <= source)
    case _ => true
  }

  /** Ids go into the claims and the leg index only from where operations name them. */
  lemma NameAfter(r: Registry, op: Op, id: CallId)
    requires id in Step(r, op).claims
    ensures id in r.claims || (op.OpClaim? && id == Resolve(r, Clean(op.call)))
  {
    if op.OpClaim? {
      ClaimNames(r, op.call, op.endpoint, op.role, op.adopt);
    } else if op.OpReleaseClaim? {
      ReleaseOneEffect(r, op.call, op.endpoint);
    } else if op.OpPop? {
      PopClaims(r, op.call);
    } else if op.OpFinishAndPop? {
      FinishAndPopClaims(r, op.call, op.reason, op.state);
    } else if LeavesClaims(op) {
      ClaimsLeftAlone(r, op);
    } else {
      OnlyFewer(r, op);
    }
  }

  lemma ClaimNames(r: Registry, call: CallId, endpoint: EndpointId, role: string, adopt: bool)
    ensures ClaimEndpoint(r, call, endpoint, role, adopt).claims.Keys <= r.claims.Keys + {Resolve(r, Clean(call))}
  {
  }

  lemma OnlyFewer(r: Registry, op: Op)
    requires op.OpReleaseClaims? || op.OpTransportBusy? || op.OpTransportIdle? || op.OpClear?
    ensures Step(r, op).claims.Keys <= r.claims.Keys
  {
  }

  lemma LegNamesAfter(r: Registry, op: Op, leg: CallId)
    requires leg in Step(r, op).legIndex
    ensures (leg in r.legIndex && Step(r, op).legIndex[leg] == r.legIndex[leg])
      || (op.OpAddLeg? && Step(r, op).legIndex[leg] == op.call)
      || (op.OpRegisterBridge? && Step(r, op).legIndex[leg] == op.source)
  {
    if op.OpPop? {
      PopLegs(r, op.call);
    } else if op.OpFinishAndPop? {
      var q := if Resolve(r, Clean(op.call)) == "" then r else Buried(r, op.call);
      PopLegs(Finish(q, op.call, op.reason, op.state), op.call);
    } else if !MovesLegs(op) {
      OtherSameLegs(r, op);
    }
  }

  lemma StepPlain(r: Registry, op: Op)
    requires PlainNames(r) && NamesPlainly(op)
    ensures PlainNames(Step(r, op))
    ensures !(op.OpClaim? && Adopts(r, op.call, op.endpoint, op.adopt))
  {
    forall id | id in Step(r, op).claims ensures !(PHYSICAL <= id) {
      NameAfter(r, op, id);
    }
    forall leg | leg in Step(r, op).legIndex ensures !(PHYSICAL <= Step(r, op).legIndex[leg]) {
      LegNamesAfter(r, op, leg);
    }
  }

  /** In a run that names no call like a physical transport an endpoint is taken only by its own phone
      reporting itself idle: without such reports its claims stay backed and exclusive throughout. */
  lemma {:induction false} OrdinaryRun(r: Registry, ops: seq<Op>, e: EndpointId)
    requires Backed(r, e) && PlainNames(r)
    requires forall i :: 0 <= i < |ops| ==> NamesPlainly(ops[i]) && !(ops[i].OpTransportIdle? && ops[i].endpoint == e)
    ensures !RunTakes(r, ops, e) && Backed(Run(r, ops), e)
    decreases |ops|
  {
    if ops != [] {
      StepPlain(r, ops[0]);
      StepBacked(r, ops[0], e);
      OrdinaryRun(Step(r, ops[0]), ops[1..], e);
    }
  }

  // ---------- what goes wrong, and what does not ----------

  /** Two calls and a free endpoint, all under clean ids of their own. */
  predicate TwoCalls(r: Registry, a: CallId, b: CallId, e: EndpointId)
  {
    && r.holders.Some? && e !in r.holders.value && e != "" && Clean(e) == e
    && a != b && a != "" && Clean(a) == a && Resolve(r, a) == a
    && b != "" && Clean(b) == b && Resolve(r, b) == b
  }

  lemma ClaimsFree(r: Registry, a: CallId, e: EndpointId, role: string, adopt: bool)
    requires r.holders.Some? && e !in r.holders.value && e != "" && Clean(e) == e
    requires a != "" && Clean(a) == a && Resolve(r, a) == a
    ensures var q := ClaimEndpoint(r, a, e, role, adopt);
      && Claims(q, a, e) && Held(q, e, a) && q.legIndex == r.legIndex
      && forall id :: Claims(r, id, e) ==> Claims(q, id, e)
  {
    forall id ensures Claims(r, id, e) ==> Claims(ClaimEndpoint(r, a, e, role, adopt), id, e) {
      ClaimingIsLocal(r, a, e, role, adopt, id, e);
    }
    ClaimingIsLocal(r, a, e, role, adopt, a, e);
  }

  /** Two recorded claims on an endpoint that the registry gave to the second call. */
  ghost predicate BothClaim(q: Registry, a: CallId, b: CallId, e: EndpointId)
  {
    Claims(q, a, e) && Claims(q, b, e) && Held(q, e, b) && !Held(q, e, a)
  }

  lemma BothAfterIdle(r: Registry, a: CallId, b: CallId, e: EndpointId, role: string)
    requires TwoCalls(r, a, b, e)
    ensures var q := TransportIdle(ClaimEndpoint(r, a, e, role, false), e, "");
      BothClaim(ClaimEndpoint(q, b, e, role, false), a, b, e)
  {
    var q0 := ClaimEndpoint(r, a, e, role, false);
    ClaimsFree(r, a, e, role, false);
    IdleIsLocal(q0, e, "", a, e);
    ClaimsFree(TransportIdle(q0, e, ""), b, e, role, false);
  }

  lemma BothAfterAdoption(r: Registry, a: CallId, b: CallId, e: EndpointId, role: string)
    requires TwoCalls(r, a, b, e) && PHYSICAL <= a
    ensures BothClaim(ClaimEndpoint(ClaimEndpoint(r, a, e, role, false), b, e, role, true), a, b, e)
  {
    var q0 := ClaimEndpoint(r, a, e, role, false);
    ClaimsFree(r, a, e, role, false);
    ClaimingIsLocal(q0, b, e, role, true, a, e);
    ClaimingIsLocal(q0, b, e, role, true, b, e);
  }

  /** A call claims an endpoint, its phone reports itself idle, another call claims it: both claims are
      recorded, and the registry knows the second. */
  lemma IdleLetsTwoCallsClaim(r: Registry, a: CallId, b: CallId, e: EndpointId, role: string)
    requires TwoCalls(r, a, b, e)
    ensures BothClaim(Run(r, [OpClaim(a, e, role, false), OpTransportIdle(e, ""), OpClaim(b, e, role, false)]), a, b, e)
  {
    BothAfterIdle(r, a, b, e, role);
    RunThree(r, OpClaim(a, e, role, false), OpTransportIdle(e, ""), OpClaim(b, e, role, false));
  }

  /** A call named like a physical transport claims an endpoint and another call adopts it: both claims are
      recorded, and the registry knows the second. */
  lemma AdoptionLetsTwoCallsClaim(r: Registry, a: CallId, b: CallId, e: EndpointId, role: string)
    requires TwoCalls(r, a, b, e) && PHYSICAL <= a
    ensures BothClaim(Run(r, [OpClaim(a, e, role, false), OpClaim(b, e, role, true)]), a, b, e)
  {
    BothAfterAdoption(r, a, b, e, role);
    RunTwo(r, OpClaim(a, e, role, false), OpClaim(b, e, role, true));
  }

  /** The call under whose id an operation releases claims. */
  function Releaser(r: Registry, op: Op): Option<CallId>
  {
    if op.OpReleaseClaims? || op.OpReleaseClaim? then Some(Resolve(r, Clean(op.call)))
    else if op.OpPop? || op.OpFinishAndPop? then Some(Resolve(r, Clean(Resolve(r, Clean(op.call)))))
    else None
  }

  /** Whether an operation releases the claim on an endpoint, if its releaser has one. */
  predicate Releases(op: Op, e: EndpointId)
  {
    op.OpReleaseClaims? || op.OpPop? || op.OpFinishAndPop? || (op.OpReleaseClaim? && e != "" && Clean(op.endpoint) == e)
  }

  lemma ReleasedOnly(r: Registry, op: Op, mine: CallId, id: CallId, e: EndpointId)
    requires Releases(op, e) && Releaser(r, op) == Some(mine)
    ensures Claims(Step(r, op), id, e) <==> Claims(r, id, e) && id != mine
    ensures Held(Step(r, op), e, id) <==> Held(r, e, id) && !(id == mine && Claims(r, id, e))
  {
    if op.OpReleaseClaims? {
      ReleaseFreesItsOwn(r, op.call, id, e);
    } else if op.OpReleaseClaim? {
      ReleaseFreesOne(r, op.call, op.endpoint, id, e);
    } else if op.OpPop? {
      PopClaims(r, op.call);
      ReleaseFreesItsOwn(r, Resolve(r, Clean(op.call)), id, e);
    } else {
      FinishFreesItsOwn(r, op.call, op.reason, op.state, id, e);
    }
  }

  /** In every registry, backed or not: after a release claims and endpoint registry agree about the
      endpoint exactly when the claims of all others were what the registry says. */
  lemma ReleaseRestores(r: Registry, op: Op, mine: CallId, e: EndpointId)
    requires Releases(op, e) && Releaser(r, op) == Some(mine)
    ensures Backed(Step(r, op), e) <==> forall id :: id != mine && Claims(r, id, e) ==> Held(r, e, id)
  {
    forall id
      ensures Claims(Step(r, op), id, e) <==> Claims(r, id, e) && id != mine
      ensures id != mine ==> (Held(Step(r, op), e, id) <==> Held(r, e, id))
    {
      ReleasedOnly(r, op, mine, id, e);
    }
  }

  /** So once the call with the stale claim releases it or ends, the agreement is back, and the other call
      still has its endpoint. */
  lemma AgreementReturns(q: Registry, a: CallId, b: CallId, e: EndpointId, op: Op)
    requires BothClaim(q, a, b, e) && forall id :: Claims(q, id, e) ==> id in {a, b}
    requires Releases(op, e) && Releaser(q, op) == Some(a)
    ensures Backed(Step(q, op), e) && Claims(Step(q, op), b, e) && Held(Step(q, op), e, b)
  {
    ReleaseRestores(q, op, a, e);
    ReleasedOnly(q, op, a, b, e);
  }

  /** In every registry, backed or not: among all that claim an endpoint at most one is its holder, and a
      release by any other call, stale claims and all, leaves the holder its endpoint and its claims. */
  lemma HolderKeepsItsOwn(r: Registry, op: Op, holder: CallId, other: CallId, e: EndpointId)
    requires Held(r, e, holder)
    ensures Held(r, e, other) ==> other == holder
    ensures Releaser(r, op).Some? && Releaser(r, op) != Some(holder) ==>
      Held(Step(r, op), e, holder) && (Claims(Step(r, op), holder, e) <==> Claims(r, holder, e))
  {
    if op.OpReleaseClaim? {
      ReleaseFreesOne(r, op.call, op.endpoint, holder, e);
    } else if Releaser(r, op).Some? {
      ReleasedOnly(r, op, Releaser(r, op).value, holder, e);
    }
  }
}
