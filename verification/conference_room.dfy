/** Membership of a conference room. Joining waits for a socket and leaving waits for a dialog to end,
    so joins, leaves and closes interleave; every port reservation must survive that exactly once. */
module ConferenceRooms {
  import opened Wrappers
  import opened Mixing

  type CallId = string
  type Token = nat

  datatype Leg = Leg(call: CallId, reservation: Option<Token>, client: Option<Token>, local: bool)

  /** One reservation given back: the client it came with, if any, and whether the leg had joined and was
      disposed of, or its join was refused or failed. */
  datatype Release = Release(token: Token, client: Option<Token>, disposed: bool)

  /** Joins waiting for their socket, live legs, detached legs whose client is still closing, detached
      legs ready to give back their ports, and the reservations given back. Owned are all the
      reservations ever handed to the room. */
  datatype Room = Room(
    joins: seq<Leg>, legs: seq<Leg>, closing: seq<Leg>, ready: seq<Leg>, released: seq<Release>,
    owned: set<Token>, clientsClosed: set<Token>, closed: bool, closeRequested: bool)

  const NEW: Room := Room([], [], [], [], [], {}, {}, false, false)

  /** What comes of a socket bind and of setting up the leg after it. */
  datatype Outcome = BindFails | SetupFails | AnnounceFails | Succeeds

  datatype Op =
    | Join(call: CallId, token: Token)
    | AddClient(call: CallId, client: Token, token: Token, hasDialog: bool)
    | Bound(join: nat, outcome: Outcome)
    | AddBrowser(call: CallId)
    | Leave(call: CallId)
    | RequestClose
    | RunClose
    | ClientDone(closing: nat)
    | Dispose(ready: nat)

  // ---------- legs by call id ----------

  /** Publishing a leg takes the place of one of the same call. */
  function Published(legs: seq<Leg>, leg: Leg): seq<Leg>
  {
    if legs == [] then [leg]
    else if legs[0].call == leg.call then [leg] + legs[1..]
    else [legs[0]] + Published(legs[1..], leg)
  }

  function Without(legs: seq<Leg>, call: CallId): seq<Leg>
  {
    if legs == [] then [] else if legs[0].call == call then legs[1..] else [legs[0]] + Without(legs[1..], call)
  }

  function Find(legs: seq<Leg>, call: CallId): Option<Leg>
  {
    if legs == [] then None else if legs[0].call == call then Some(legs[0]) else Find(legs[1..], call)
  }

  predicate In(legs: seq<Leg>, call: CallId)
  {
    Find(legs, call).Some?
  }

  function Drop<T>(s: seq<T>, i: nat): seq<T>
    requires i < |s|
  {
    s[..i] + s[i + 1..]
  }

  // ---------- the steps ----------

  predicate Full(r: Room, call: CallId)
  {
    !In(r.legs, call) && |r.legs| >= MAX_CONFERENCE_LEGS
  }

  /** A join that is refused or fails gives its reservation back, and leaves its client to the caller. */
  function GivenBack(r: Room, token: Token, client: Option<Token>): Room
  {
    r.(released := r.released + [Release(token, client, false)])
  }

  /** A call that is refused at once when the room is full gets no reservation. */
  function AfterJoin(r: Room, call: CallId, token: Token): Room
  {
    if |r.legs| >= MAX_CONFERENCE_LEGS then r
    else r.(owned := r.owned + {token}, joins := r.joins + [Leg(call, Some(token), None, false)])
  }

  /** A client brings its reservation; refusing it at once gives that back. */
  function AfterAddClient(r: Room, call: CallId, client: Token, token: Token, hasDialog: bool): Room
  {
    var q := r.(owned := r.owned + {token});
    if r.closed || Full(r, call) || !hasDialog then GivenBack(q, token, Some(client))
    else q.(joins := r.joins + [Leg(call, Some(token), Some(client), false)])
  }

  predicate Admits(r: Room, leg: Leg)
  {
    !r.closed && !Full(r, leg.call)
  }

  /** The socket is bound, or not. Capacity is checked again before the leg is published; an error
      after that takes the published leg out again. */
  function AfterBound(r: Room, i: nat, outcome: Outcome): Room
    requires i < |r.joins| && r.joins[i].reservation.Some?
  {
    var leg, q := r.joins[i], r.(joins := Drop(r.joins, i));
    if outcome.BindFails? || !Admits(r, leg) || outcome.SetupFails? then GivenBack(q, leg.reservation.value, leg.client)
    else if outcome.AnnounceFails? then
      GivenBack(q.(legs := Without(Published(r.legs, leg), leg.call)), leg.reservation.value, leg.client)
    else q.(legs := Published(r.legs, leg))
  }

  /** A browser leg has no socket to wait for. Whether the room is closed is not asked. */
  function AfterAddBrowser(r: Room, call: CallId): Room
  {
    if Publishes(r, call) then r.(legs := Published(r.legs, Leg(call, None, None, true))) else r
  }

  predicate Publishes(r: Room, call: CallId)
  {
    !(Find(r.legs, call).Some? && Find(r.legs, call).value.local) && |r.legs| < MAX_CONFERENCE_LEGS
  }

  function Detach(r: Room, leg: Leg): Room
  {
    if leg.client.Some? then r.(closing := r.closing + [leg]) else r.(ready := r.ready + [leg])
  }

  function AfterLeave(r: Room, call: CallId): Room
  {
    match Find(r.legs, call)
    case None => r
    case Some(leg) => Detach(r.(legs := Without(r.legs, call)), leg)
  }

  function DetachAll(r: Room, legs: seq<Leg>): Room
    decreases |legs|
  {
    if legs == [] then r else DetachAll(Detach(r, legs[0]), legs[1..])
  }

  function AfterClose(r: Room): Room
  {
    if !r.closeRequested || r.closed then r else DetachAll(r.(closed := true, legs := []), r.legs)
  }

  function AfterClientDone(r: Room, i: nat): Room
    requires i < |r.closing|
  {
    var leg := r.closing[i];
    r.(closing := Drop(r.closing, i), ready := r.ready + [leg],
       clientsClosed := if leg.client.Some? then r.clientsClosed + {leg.client.value} else r.clientsClosed)
  }

  function AfterDispose(r: Room, i: nat): Room
    requires i < |r.ready|
  {
    var leg := r.ready[i];
    r.(ready := Drop(r.ready, i),
       released := if leg.reservation.Some? then r.released + [Release(leg.reservation.value, leg.client, true)]
                   else r.released)
  }

  function Step(r: Room, op: Op): Room
  {
    match op
    case Join(call, t) => AfterJoin(r, call, t)
    case AddClient(call, c, t, d) => AfterAddClient(r, call, c, t, d)
    case Bound(i, o) => if i < |r.joins| && r.joins[i].reservation.Some? then AfterBound(r, i, o) else r
    case AddBrowser(call) => AfterAddBrowser(r, call)
    case Leave(call) => AfterLeave(r, call)
    case RequestClose => r.(closeRequested := true)
    case RunClose => AfterClose(r)
    case ClientDone(i) => if i < |r.closing| then AfterClientDone(r, i) else r
    case Dispose(i) => if i < |r.ready| then AfterDispose(r, i) else r
  }

  function Run(r: Room, ops: seq<Op>): Room
    decreases |ops|
  {
    if ops == [] then r else Run(Step(r, ops[0]), ops[1..])
  }

  // ---------- counting legs ----------

  function One(b: bool): nat
  {
    if b then 1 else 0
  }

  /** How many legs of a list have a property. */
  function Count(legs: seq<Leg>, f: Leg -> bool): nat
  {
    if legs == [] then 0 else One(f(legs[0])) + Count(legs[1..], f)
  }

  function Holding(t: Token): Leg -> bool
  {
    (leg: Leg) => leg.reservation == Some(t)
  }

  function Calling(call: CallId): Leg -> bool
  {
    (leg: Leg) => leg.call == call
  }

  function Found(known: Option<Leg>, f: Leg -> bool): nat
  {
    match known case None => 0 case Some(leg) => One(f(leg))
  }

  lemma {:induction false} CountAppend(a: seq<Leg>, leg: Leg, f: Leg -> bool)
    ensures Count(a + [leg], f) == Count(a, f) + One(f(leg))
    decreases |a|
  {
    if a == [] {
      assert a + [leg] == [leg] && [leg][1..] == [];
      assert Count([leg], f) == One(f(leg)) + Count([], f);
    } else {
      assert (a + [leg])[0] == a[0] && (a + [leg])[1..] == a[1..] + [leg];
      CountAppend(a[1..], leg, f);
    }
  }

  lemma {:induction false} CountDrop(a: seq<Leg>, i: nat, f: Leg -> bool)
    requires i < |a|
    ensures Count(a, f) == Count(Drop(a, i), f) + One(f(a[i]))
    decreases i
  {
    if i == 0 {
      assert Drop(a, 0) == a[1..];
    } else {
      CountDrop(a[1..], i - 1, f);
      assert Drop(a, i)[0] == a[0] && Drop(a, i)[1..] == Drop(a[1..], i - 1);
    }
  }

  lemma {:induction false} CountPublished(legs: seq<Leg>, leg: Leg, f: Leg -> bool)
    ensures Count(Published(legs, leg), f) + Found(Find(legs, leg.call), f) == Count(legs, f) + One(f(leg))
    ensures Find(Published(legs, leg), leg.call) == Some(leg)
    ensures |Published(legs, leg)| == |legs| + One(!In(legs, leg.call))
    decreases |legs|
  {
    if legs == [] {
      CountAppend([], leg, f);
      assert [] + [leg] == [leg];
    } else if legs[0].call == leg.call {
      assert ([leg] + legs[1..])[1..] == legs[1..];
    } else {
      CountPublished(legs[1..], leg, f);
      assert ([legs[0]] + Published(legs[1..], leg))[1..] == Published(legs[1..], leg);
    }
  }

  lemma {:induction false} CountWithout(legs: seq<Leg>, call: CallId, f: Leg -> bool)
    ensures Count(Without(legs, call), f) + Found(Find(legs, call), f) == Count(legs, f)
    ensures |Without(legs, call)| + One(In(legs, call)) == |legs|
    decreases |legs|
  {
    if legs != [] && legs[0].call != call {
      CountWithout(legs[1..], call, f);
      assert ([legs[0]] + Without(legs[1..], call))[1..] == Without(legs[1..], call);
    }
  }

  lemma {:induction false} CountFound(legs: seq<Leg>, call: CallId)
    ensures In(legs, call) <==> Count(legs, Calling(call)) > 0
    ensures In(legs, call) ==> Find(legs, call).value in legs && Find(legs, call).value.call == call
    decreases |legs|
  {
    if legs != [] {
      CountFound(legs[1..], call);
    }
  }

  // ---------- where a reservation is ----------

  function Back(released: seq<Release>, t: Token): nat
  {
    if released == [] then 0 else One(released[0].token == t) + Back(released[1..], t)
  }

  lemma {:induction false} BackOne(a: seq<Release>, r: Release, t: Token)
    ensures Back(a + [r], t) == Back(a, t) + One(r.token == t)
    decreases |a|
  {
    if a == [] {
      assert a + [r] == [r] && [r][1..] == [];
      assert Back([r], t) == One(r.token == t) + Back([], t);
    } else {
      assert (a + [r])[0] == a[0] && (a + [r])[1..] == a[1..] + [r];
      BackOne(a[1..], r, t);
    }
  }

  /** The reservation of a leg, if there is such a leg and it holds one. */
  function ReservationOf(known: Option<Leg>): Option<Token>
  {
    match known case None => None case Some(leg) => leg.reservation
  }

  // ---------- conservation ----------

  /** In how many places a reservation is. */
  function Places(r: Room, t: Token): nat
  {
    Count(r.joins, Holding(t)) + Count(r.legs, Holding(t)) + Count(r.closing, Holding(t)) + Count(r.ready, Holding(t))
    + Back(r.released, t)
  }

  /** Every reservation is in exactly one of: a join in flight, a live leg, a leg being disposed of,
      or given back once. */
  ghost predicate Conserved(r: Room)
  {
    forall t: Token :: Places(r, t) == if t in r.owned then 1 else 0
  }

  /** The reservation a step loses, because it publishes over a live leg that holds one. */
  function Lost(r: Room, op: Op): Option<Token>
  {
    if op.Bound? && op.join < |r.joins| && r.joins[op.join].reservation.Some? then LostBy(r, op.join, op.outcome)
    else if op.AddBrowser? && Publishes(r, op.call) then ReservationOf(Find(r.legs, op.call))
    else None
  }

  function LostBy(r: Room, i: nat, outcome: Outcome): Option<Token>
    requires i < |r.joins|
  {
    if Admits(r, r.joins[i]) && (outcome.AnnounceFails? || outcome.Succeeds?) then ReservationOf(Find(r.legs, r.joins[i].call))
    else None
  }

  /** The reservation a step brings. */
  function Brought(r: Room, op: Op): Option<Token>
  {
    if (op.Join? && |r.legs| < MAX_CONFERENCE_LEGS) || op.AddClient? then Some(op.token) else None
  }

  lemma GivenBackPlaces(r: Room, token: Token, client: Option<Token>, t: Token)
    ensures Places(GivenBack(r, token, client), t) == Places(r, t) + One(token == t)
  {
    BackOne(r.released, Release(token, client, false), t);
  }

  lemma DetachPlaces(r: Room, leg: Leg, t: Token)
    ensures Places(Detach(r, leg), t) == Places(r, t) + One(Holding(t)(leg))
  {
    CountAppend(r.closing, leg, Holding(t));
    CountAppend(r.ready, leg, Holding(t));
  }

  lemma {:induction false} DetachAllPlaces(r: Room, legs: seq<Leg>, t: Token)
    ensures Places(DetachAll(r, legs), t) == Places(r, t) + Count(legs, Holding(t))
    ensures DetachAll(r, legs).owned == r.owned
    decreases |legs|
  {
    if legs != [] {
      DetachPlaces(r, legs[0], t);
      DetachAllPlaces(Detach(r, legs[0]), legs[1..], t);
    }
  }

  lemma BoundPlaces(r: Room, i: nat, outcome: Outcome, t: Token)
    requires i < |r.joins| && r.joins[i].reservation.Some?
    ensures Places(AfterBound(r, i, outcome), t) + One(LostBy(r, i, outcome) == Some(t)) == Places(r, t)
  {
    var leg, q := r.joins[i], r.(joins := Drop(r.joins, i));
    CountDrop(r.joins, i, Holding(t));
    CountPublished(r.legs, leg, Holding(t));
    CountWithout(Published(r.legs, leg), leg.call, Holding(t));
    GivenBackPlaces(q, leg.reservation.value, leg.client, t);
    GivenBackPlaces(q.(legs := Without(Published(r.legs, leg), leg.call)), leg.reservation.value, leg.client, t);
  }

  lemma AddBrowserPlaces(r: Room, call: CallId, t: Token)
    ensures Places(AfterAddBrowser(r, call), t) + One(Lost(r, AddBrowser(call)) == Some(t)) == Places(r, t)
  {
    CountPublished(r.legs, Leg(call, None, None, true), Holding(t));
  }

  lemma LeavePlaces(r: Room, call: CallId, t: Token)
    ensures Places(AfterLeave(r, call), t) == Places(r, t)
  {
    CountWithout(r.legs, call, Holding(t));
    if Find(r.legs, call).Some? {
      DetachPlaces(r.(legs := Without(r.legs, call)), Find(r.legs, call).value, t);
    }
  }

  lemma ClosePlaces(r: Room, t: Token)
    ensures Places(AfterClose(r), t) == Places(r, t) && AfterClose(r).owned == r.owned
  {
    DetachAllPlaces(r.(closed := true, legs := []), r.legs, t);
  }

  lemma ClientDonePlaces(r: Room, i: nat, t: Token)
    requires i < |r.closing|
    ensures Places(AfterClientDone(r, i), t) == Places(r, t)
  {
    CountDrop(r.closing, i, Holding(t));
    CountAppend(r.ready, r.closing[i], Holding(t));
  }

  lemma DisposePlaces(r: Room, i: nat, t: Token)
    requires i < |r.ready|
    ensures Places(AfterDispose(r, i), t) == Places(r, t)
  {
    CountDrop(r.ready, i, Holding(t));
    if r.ready[i].reservation.Some? {
      BackOne(r.released, Release(r.ready[i].reservation.value, r.ready[i].client, true), t);
    }
  }

  lemma JoinPlaces(r: Room, call: CallId, token: Token, t: Token)
    requires |r.legs| < MAX_CONFERENCE_LEGS
    ensures Places(AfterJoin(r, call, token), t) == Places(r, t) + One(token == t)
  {
    CountAppend(r.joins, Leg(call, Some(token), None, false), Holding(t));
  }

  lemma AddClientPlaces(r: Room, call: CallId, client: Token, token: Token, hasDialog: bool, t: Token)
    ensures Places(AfterAddClient(r, call, client, token, hasDialog), t) == Places(r, t) + One(token == t)
  {
    CountAppend(r.joins, Leg(call, Some(token), Some(client), false), Holding(t));
    GivenBackPlaces(r.(owned := r.owned + {token}), token, Some(client), t);
  }

  lemma PlacesAfter(r: Room, op: Op, t: Token)
    ensures Places(Step(r, op), t) + One(Lost(r, op) == Some(t)) == Places(r, t) + One(Brought(r, op) == Some(t))
  {
    if op.Join? {
      if |r.legs| < MAX_CONFERENCE_LEGS {
        JoinPlaces(r, op.call, op.token, t);
      }
    } else if op.AddClient? {
      AddClientPlaces(r, op.call, op.client, op.token, op.hasDialog, t);
    } else if op.Bound? {
      if op.join < |r.joins| && r.joins[op.join].reservation.Some? {
        BoundPlaces(r, op.join, op.outcome, t);
      }
    } else if op.AddBrowser? {
      AddBrowserPlaces(r, op.call, t);
    } else if op.Leave? {
      LeavePlaces(r, op.call, t);
    } else if op.RunClose? {
      ClosePlaces(r, t);
    } else if op.ClientDone? {
      if op.closing < |r.closing| {
        ClientDonePlaces(r, op.closing, t);
      }
    } else if op.Dispose? {
      if op.ready < |r.ready| {
        DisposePlaces(r, op.ready, t);
      }
    }
  }

  lemma OwnedAfter(r: Room, op: Op)
    ensures Step(r, op).owned == match Brought(r, op) case None => r.owned case Some(t) => r.owned + {t}
  {
    if op.RunClose? {
      ClosePlaces(r, 0);
    }
  }

  /** A reservation brought is one the room has not had. */
  predicate FreshToken(r: Room, op: Op)
  {
    match Brought(r, op) case None => true case Some(t) => t !in r.owned
  }

  /** A step conserves every reservation exactly when it publishes over no leg that holds one. */
  lemma StepConserved(r: Room, op: Op)
    requires Conserved(r) && FreshToken(r, op)
    ensures Conserved(Step(r, op)) <==> Lost(r, op) == None
  {
    OwnedAfter(r, op);
    forall t: Token ensures Places(Step(r, op), t) + One(Lost(r, op) == Some(t))
                     == (if t in Step(r, op).owned then 1 else 0) {
      PlacesAfter(r, op, t);
    }
    if Lost(r, op).Some? {
      assert Places(Step(r, op), Lost(r, op).value) == 0;
    }
  }

  // ---------- distinct call ids ----------

  /** In how many joins and legs a call id is. */
  function Uses(r: Room, call: CallId): nat
  {
    Count(r.joins, Calling(call)) + Count(r.legs, Calling(call))
  }

  ghost predicate Apart(r: Room)
  {
    forall call :: Uses(r, call) <= 1
  }

  /** The call a step brings into the room or on its way there. */
  function Enters(r: Room, op: Op): Option<CallId>
  {
    if op.Join? && |r.legs| < MAX_CONFERENCE_LEGS then Some(op.call)
    else if op.AddClient? && !r.closed && !Full(r, op.call) && op.hasDialog then Some(op.call)
    else if op.AddBrowser? && Publishes(r, op.call) then Some(op.call)
    else None
  }

  predicate FreshCall(r: Room, op: Op)
  {
    match Enters(r, op) case None => true case Some(call) => Uses(r, call) == 0
  }

  lemma {:induction false} DetachAllKeeps(r: Room, legs: seq<Leg>)
    ensures DetachAll(r, legs).joins == r.joins && DetachAll(r, legs).legs == r.legs
    ensures DetachAll(r, legs).closed == r.closed && DetachAll(r, legs).released == r.released
    ensures DetachAll(r, legs).clientsClosed == r.clientsClosed
    decreases |legs|
  {
    if legs != [] {
      DetachAllKeeps(Detach(r, legs[0]), legs[1..]);
    }
  }

  lemma BoundUses(r: Room, i: nat, outcome: Outcome, call: CallId)
    requires i < |r.joins| && r.joins[i].reservation.Some?
    ensures Uses(AfterBound(r, i, outcome), call) <= Uses(r, call)
  {
    var leg := r.joins[i];
    CountDrop(r.joins, i, Calling(call));
    CountPublished(r.legs, leg, Calling(call));
    CountWithout(Published(r.legs, leg), leg.call, Calling(call));
    CountFound(r.legs, leg.call);
  }

  lemma UsesAfter(r: Room, op: Op, call: CallId)
    ensures Uses(Step(r, op), call) <= Uses(r, call) + One(Enters(r, op) == Some(call))
  {
    if op.Join? {
      CountAppend(r.joins, Leg(op.call, Some(op.token), None, false), Calling(call));
    } else if op.AddClient? {
      CountAppend(r.joins, Leg(op.call, Some(op.token), Some(op.client), false), Calling(call));
    } else if op.Bound? {
      if op.join < |r.joins| && r.joins[op.join].reservation.Some? {
        BoundUses(r, op.join, op.outcome, call);
      }
    } else if op.AddBrowser? {
      CountPublished(r.legs, Leg(op.call, None, None, true), Calling(call));
    } else if op.Leave? {
      CountWithout(r.legs, op.call, Calling(call));
    } else if op.RunClose? {
      DetachAllKeeps(r.(closed := true, legs := []), r.legs);
    }
  }

  /** Where every call id that enters is new, call ids stay distinct and nothing is published over. */
  lemma StepApart(r: Room, op: Op)
    requires Apart(r) && FreshCall(r, op)
    ensures Apart(Step(r, op)) && Lost(r, op) == None
  {
    forall call ensures Uses(Step(r, op), call) <= 1 {
      UsesAfter(r, op, call);
    }
    if op.Bound? && op.join < |r.joins| {
      CountDrop(r.joins, op.join, Calling(r.joins[op.join].call));
      CountFound(r.legs, r.joins[op.join].call);
      assert Uses(r, r.joins[op.join].call) <= 1;
    } else if op.AddBrowser? && Publishes(r, op.call) {
      CountFound(r.legs, op.call);
    }
  }

  // ---------- capacity ----------

  predicate Roomy(r: Room)
  {
    |r.legs| <= MAX_CONFERENCE_LEGS
  }

  /** No step, however joins interleave, takes a room over its capacity. */
  lemma StepRoomy(r: Room, op: Op)
    requires Roomy(r)
    ensures Roomy(Step(r, op)) && |Step(r, op).legs| <= 8
  {
    if op.Bound? && op.join < |r.joins| {
      CountPublished(r.legs, r.joins[op.join], Calling(""));
      CountWithout(Published(r.legs, r.joins[op.join]), r.joins[op.join].call, Calling(""));
    } else if op.AddBrowser? {
      CountPublished(r.legs, Leg(op.call, None, None, true), Calling(""));
    } else if op.Leave? {
      CountWithout(r.legs, op.call, Calling(""));
    } else if op.RunClose? {
      DetachAllKeeps(r.(closed := true, legs := []), r.legs);
    }
  }

  // ---------- clients close first ----------

  predicate Past(client: Option<Token>, clientsClosed: set<Token>)
  {
    client == None || client.value in clientsClosed
  }

  /** A leg that has joined gives back its ports only after its client, if it had one, has closed. */
  ghost predicate DisposedFirst(r: Room)
  {
    && (forall leg :: leg in r.ready ==> Past(leg.client, r.clientsClosed))
    && (forall b :: b in r.released && b.disposed ==> Past(b.client, r.clientsClosed))
  }

  /** So does every join, refused and failed ones too. */
  ghost predicate ClientsFirst(r: Room)
  {
    DisposedFirst(r) && forall b :: b in r.released ==> Past(b.client, r.clientsClosed)
  }

  /** The client whose join a step refuses, or sees fail. */
  function Refuses(r: Room, op: Op): Option<Token>
  {
    if op.AddClient? && (r.closed || Full(r, op.call) || !op.hasDialog) then Some(op.client)
    else if op.Bound? && op.join < |r.joins| && r.joins[op.join].reservation.Some?
            && !(op.outcome.Succeeds? && Admits(r, r.joins[op.join])) then r.joins[op.join].client
    else None
  }

  lemma {:induction false} DetachAllDisposedFirst(r: Room, legs: seq<Leg>)
    requires DisposedFirst(r)
    ensures DisposedFirst(DetachAll(r, legs))
    decreases |legs|
  {
    if legs != [] {
      DetachAllDisposedFirst(Detach(r, legs[0]), legs[1..]);
    }
  }

  lemma StepDisposedFirst(r: Room, op: Op)
    requires DisposedFirst(r)
    ensures DisposedFirst(Step(r, op))
  {
    if op.RunClose? {
      DetachAllDisposedFirst(r.(closed := true, legs := []), r.legs);
    }
  }

  lemma NewReleases(r: Room, op: Op, b: Release)
    ensures r.clientsClosed <= Step(r, op).clientsClosed
    ensures b in Step(r, op).released ==> b in r.released || b.disposed || b.client == Refuses(r, op)
    ensures Refuses(r, op).Some? ==>
      Step(r, op).clientsClosed == r.clientsClosed && exists x :: x in Step(r, op).released && x.client == Refuses(r, op)
  {
    if op.RunClose? {
      DetachAllKeeps(r.(closed := true, legs := []), r.legs);
    } else if op.AddClient? && Refuses(r, op).Some? {
      assert Release(op.token, Some(op.client), false) in Step(r, op).released;
    } else if op.Bound? && Refuses(r, op).Some? {
      var leg := r.joins[op.join];
      assert Release(leg.reservation.value, leg.client, false) in Step(r, op).released;
    }
  }

  /** No reservation is given back before its client has closed, over a step, exactly when the step neither
      refuses a client's join nor sees it fail while that client is open. */
  lemma StepClientsFirst(r: Room, op: Op)
    requires ClientsFirst(r)
    ensures ClientsFirst(Step(r, op)) <==> Past(Refuses(r, op), r.clientsClosed)
  {
    var q := Step(r, op);
    StepDisposedFirst(r, op);
    NewReleases(r, op, Release(0, None, false));
    if Past(Refuses(r, op), r.clientsClosed) {
      forall b | b in q.released ensures Past(b.client, q.clientsClosed) {
        NewReleases(r, op, b);
      }
    }
  }

  /** It stays so at every moment of a run. */
  ghost predicate AlwaysClientsFirst(r: Room, ops: seq<Op>)
    decreases |ops|
  {
    ClientsFirst(r) && (ops == [] || AlwaysClientsFirst(Step(r, ops[0]), ops[1..]))
  }

  predicate RefusesNoOpenClient(r: Room, ops: seq<Op>)
    decreases |ops|
  {
    ops == [] || (Past(Refuses(r, ops[0]), r.clientsClosed) && RefusesNoOpenClient(Step(r, ops[0]), ops[1..]))
  }

  /** Over every run, whatever interleaves. */
  lemma {:induction false} RunClientsFirst(r: Room, ops: seq<Op>)
    requires ClientsFirst(r)
    ensures AlwaysClientsFirst(r, ops) <==> RefusesNoOpenClient(r, ops)
    decreases |ops|
  {
    if ops != [] {
      StepClientsFirst(r, ops[0]);
      if ClientsFirst(Step(r, ops[0])) {
        RunClientsFirst(Step(r, ops[0]), ops[1..]);
      }
    }
  }

  // ---------- runs ----------

  ghost predicate Good(r: Room)
  {
    Conserved(r) && Apart(r) && Roomy(r) && DisposedFirst(r)
  }

  ghost predicate Fresh(r: Room, ops: seq<Op>)
    decreases |ops|
  {
    ops == [] || (FreshToken(r, ops[0]) && FreshCall(r, ops[0]) && Fresh(Step(r, ops[0]), ops[1..]))
  }

  /** Under every interleaving of joins, leaves, closes and failures that brings distinct reservations
      under distinct call ids: at most eight legs, every reservation in one place and given back at
      most once, and that of a leg that joined never before its client has closed. */
  lemma {:induction false} RunGood(r: Room, ops: seq<Op>)
    requires Good(r) && Fresh(r, ops)
    ensures Good(Run(r, ops))
    decreases |ops|
  {
    if ops != [] {
      StepApart(r, ops[0]);
      StepConserved(r, ops[0]);
      StepRoomy(r, ops[0]);
      StepDisposedFirst(r, ops[0]);
      RunGood(Step(r, ops[0]), ops[1..]);
    }
  }

  /** A room that is empty and has nothing under way has given back every reservation exactly once. */
  lemma AllGivenBack(ops: seq<Op>, t: Token)
    requires Fresh(NEW, ops)
    requires var r := Run(NEW, ops); r.joins == [] && r.legs == [] && r.closing == [] && r.ready == []
    ensures Back(Run(NEW, ops).released, t) == One(t in Run(NEW, ops).owned)
  {
    assert Good(NEW);
    RunGood(NEW, ops);
    assert Places(Run(NEW, ops), t) == One(t in Run(NEW, ops).owned);
  }

  // ---------- after closing ----------

  ghost predicate AllLocal(legs: seq<Leg>)
  {
    forall leg :: leg in legs ==> leg == Leg(leg.call, None, None, true)
  }

  /** A closed room has only browser legs. */
  ghost predicate ClosedIsLocal(r: Room)
  {
    r.closed ==> AllLocal(r.legs)
  }

  lemma {:induction false} PublishedFinds(legs: seq<Leg>, leg: Leg, call: CallId)
    ensures Find(Published(legs, leg), call) == if call == leg.call then Some(leg) else Find(legs, call)
    ensures forall other :: other in Published(legs, leg) ==> other == leg || other in legs
    decreases |legs|
  {
    if legs != [] && legs[0].call != leg.call {
      PublishedFinds(legs[1..], leg, call);
      assert ([legs[0]] + Published(legs[1..], leg))[1..] == Published(legs[1..], leg);
    }
  }

  lemma {:induction false} WithoutFinds(legs: seq<Leg>, gone: CallId, call: CallId)
    ensures In(Without(legs, gone), call) ==> In(legs, call)
    ensures forall leg :: leg in Without(legs, gone) ==> leg in legs
    decreases |legs|
  {
    if legs != [] && legs[0].call != gone {
      WithoutFinds(legs[1..], gone, call);
      assert ([legs[0]] + Without(legs[1..], gone))[1..] == Without(legs[1..], gone);
    }
  }

  lemma StepClosed(r: Room, op: Op)
    ensures r.closed ==> Step(r, op).closed
    ensures ClosedIsLocal(r) ==> ClosedIsLocal(Step(r, op))
  {
    if op.AddBrowser? {
      PublishedFinds(r.legs, Leg(op.call, None, None, true), op.call);
    } else if op.Leave? {
      WithoutFinds(r.legs, op.call, op.call);
    } else if op.RunClose? {
      DetachAllKeeps(r.(closed := true, legs := []), r.legs);
    }
  }

  /** No interleaving, of joins that were under way too, puts a leg with a socket into a closed room. */
  lemma {:induction false} RunClosed(r: Room, ops: seq<Op>)
    requires ClosedIsLocal(r)
    ensures r.closed ==> Run(r, ops).closed
    ensures ClosedIsLocal(Run(r, ops))
    decreases |ops|
  {
    if ops != [] {
      StepClosed(r, ops[0]);
      RunClosed(Step(r, ops[0]), ops[1..]);
    }
  }

  /** Whether a call is in the room at some moment of a run. */
  predicate Appears(r: Room, ops: seq<Op>, call: CallId)
    decreases |ops|
  {
    In(r.legs, call) || (ops != [] && Appears(Step(r, ops[0]), ops[1..], call))
  }

  /** Whether a run publishes a browser leg for a call. */
  predicate BrowserJoins(r: Room, ops: seq<Op>, call: CallId)
    decreases |ops|
  {
    ops != [] && ((ops[0] == AddBrowser(call) && Publishes(r, call)) || BrowserJoins(Step(r, ops[0]), ops[1..], call))
  }

  lemma EntersClosed(r: Room, op: Op, call: CallId)
    requires r.closed
    ensures op == AddBrowser(call) && Publishes(r, call) ==> In(Step(r, op).legs, call)
    ensures In(Step(r, op).legs, call) ==> In(r.legs, call) || (op == AddBrowser(call) && Publishes(r, call))
  {
    if op.AddBrowser? {
      PublishedFinds(r.legs, Leg(op.call, None, None, true), call);
    } else if op.Leave? {
      WithoutFinds(r.legs, op.call, call);
    }
  }

  /** A call that is not in a closed room gets into it, at any moment of any run, exactly when a browser
      leg is published for it: the caller of that one operation must ask first whether the room is closed. */
  lemma {:induction false} ClosedRoomGrowsOnlyByBrowsers(r: Room, ops: seq<Op>, call: CallId)
    requires r.closed
    ensures Appears(r, ops, call) <==> In(r.legs, call) || BrowserJoins(r, ops, call)
    decreases |ops|
  {
    if ops != [] {
      EntersClosed(r, ops[0], call);
      StepClosed(r, ops[0]);
      ClosedRoomGrowsOnlyByBrowsers(Step(r, ops[0]), ops[1..], call);
    }
  }

  ghost predicate FreshTokens(r: Room, ops: seq<Op>)
    decreases |ops|
  {
    ops == [] || (FreshToken(r, ops[0]) && FreshTokens(Step(r, ops[0]), ops[1..]))
  }

  lemma {:induction false} LocalHoldsNothing(legs: seq<Leg>, call: CallId)
    requires AllLocal(legs)
    ensures ReservationOf(Find(legs, call)) == None
  {
    CountFound(legs, call);
  }

  /** A closed room loses no reservation in any run, whatever call ids come: the reservations of joins
      under way are given back, and browser legs hold none to publish over. */
  lemma {:induction false} ClosedRoomConserves(r: Room, ops: seq<Op>)
    requires r.closed && ClosedIsLocal(r) && Conserved(r) && FreshTokens(r, ops)
    ensures Conserved(Run(r, ops))
    decreases |ops|
  {
    if ops != [] {
      if ops[0].AddBrowser? {
        LocalHoldsNothing(r.legs, ops[0].call);
      }
      StepConserved(r, ops[0]);
      StepClosed(r, ops[0]);
      ClosedRoomConserves(Step(r, ops[0]), ops[1..]);
    }
  }

  // ---------- getting out ----------

  /** Where a leg goes when it leaves: to wait for its client, if it has one, or to give back its ports. */
  lemma LeaveDetaches(r: Room, call: CallId)
    requires Uses(r, call) <= 1
    ensures var q := Step(r, Leave(call));
      && !In(q.legs, call)
      && (In(r.legs, call) ==>
            var leg := Find(r.legs, call).value;
            if leg.client.Some? then q.closing == r.closing + [leg] && q.ready == r.ready
            else q.ready == r.ready + [leg] && q.closing == r.closing)
      && (!In(r.legs, call) ==> q == r)
  {
    CountFound(r.legs, call);
    CountFound(Without(r.legs, call), call);
    CountWithout(r.legs, call, Calling(call));
  }

  lemma {:induction false} DetachAllHolds(r: Room, legs: seq<Leg>, leg: Leg)
    requires leg in legs || leg in r.closing + r.ready
    ensures leg in DetachAll(r, legs).closing + DetachAll(r, legs).ready
    decreases |legs|
  {
    if legs != [] {
      DetachAllHolds(Detach(r, legs[0]), legs[1..], leg);
    }
  }

  /** A room told to close is closed and empty at once, and every leg it had is on its way out. */
  lemma CloseEmpties(r: Room, leg: Leg)
    requires !r.closed
    ensures var q := Step(Step(r, RequestClose), RunClose);
      q.closed && q.legs == [] && (leg in r.legs ==> leg in q.closing + q.ready)
  {
    var c := r.(closeRequested := true);
    DetachAllKeeps(c.(closed := true, legs := []), c.legs);
    if leg in r.legs {
      DetachAllHolds(c.(closed := true, legs := []), c.legs, leg);
    }
  }

  function Times<T>(op: T, n: nat): seq<T>
  {
    if n == 0 then [] else [op] + Times(op, n - 1)
  }

  lemma {:induction false} ClientsFinish(r: Room, n: nat)
    requires n == |r.closing|
    ensures var q := Run(r, Times(ClientDone(0), n));
      q.closing == [] && |q.ready| == |r.ready| + n && q.legs == r.legs && q.joins == r.joins
    decreases n
  {
    if n > 0 {
      RunHead(r, ClientDone(0), Times(ClientDone(0), n - 1));
      ClientsFinish(Step(r, ClientDone(0)), n - 1);
    }
  }

  lemma {:induction false} PortsReturn(r: Room, n: nat)
    requires n == |r.ready|
    ensures var q := Run(r, Times(Dispose(0), n));
      q.ready == [] && q.closing == r.closing && q.legs == r.legs && q.joins == r.joins
    decreases n
  {
    if n > 0 {
      RunHead(r, Dispose(0), Times(Dispose(0), n - 1));
      PortsReturn(Step(r, Dispose(0)), n - 1);
    }
  }

  /** Every room drains: once the clients of its detached legs have closed and their ports are disposed of,
      nothing is under way, and joins and live legs are as they were. */
  lemma Drains(r: Room)
    ensures var q := Run(r, Times(ClientDone(0), |r.closing|) + Times(Dispose(0), |r.closing| + |r.ready|));
      q.closing == [] && q.ready == [] && q.legs == r.legs && q.joins == r.joins
  {
    var m := Run(r, Times(ClientDone(0), |r.closing|));
    ClientsFinish(r, |r.closing|);
    RunAppend(r, Times(ClientDone(0), |r.closing|), Times(Dispose(0), |r.closing| + |r.ready|));
    PortsReturn(m, |m.ready|);
  }

  // ---------- getting in ----------

  /** Some live leg is of this call. */
  ghost predicate IsLive(legs: seq<Leg>, call: CallId)
  {
    exists k :: 0 <= k < |legs| && legs[k].call == call
  }

  lemma {:induction false} LiveIsIn(legs: seq<Leg>, call: CallId)
    ensures In(legs, call) <==> IsLive(legs, call)
    decreases |legs|
  {
    if legs != [] {
      LiveIsIn(legs[1..], call);
      if legs[0].call != call && IsLive(legs, call) {
        var k :| 0 <= k < |legs| && legs[k].call == call;
        assert legs[1..][k - 1].call == call;
      }
      if IsLive(legs[1..], call) {
        var k :| 0 <= k < |legs[1..]| && legs[1..][k].call == call;
        assert legs[k + 1].call == call;
      }
    }
  }

  lemma {:induction false} PublishedKeeps(legs: seq<Leg>, leg: Leg)
    ensures leg in Published(legs, leg)
    ensures forall other :: other in legs && other.call != leg.call ==> other in Published(legs, leg)
    decreases |legs|
  {
    if legs != [] {
      PublishedKeeps(legs[1..], leg);
    }
  }

  /** A join whose socket is bound and whose setup succeeds gets in exactly when the room is open and its call is
      already live or fewer than eight legs are: then its leg is in the room beside those of all other
      calls. If not, the room is as it was and the reservation is back. */
  lemma BoundGetsIn(r: Room, i: nat)
    requires i < |r.joins| && r.joins[i].reservation.Some?
    ensures var leg, q := r.joins[i], Step(r, Bound(i, Succeeds));
      && |q.joins| == |r.joins| - 1
      && if !r.closed && (IsLive(r.legs, leg.call) || |r.legs| < 8) then
           && leg in q.legs && Find(q.legs, leg.call) == Some(leg) && q.released == r.released
           && |q.legs| == |r.legs| + (if IsLive(r.legs, leg.call) then 0 else 1)
           && forall other :: other in r.legs && other.call != leg.call ==> other in q.legs
         else
           q.legs == r.legs && q.released == r.released + [Release(leg.reservation.value, leg.client, false)]
  {
    var leg := r.joins[i];
    LiveIsIn(r.legs, leg.call);
    PublishedKeeps(r.legs, leg);
    CountPublished(r.legs, leg, Calling(leg.call));
  }

  /** A client's leg waits for its socket exactly when the room is open, its call is already live or fewer than
      eight legs are, and it has a dialog; a caller's exactly when fewer than eight legs are live; a
      browser is in at once exactly when fewer than eight legs are live and it was not there yet. */
  lemma WhoMayCome(r: Room, call: CallId, client: Token, token: Token, hasDialog: bool)
    ensures Step(r, AddClient(call, client, token, hasDialog)).joins == r.joins +
      if !r.closed && (IsLive(r.legs, call) || |r.legs| < 8) && hasDialog
      then [Leg(call, Some(token), Some(client), false)] else []
    ensures Step(r, Join(call, token)).joins == r.joins + if |r.legs| < 8 then [Leg(call, Some(token), None, false)] else []
    ensures |r.legs| < 8 ==>
      Leg(call, None, None, true) in Step(r, AddBrowser(call)).legs
      || (Find(r.legs, call).Some? && Find(r.legs, call).value.local)
    ensures |r.legs| >= 8 ==> Step(r, AddBrowser(call)) == r
  {
    LiveIsIn(r.legs, call);
    PublishedKeeps(r.legs, Leg(call, None, None, true));
    assert r.joins + [] == r.joins;
  }

  function Joins(calls: seq<CallId>, first: Token): seq<Op>
  {
    if calls == [] then [] else [Op.Join(calls[0], first)] + Joins(calls[1..], first + 1)
  }

  function Arrivals(calls: seq<CallId>, first: Token): (legs: seq<Leg>)
    ensures |legs| == |calls| && forall i :: 0 <= i < |legs| ==> legs[i] == Leg(calls[i], Some(first + i), None, false)
  {
    if calls == [] then [] else [Leg(calls[0], Some(first), None, false)] + Arrivals(calls[1..], first + 1)
  }

  function Binds(n: nat): seq<Op>
  {
    if n == 0 then [] else [Bound(0, Succeeds)] + Binds(n - 1)
  }

  lemma RunHead(r: Room, op: Op, rest: seq<Op>)
    ensures Run(r, [op] + rest) == Run(Step(r, op), rest)
  {
    assert ([op] + rest)[1..] == rest;
  }

  lemma {:induction false} RunAppend(r: Room, a: seq<Op>, b: seq<Op>)
    ensures Run(r, a + b) == Run(Run(r, a), b)
    decreases |a|
  {
    if a == [] {
      assert a + b == b;
    } else {
      assert (a + b)[0] == a[0] && (a + b)[1..] == a[1..] + b;
      RunAppend(Step(r, a[0]), a[1..], b);
    }
  }

  lemma OneStarts(r: Room, call: CallId, token: Token)
    requires |r.legs| < 8
    ensures var q := Step(r, Join(call, token));
      q.joins == r.joins + [Leg(call, Some(token), None, false)] && q.legs == r.legs && q.closed == r.closed
  {
  }

  lemma Regroup(joins: seq<Leg>, leg: Leg, rest: seq<Leg>)
    ensures (joins + [leg]) + rest == joins + ([leg] + rest)
  {
  }

  lemma {:induction false} AllStart(r: Room, calls: seq<CallId>, first: Token)
    requires |r.legs| < 8
    ensures var q := Run(r, Joins(calls, first));
      q.joins == r.joins + Arrivals(calls, first) && q.legs == r.legs && q.closed == r.closed
    decreases |calls|
  {
    if calls == [] {
      assert r.joins + [] == r.joins;
    } else {
      var q := Step(r, Join(calls[0], first));
      RunHead(r, Join(calls[0], first), Joins(calls[1..], first + 1));
      OneStarts(r, calls[0], first);
      AllStart(q, calls[1..], first + 1);
      Regroup(r.joins, Leg(calls[0], Some(first), None, false), Arrivals(calls[1..], first + 1));
    }
  }

  ghost predicate Waiting(r: Room, calls: seq<CallId>, first: Token)
  {
    && !r.closed && r.joins == Arrivals(calls, first) && |r.legs| + |calls| <= 8
    && (forall i, j :: 0 <= i < j < |calls| ==> calls[i] != calls[j])
    && (forall i :: 0 <= i < |calls| ==> !IsLive(r.legs, calls[i]))
  }

  lemma BoundIsPublished(r: Room)
    requires !r.closed && |r.legs| < 8 && r.joins != [] && r.joins[0].reservation.Some?
    ensures var q := Step(r, Bound(0, Succeeds));
      q.joins == r.joins[1..] && q.legs == Published(r.legs, r.joins[0]) && !q.closed
  {
    assert Drop(r.joins, 0) == r.joins[1..];
  }

  lemma NotYetLive(legs: seq<Leg>, leg: Leg, call: CallId)
    requires leg.call != call && !IsLive(legs, call)
    ensures !IsLive(Published(legs, leg), call)
  {
    PublishedFinds(legs, leg, call);
    LiveIsIn(legs, call);
    LiveIsIn(Published(legs, leg), call);
  }

  lemma OneBinds(r: Room, calls: seq<CallId>, first: Token)
    requires Waiting(r, calls, first) && calls != []
    ensures var q := Step(r, Bound(0, Succeeds));
      && Waiting(q, calls[1..], first + 1) && |q.legs| == |r.legs| + 1
      && Leg(calls[0], Some(first), None, false) in q.legs
  {
    var leg := r.joins[0];
    BoundIsPublished(r);
    assert r.joins[1..] == Arrivals(calls[1..], first + 1);
    assert !IsLive(r.legs, calls[0]);
    LiveIsIn(r.legs, leg.call);
    PublishedKeeps(r.legs, leg);
    CountPublished(r.legs, leg, Calling(leg.call));
    forall i | 0 <= i < |calls[1..]| ensures !IsLive(Published(r.legs, leg), calls[1..][i]) {
      NotYetLive(r.legs, leg, calls[i + 1]);
    }
  }

  lemma {:induction false} AllBind(r: Room, calls: seq<CallId>, first: Token, leg: Leg)
    requires Waiting(r, calls, first) && (leg in r.legs || leg in Arrivals(calls, first))
    requires leg in r.legs ==> leg.call !in calls
    ensures var q := Run(r, Binds(|calls|)); leg in q.legs && |q.legs| == |r.legs| + |calls|
    decreases |calls|
  {
    if calls != [] {
      var q := Step(r, Bound(0, Succeeds));
      OneBinds(r, calls, first);
      BoundGetsIn(r, 0);
      RunHead(r, Bound(0, Succeeds), Binds(|calls| - 1));
      if leg in q.legs {
        assert leg.call !in calls[1..];
      } else {
        var i :| 0 <= i < |calls| && Arrivals(calls, first)[i] == leg;
        assert Arrivals(calls[1..], first + 1)[i - 1] == leg;
      }
      AllBind(q, calls[1..], first + 1, leg);
    }
  }

  lemma AllWait(calls: seq<CallId>, first: Token)
    requires |calls| <= 8 && forall j, k :: 0 <= j < k < |calls| ==> calls[j] != calls[k]
    ensures var r := Run(NEW, Joins(calls, first)); Waiting(r, calls, first) && r.legs == []
  {
    AllStart(NEW, calls, first);
    assert [] + Arrivals(calls, first) == Arrivals(calls, first);
  }

  /** Up to eight callers with ids of their own, all waiting for their sockets at once, are all in the room when
      their sockets are bound, and nobody else is. */
  lemma EightGetIn(calls: seq<CallId>, first: Token, i: nat)
    requires |calls| <= 8 && i < |calls| && forall j, k :: 0 <= j < k < |calls| ==> calls[j] != calls[k]
    ensures var q := Run(NEW, Joins(calls, first) + Binds(|calls|));
      Leg(calls[i], Some(first + i), None, false) in q.legs && |q.legs| == |calls|
  {
    AllWait(calls, first);
    RunAppend(NEW, Joins(calls, first), Binds(|calls|));
    assert Arrivals(calls, first)[i] in Arrivals(calls, first);
    AllBind(Run(NEW, Joins(calls, first)), calls, first, Arrivals(calls, first)[i]);
  }

  // ---------- the room as the program keeps it ----------

  /** The coroutine of a join is split where it waits for its socket: StartJoin or StartClientLeg runs up to
      the bind, FinishBind runs after it. */
  class ConferenceRoom {
    var joins: seq<Leg>
    var legs: seq<Leg>
    var closing: seq<Leg>
    var ready: seq<Leg>
    var released: seq<Release>
    var owned: set<Token>
    var clientsClosed: set<Token>
    var closed: bool
    var closeRequested: bool

    ghost function State(): Room
      reads this
    {
      Room(joins, legs, closing, ready, released, owned, clientsClosed, closed, closeRequested)
    }

    constructor ()
      ensures State() == NEW
    {
      joins, legs, closing, ready, released := [], [], [], [], [];
      owned, clientsClosed, closed, closeRequested := {}, {}, false, false;
    }

    method StartJoin(call: CallId, token: Token) returns (busy: bool)
      modifies `joins, `owned
      ensures State() == AfterJoin(old(State()), call, token)
      ensures busy <==> old(|legs|) >= MAX_CONFERENCE_LEGS
    {
      if |legs| >= MAX_CONFERENCE_LEGS {
        return true;
      }
      owned := owned + {token};
      joins := joins + [Leg(call, Some(token), None, false)];
      return false;
    }

    method StartClientLeg(call: CallId, client: Token, token: Token, hasDialog: bool) returns (started: bool)
      modifies `joins, `owned, `released
      ensures State() == AfterAddClient(old(State()), call, client, token, hasDialog)
      ensures started <==> !old(closed) && !Full(old(State()), call) && hasDialog
    {
      owned := owned + {token};
      if closed {
        released := released + [Release(token, Some(client), false)];
        return false;
      }
      if !In(legs, call) && |legs| >= MAX_CONFERENCE_LEGS {
        released := released + [Release(token, Some(client), false)];
        return false;
      }
      if !hasDialog {
        released := released + [Release(token, Some(client), false)];
        return false;
      }
      joins := joins + [Leg(call, Some(token), Some(client), false)];
      return true;
    }

    method FinishBind(join: nat, outcome: Outcome) returns (published: bool)
      requires join < |joins| && joins[join].reservation.Some?
      modifies `joins, `legs, `released
      ensures State() == AfterBound(old(State()), join, outcome)
      ensures published <==> outcome.Succeeds? && Admits(old(State()), old(joins)[join])
    {
      var leg := joins[join];
      var token := leg.reservation.value;
      joins := joins[..join] + joins[join + 1..];
      if outcome == BindFails {
        released := released + [Release(token, leg.client, false)];
        return false;
      }
      if closed || (!In(legs, leg.call) && |legs| >= MAX_CONFERENCE_LEGS) {
        released := released + [Release(token, leg.client, false)];
        return false;
      }
      if outcome == SetupFails {
        released := released + [Release(token, leg.client, false)];
        return false;
      }
      ghost var was := legs;
      legs := Published(legs, leg);
      if outcome == AnnounceFails {
        CountPublished(was, leg, Calling(leg.call));
        if Find(legs, leg.call) == Some(leg) {
          legs := Without(legs, leg.call);
        }
        released := released + [Release(token, leg.client, false)];
        return false;
      }
      return true;
    }

    method AddHaSoftphoneLeg(call: CallId)
      modifies `legs
      ensures State() == AfterAddBrowser(old(State()), call)
    {
      var existing := Find(legs, call);
      if existing.Some? && existing.value.local {
        return;
      }
      if |legs| >= MAX_CONFERENCE_LEGS {
        return;
      }
      legs := Published(legs, Leg(call, None, None, true));
    }

    method Leave(call: CallId) returns (left: bool)
      modifies `legs, `closing, `ready
      ensures State() == AfterLeave(old(State()), call)
      ensures left <==> In(old(legs), call)
    {
      var leg := Find(legs, call);
      if leg == None {
        return false;
      }
      legs := Without(legs, call);
      StartDisposal(leg.value);
      return true;
    }

    method StartDisposal(leg: Leg)
      modifies `closing, `ready
      ensures State() == Detach(old(State()), leg)
    {
      if leg.client != None {
        closing := closing + [leg];
      } else {
        ready := ready + [leg];
      }
    }

    method Close()
      modifies `closeRequested, `closed, `legs, `closing, `ready
      ensures State() == AfterClose(old(State()).(closeRequested := true))
    {
      closeRequested := true;
      if closed {
        return;
      }
      closed := true;
      var left := legs;
      legs := [];
      ghost var start := State();
      var i := 0;
      while i < |left|
        invariant 0 <= i <= |left| && closed && closeRequested && legs == []
        invariant DetachAll(State(), left[i..]) == DetachAll(start, left)
      {
        assert left[i..][0] == left[i] && left[i..][1..] == left[i + 1..];
        StartDisposal(left[i]);
        i := i + 1;
      }
      assert left[i..] == [];
    }

    method FinishClient(i: nat)
      requires i < |closing|
      modifies `closing, `ready, `clientsClosed
      ensures State() == AfterClientDone(old(State()), i)
    {
      var leg := closing[i];
      closing := closing[..i] + closing[i + 1..];
      if leg.client != None {
        clientsClosed := clientsClosed + {leg.client.value};
      }
      ready := ready + [leg];
    }

    method ReleasePorts(i: nat)
      requires i < |ready|
      modifies `ready, `released
      ensures State() == AfterDispose(old(State()), i)
    {
      var leg := ready[i];
      ready := ready[..i] + ready[i + 1..];
      if leg.reservation != None {
        released := released + [Release(leg.reservation.value, leg.client, true)];
      }
    }
  }
}
