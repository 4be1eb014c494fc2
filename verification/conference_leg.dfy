/** One leg of a conference: its bounded queues, its counters and the RTP clock of what it sends. */
module ConferenceLegs {
  import opened Wrappers
  import opened Arithmetic
  import opened PcmCodec
  import opened BoundedQueues
  import Mixing

  type Frame = seq<Byte>

  const IN_FIFO_FRAMES: nat := 3
  const LOCAL_OUT_FRAMES: nat := 8
  const SEQUENCE_RANGE: nat := 0x1_0000
  const TIMESTAMP_RANGE: nat := 0x1_0000_0000

  datatype Encoder = Encoder(payloadType: int, frameSamples: nat)

  datatype Leg = Leg(
    localOut: Option<seq<Frame>>, transport: bool, decoder: Option<int>, encoder: Option<Encoder>,
    remoteHost: string, remotePort: int, canReceive: bool, canSend: bool, held: bool, rxSsrc: Option<int>,
    fifo: seq<Frame>, sequence: nat, timestamp: nat, rxPackets: nat, txPackets: nat, dropped: nat,
    rxSuppressed: nat, txSuppressed: nat, lastRx: real)

  /** What parsing and decoding make of a datagram; none of their internals matter here. */
  datatype Payload = DecodeFails | NoAudio | ConvertFails | Audio(frames: seq<Frame>)

  datatype Datagram = Datagram(host: string, port: int, header: Option<(int, int)>, payload: Payload)

  /** The numbers an outgoing packet carries. */
  datatype Packet = Packet(sequence: nat, timestamp: nat)

  datatype Event =
    | Rtp(datagram: Datagram, now: real)
    | HaAudio(frames: seq<Frame>, now: real)
    | Take
    | Emit(frame: Frame, fails: bool)
    | Fetch

  // ---------- what each event does ----------

  /** Whether a datagram passes every check before its payload is decoded. */
  predicate Accepts(l: Leg, d: Datagram)
  {
    && l.decoder.Some? && l.canReceive && d.host == l.remoteHost
    && d.header.Some? && d.header.value.0 == l.decoder.value
    && (l.rxSsrc == None || l.rxSsrc == Some(d.header.value.1))
  }

  /** How many frames a queue drops over some operations. */
  function Drops(q: seq<Frame>, ops: seq<QueueOp<Frame>>, bound: nat): nat
  {
    Count(Exits(q, ops, bound), false)
  }

  function Fed(l: Leg, frames: seq<Frame>, now: real): Leg
  {
    l.(fifo := Queue(l.fifo, Puts(frames), IN_FIFO_FRAMES),
       dropped := l.dropped + Drops(l.fifo, Puts(frames), IN_FIFO_FRAMES),
       lastRx := now, rxPackets := l.rxPackets + 1)
  }

  function Latched(l: Leg, d: Datagram): Leg
    requires Accepts(l, d)
  {
    l.(rxSsrc := Some(d.header.value.1), remotePort := d.port)
  }

  function AfterRtp(l: Leg, d: Datagram, now: real): Leg
  {
    if l.decoder.Some? && !l.canReceive then l.(rxSuppressed := l.rxSuppressed + 1)
    else if !Accepts(l, d) then l
    else match d.payload
      case DecodeFails => l
      case NoAudio => l
      case ConvertFails => Latched(l, d)
      case Audio(frames) => Fed(Latched(l, d), frames, now)
  }

  predicate Clocked(l: Leg)
  {
    l.localOut == None && l.transport && l.encoder.Some?
  }

  predicate Suppressed(l: Leg)
  {
    !l.canSend || l.held
  }

  function NextSequence(sequence: nat): nat
  {
    (sequence + 1) % SEQUENCE_RANGE
  }

  function NextTimestamp(timestamp: nat, samples: nat): nat
  {
    (timestamp + samples) % TIMESTAMP_RANGE
  }

  function AfterEmit(l: Leg, frame: Frame, fails: bool): Leg
  {
    if l.localOut.Some? then
      l.(localOut := Some(Offered(l.localOut.value, frame, LOCAL_OUT_FRAMES)),
         dropped := l.dropped + (if |l.localOut.value| >= LOCAL_OUT_FRAMES then 1 else 0),
         txPackets := l.txPackets + 1)
    else if !Clocked(l) then l
    else
      var ticked := l.(timestamp := NextTimestamp(l.timestamp, l.encoder.value.frameSamples));
      if Suppressed(l) then ticked.(txSuppressed := l.txSuppressed + 1)
      else if fails then ticked
      else ticked.(sequence := NextSequence(l.sequence), txPackets := l.txPackets + 1)
  }

  function Step(l: Leg, e: Event): Leg
  {
    match e
    case Rtp(d, now) => AfterRtp(l, d, now)
    case HaAudio(frames, now) => Fed(l, frames, now)
    case Take => l.(fifo := Polled(l.fifo))
    case Emit(frame, fails) => AfterEmit(l, frame, fails)
    case Fetch => if l.localOut.Some? then l.(localOut := Some(Polled(l.localOut.value))) else l
  }

  function Run(l: Leg, es: seq<Event>): Leg
    decreases |es|
  {
    if es == [] then l else Run(Step(l, es[0]), es[1..])
  }

  // ---------- the queues ----------

  predicate Bounded(l: Leg)
  {
    |l.fifo| <= IN_FIFO_FRAMES && (l.localOut.Some? ==> |l.localOut.value| <= LOCAL_OUT_FRAMES)
  }

  /** What an event does to the input queue. */
  function InOp(l: Leg, e: Event): seq<QueueOp<Frame>>
  {
    match e
    case Rtp(d, _) => if Accepts(l, d) && d.payload.Audio? then Puts(d.payload.frames) else []
    case HaAudio(frames, _) => Puts(frames)
    case Take => [Get]
    case _ => []
  }

  function InOps(l: Leg, es: seq<Event>): seq<QueueOp<Frame>>
    decreases |es|
  {
    if es == [] then [] else InOp(l, es[0]) + InOps(Step(l, es[0]), es[1..])
  }

  /** What an event does to the queue of a browser leg. */
  function OutOp(e: Event): seq<QueueOp<Frame>>
  {
    match e
    case Emit(frame, _) => [Put(frame)]
    case Fetch => [Get]
    case _ => []
  }

  function OutOps(es: seq<Event>): seq<QueueOp<Frame>>
  {
    if es == [] then [] else OutOp(es[0]) + OutOps(es[1..])
  }

  lemma OneOp(q: seq<Frame>, op: QueueOp<Frame>, bound: nat)
    ensures Queue(q, [op], bound) == Done(q, op, bound)
    ensures Drops(q, [op], bound) == if op.Put? && q != [] && |q| >= bound then 1 else 0
  {
    assert [op][1..] == [];
    var first := Leaving(q, op, bound);
    assert Exits(q, [op], bound) == first + Exits(Done(q, op, bound), [], bound) == first;
    assert Exits(q, [op], bound) == first;
    if first != [] {
      assert Count(first, false) == (if first[0].taken == false then 1 else 0) + Count(first[1..], false);
      assert first[1..] == [];
    }
  }

  lemma StepQueues(l: Leg, e: Event)
    ensures Step(l, e).fifo == Queue(l.fifo, InOp(l, e), IN_FIFO_FRAMES)
    ensures match l.localOut
      case None => Step(l, e).localOut == None && Step(l, e).dropped == l.dropped + Drops(l.fifo, InOp(l, e), IN_FIFO_FRAMES)
      case Some(q) =>
        && Step(l, e).localOut == Some(Queue(q, OutOp(e), LOCAL_OUT_FRAMES))
        && Step(l, e).dropped == l.dropped + Drops(l.fifo, InOp(l, e), IN_FIFO_FRAMES) + Drops(q, OutOp(e), LOCAL_OUT_FRAMES)
  {
    OneOp(l.fifo, Get, IN_FIFO_FRAMES);
    if l.localOut.Some? {
      OneOp(l.localOut.value, Get, LOCAL_OUT_FRAMES);
      if e.Emit? {
        OneOp(l.localOut.value, Put(e.frame), LOCAL_OUT_FRAMES);
      }
    }
  }

  lemma DropsAppend(q: seq<Frame>, a: seq<QueueOp<Frame>>, b: seq<QueueOp<Frame>>, bound: nat)
    ensures Drops(q, a + b, bound) == Drops(q, a, bound) + Drops(Queue(q, a, bound), b, bound)
  {
    QueueAppend(q, a, b, bound);
    CountAppend(Exits(q, a, bound), Exits(Queue(q, a, bound), b, bound), false);
  }

  /** Over any run the input queue is the bounded queue of what was admitted and taken; the one drop
      counter counts its drops and, on a browser leg, those of the output queue too. */
  lemma {:induction false} RunQueues(l: Leg, es: seq<Event>)
    ensures Run(l, es).fifo == Queue(l.fifo, InOps(l, es), IN_FIFO_FRAMES)
    ensures match l.localOut
      case None =>
        && Run(l, es).localOut == None
        && Run(l, es).dropped == l.dropped + Drops(l.fifo, InOps(l, es), IN_FIFO_FRAMES)
      case Some(q) =>
        && Run(l, es).localOut == Some(Queue(q, OutOps(es), LOCAL_OUT_FRAMES))
        && Run(l, es).dropped
          == l.dropped + Drops(l.fifo, InOps(l, es), IN_FIFO_FRAMES) + Drops(q, OutOps(es), LOCAL_OUT_FRAMES)
    decreases |es|
  {
    if es != [] {
      var k := Step(l, es[0]);
      StepQueues(l, es[0]);
      RunQueues(k, es[1..]);
      QueueAppend(l.fifo, InOp(l, es[0]), InOps(k, es[1..]), IN_FIFO_FRAMES);
      DropsAppend(l.fifo, InOp(l, es[0]), InOps(k, es[1..]), IN_FIFO_FRAMES);
      if l.localOut.Some? {
        QueueAppend(l.localOut.value, OutOp(es[0]), OutOps(es[1..]), LOCAL_OUT_FRAMES);
        DropsAppend(l.localOut.value, OutOp(es[0]), OutOps(es[1..]), LOCAL_OUT_FRAMES);
      }
    }
  }

  /** Frames in order: those that left the input queue, then those still in it, are those it held and
      those that arrived. It never holds more than three, and for a SIP leg frames received are
      frames taken, dropped (as counted) and queued. */
  lemma FramesAreAccounted(l: Leg, es: seq<Event>)
    requires Bounded(l)
    ensures var exits := Exits(l.fifo, InOps(l, es), IN_FIFO_FRAMES);
      && |Run(l, es).fifo| <= 3 && (Run(l, es).localOut.Some? ==> |Run(l, es).localOut.value| <= 8)
      && Values(exits) + Run(l, es).fifo == l.fifo + Arrived(InOps(l, es))
      && (l.localOut == None ==>
            |l.fifo| + |Arrived(InOps(l, es))| == Count(exits, true) + (Run(l, es).dropped - l.dropped) + |Run(l, es).fifo|)
  {
    RunQueues(l, es);
    KeepsOrder(l.fifo, InOps(l, es), IN_FIFO_FRAMES);
    Accounting(l.fifo, InOps(l, es), IN_FIFO_FRAMES);
    if l.localOut.Some? {
      KeepsOrder(l.localOut.value, OutOps(es), LOCAL_OUT_FRAMES);
    }
  }

  // ---------- what is heard, and from whom ----------

  /** A datagram counts as received, and its audio is queued, exactly when the leg decodes and may receive, the
      datagram comes from the negotiated host with the negotiated payload type, from the source latched if
      there is one, and holds audio. Any datagram for a leg that may not receive is only counted. */
  lemma HeardExactly(l: Leg, d: Datagram, now: real)
    ensures Step(l, Rtp(d, now)).rxPackets == l.rxPackets +
      if && l.decoder.Some? && l.canReceive && d.host == l.remoteHost && d.payload.Audio?
         && d.header.Some? && d.header.value.0 == l.decoder.value
         && (l.rxSsrc.Some? ==> l.rxSsrc.value == d.header.value.1) then 1 else 0
    ensures Step(l, Rtp(d, now)).rxSuppressed == l.rxSuppressed + if l.decoder.Some? && !l.canReceive then 1 else 0
    ensures Step(l, Rtp(d, now)).rxPackets == l.rxPackets ==>
      Step(l, Rtp(d, now)).fifo == l.fifo && Step(l, Rtp(d, now)).lastRx == l.lastRx
    ensures Step(l, Rtp(d, now)).rxPackets > l.rxPackets ==> Step(l, Rtp(d, now)).lastRx == now
  {
  }

  /** Source and port after a datagram: its own, if it passed the checks and its payload decoded to audio,
      whether or not that could be converted; else the ones before it. */
  lemma SourceAfter(l: Leg, d: Datagram, now: real)
    ensures var q := Step(l, Rtp(d, now));
      if && l.decoder.Some? && l.canReceive && d.host == l.remoteHost && (d.payload.Audio? || d.payload.ConvertFails?)
         && d.header.Some? && d.header.value.0 == l.decoder.value
         && (l.rxSsrc.Some? ==> l.rxSsrc.value == d.header.value.1)
      then q.rxSsrc == Some(d.header.value.1) && q.remotePort == d.port
      else q.rxSsrc == l.rxSsrc && q.remotePort == l.remotePort
  {
  }

  /** Whether every datagram of a run is from elsewhere, or of another source than the leg follows. */
  predicate OnlyStrangers(host: string, ssrc: int, es: seq<Event>)
  {
    forall i :: 0 <= i < |es| && es[i].Rtp? ==>
      es[i].datagram.host != host || (es[i].datagram.header.Some? && es[i].datagram.header.value.1 != ssrc)
  }

  /** Once latched, the source stays for every run, and strangers, however many datagrams they send, move
      neither the port nor the count of what was received. */
  lemma {:induction false} SourceIsLatched(l: Leg, es: seq<Event>)
    requires l.rxSsrc.Some?
    ensures var q := Run(l, es);
      && q.rxSsrc == l.rxSsrc && q.remoteHost == l.remoteHost && q.decoder == l.decoder
      && (OnlyStrangers(l.remoteHost, l.rxSsrc.value, es) ==> q.remotePort == l.remotePort)
      && (OnlyStrangers(l.remoteHost, l.rxSsrc.value, es) && (forall e :: e in es ==> !e.HaAudio?) ==>
            q.rxPackets == l.rxPackets)
    decreases |es|
  {
    if es != [] {
      SourceStep(l, es[0]);
      SourceIsLatched(Step(l, es[0]), es[1..]);
      assert OnlyStrangers(l.remoteHost, l.rxSsrc.value, es) ==>
        OnlyStrangers(l.remoteHost, l.rxSsrc.value, es[1..]) && OnlyStrangers(l.remoteHost, l.rxSsrc.value, [es[0]]);
      assert forall e :: e in es <==> e == es[0] || e in es[1..];
    }
  }

  lemma SourceStep(l: Leg, e: Event)
    requires l.rxSsrc.Some?
    ensures var q := Step(l, e);
      && q.rxSsrc == l.rxSsrc && q.remoteHost == l.remoteHost && q.decoder == l.decoder
      && (OnlyStrangers(l.remoteHost, l.rxSsrc.value, [e]) ==> q.remotePort == l.remotePort)
      && (OnlyStrangers(l.remoteHost, l.rxSsrc.value, [e]) && !e.HaAudio? ==> q.rxPackets == l.rxPackets)
  {
    assert [e][0] == e;
  }

  // ---------- the RTP clock ----------

  datatype Fate = Sent | Held | Lost

  /** What becomes of the frames a SIP leg is given to send. */
  function Fates(l: Leg, es: seq<Event>): seq<Fate>
    decreases |es|
  {
    if es == [] then []
    else if !es[0].Emit? then Fates(Step(l, es[0]), es[1..])
    else [if Suppressed(l) then Held else if es[0].fails then Lost else Sent] + Fates(Step(l, es[0]), es[1..])
  }

  function Number(fates: seq<Fate>, f: Fate): nat
  {
    if fates == [] then 0 else (if fates[0] == f then 1 else 0) + Number(fates[1..], f)
  }

  /** The packets on the wire, each with how many frames came before it. */
  function Wire(l: Leg, es: seq<Event>, before: nat): seq<(nat, Packet)>
    decreases |es|
  {
    if es == [] then []
    else if !es[0].Emit? then Wire(Step(l, es[0]), es[1..], before)
    else
      (if Clocked(l) && !Suppressed(l) && !es[0].fails then [(before, Packet(l.sequence, l.timestamp))] else [])
      + Wire(Step(l, es[0]), es[1..], before + 1)
  }

  predicate InRange(l: Leg)
  {
    l.sequence < SEQUENCE_RANGE && l.timestamp < TIMESTAMP_RANGE
  }

  lemma SequenceStep(base: nat, n: nat)
    ensures NextSequence((base + n) % SEQUENCE_RANGE) == (base + (n + 1)) % SEQUENCE_RANGE
  {
  }

  lemma TimestampStep(base: nat, n: nat, samples: nat)
    ensures NextTimestamp((base + Times(n, samples)) % TIMESTAMP_RANGE, samples)
      == (base + Times(n + 1, samples)) % TIMESTAMP_RANGE
  {
  }

  /** A leg whose clock started at base and base', after n packets sent and m frames. */
  predicate ClockAt(l: Leg, base: nat, base': nat, n: nat, m: nat)
  {
    && Clocked(l)
    && l.sequence == (base + n) % SEQUENCE_RANGE
    && l.timestamp == (base' + Times(m, l.encoder.value.frameSamples)) % TIMESTAMP_RANGE
  }

  lemma ClockStep(l: Leg, e: Event, base: nat, base': nat, n: nat, m: nat)
    requires ClockAt(l, base, base', n, m)
    ensures Step(l, e).encoder == l.encoder && (Suppressed(Step(l, e)) <==> Suppressed(l))
    ensures !e.Emit? ==> ClockAt(Step(l, e), base, base', n, m)
    ensures e.Emit? ==> ClockAt(Step(l, e), base, base', if Suppressed(l) || e.fails then n else n + 1, m + 1)
  {
    SequenceStep(base, n);
    TimestampStep(base', m, l.encoder.value.frameSamples);
  }

  /** The clock after any run: one step of the sequence for each packet sent, one frame of the timestamp for each
      frame, sent or not. */
  lemma {:induction false} RunClock(l: Leg, es: seq<Event>, base: nat, base': nat, n: nat, m: nat)
    requires ClockAt(l, base, base', n, m)
    ensures Run(l, es).encoder == l.encoder
    ensures ClockAt(Run(l, es), base, base', n + Number(Fates(l, es), Sent), m + |Fates(l, es)|)
    decreases |es|
  {
    if es != [] {
      var k := Step(l, es[0]);
      ClockStep(l, es[0], base, base', n, m);
      RunClock(k, es[1..], base, base', if !es[0].Emit? || Suppressed(l) || es[0].fails then n else n + 1,
               if es[0].Emit? then m + 1 else m);
    }
  }

  lemma {:induction false} FatesCount(fates: seq<Fate>)
    ensures Number(fates, Sent) + Number(fates, Held) + Number(fates, Lost) == |fates|
    decreases |fates|
  {
    if fates != [] {
      FatesCount(fates[1..]);
    }
  }

  lemma {:induction false} CountersOfFates(l: Leg, es: seq<Event>)
    requires Clocked(l)
    ensures Run(l, es).txPackets == l.txPackets + Number(Fates(l, es), Sent)
    ensures Run(l, es).txSuppressed == l.txSuppressed + Number(Fates(l, es), Held)
    decreases |es|
  {
    if es != [] {
      CountersOfFates(Step(l, es[0]), es[1..]);
    }
  }

  /** The frames of a run whose sending does not fail. */
  function Sendable(es: seq<Event>): nat
  {
    if es == [] then 0 else (if es[0].Emit? && !es[0].fails then 1 else 0) + Sendable(es[1..])
  }

  /** What a leg may send it sends, and nothing else: on a leg that sends and is not held every frame whose
      sending does not fail is a packet on the wire; on one that may not send, or is held, none is. */
  lemma {:induction false} SendsExactly(l: Leg, es: seq<Event>, before: nat)
    requires l.localOut == None && l.transport && l.encoder.Some?
    ensures |Wire(l, es, before)| == if l.canSend && !l.held then Sendable(es) else 0
    ensures Run(l, es).txPackets == l.txPackets + if l.canSend && !l.held then Sendable(es) else 0
    decreases |es|
  {
    if es != [] {
      SendsExactly(Step(l, es[0]), es[1..], if es[0].Emit? then before + 1 else before);
    }
  }

  /** A SIP leg with a live transport: the sequence is the start plus the packets sent, modulo 2^16;
      the timestamp is the start plus one frame of samples for every frame sent, suppressed or failed,
      modulo 2^32. The counters report the same numbers. */
  lemma ClockKeepsMediaTime(l: Leg, es: seq<Event>)
    requires Clocked(l) && InRange(l)
    ensures var fates := Fates(l, es);
      && Run(l, es).sequence == (l.sequence + Number(fates, Sent)) % 0x1_0000
      && (var frames := Number(fates, Sent) + Number(fates, Held) + Number(fates, Lost);
          Run(l, es).timestamp == (l.timestamp + frames * l.encoder.value.frameSamples) % 0x1_0000_0000)
      && Run(l, es).txPackets == l.txPackets + Number(fates, Sent)
      && Run(l, es).txSuppressed == l.txSuppressed + Number(fates, Held)
  {
    RunClock(l, es, l.sequence, l.timestamp, 0, 0);
    FatesCount(Fates(l, es));
    CountersOfFates(l, es);
    TimesIsProduct(|Fates(l, es)|, l.encoder.value.frameSamples);
  }

  lemma {:induction false} WireFrom(l: Leg, es: seq<Event>, base: nat, base': nat, n: nat, m: nat, k: nat)
    requires ClockAt(l, base, base', n, m) && k < |Wire(l, es, m)|
    ensures var (before, packet) := Wire(l, es, m)[k];
      && packet.sequence == (base + (n + k)) % SEQUENCE_RANGE
      && packet.timestamp == (base' + Times(before, l.encoder.value.frameSamples)) % TIMESTAMP_RANGE
    decreases |es|
  {
    var e, l1 := es[0], Step(l, es[0]);
    ClockStep(l, e, base, base', n, m);
    if !e.Emit? {
      WireFrom(l1, es[1..], base, base', n, m, k);
    } else if Suppressed(l) || e.fails {
      WireFrom(l1, es[1..], base, base', n, m + 1, k);
    } else if k > 0 {
      WireFrom(l1, es[1..], base, base', n + 1, m + 1, k - 1);
    }
  }

  /** Packets leave numbered consecutively, each stamped with the media time of its frame, whatever
      was suppressed or lost in between. */
  lemma PacketNumbers(l: Leg, es: seq<Event>, k: nat)
    requires Clocked(l) && InRange(l) && k < |Wire(l, es, 0)|
    ensures var (before, packet) := Wire(l, es, 0)[k];
      && packet.sequence == (l.sequence + k) % 0x1_0000
      && packet.timestamp == (l.timestamp + before * l.encoder.value.frameSamples) % 0x1_0000_0000
  {
    WireFrom(l, es, l.sequence, l.timestamp, 0, 0, k);
    TimesIsProduct(Wire(l, es, 0)[k].0, l.encoder.value.frameSamples);
  }

  // ---------- the leg as the program keeps it ----------

  class ConferenceLeg {
    var localOut: Option<seq<Frame>>
    var transport: bool
    var decoder: Option<int>
    var encoder: Option<Encoder>
    var remoteHost: string
    var remotePort: int
    var canReceive: bool
    var canSend: bool
    var held: bool
    var rxSsrc: Option<int>
    var fifo: seq<Frame>
    var sequence: nat
    var timestamp: nat
    var rxPackets: nat
    var txPackets: nat
    var dropped: nat
    var rxSuppressed: nat
    var txSuppressed: nat
    var lastRx: real

    ghost function State(): Leg
      reads this
    {
      Leg(localOut, transport, decoder, encoder, remoteHost, remotePort, canReceive, canSend, held, rxSsrc, fifo, sequence,
          timestamp, rxPackets, txPackets, dropped, rxSuppressed, txSuppressed, lastRx)
    }

    /** A leg of a SIP dialog, its clock started at random. */
    constructor Sip(host: string, port: int, payloadType: int, sender: Encoder, receives: bool, sends: bool, isHeld: bool,
                    start: nat, startTime: nat, now: real)
      requires start < SEQUENCE_RANGE - 1 && startTime < TIMESTAMP_RANGE - 1
      ensures Clocked(State()) && InRange(State()) && Bounded(State())
      ensures State() == Leg(None, true, Some(payloadType), Some(sender), host, port, receives, sends, isHeld, None, [],
                             start, startTime, 0, 0, 0, 0, 0, now)
    {
      localOut, transport, decoder, encoder := None, true, Some(payloadType), Some(sender);
      remoteHost, remotePort, canReceive, canSend, held, rxSsrc := host, port, receives, sends, isHeld, None;
      fifo, sequence, timestamp, rxPackets, txPackets, dropped := [], start, startTime, 0, 0, 0;
      rxSuppressed, txSuppressed, lastRx := 0, 0, now;
    }

    /** A leg of a browser: no socket, no codec, a queue to read from. */
    constructor Browser(start: nat, startTime: nat, now: real)
      ensures Bounded(State()) && localOut == Some([]) && !transport && decoder == None
    {
      localOut, transport, decoder, encoder := Some([]), false, None, None;
      remoteHost, remotePort, canReceive, canSend, held, rxSsrc := "", 0, true, true, false, None;
      fifo, sequence, timestamp, rxPackets, txPackets, dropped := [], start, startTime, 0, 0, 0;
      rxSuppressed, txSuppressed, lastRx := 0, 0, now;
    }

    method HandleRtp(d: Datagram, now: real)
      modifies `rxSuppressed, `rxSsrc, `remotePort, `lastRx, `rxPackets, `fifo, `dropped
      ensures State() == AfterRtp(old(State()), d, now)
    {
      if decoder == None {
        return;
      }
      if !canReceive {
        rxSuppressed := rxSuppressed + 1;
        return;
      }
      if d.host != remoteHost || d.header == None {
        return;
      }
      var (payloadType, ssrc) := d.header.value;
      if payloadType != decoder.value || (rxSsrc != None && ssrc != rxSsrc.value) {
        return;
      }
      if d.payload.DecodeFails? || d.payload.NoAudio? {
        return;
      }
      if rxSsrc == None {
        rxSsrc, remotePort := Some(ssrc), d.port;
      } else if d.port != remotePort {
        remotePort := d.port;
      }
      if d.payload.ConvertFails? {
        return;
      }
      Feed(d.payload.frames, now);
    }

    method PushHaAudio(frames: seq<Frame>, now: real)
      modifies `lastRx, `rxPackets, `fifo, `dropped
      ensures State() == Fed(old(State()), frames, now)
    {
      Feed(frames, now);
    }

    method Enqueue(frame: Frame)
      modifies `fifo, `dropped
      ensures fifo == Offered(old(fifo), frame, IN_FIFO_FRAMES)
      ensures dropped == old(dropped) + if |old(fifo)| >= IN_FIFO_FRAMES then 1 else 0
    {
      if |fifo| >= IN_FIFO_FRAMES {
        fifo := fifo[1..];
        dropped := dropped + 1;
      }
      fifo := fifo + [frame];
    }

    method Feed(frames: seq<Frame>, now: real)
      modifies `lastRx, `rxPackets, `fifo, `dropped
      ensures State() == Fed(old(State()), frames, now)
    {
      lastRx := now;
      rxPackets := rxPackets + 1;
      EnqueueAll(frames);
    }

    method EnqueueAll(frames: seq<Frame>)
      modifies `fifo, `dropped
      ensures fifo == Queue(old(fifo), Puts(frames), IN_FIFO_FRAMES)
      ensures dropped == old(dropped) + Drops(old(fifo), Puts(frames), IN_FIFO_FRAMES)
    {
      var i := 0;
      assert frames[0..] == frames;
      while i < |frames|
        invariant 0 <= i <= |frames|
        invariant Pushed(fifo, dropped, frames[i..]) == Pushed(old(fifo), old(dropped), frames)
      {
        assert frames[i..][0] == frames[i] && frames[i..][1..] == frames[i + 1..];
        Enqueue(frames[i]);
        i := i + 1;
      }
      assert frames[i..] == [];
      PushedIsQueued(old(fifo), old(dropped), frames);
    }

    /** The mixer's share of a tick: the oldest frame, or silence. */
    method TakeFrame() returns (frame: Frame)
      modifies `fifo
      ensures State() == Step(old(State()), Take)
      ensures frame == if old(fifo) == [] then Mixing.Silence() else old(fifo)[0]
    {
      if fifo == [] {
        return Mixing.Silence();
      }
      frame := fifo[0];
      fifo := fifo[1..];
    }

    method EmitFrame(frame: Frame, fails: bool) returns (packet: Option<Packet>)
      modifies `localOut, `dropped, `txPackets, `txSuppressed, `timestamp, `sequence
      ensures State() == AfterEmit(old(State()), frame, fails)
      ensures packet == if Clocked(old(State())) && !Suppressed(old(State())) && !fails
        then Some(Packet(old(sequence), old(timestamp))) else None
    {
      if localOut.Some? {
        QueueLocal(frame);
        return None;
      }
      if !transport || encoder == None {
        return None;
      }
      packet := SendFrame(fails);
    }

    method QueueLocal(frame: Frame)
      requires localOut.Some?
      modifies `localOut, `dropped, `txPackets
      ensures State() == AfterEmit(old(State()), frame, false)
    {
      var queue := localOut.value;
      if |queue| >= LOCAL_OUT_FRAMES {
        queue := queue[1..];
        dropped := dropped + 1;
      }
      localOut := Some(queue + [frame]);
      txPackets := txPackets + 1;
    }

    method SendFrame(fails: bool) returns (packet: Option<Packet>)
      requires encoder.Some?
      modifies `txPackets, `txSuppressed, `timestamp, `sequence
      ensures timestamp == NextTimestamp(old(timestamp), encoder.value.frameSamples)
      ensures txSuppressed == old(txSuppressed) + if !canSend || held then 1 else 0
      ensures packet == if !canSend || held || fails then None else Some(Packet(old(sequence), old(timestamp)))
      ensures sequence == if packet == None then old(sequence) else NextSequence(old(sequence))
      ensures txPackets == old(txPackets) + if packet == None then 0 else 1
    {
      packet := None;
      if !canSend || held {
        txSuppressed := txSuppressed + 1;
        timestamp := NextTimestamp(timestamp, encoder.value.frameSamples);
        return;
      }
      if !fails {
        packet := Some(Packet(sequence, timestamp));
        sequence := NextSequence(sequence);
        txPackets := txPackets + 1;
      }
      timestamp := NextTimestamp(timestamp, encoder.value.frameSamples);
    }
  }

  lemma PutsStep(q: seq<Frame>, frames: seq<Frame>, bound: nat)
    requires frames != []
    ensures Queue(q, Puts(frames), bound) == Queue(Offered(q, frames[0], bound), Puts(frames[1..]), bound)
    ensures Drops(q, Puts(frames), bound) ==
      (if q != [] && |q| >= bound then 1 else 0) + Drops(Offered(q, frames[0], bound), Puts(frames[1..]), bound)
  {
    assert Puts(frames) == [Put(frames[0])] + Puts(frames[1..]);
    OneOp(q, Put(frames[0]), bound);
    QueueAppend(q, [Put(frames[0])], Puts(frames[1..]), bound);
    DropsAppend(q, [Put(frames[0])], Puts(frames[1..]), bound);
  }

  /** A queue and a drop counter after some frames were put in one by one. */
  function Pushed(q: seq<Frame>, dropped: nat, frames: seq<Frame>): (seq<Frame>, nat)
    decreases |frames|
  {
    if frames == [] then (q, dropped)
    else Pushed(Offered(q, frames[0], IN_FIFO_FRAMES), dropped + (if |q| >= IN_FIFO_FRAMES then 1 else 0), frames[1..])
  }

  lemma {:induction false} PushedIsQueued(q: seq<Frame>, dropped: nat, frames: seq<Frame>)
    ensures Pushed(q, dropped, frames)
      == (Queue(q, Puts(frames), IN_FIFO_FRAMES), dropped + Drops(q, Puts(frames), IN_FIFO_FRAMES))
    decreases |frames|
  {
    if frames != [] {
      PutsStep(q, frames, IN_FIFO_FRAMES);
      PushedIsQueued(Offered(q, frames[0], IN_FIFO_FRAMES), dropped + (if |q| >= IN_FIFO_FRAMES then 1 else 0), frames[1..]);
    }
  }
}
