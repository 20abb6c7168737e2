/**
 A custody round over the network. In a run the fragments of an ADU reach their
 destination in order; each answer goes out as an administrative record, over the
 wire and the channel, and reaches the custodian, which then drops the bundle.
 */
module CustodyNetwork {
  import opened Bytes
  import opened Bundles
  import opened Agent
  import opened Soundness
  import opened Custodial
  import opened Network
  import opened Integrity
  import opened EndToEnd
  import opened Faults
  import opened Reassembly
  import opened AckProgress
  import opened CustodyRound
  import CS = CustodySignal
  import Wire6

  // ------------------------------------------------------- one agent's arrivals

  function LandingOf(e: Step, now: nat): Landing<Id>
    requires e.Arrive? && Wire6.Decode(e.octets).Some?
  {
    Landing(PacketOf(e.octets), e.id, e.signalId, e.address, now)
  }

  /** A fragment of the ADU arrives where the ADU is awaited. */
  ghost predicate FragmentArrives(s: Net, e: Step, at: NodeId, a: Adu)
  {
    e.Arrive? && e.at == at && at in s.nodes && Wire6.Decode(e.octets).Some? &&
    PieceOf(PacketOf(e.octets), a) && !Expired(PacketOf(e.octets).header, s.now)
  }

  lemma ArrivalLands(s: Net, e: Step, s': Net, at: NodeId, a: Adu)
    requires Goes(s, e, s') && FragmentArrives(s, e, at, a) && Awaits(s.nodes[at], a)
    ensures MayLandFor(s.nodes[at], LandingOf(e, s.now), a)
    ensures at in s'.nodes && LandsTo(s.nodes[at], LandingOf(e, s.now), s'.nodes[at]) && Awaits(s'.nodes[at], a)
  {
    var n := s.nodes[at];
    NextIs(s, e);
    ArriveIsProcess(n, e, s.now);
    LandKeepsAwaits(n, LandingOf(e, s.now), a);
  }

  /** The other agents stay as they are. */
  lemma OthersStay(s: Net, e: Step, s': Net, other: NodeId)
    requires Goes(s, e, s') && !e.Clock? && e.at != other && other in s.nodes
    ensures other in s'.nodes && s'.nodes[other] == s.nodes[other]
  {
    NextIs(s, e);
  }

  // ------------------------------------------------------------ what it answers

  lemma {:induction false} SlicesHeaders(h: Header, adu: seq<byte>, size: nat, left: nat)
    requires left <= |adu| && size > 0
    ensures forall p :: p in SendSlices(h, adu, size, left).1 ==> SameButSlice(h, p.header)
    decreases left
  {
    if left != 0 {
      SlicesHeaders(SliceHeader(h, |adu|, size, left), adu, size, left - SliceSize(size, left));
    }
  }

  /** What `Send` hands to an adapter at once, if anything. */
  lemma SendSends<T>(n: Node<T>, id: T, address: nat, now: nat, adu: seq<byte>, src: Eid, dst: Eid,
                     lifetime: nat, custody: bool, priority: nat, p: Packet)
    requires n.bundleSize > 0 && StoreKnown(n.world)
    requires p in Send(n, id, address, now, adu, src, dst, lifetime, custody, priority).1
    ensures var h := OutboundHeader(n.eid, n.sequence, now, |adu|, src, dst, lifetime, custody, priority);
            p in SendSlices(h, adu, n.bundleSize, |adu|).1
  {
    var h := OutboundHeader(n.eid, n.sequence, now, |adu|, src, dst, lifetime, custody, priority);
    var n1 := Accepted(n, id, address, now, h, adu);
    ForwardIs(n1, id);
    PacketsOfTransmit(MarkForward(n1.world, id), id, n1.bundleSize);
  }

  /** The header of the answer to a fragment that landed. */
  ghost function AnswerHeader<T>(n: Node<T>, l: Landing<T>, a: Adu): Header
    requires MayLandFor(n, l, a)
  {
    var b := LandedBundle(n, l, a);
    OutboundHeader(n.eid, n.sequence, l.now, |RecordFor(b, l.now)|, n.eid, b.header.cust, b.header.lifetime, false, 0)
  }

  lemma LandSends<T>(n: Node<T>, l: Landing<T>, a: Adu, p: Packet)
    requires MayLandFor(n, l, a) && p in Process(n, l.packet, l.id, l.signalId, l.address, l.now).1
    ensures var record := RecordFor(LandedBundle(n, l, a), l.now);
            p in SendSlices(AnswerHeader(n, l, a), record, n.bundleSize, |record|).1
  {
    var n1 := Taken(n, l.packet, l.id, l.address, l.now);
    ProcessIs(n, l.packet, l.id, l.signalId, l.address, l.now);
    DeliverIs(n1, l.id, l.signalId, l.address + 1, l.now);
    var n2, b := Enqueued(n1, l.id), LandedBundle(n, l, a);
    if b.header.custody {
      SendSends(n2, l.signalId, l.address + 1, l.now, RecordFor(b, l.now), n2.eid, b.header.cust, b.header.lifetime,
                false, 0, p);
    }
  }

  // ----------------------------------------------------------- at the custodian

  /** The record of what was heard is `r`: the bundle is in custody with those
      ranges, or dropped. */
  ghost predicate Holding<T>(w: World<T>, x: T, key: Key, aduLength: nat, r: Record)
  {
    x in w.bundles &&
    match r
    case None => Released(w, x, key)
    case Some(acks) => Custodian(w, x, key, aduLength) && w.bundles[x].acks == acks
  }

  lemma AddHolding<T>(w: World<T>, id: T, b: Bundle, now: nat, x: T, key: Key, aduLength: nat, r: Record)
    requires Holding(w, x, key, aduLength, r) && id !in w.bundles && KeyOf(b.header) != key && id != x
    ensures Holding(StoreBundle(Put(w, id, b), id, now), x, key, aduLength, r)
  {
  }

  lemma HearHolding<T>(w: World<T>, c: CS.Signal, x: T, key: Key, aduLength: nat, r: Record)
    requires Holding(w, x, key, aduLength, r) && Speaks(c, key)
    ensures StoreKnown(w) && Holding(ProcessSignal(w, c), x, key, aduLength, Hear(r, AckOf(c), aduLength))
  {
    if r.Some? {
      TargetIs(w, x, key, aduLength, c);
      SettledEither(w, x, key, aduLength, AckOf(c));
    } else {
      NoTarget(w, x, key, c);
    }
  }

  lemma DropHolding<T>(w: World<T>, id: T, x: T, key: Key, aduLength: nat, r: Record)
    requires Holding(w, x, key, aduLength, r) && id in w.bundles && id != x
    ensures Holding(Dispose(Remove(w, id), id), x, key, aduLength, r)
  {
  }

  /** The packet with the record of signal `c`, as it comes off the wire. */
  predicate IsRecord(q: Packet, agent: Eid, c: CS.Signal, fragment: bool)
  {
    q.header.dst == agent && !q.header.custody && !q.header.fragment && q.payload == CS.Record(c, fragment)
  }

  lemma RecordIsConsumed<T>(n: Node<T>, q: Packet, id: T, signalId: T, address: nat, now: nat, c: CS.Signal, fragment: bool)
    requires StoreKnown(n.world) && n.bundleSize > 0 && Active(n, n.eid) && IsRecord(q, n.eid, c, fragment) && CS.Ranges(c)
    ensures Active(n, q.header.dst) ==> Readable(n.eid, Arrival(q, address))
    ensures var n1 := Taken(n, q, id, address, now);
            Process(n, q, id, signalId, address, now).0 == n1.(world := Consumed(n1.world, id, CS.Custody(c)))
  {
    CS.RecordRoundTrip(c, fragment);
    var n1 := Taken(n, q, id, address, now);
    ProcessIs(n, q, id, signalId, address, now);
    EnqueueIs(n.eid, n1.world, id);
    ConsumedHeaders(n1.world, id, CS.Custody(c));
    DeliverIs(n1, id, signalId, address + 1, now);
  }

  lemma RecordIsHeard<T>(n: Node<T>, q: Packet, id: T, signalId: T, address: nat, now: nat, c: CS.Signal, fragment: bool,
                         x: T, key: Key, aduLength: nat, r: Record)
    requires StoreKnown(n.world) && n.bundleSize > 0 && Active(n, n.eid) && IsRecord(q, n.eid, c, fragment) && CS.Ranges(c)
    requires Holding(n.world, x, key, aduLength, r) && Speaks(c, key) && KeyOf(q.header) != key
    requires id !in n.world.bundles
    ensures Active(n, q.header.dst) ==> Readable(n.eid, Arrival(q, address))
    ensures Holding(Process(n, q, id, signalId, address, now).0.world, x, key, aduLength, Hear(r, AckOf(c), aduLength))
  {
    var w1 := Taken(n, q, id, address, now).world;
    RecordIsConsumed(n, q, id, signalId, address, now, c, fragment);
    AddHolding(n.world, id, Arrival(q, address), now, x, key, aduLength, r);
    HearHolding(w1, c, x, key, aduLength, r);
    DropHolding(ProcessSignal(w1, c), id, x, key, aduLength, Hear(r, AckOf(c), aduLength));
  }

  // ------------------------------------------------------------ over the channel

  /** Step `e` takes off the channel what the landing of step `d` handed to it. */
  ghost predicate TakesAnswer(n: Node<Id>, d: Step, now: nat, octets: seq<byte>)
  {
    d.Arrive? && MayAct(n, d) && Faultless(n, d) &&
    exists p :: p in Act(n, d, now).1 && Wire6.Sendable6(p) && octets == Wire6.Encode(p)
  }

  /** The answer of agent `n` to a fragment, made from bundle `b`. */
  ghost predicate AnswerPacket(n: Node<Id>, b: Bundle, now: nat, p: Packet, hs: Header)
  {
    n.bundleSize > 0 && hs.src == n.eid && hs.dst == b.header.cust && !hs.custody &&
    p in SendSlices(hs, RecordFor(b, now), n.bundleSize, |RecordFor(b, now)|).1
  }

  lemma LandingAnswers(n: Node<Id>, d: Step, now: nat, a: Adu, p: Packet)
    requires d.Arrive? && MayAct(n, d) && Faultless(n, d) && MayLandFor(n, LandingOf(d, now), a) && p in Act(n, d, now).1
    ensures AnswerPacket(n, LandedBundle(n, LandingOf(d, now), a), now, p, AnswerHeader(n, LandingOf(d, now), a))
  {
    ArriveIsProcess(n, d, now);
    LandSends(n, LandingOf(d, now), a, p);
  }

  /** A custodian that listens to its own endpoint. */
  predicate Listens(n: Node<Id>, agent: Eid)
  {
    StoreKnown(n.world) && n.bundleSize > 0 && Active(n, n.eid) && n.eid == agent
  }

  /** What arrives is the whole record: a step that is not at fault takes no piece of
      one. */
  lemma AnswerIsRecord(n: Node<Id>, b: Bundle, now: nat, p: Packet, hs: Header, home: Node<Id>, e: Step)
    requires AnswerPacket(n, b, now, p, hs) && CS.Ranges(SignalFor(b, now)) && Listens(home, b.header.cust)
    requires e.Arrive? && MayAct(home, e) && Faultless(home, e) && Wire6.Sendable6(p) && e.octets == Wire6.Encode(p)
    ensures var q := PacketOf(e.octets);
            IsRecord(q, home.eid, SignalFor(b, now), b.header.fragment) && q.header.src == n.eid
  {
    var record := RecordFor(b, now);
    SlicesHeaders(hs, record, n.bundleSize, |record|);
    SlicesFlag(hs, record, n.bundleSize, |record|);
    SignalArrival(home, e, hs, SignalFor(b, now), b.header.fragment, n.bundleSize, p);
    WholeSlice(hs, record, n.bundleSize, p);
    Wire6.RoundTrip(p);
  }

  /** The custodian hears the signal. */
  lemma AnswerIsHeard(n: Node<Id>, b: Bundle, now: nat, p: Packet, hs: Header, s: Net, e: Step, s': Net,
                      x: Id, key: Key, aduLength: nat, r: Record)
    requires AnswerPacket(n, b, now, p, hs) && CS.Ranges(SignalFor(b, now)) && Speaks(SignalFor(b, now), key)
    requires key.src != n.eid && Wire6.Sendable6(p) && e.Arrive? && e.octets == Wire6.Encode(p)
    requires Goes(s, e, s') && e.at in s.nodes && Listens(s.nodes[e.at], b.header.cust)
    requires Holding(s.nodes[e.at].world, x, key, aduLength, r)
    ensures e.at in s'.nodes && Listens(s'.nodes[e.at], b.header.cust)
    ensures Holding(s'.nodes[e.at].world, x, key, aduLength, Hear(r, AckOf(SignalFor(b, now)), aduLength))
  {
    var home, q := s.nodes[e.at], PacketOf(e.octets);
    AnswerIsRecord(n, b, now, p, hs, home, e);
    RecordIsHeard(home, q, e.id, e.signalId, e.address, s.now, SignalFor(b, now), b.header.fragment, x, key, aduLength, r);
    HomeAfter(s, e, s');
  }

  lemma HomeAfter(s: Net, e: Step, s': Net)
    requires Goes(s, e, s') && e.Arrive?
    ensures e.at in s'.nodes
    ensures s'.nodes[e.at] == Process(s.nodes[e.at], PacketOf(e.octets), e.id, e.signalId, e.address, s.now).0
    ensures Frame(s.nodes[e.at], s'.nodes[e.at])
  {
    NextIs(s, e);
    ArriveIsProcess(s.nodes[e.at], e, s.now);
    ProcessFrame(s.nodes[e.at], PacketOf(e.octets), e.id, e.signalId, e.address, s.now);
  }

  // ------------------------------------------------------------ the fragments

  /** Step `e` of a run makes fragment landing `l` of agent `at`. */
  ghost predicate Delivers(s: Net, e: Step, s': Net, at: NodeId, a: Adu, l: Landing<Id>)
  {
    Goes(s, e, s') && Inv(s) && DirectStep(s, e) && FragmentArrives(s, e, at, a) && l == LandingOf(e, s.now)
  }

  /** Steps `es` of a run are the landings `ls`. */
  ghost predicate DeliverAll(ss: seq<Net>, es: seq<Step>, ls: seq<Landing<Id>>, at: NodeId, a: Adu)
  {
    |ss| == |es| + 1 == |ls| + 1 && forall k :: 0 <= k < |es| ==> Delivers(ss[k], es[k], ss[k + 1], at, a, ls[k])
  }

  ghost predicate AwaitsAt(s: Net, at: NodeId, a: Adu)
  {
    at in s.nodes && Awaits(s.nodes[at], a)
  }

  ghost predicate LandsAt(s: Net, s': Net, at: NodeId, a: Adu, l: Landing<Id>)
  {
    at in s.nodes && at in s'.nodes && MayLandFor(s.nodes[at], l, a) && LandsTo(s.nodes[at], l, s'.nodes[at])
  }

  lemma DeliveryLands(s: Net, e: Step, s': Net, at: NodeId, a: Adu, l: Landing<Id>)
    requires Delivers(s, e, s', at, a, l) && AwaitsAt(s, at, a)
    ensures LandsAt(s, s', at, a, l) && AwaitsAt(s', at, a)
  {
    ArrivalLands(s, e, s', at, a);
  }

  lemma DeliversRest(ss: seq<Net>, es: seq<Step>, ls: seq<Landing<Id>>, at: NodeId, a: Adu)
    requires DeliverAll(ss, es, ls, at, a) && es != []
    ensures Delivers(ss[0], es[0], ss[1], at, a, ls[0])
    ensures DeliverAll(ss[1..], es[1..], ls[1..], at, a)
  {
    var us, gs, rest := ss[1..], es[1..], ls[1..];
    forall k | 0 <= k < |gs| ensures Delivers(us[k], gs[k], us[k + 1], at, a, rest[k]) {
      var j := k + 1;
      assert Delivers(ss[j], es[j], ss[j + 1], at, a, ls[j]);
    }
  }

  /** The agent goes on waiting. */
  lemma {:induction false} AwaitsOn(ss: seq<Net>, es: seq<Step>, ls: seq<Landing<Id>>, at: NodeId, a: Adu, k: nat)
    requires DeliverAll(ss, es, ls, at, a) && AwaitsAt(ss[0], at, a) && k <= |es|
    ensures AwaitsAt(ss[k], at, a)
    decreases k
  {
    if k > 0 {
      DeliversRest(ss, es, ls, at, a);
      DeliveryLands(ss[0], es[0], ss[1], at, a, ls[0]);
      AwaitsOn(ss[1..], es[1..], ls[1..], at, a, k - 1);
    }
  }

  lemma AllLand(ss: seq<Net>, es: seq<Step>, ls: seq<Landing<Id>>, at: NodeId, a: Adu)
    requires DeliverAll(ss, es, ls, at, a) && AwaitsAt(ss[0], at, a)
    ensures forall k :: 0 <= k < |ls| ==> LandsAt(ss[k], ss[k + 1], at, a, ls[k])
    ensures forall k :: 0 <= k < |ss| ==> at in ss[k].nodes
  {
    forall k | 0 <= k < |ls| ensures LandsAt(ss[k], ss[k + 1], at, a, ls[k]) {
      AwaitsOn(ss, es, ls, at, a, k);
      DeliveryLands(ss[k], es[k], ss[k + 1], at, a, ls[k]);
    }
    forall k | 0 <= k < |ss| ensures at in ss[k].nodes {
      AwaitsOn(ss, es, ls, at, a, k);
    }
  }

  function NodesAt(ss: seq<Net>, at: NodeId): (r: seq<Node<Id>>)
    requires forall k :: 0 <= k < |ss| ==> at in ss[k].nodes
    ensures |r| == |ss| && forall k :: 0 <= k < |ss| ==> r[k] == ss[k].nodes[at]
  {
    seq(|ss|, k requires 0 <= k < |ss| => ss[k].nodes[at])
  }

  /** The fragments of the ADU reach agent `at` in the order they were sent. */
  ghost predicate InSendingOrder(ss: seq<Net>, es: seq<Step>, ls: seq<Landing<Id>>, at: NodeId, a: Adu, h: Header, size: nat)
  {
    DeliverAll(ss, es, ls, at, a) && AwaitsAt(ss[0], at, a) && NoneStored(ss[0].nodes[at].world, a) &&
    TilesOf(PacketsIn(ls), h, a, size)
  }

  /** The arrivals are landings in order. */
  lemma OrderLands(ss: seq<Net>, es: seq<Step>, ls: seq<Landing<Id>>, at: NodeId, a: Adu, h: Header, size: nat)
    requires InSendingOrder(ss, es, ls, at, a, h, size)
    ensures forall k :: 0 <= k < |ss| ==> at in ss[k].nodes
    ensures Landings(NodesAt(ss, at), ls, a)
  {
    AllLand(ss, es, ls, at, a);
    InOrder(PacketsIn(ls), h, a, size);
    LandingsAre(ss, ls, at, a);
  }

  lemma LandingsAre(ss: seq<Net>, ls: seq<Landing<Id>>, at: NodeId, a: Adu)
    requires |ss| == |ls| + 1 && forall k :: 0 <= k < |ls| ==> LandsAt(ss[k], ss[k + 1], at, a, ls[k])
    requires forall k :: 0 <= k < |ss| ==> at in ss[k].nodes
    requires Awaits(ss[0].nodes[at], a) && NoneStored(ss[0].nodes[at].world, a) && Extending(PacketsIn(ls), a)
    ensures Landings(NodesAt(ss, at), ls, a)
  {
    var nodes := NodesAt(ss, at);
    forall k | 0 <= k < |ls| ensures LandsTo(nodes[k], ls[k], nodes[k + 1]) {
      assert LandsAt(ss[k], ss[k + 1], at, a, ls[k]);
    }
  }

  /** The landing answers as if from the fragment as it came. */
  ghost predicate AnswersPlainly(n: Node<Id>, l: Landing<Id>, a: Adu, cust: Eid)
  {
    MayLandFor(n, l, a) && SpeaksOf(LandedBundle(n, l, a), l.packet) && l.packet.header.cust == cust
  }

  lemma AnswerAt(ss: seq<Net>, es: seq<Step>, ls: seq<Landing<Id>>, at: NodeId, a: Adu, h: Header, size: nat, k: nat)
    requires InSendingOrder(ss, es, ls, at, a, h, size) && k < |ls|
    ensures at in ss[k].nodes && AnswersPlainly(ss[k].nodes[at], ls[k], a, h.cust)
  {
    OrderLands(ss, es, ls, at, a, h, size);
    InOrderUnchanged(NodesAt(ss, at), ls, a, h, size, k);
    SlicesHeaders(h, a.octets, size, |a.octets|);
    assert PacketsIn(ls)[k] in SendSlices(h, a.octets, size, |a.octets|).1;
  }

  // -------------------------------------------------------------- their answers

  /** The octets carry a custody signal that acknowledges `ack`. */
  ghost predicate Acknowledges(octets: seq<byte>, ack: (nat, nat), key: Key, cust: Eid)
  {
    exists n: Node<Id>, b, now, p, hs :: AnswerPacket(n, b, now, p, hs) && IsAnswer(octets, n, b, now, p, ack, key, cust)
  }

  predicate IsAnswer(octets: seq<byte>, n: Node<Id>, b: Bundle, now: nat, p: Packet, ack: (nat, nat), key: Key, cust: Eid)
  {
    CS.Ranges(SignalFor(b, now)) && Speaks(SignalFor(b, now), key) && key.src != n.eid && b.header.cust == cust &&
    AckOf(SignalFor(b, now)) == ack && Wire6.Sendable6(p) && octets == Wire6.Encode(p)
  }

  lemma AnswerRanges(s: Net, e: Step, s': Net, at: NodeId, a: Adu, l: Landing<Id>)
    requires Delivers(s, e, s', at, a, l) && MayLandFor(s.nodes[at], l, a)
    ensures CS.Ranges(SignalFor(LandedBundle(s.nodes[at], l, a), s.now))
  {
    ReadyHere(s, e);
    DeliveredHeader(s.nodes[at], e, s.now, s.log);
    SignalRanges(Delivered(s.nodes[at], e, s.now), s.now, at, s.log);
  }

  /** What is handed over when the fragment lands acknowledges that fragment. */
  lemma AnswerAcknowledges(s: Net, e: Step, s': Net, at: NodeId, a: Adu, l: Landing<Id>, cust: Eid, octets: seq<byte>)
    requires Delivers(s, e, s', at, a, l) && AnswersPlainly(s.nodes[at], l, a, cust) && a.key.src != s.nodes[at].eid
    requires TakesAnswer(s.nodes[at], e, s.now, octets)
    ensures Acknowledges(octets, AckOf(SignalFor(Arrival(l.packet, 0), 0)), a.key, cust)
  {
    var n, now := s.nodes[at], s.now;
    var p :| p in Act(n, e, now).1 && Wire6.Sendable6(p) && octets == Wire6.Encode(p);
    AnswerRanges(s, e, s', at, a, l);
    LandingAnswers(n, e, now, a, p);
    SameRange(LandedBundle(n, l, a), l.packet, a, now);
    assert IsAnswer(octets, n, LandedBundle(n, l, a), now, p, AckOf(SignalFor(Arrival(l.packet, 0), 0)), a.key, cust);
  }

  // ----------------------------------------------------------- at the custodian

  ghost predicate HoldingAt(s: Net, home: NodeId, agent: Eid, x: Id, a: Adu, r: Record)
  {
    home in s.nodes && Listens(s.nodes[home], agent) && Holding(s.nodes[home].world, x, a.key, |a.octets|, r)
  }

  /** Step `f` of a run brings the custodian an acknowledgement of `ack`. */
  ghost predicate Hears(s: Net, f: Step, s': Net, home: NodeId, cust: Eid, ack: (nat, nat), key: Key)
  {
    Goes(s, f, s') && f.Arrive? && f.at == home && Acknowledges(f.octets, ack, key, cust)
  }

  lemma HeardAt(s: Net, f: Step, s': Net, home: NodeId, cust: Eid, ack: (nat, nat), x: Id, a: Adu, r: Record)
    requires Hears(s, f, s', home, cust, ack, a.key) && HoldingAt(s, home, cust, x, a, r)
    ensures HoldingAt(s', home, cust, x, a, Hear(r, ack, |a.octets|))
  {
    var n: Node<Id>, b, now, p, hs :| AnswerPacket(n, b, now, p, hs) && IsAnswer(f.octets, n, b, now, p, ack, a.key, cust);
    AnswerIsHeard(n, b, now, p, hs, s, f, s', x, a.key, |a.octets|, r);
  }

  ghost predicate HearsAll(ts: seq<Net>, fs: seq<Step>, home: NodeId, cust: Eid, acks: seq<(nat, nat)>, key: Key)
  {
    |ts| == |fs| + 1 == |acks| + 1 && forall k :: 0 <= k < |fs| ==> Hears(ts[k], fs[k], ts[k + 1], home, cust, acks[k], key)
  }

  lemma HearsRest(ts: seq<Net>, fs: seq<Step>, home: NodeId, cust: Eid, acks: seq<(nat, nat)>, key: Key)
    requires HearsAll(ts, fs, home, cust, acks, key) && fs != []
    ensures Hears(ts[0], fs[0], ts[1], home, cust, acks[0], key)
    ensures HearsAll(ts[1..], fs[1..], home, cust, acks[1..], key)
  {
    var us, gs, rest := ts[1..], fs[1..], acks[1..];
    forall k | 0 <= k < |gs| ensures Hears(us[k], gs[k], us[k + 1], home, cust, rest[k], key) {
      var j := k + 1;
      assert Hears(ts[j], fs[j], ts[j + 1], home, cust, acks[j], key);
    }
  }

  lemma {:induction false} SignalsHeard(ts: seq<Net>, fs: seq<Step>, home: NodeId, cust: Eid, acks: seq<(nat, nat)>, x: Id,
                                        a: Adu, r: Record)
    requires HearsAll(ts, fs, home, cust, acks, a.key) && HoldingAt(ts[0], home, cust, x, a, r)
    ensures HoldingAt(ts[|fs|], home, cust, x, a, HearAll(r, acks, |a.octets|))
    decreases |fs|
  {
    if fs != [] {
      HearsRest(ts, fs, home, cust, acks, a.key);
      HeardAt(ts[0], fs[0], ts[1], home, cust, acks[0], x, a, r);
      SignalsHeard(ts[1..], fs[1..], home, cust, acks[1..], x, a, Hear(r, acks[0], |a.octets|));
      assert ts[1..][|fs[1..]|] == ts[|fs|];
    }
  }

  // ------------------------------------------------------------- the whole round

  ghost predicate HomeAs(s: Net, home: NodeId, n: Node<Id>)
  {
    home in s.nodes && s.nodes[home] == n
  }

  /** The custodian takes no part in the arrivals. */
  lemma {:induction false} HomeStays(ss: seq<Net>, es: seq<Step>, ls: seq<Landing<Id>>, at: NodeId, a: Adu, home: NodeId,
                                     n: Node<Id>)
    requires DeliverAll(ss, es, ls, at, a) && at != home && HomeAs(ss[0], home, n)
    ensures HomeAs(ss[|es|], home, n)
    decreases |es|
  {
    if es != [] {
      DeliversRest(ss, es, ls, at, a);
      HomeSteps(ss[0], es[0], ss[1], at, a, ls[0], home);
      HomeStays(ss[1..], es[1..], ls[1..], at, a, home, n);
    }
  }

  lemma HomeSteps(s: Net, e: Step, s': Net, at: NodeId, a: Adu, l: Landing<Id>, home: NodeId)
    requires Delivers(s, e, s', at, a, l) && at != home && home in s.nodes
    ensures home in s'.nodes && s'.nodes[home] == s.nodes[home]
  {
    OthersStay(s, e, s', home);
  }

  /** Step `f` brings agent `home` what agent `at` handed over in step `e`. */
  ghost predicate BringsAnswer(s: Net, e: Step, f: Step, at: NodeId, home: NodeId)
  {
    f.Arrive? && f.at == home && at in s.nodes && TakesAnswer(s.nodes[at], e, s.now, f.octets)
  }

  /** Steps `fs` bring agent `home` the answers of steps `es`, in that order. */
  ghost predicate AnswersArrive(ss: seq<Net>, es: seq<Step>, fs: seq<Step>, at: NodeId, home: NodeId)
  {
    |fs| == |es| < |ss| && forall k :: 0 <= k < |fs| ==> BringsAnswer(ss[k], es[k], fs[k], at, home)
  }

  ghost predicate Consecutive(ts: seq<Net>, fs: seq<Step>)
  {
    |ts| == |fs| + 1 && forall k :: 0 <= k < |fs| ==> Goes(ts[k], fs[k], ts[k + 1])
  }

  /** After the fragments come their answers. */
  ghost predicate AnswersFollow(ss: seq<Net>, es: seq<Step>, ts: seq<Net>, fs: seq<Step>, at: NodeId, home: NodeId)
  {
    AnswersArrive(ss, es, fs, at, home) && Consecutive(ts, fs) && ts[0] == ss[|es|]
  }

  lemma AnswerHeard(ss: seq<Net>, es: seq<Step>, ls: seq<Landing<Id>>, at: NodeId, a: Adu, h: Header, size: nat, k: nat,
                    f: Step, home: NodeId)
    requires InSendingOrder(ss, es, ls, at, a, h, size) && k < |es| && BringsAnswer(ss[k], es[k], f, at, home)
    ensures Acknowledges(f.octets, AckOf(SignalFor(Arrival(ls[k].packet, 0), 0)), a.key, h.cust)
  {
    AnswerAt(ss, es, ls, at, a, h, size, k);
    AnswerAcknowledges(ss[k], es[k], ss[k + 1], at, a, ls[k], h.cust, f.octets);
  }

  lemma AnswersHeard(ss: seq<Net>, es: seq<Step>, ls: seq<Landing<Id>>, ts: seq<Net>, fs: seq<Step>, at: NodeId, home: NodeId,
                     a: Adu, h: Header, size: nat)
    requires InSendingOrder(ss, es, ls, at, a, h, size) && AnswersFollow(ss, es, ts, fs, at, home)
    ensures HearsAll(ts, fs, home, h.cust, AcksOf(PacketsIn(ls), 0, 0), a.key)
  {
    var acks := AcksOf(PacketsIn(ls), 0, 0);
    forall k | 0 <= k < |fs| ensures Hears(ts[k], fs[k], ts[k + 1], home, h.cust, acks[k], a.key) {
      AnswerHeard(ss, es, ls, at, a, h, size, k, fs[k], home);
    }
  }

  /** The two halves of the round. */
  lemma HalvesRelease(ss: seq<Net>, es: seq<Step>, ls: seq<Landing<Id>>, ts: seq<Net>, fs: seq<Step>, at: NodeId,
                      home: NodeId, a: Adu, h: Header, size: nat, x: Id)
    requires InSendingOrder(ss, es, ls, at, a, h, size) && AnswersFollow(ss, es, ts, fs, at, home)
    requires at != home && |a.octets| < TWO32 && HoldingAt(ss[0], home, h.cust, x, a, Some([]))
    ensures HoldingAt(ts[|fs|], home, h.cust, x, a, None)
  {
    HomeStays(ss, es, ls, at, a, home, ss[0].nodes[home]);
    AnswersHeard(ss, es, ls, ts, fs, at, home, a, h, size);
    SignalsHeard(ts, fs, home, h.cust, AcksOf(PacketsIn(ls), 0, 0), x, a, Some([]));
    FragmentsRelease(h, a.octets, size, 0, 0);
  }

  // ------------------------------------------------------------------ in a run

  /** Each step takes one fragment of the ADU off the channel, as landing `ls[k]`. */
  ghost predicate ArriveAll(ss: seq<Net>, es: seq<Step>, ls: seq<Landing<Id>>, at: NodeId, a: Adu)
  {
    |ss| == |es| + 1 == |ls| + 1 &&
    forall k :: 0 <= k < |es| ==> FragmentArrives(ss[k], es[k], at, a) && ls[k] == LandingOf(es[k], ss[k].now)
  }

  /** The fragments of an ADU arrive in the order they were sent, where it is awaited
      and none of it has arrived. */
  ghost predicate ArriveInOrder(ss: seq<Net>, es: seq<Step>, ls: seq<Landing<Id>>, at: NodeId, a: Adu, h: Header, size: nat)
  {
    ArriveAll(ss, es, ls, at, a) && AwaitsAt(ss[0], at, a) && NoneStored(ss[0].nodes[at].world, a) &&
    TilesOf(PacketsIn(ls), h, a, size)
  }

  /** The steps of a run from `i` on, and the states between them. */
  predicate Stretch(states: seq<Net>, steps: seq<Step>, i: nat, ss: seq<Net>, es: seq<Step>)
  {
    i + |es| <= |steps| < |states| && ss == states[i..i + |es| + 1] && es == steps[i..i + |es|]
  }

  lemma StretchAt(states: seq<Net>, steps: seq<Step>, i: nat, ss: seq<Net>, es: seq<Step>, k: nat)
    requires Stretch(states, steps, i, ss, es) && k < |es|
    ensures ss[k] == states[i + k] && es[k] == steps[i + k] && ss[k + 1] == states[i + k + 1]
  {
  }

  /** Step `e` is one of a direct run. */
  ghost predicate InRun(s: Net, e: Step, s': Net)
  {
    Goes(s, e, s') && Inv(s) && DirectStep(s, e)
  }

  lemma RunAt(states: seq<Net>, steps: seq<Step>, j: nat)
    requires DirectRun(states, steps) && j < |steps|
    ensures InRun(states[j], steps[j], states[j + 1])
  {
    RunKeepsInv(states, steps, j);
  }

  ghost predicate AllInRun(ss: seq<Net>, es: seq<Step>)
  {
    |ss| == |es| + 1 && forall k :: 0 <= k < |es| ==> InRun(ss[k], es[k], ss[k + 1])
  }

  lemma StretchInRun(states: seq<Net>, steps: seq<Step>, i: nat, ss: seq<Net>, es: seq<Step>)
    requires DirectRun(states, steps) && Stretch(states, steps, i, ss, es)
    ensures AllInRun(ss, es)
  {
    forall k | 0 <= k < |es| ensures InRun(ss[k], es[k], ss[k + 1]) {
      StretchAt(states, steps, i, ss, es, k);
      RunAt(states, steps, i + k);
    }
  }

  lemma InRunDelivers(ss: seq<Net>, es: seq<Step>, ls: seq<Landing<Id>>, at: NodeId, a: Adu)
    requires AllInRun(ss, es) && ArriveAll(ss, es, ls, at, a)
    ensures DeliverAll(ss, es, ls, at, a)
  {
  }

  lemma InRunGoesOn(ts: seq<Net>, fs: seq<Step>)
    requires AllInRun(ts, fs)
    ensures Consecutive(ts, fs)
  {
  }

  lemma InRunReleases(ss: seq<Net>, es: seq<Step>, ls: seq<Landing<Id>>, ts: seq<Net>, fs: seq<Step>, at: NodeId,
                      home: NodeId, a: Adu, h: Header, size: nat, x: Id)
    requires AllInRun(ss, es) && AllInRun(ts, fs) && ts[0] == ss[|es|]
    requires ArriveInOrder(ss, es, ls, at, a, h, size) && AnswersArrive(ss, es, fs, at, home)
    requires at != home && |a.octets| < TWO32 && HoldingAt(ss[0], home, h.cust, x, a, Some([]))
    ensures HoldingAt(ts[|fs|], home, h.cust, x, a, None)
  {
    InRunDelivers(ss, es, ls, at, a);
    InRunGoesOn(ts, fs);
    HalvesRelease(ss, es, ls, ts, fs, at, home, a, h, size, x);
  }

  lemma StretchesMeet(states: seq<Net>, steps: seq<Step>, i: nat, ss: seq<Net>, es: seq<Step>, j: nat, ts: seq<Net>,
                      fs: seq<Step>)
    requires Stretch(states, steps, i, ss, es) && Stretch(states, steps, j, ts, fs) && j == i + |es|
    ensures ts[0] == ss[|es|]
  {
  }

  /** A custody round in a run over a direct channel: the steps from `i` on take the
      fragments of an ADU off the channel at agent `at`, in the order they were sent;
      the steps after them take off the channel at agent `home` what was handed over
      in answer, in that order. If `home` was the custodian and had heard of no
      fragment, it has dropped the bundle. */
  lemma RoundReleases(states: seq<Net>, steps: seq<Step>, i: nat, ss: seq<Net>, es: seq<Step>, j: nat, ts: seq<Net>,
                      fs: seq<Step>, ls: seq<Landing<Id>>, at: NodeId, home: NodeId, a: Adu, h: Header, size: nat, x: Id)
    requires DirectRun(states, steps)
    requires Stretch(states, steps, i, ss, es) && Stretch(states, steps, j, ts, fs) && j == i + |es|
    requires ArriveInOrder(ss, es, ls, at, a, h, size) && AnswersArrive(ss, es, fs, at, home)
    requires at != home && |a.octets| < TWO32 && HoldingAt(ss[0], home, h.cust, x, a, Some([]))
    ensures HoldingAt(ts[|fs|], home, h.cust, x, a, None)
  {
    StretchInRun(states, steps, i, ss, es);
    StretchInRun(states, steps, j, ts, fs);
    StretchesMeet(states, steps, i, ss, es, j, ts, fs);
    InRunReleases(ss, es, ls, ts, fs, at, home, a, h, size, x);
  }
}
