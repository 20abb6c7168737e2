/**
 End-to-end integrity over whole runs: the invariant of module `Integrity` is
 kept by every step, and what `Receive` returns is what was given to `Send`.
 */
module EndToEnd {
  import opened Bytes
  import opened Bundles
  import opened Agent
  import opened Soundness
  import opened Custodial
  import opened Drain
  import opened Network
  import opened Integrity
  import CS = CustodySignal
  import Endpoint
  import Sdnv

  // ---------------------------------------------------------- size of a signal

  lemma PartsBound(uri: seq<byte>)
    requires Endpoint.ValidUri(uri)
    ensures |uri| <= 2047
  {
  }

  lemma {:induction false} SeriesBound(vs: seq<nat>)
    requires forall v :: v in vs ==> v < TWO32
    ensures |Sdnv.Series(vs)| <= 5 * |vs|
  {
    if vs != [] {
      assert vs[0] in vs && forall v :: v in vs[1..] ==> v in vs;
      Sdnv.AtMostFive(vs[0]);
      SeriesBound(vs[1..]);
    }
  }

  /** The octets of a custody signal's record besides its source: six numbers of
      at most five octets, the status, and the record's type and flags. */
  const SIGNAL_ROOM: nat := 32

  lemma SignalBound(c: CS.Signal)
    requires CS.Ranges(c) && c.time < TWO32
    ensures |CS.Record(c, true)| == |CS.Record(c, false)| <= |c.source| + SIGNAL_ROOM
  {
    SeriesBound(CS.Numbers(c));
  }

  ghost predicate SignalFits(b: Bundle, now: nat)
  {
    CS.Ranges(SignalFor(b, now)) && |RecordFor(b, now)| <= |b.header.src| + SIGNAL_ROOM && |b.header.src| <= 2047
  }

  lemma SignalRanges(b: Bundle, now: nat, at: NodeId, log: Log)
    requires BundleOk(b, at, log) && now / SECOND < TWO32
    requires |log[KeyOf(b.header)].adu| < TWO32
    ensures SignalFits(b, now)
  {
    PartsBound(b.header.src);
    SignalBound(SignalFor(b, now));
  }

  // ----------------------------------------------------------- node operations

  /** Bundle `id` has just been taken off the wire: it is not the agent's own if
      it is to be delivered, and whole if it is to be forwarded. */
  ghost predicate Landed(n: Node<Id>, id: Id, at: NodeId, log: Log)
  {
    WorldOk(n.world, at, log) && Sendable(n, id) && !IsRunning(n.world, n.world.bundles[id].nextRetrans) &&
    KeyOf(n.world.bundles[id].header) in log && LandedAs(n, n.world.bundles[id], at, log)
  }

  ghost predicate LandedAs(n: Node<Id>, b: Bundle, at: NodeId, log: Log)
    requires KeyOf(b.header) in log
  {
    (Active(n, b.header.dst) ==> Readable(n.eid, b)) &&
    if b.header.dst in n.registrations then log[KeyOf(b.header)].at != at else IsWhole(b, log)
  }

  /** The packet may land: the step is faultless and the channel direct. */
  ghost predicate MayLand(n: Node<Id>, p: Packet, address: nat, at: NodeId, log: Log)
  {
    PacketOk(p, log) && (Active(n, p.header.dst) ==> Readable(n.eid, Arrival(p, address))) &&
    if p.header.dst in n.registrations then log[KeyOf(p.header)].at != at else !p.header.fragment
  }

  lemma ArrivalOk(p: Packet, address: nat, at: NodeId, log: Log)
    requires PacketOk(p, log)
    ensures BundleOk(Arrival(p, address), at, log)
    ensures !p.header.fragment ==> IsWhole(Arrival(p, address), log)
  {
    var full := log[KeyOf(p.header)].adu;
    if !p.header.fragment {
      assert p.payload == full[0..|full|] == full;
    }
  }

  lemma TakenOk(n: Node<Id>, p: Packet, id: Id, address: nat, now: nat, at: NodeId, log: Log)
    requires NodeOk(n, at, log) && id !in n.world.bundles && MayLand(n, p, address, at, log)
    ensures Landed(Taken(n, p, id, address, now), id, at, log)
  {
    var b, w' := Arrival(p, address), Taken(n, p, id, address, now).world;
    StoreNew(n.world, id, b, now);
    ArrivalOk(p, address, at, log);
    AddedOk(n.world, w', id, b, at, log);
  }

  lemma AddedOk(w: World<Id>, w': World<Id>, id: Id, b: Bundle, at: NodeId, log: Log)
    requires WorldOk(w, at, log) && Sound(w') && OnlyTouches(Put(w, id, b), w', id) && BundleOk(b, at, log)
    requires w'.bundles[id] == b.(expireEvent := w'.bundles[id].expireEvent)
    ensures WorldOk(w', at, log)
  {
    forall x | x in w'.bundles ensures BundleOk(w'.bundles[x], at, log) {
      if x != id {
        assert BundleOk(w.bundles[x], at, log);
      }
    }
  }

  /** The custody signal's own key is in the log, with the record that goes out. */
  ghost predicate SignalLogged(n: Node<Id>, b: Bundle, now: nat, at: NodeId, log: Log)
  {
    b.header.custody && MaySend(n, n.eid) ==>
      NextKey(n, n.eid, now) in log && log[NextKey(n, n.eid, now)] == Original(RecordFor(b, now), b.header.cust, at)
  }

  lemma EnqueuedOk(n: Node<Id>, id: Id, at: NodeId, log: Log)
    requires Landed(n, id, at, log) && n.world.bundles[id].header.dst in n.registrations
    ensures WorldOk(Enqueued(n, id).world, at, log) && SameHeaders(n.world, Enqueued(n, id).world)
  {
    if Active(n, n.world.bundles[id].header.dst) {
      EnqueueOk(n.eid, n.world, id, at, log);
      EnqueueHeaders(n.eid, n.world, id);
    }
  }

  lemma DeliverIs<T>(n: Node<T>, id: T, signalId: T, address: nat, now: nat)
    requires id in n.world.bundles && StoreKnown(n.world) && n.bundleSize > 0
    requires Active(n, n.world.bundles[id].header.dst) ==> Readable(n.eid, n.world.bundles[id])
    ensures var n1 := Enqueued(n, id);
            Deliver(n, id, signalId, address, now) ==
              if n1.world.bundles[id].header.custody then SignalSent(n1, n1.world.bundles[id], signalId, address, now)
              else (n1, [])
  {
  }

  /** `SendCustodySignal` for bundle `b`. */
  function SignalSent<T(==)>(n: Node<T>, b: Bundle, signalId: T, address: nat, now: nat): (Node<T>, seq<Packet>)
    requires n.bundleSize > 0 && StoreKnown(n.world)
  {
    var (n2, packets, _) := Send(n, signalId, address, now, RecordFor(b, now), n.eid, b.header.cust,
                                 b.header.lifetime, false, 0);
    (n2, packets)
  }

  /** Delivered bundle `id` can be answered with a signal. */
  ghost predicate MaySignal(n: Node<Id>, id: Id, signalId: Id, now: nat, at: NodeId, log: Log)
  {
    NodeOk(n, at, log) && id in n.world.bundles && signalId !in n.world.bundles && now / SECOND < TWO32 &&
    KeyOf(n.world.bundles[id].header) in log && |log[KeyOf(n.world.bundles[id].header)].adu| < TWO32 &&
    SignalLogged(n, n.world.bundles[id], now, at, log)
  }

  lemma SignalSentOk(n: Node<Id>, id: Id, signalId: Id, address: nat, now: nat, at: NodeId, log: Log)
    requires MaySignal(n, id, signalId, now, at, log) && n.world.bundles[id].header.custody
    ensures ResultOk(SignalSent(n, n.world.bundles[id], signalId, address, now), at, log)
  {
    var b := n.world.bundles[id];
    SignalRanges(b, now, at, log);
    SendOk(n, signalId, address, now, RecordFor(b, now), n.eid, b.header.cust, b.header.lifetime, false, 0, at, log);
  }

  /** Nothing stands in the way of dispatching bundle `id`: room for the signal
      is made, and its key is in the log. */
  ghost predicate MayDispatch(n: Node<Id>, id: Id, signalId: Id, now: nat, at: NodeId, log: Log)
  {
    Landed(n, id, at, log) && Configured(n) && signalId !in n.world.bundles && now / SECOND < TWO32 &&
    |log[KeyOf(n.world.bundles[id].header)].adu| < TWO32 &&
    (n.world.bundles[id].header.dst in n.registrations ==>
       SignalLogged(n, Enqueued(n, id).world.bundles[id], now, at, log))
  }

  lemma EnqueuedStands(n: Node<Id>, id: Id, at: NodeId, log: Log)
    requires Landed(n, id, at, log) && Configured(n) && n.world.bundles[id].header.dst in n.registrations
    ensures NodeOk(Enqueued(n, id), at, log)
    ensures SameButFlag(n.world.bundles[id].header, Enqueued(n, id).world.bundles[id].header)
  {
    EnqueuedOk(n, id, at, log);
  }

  lemma EnqueuedMaySignal(n: Node<Id>, id: Id, signalId: Id, now: nat, at: NodeId, log: Log)
    requires MayDispatch(n, id, signalId, now, at, log) && n.world.bundles[id].header.dst in n.registrations
    ensures MaySignal(Enqueued(n, id), id, signalId, now, at, log)
  {
    EnqueuedStands(n, id, at, log);
  }

  lemma DeliverOk(n: Node<Id>, id: Id, signalId: Id, address: nat, now: nat, at: NodeId, log: Log)
    requires MayDispatch(n, id, signalId, now, at, log) && n.world.bundles[id].header.dst in n.registrations
    ensures ResultOk(Deliver(n, id, signalId, address, now), at, log)
  {
    EnqueuedMaySignal(n, id, signalId, now, at, log);
    DeliverIs(n, id, signalId, address, now);
    var n1 := Enqueued(n, id);
    if n1.world.bundles[id].header.custody {
      SignalSentOk(n1, id, signalId, address, now, at, log);
    }
  }

  lemma DispatchOk(n: Node<Id>, id: Id, signalId: Id, address: nat, now: nat, at: NodeId, log: Log)
    requires MayDispatch(n, id, signalId, now, at, log)
    ensures ResultOk(Dispatch(n, id, signalId, address, now), at, log)
  {
    if n.world.bundles[id].header.dst in n.registrations {
      DeliverOk(n, id, signalId, address, now, at, log);
    } else {
      ForwardOk(n, id, at, log);
    }
  }

  /** An agent in order, a packet that may land, and its signal's key logged. */
  ghost predicate MayProcess(n: Node<Id>, e: Step, now: nat, log: Log)
  {
    e.Arrive? && MayAct(n, e) && Faultless(n, e) && NodeOk(n, e.at, log) && now / SECOND < TWO32 &&
    MayLand(n, PacketOf(e.octets), e.address, e.at, log) && |log[KeyOf(PacketOf(e.octets).header)].adu| < TWO32 &&
    (PacketOf(e.octets).header.dst in n.registrations ==> SignalLogged(n, Delivered(n, e, now), now, e.at, log))
  }

  lemma TakenMayDispatch(n: Node<Id>, e: Step, now: nat, log: Log)
    requires MayProcess(n, e, now, log)
    ensures MayDispatch(Taken(n, PacketOf(e.octets), e.id, e.address, now), e.id, e.signalId, now, e.at, log)
  {
    TakenOk(n, PacketOf(e.octets), e.id, e.address, now, e.at, log);
  }

  lemma ArriveIsProcess(n: Node<Id>, e: Step, now: nat)
    requires e.Arrive? && MayAct(n, e) && Faultless(n, e)
    ensures Act(n, e, now) == Process(n, PacketOf(e.octets), e.id, e.signalId, e.address, now)
  {
  }

  lemma ArriveIs(n: Node<Id>, e: Step, now: nat)
    requires e.Arrive? && MayAct(n, e) && Faultless(n, e)
    ensures Act(n, e, now)
         == Dispatch(Taken(n, PacketOf(e.octets), e.id, e.address, now), e.id, e.signalId, e.address + 1, now)
  {
    ArriveIsProcess(n, e, now);
    ProcessIs(n, PacketOf(e.octets), e.id, e.signalId, e.address, now);
  }

  lemma ProcessOk(n: Node<Id>, e: Step, now: nat, log: Log)
    requires MayProcess(n, e, now, log)
    ensures ResultOk(Act(n, e, now), e.at, log)
  {
    TakenMayDispatch(n, e, now, log);
    ArriveIs(n, e, now);
    DispatchOk(Taken(n, PacketOf(e.octets), e.id, e.address, now), e.id, e.signalId, e.address + 1, now, e.at, log);
  }

  lemma ReceiveOk(n: Node<Id>, eid: Eid, at: NodeId, log: Log)
    requires NodeOk(n, at, log)
    ensures NodeOk(Receive(n, eid).0, at, log)
  {
    match FirstFor(n.world.bundles, n.world.store, eid, false)
    case None =>
    case Some(id) => DropOk(n.world, id, at, log);
  }

  lemma ExpireOk(n: Node<Id>, event: nat, at: NodeId, log: Log)
    requires NodeOk(n, at, log) && event in n.world.pending && n.world.pending[event].Expiry?
    ensures n.world.pending[event].bundle in n.world.bundles
    ensures NodeOk(ExpireEvent(n, event), at, log)
  {
    ExpireSound(n.world, event);
    DropOk(n.world, n.world.pending[event].bundle, at, log);
  }

  /** What has a timer is whole. */
  lemma TimedIsWhole(w: World<Id>, event: nat, at: NodeId, log: Log)
    requires WorldOk(w, at, log) && event in w.pending && w.pending[event].Retransmission?
    ensures w.pending[event].bundle in w.bundles && IsWhole(w.bundles[w.pending[event].bundle], log)
  {
    assert EventHeld(w, event);
    assert BundleOk(w.bundles[w.pending[event].bundle], at, log);
  }

  lemma RetransmitOk(n: Node<Id>, event: nat, at: NodeId, log: Log)
    requires NodeOk(n, at, log) && event in n.world.pending && n.world.pending[event].Retransmission?
    ensures Sendable(n, n.world.pending[event].bundle) && ResultOk(Retransmit(n, event), at, log)
  {
    TimedIsWhole(n.world, event, at, log);
    FireSound(n.world, event);
    ForwardOk(n.(world := n.world.(pending := n.world.pending - {event})), n.world.pending[event].bundle, at, log);
  }

  lemma WaitingIsWhole(w: World<Id>, id: Id, at: NodeId, log: Log)
    requires WorldOk(w, at, log) && id in w.store && ForwardPending in w.bundles[id].retention
    ensures IsWhole(w.bundles[id], log) && !IsRunning(w, w.bundles[id].nextRetrans)
  {
    assert BundleOk(w.bundles[id], at, log) && HandlesFit(w, id);
  }

  lemma {:induction false} ForwardAllOk(n: Node<Id>, ids: seq<Id>, at: NodeId, log: Log)
    requires NodeOk(n, at, log) && Snapshot(n, ids)
    ensures ResultOk(ForwardAll(n, ids), at, log)
    decreases |ids|
  {
    if ids != [] {
      var (n1, p1) := Forward(n, ids[0]);
      WaitingIsWhole(n.world, ids[0], at, log);
      ForwardOk(n, ids[0], at, log);
      SnapshotShrinks(n, ids, false);
      ForwardAllOk(n1, ids[1..], at, log);
    }
  }

  lemma ClaReadyOk(n: Node<Id>, cla: Cla, at: NodeId, log: Log)
    requires NodeOk(n, at, log)
    ensures ResultOk(ClaReady(n, cla), at, log)
  {
    WaitingIsSnapshot(n, n.world.store, cla);
    ForwardAllOk(n, Waiting(n, n.world.store, cla), at, log);
  }

  // ------------------------------------------------- what stays of the agent

  /** Only the world and the sequence number change. */
  predicate Frame<T(==)>(n: Node<T>, n': Node<T>)
  {
    n' == n.(world := n'.world, sequence := n'.sequence) && (n.sequence < TWO32 ==> n'.sequence < TWO32)
  }

  lemma SendFrame<T>(n: Node<T>, id: T, address: nat, now: nat, adu: seq<byte>,
                     src: Eid, dst: Eid, lifetime: nat, custody: bool, priority: nat)
    requires n.bundleSize > 0 && StoreKnown(n.world)
    ensures Frame(n, Send(n, id, address, now, adu, src, dst, lifetime, custody, priority).0)
  {
  }

  lemma DeliverFrame<T>(n: Node<T>, id: T, signalId: T, address: nat, now: nat)
    requires id in n.world.bundles && StoreKnown(n.world) && n.bundleSize > 0
    requires Active(n, n.world.bundles[id].header.dst) ==> Readable(n.eid, n.world.bundles[id])
    ensures Frame(n, Deliver(n, id, signalId, address, now).0)
  {
    var n1 := Enqueued(n, id);
    var b := n1.world.bundles[id];
    SendFrame(n1, signalId, address, now, RecordFor(b, now), n1.eid, b.header.cust, b.header.lifetime, false, 0);
  }

  lemma ProcessFrame<T>(n: Node<T>, p: Packet, id: T, signalId: T, address: nat, now: nat)
    requires StoreKnown(n.world) && n.bundleSize > 0
    requires Active(n, p.header.dst) ==> Readable(n.eid, Arrival(p, address))
    ensures Frame(n, Process(n, p, id, signalId, address, now).0)
  {
    ProcessIs(n, p, id, signalId, address, now);
    var n1 := Taken(n, p, id, address, now);
    if p.header.dst in n.registrations {
      DeliverFrame(n1, id, signalId, address + 1, now);
    }
  }

  lemma {:induction false} ForwardAllFrame<T>(n: Node<T>, ids: seq<T>)
    ensures Frame(n, ForwardAll(n, ids).0)
    decreases |ids|
  {
    if ids != [] && Sendable(n, ids[0]) {
      ForwardAllFrame(Forward(n, ids[0]).0, ids[1..]);
    }
  }

  // ----------------------------------------------------------- an agent's step

  ghost predicate LogOk(log: Log)
  {
    forall k :: k in log ==> |log[k].adu| < TWO32
  }

  ghost predicate Grown(log: Log, log': Log)
  {
    Extends(log, log') && LogOk(log')
  }

  lemma GrownBy(log: Log, key: Key, o: Original)
    requires LogOk(log) && key !in log && |o.adu| < TWO32
    ensures Grown(log, log[key := o])
  {
  }

  /** The step can be taken, under a new key if it sends, over a direct channel. */
  ghost predicate Regular(n: Node<Id>, e: Step, now: nat, log: Log)
  {
    !e.Clock? && MayAct(n, e) && Faultless(n, e) && FreshKey(n, e, now, log) && Direct(n, e, log)
  }

  /** A regular step of an agent in order, on a packet in order. */
  ghost predicate Ready(n: Node<Id>, e: Step, now: nat, log: Log)
  {
    Regular(n, e, now, log) && NodeOk(n, e.at, log) && LogOk(log) && now / SECOND < TWO32 &&
    (e.Arrive? ==> PacketOk(PacketOf(e.octets), log))
  }

  /** The log after it. */
  ghost predicate ActsOk(n: Node<Id>, e: Step, now: nat, log: Log)
  {
    !e.Clock? && MayAct(n, e) && Faultless(n, e) &&
    NodeOk(Act(n, e, now).0, e.at, log) && PacketsOk(Act(n, e, now).1, log)
  }

  lemma SubmitLog(n: Node<Id>, e: Step, now: nat, log: Log)
    requires Ready(n, e, now, log) && e.Submit?
    ensures Grown(log, LogAfter(n, e, now, log))
  {
    if MaySend(n, e.src) {
      GrownBy(log, NextKey(n, e.src, now), Original(e.adu, e.dst, e.at));
    }
  }

  lemma SubmitIs(n: Node<Id>, e: Step, now: nat)
    requires e.Submit? && MayAct(n, e) && Faultless(n, e)
    ensures var r := Send(n, e.id, e.address, now, e.adu, e.src, e.dst, e.lifetime, e.custody, e.priority);
            Act(n, e, now) == (r.0, r.1)
  {
  }

  lemma SubmitOk(n: Node<Id>, e: Step, now: nat, log: Log)
    requires Ready(n, e, now, log) && e.Submit?
    ensures ActsOk(n, e, now, LogAfter(n, e, now, log))
  {
    var log' := LogAfter(n, e, now, log);
    SubmitLog(n, e, now, log);
    NodeGrows(n, e.at, log, log');
    SendOk(n, e.id, e.address, now, e.adu, e.src, e.dst, e.lifetime, e.custody, e.priority, e.at, log');
    SendFrame(n, e.id, e.address, now, e.adu, e.src, e.dst, e.lifetime, e.custody, e.priority);
    SubmitIs(n, e, now);
  }

  lemma MayLandHere(n: Node<Id>, e: Step, now: nat, log: Log)
    requires Ready(n, e, now, log) && e.Arrive?
    ensures MayLand(n, PacketOf(e.octets), e.address, e.at, log)
  {
  }

  lemma DeliveredHeader(n: Node<Id>, e: Step, now: nat, log: Log)
    requires Ready(n, e, now, log) && e.Arrive? && PacketOf(e.octets).header.dst in n.registrations
    ensures SameButFlag(PacketOf(e.octets).header, Delivered(n, e, now).header)
    ensures BundleOk(Delivered(n, e, now), e.at, log)
  {
    var n1 := Taken(n, PacketOf(e.octets), e.id, e.address, now);
    MayLandHere(n, e, now, log);
    TakenOk(n, PacketOf(e.octets), e.id, e.address, now, e.at, log);
    EnqueuedOk(n1, e.id, e.at, log);
    assert SameButFlag(n1.world.bundles[e.id].header, Delivered(n, e, now).header);
  }

  lemma RecordIsShort(n: Node<Id>, e: Step, now: nat, log: Log)
    requires Ready(n, e, now, log) && e.Arrive? && PacketOf(e.octets).header.dst in n.registrations
    ensures |SignalOf(n, e, now).adu| < TWO32
  {
    DeliveredHeader(n, e, now, log);
    SignalRanges(Delivered(n, e, now), now, e.at, log);
  }

  lemma ArriveLog(n: Node<Id>, e: Step, now: nat, log: Log)
    requires Ready(n, e, now, log) && e.Arrive?
    ensures Grown(log, LogAfter(n, e, now, log))
  {
    if Signals(n, PacketOf(e.octets)) {
      RecordIsShort(n, e, now, log);
      GrownBy(log, NextKey(n, n.eid, now), SignalOf(n, e, now));
    }
  }

  lemma ArriveSignal(n: Node<Id>, e: Step, now: nat, log: Log)
    requires Ready(n, e, now, log) && e.Arrive? && PacketOf(e.octets).header.dst in n.registrations
    ensures SignalLogged(n, Delivered(n, e, now), now, e.at, LogAfter(n, e, now, log))
  {
    DeliveredHeader(n, e, now, log);
  }

  lemma MayProcessHere(n: Node<Id>, e: Step, now: nat, log: Log)
    requires Ready(n, e, now, log) && e.Arrive?
    ensures MayProcess(n, e, now, LogAfter(n, e, now, log))
  {
    ArriveLog(n, e, now, log);
    NodeGrows(n, e.at, log, LogAfter(n, e, now, log));
    MayLandHere(n, e, now, log);
    if PacketOf(e.octets).header.dst in n.registrations {
      ArriveSignal(n, e, now, log);
    }
  }

  lemma ArriveOk(n: Node<Id>, e: Step, now: nat, log: Log)
    requires Ready(n, e, now, log) && e.Arrive?
    ensures ActsOk(n, e, now, LogAfter(n, e, now, log))
  {
    MayProcessHere(n, e, now, log);
    ProcessOk(n, e, now, LogAfter(n, e, now, log));
    ProcessFrame(n, PacketOf(e.octets), e.id, e.signalId, e.address, now);
  }

  lemma RetransmitFrame<T>(n: Node<T>, event: nat)
    requires event in n.world.pending && n.world.pending[event].Retransmission?
    requires Sendable(n, n.world.pending[event].bundle)
    ensures Frame(n, Retransmit(n, event).0)
  {
  }

  lemma ExpiryOk(n: Node<Id>, e: Step, now: nat, log: Log)
    requires Ready(n, e, now, log) && e.Timer? && n.world.pending[e.event].Expiry?
    ensures ActsOk(n, e, now, log)
  {
    ExpireOk(n, e.event, e.at, log);
  }

  lemma RetransmissionIs(n: Node<Id>, e: Step, now: nat)
    requires e.Timer? && MayAct(n, e) && Faultless(n, e) && n.world.pending[e.event].Retransmission?
    ensures Act(n, e, now) == Retransmit(n, e.event)
  {
  }

  lemma RetransmissionOk(n: Node<Id>, e: Step, now: nat, log: Log)
    requires Ready(n, e, now, log) && e.Timer? && n.world.pending[e.event].Retransmission?
    ensures ActsOk(n, e, now, log)
  {
    RetransmissionIs(n, e, now);
    RetransmitOk(n, e.event, e.at, log);
    RetransmitFrame(n, e.event);
  }

  lemma ReadyOk(n: Node<Id>, e: Step, now: nat, log: Log)
    requires Ready(n, e, now, log) && e.AdapterReady?
    ensures ActsOk(n, e, now, log)
  {
    ClaReadyOk(n, e.cla, e.at, log);
    ForwardAllFrame(n, Waiting(n, n.world.store, e.cla));
  }

  lemma LocalOk(n: Node<Id>, e: Step, now: nat, log: Log)
    requires Ready(n, e, now, log) && (e.Fetch? || e.Configure?)
    ensures ActsOk(n, e, now, log)
  {
    if e.Fetch? {
      ReceiveOk(n, e.eid, e.at, log);
    }
  }

  lemma ActKeepsOk(n: Node<Id>, e: Step, now: nat, log: Log)
    requires Ready(n, e, now, log)
    ensures Grown(log, LogAfter(n, e, now, log)) && ActsOk(n, e, now, LogAfter(n, e, now, log))
  {
    match e
    case Submit(_, _, _, _, _, _, _, _, _) =>
      SubmitLog(n, e, now, log);
      SubmitOk(n, e, now, log);
    case Arrive(_, _, _, _, _) =>
      ArriveLog(n, e, now, log);
      ArriveOk(n, e, now, log);
    case Timer(_, event) =>
      if n.world.pending[event].Expiry? {
        ExpiryOk(n, e, now, log);
      } else {
        RetransmissionOk(n, e, now, log);
      }
    case AdapterReady(_, _) => ReadyOk(n, e, now, log);
    case _ => LocalOk(n, e, now, log);
  }

  /** No step but an arrival can follow a cleared pointer. */
  lemma TimersAreFaultless(n: Node<Id>, e: Step, log: Log)
    requires !e.Clock? && !e.Arrive? && MayAct(n, e) && NodeOk(n, e.at, log)
    ensures Faultless(n, e)
  {
    if e.Timer? {
      assert EventHeld(n.world, e.event);
    }
  }

  // ------------------------------------------------------------------- steps

  ghost predicate DirectStep(s: Net, e: Step)
  {
    Possible(s, e) && (!e.Clock? ==> Regular(s.nodes[e.at], e, s.now, s.log))
  }

  /** One agent's step is all that happens in the net. */
  lemma NextIs(s: Net, e: Step)
    requires Possible(s, e) && !e.Clock? && Faultless(s.nodes[e.at], e)
    ensures var n, s' := s.nodes[e.at], Next(s, e);
            s'.nodes == s.nodes[e.at := Act(n, e, s.now).0] && s'.channel == Emit(s.channel, Act(n, e, s.now).1)
            && s'.now == s.now && s'.log == LogAfter(n, e, s.now, s.log) && s'.arrived == ArrivedAfter(n, e, s.arrived)
  {
  }

  lemma ReadyHere(s: Net, e: Step)
    requires Inv(s) && DirectStep(s, e) && !e.Clock?
    ensures Ready(s.nodes[e.at], e, s.now, s.log)
  {
    assert NodeOk(s.nodes[e.at], e.at, s.log);
  }

  /** Every step keeps the invariant. */
  lemma StepKeepsInv(s: Net, e: Step)
    requires Inv(s) && DirectStep(s, e)
    ensures Inv(Next(s, e))
  {
    if !e.Clock? {
      var n, s' := s.nodes[e.at], Next(s, e);
      NextIs(s, e);
      ReadyHere(s, e);
      ActKeepsOk(n, e, s.now, s.log);
      EmitOk(s.channel, Act(n, e, s.now).1, s.log, s'.log);
      OneNodeActs(s.nodes, e.at, Act(n, e, s.now).0, s.log, s'.log);
    }
  }

  ghost predicate NodesOk(nodes: map<NodeId, Node<Id>>, log: Log)
  {
    forall at :: at in nodes ==> NodeOk(nodes[at], at, log)
  }

  lemma OneNodeActs(nodes: map<NodeId, Node<Id>>, at: NodeId, n': Node<Id>, log: Log, log': Log)
    requires NodesOk(nodes, log) && Extends(log, log') && NodeOk(n', at, log')
    ensures NodesOk(nodes[at := n'], log')
  {
    forall x | x in nodes && x != at ensures NodeOk(nodes[x], x, log') {
      NodeGrows(nodes[x], x, log, log');
    }
  }

  // -------------------------------------------------------------------- runs

  /** A run over a direct channel in which no key is used twice. */
  ghost predicate DirectRun(states: seq<Net>, steps: seq<Step>)
  {
    Run(states, steps) && forall i :: 0 <= i < |steps| ==> DirectStep(states[i], steps[i])
  }

  lemma InitialInv(s: Net)
    requires Initial(s)
    ensures Inv(s)
  {
    forall at | at in s.nodes ensures NodeOk(s.nodes[at], at, s.log) {
      assert Blank(s.nodes[at]);
    }
  }

  lemma {:induction false} RunKeepsInv(states: seq<Net>, steps: seq<Step>, i: nat)
    requires DirectRun(states, steps) && i <= |steps|
    ensures Inv(states[i])
  {
    if i == 0 {
      InitialInv(states[0]);
    } else {
      RunKeepsInv(states, steps, i - 1);
      assert Goes(states[i - 1], steps[i - 1], states[i]);
      StepKeepsInv(states[i - 1], steps[i - 1]);
    }
  }

  /** The bundle a call of `Receive` that returns something takes out. */
  function TakenOut<T(==)>(n: Node<T>, eid: Eid): T
    requires StoreKnown(n.world) && Receive(n, eid).1.Some?
  {
    FirstFor(n.world.bundles, n.world.store, eid, false).value
  }

  lemma ReceiveIs<T>(n: Node<T>, eid: Eid)
    requires StoreKnown(n.world) && Receive(n, eid).1.Some?
    ensures TakenOut(n, eid) in n.world.bundles
    ensures Receive(n, eid).1 == n.world.bundles[TakenOut(n, eid)].adu
    ensures Wanted(n.world.bundles[TakenOut(n, eid)], eid, false)
  {
  }

  lemma UnfragmentedIsWhole(b: Bundle, at: NodeId, log: Log)
    requires BundleOk(b, at, log) && b.adu.Some? && !b.header.fragment
    ensures b.adu.value == log[KeyOf(b.header)].adu
  {
    var full := log[KeyOf(b.header)].adu;
    assert full[0..|full|] == full;
  }

  /** What `Receive` takes out is the bundle of an ADU that was sent to that
      endpoint, and it returns that ADU, whole. */
  lemma ReceiveIsWhole(n: Node<Id>, eid: Eid, at: NodeId, log: Log)
    requires NodeOk(n, at, log) && Receive(n, eid).1.Some?
    ensures var key := KeyOf(n.world.bundles[TakenOut(n, eid)].header);
            key in log && log[key].dst == eid && Receive(n, eid).1 == Some(log[key].adu)
  {
    ReceiveIs(n, eid);
    UnfragmentedIsWhole(n.world.bundles[TakenOut(n, eid)], at, log);
  }

  /** Step `e` gave ADU `o` to `Send`, under `key`: an application's call, or the
      agent's own for a custody signal. */
  ghost predicate SentBy(s: Net, e: Step, key: Key, o: Original)
  {
    Possible(s, e) && !e.Clock? && Faultless(s.nodes[e.at], e) &&
    SendsUnder(s.nodes[e.at], e, s.now) == Some((key, o))
  }

  ghost predicate Logged(s: Net, e: Step, s': Net, key: Key)
  {
    key in s'.log ==> (key in s.log && s'.log[key] == s.log[key]) || SentBy(s, e, key, s'.log[key])
  }

  lemma LogGrows(s: Net, e: Step, s': Net, key: Key)
    requires Goes(s, e, s')
    ensures Logged(s, e, s', key)
  {
  }

  ghost predicate LoggedAt(states: seq<Net>, steps: seq<Step>, i: nat, key: Key)
  {
    i < |steps| && i + 1 < |states| && Logged(states[i], steps[i], states[i + 1], key)
  }

  ghost predicate SentEarlier(states: seq<Net>, steps: seq<Step>, i: nat, key: Key, o: Original)
  {
    i <= |steps| < |states| && exists j :: 0 <= j < i && SentBy(states[j], steps[j], key, o)
  }

  lemma SentJustNow(states: seq<Net>, steps: seq<Step>, i: nat, key: Key, o: Original)
    requires i < |steps| < |states|
    requires SentBy(states[i], steps[i], key, o) || SentEarlier(states, steps, i, key, o)
    ensures SentEarlier(states, steps, i + 1, key, o)
  {
  }

  lemma {:induction false} LogIsSent(states: seq<Net>, steps: seq<Step>, i: nat, key: Key)
    requires |states| == |steps| + 1 && states[0].log == map[] && forall j :: 0 <= j < |steps| ==> LoggedAt(states, steps, j, key)
    requires i <= |steps| && key in states[i].log
    ensures SentEarlier(states, steps, i, key, states[i].log[key])
  {
    if i > 0 {
      assert LoggedAt(states, steps, i - 1, key);
      if key in states[i - 1].log && states[i].log[key] == states[i - 1].log[key] {
        LogIsSent(states, steps, i - 1, key);
      }
      SentJustNow(states, steps, i - 1, key, states[i].log[key]);
    }
  }

  lemma LogIsHistory(states: seq<Net>, steps: seq<Step>, i: nat, key: Key)
    requires DirectRun(states, steps) && i <= |steps| && key in states[i].log
    ensures exists j :: 0 <= j < i && SentBy(states[j], steps[j], key, states[i].log[key])
  {
    forall j | 0 <= j < |steps| ensures LoggedAt(states, steps, j, key) {
      LogGrows(states[j], steps[j], states[j + 1], key);
    }
    LogIsSent(states, steps, i, key);
  }

  /** End-to-end integrity: in every run over a direct channel, whatever is
      lost, duplicated or reordered and whatever the bundle sizes, the ADU that
      `Receive` returns for an endpoint is the very one an earlier step gave to
      `Send` for that endpoint, under the key of the bundle taken out. */
  lemma ReceivedAsSent(states: seq<Net>, steps: seq<Step>, i: nat)
    requires DirectRun(states, steps) && i < |steps| && steps[i].Fetch? && DirectStep(states[i], steps[i])
    requires Receive(states[i].nodes[steps[i].at], steps[i].eid).1.Some?
    ensures var n, eid := states[i].nodes[steps[i].at], steps[i].eid;
            var key, adu := KeyOf(n.world.bundles[TakenOut(n, eid)].header), Receive(n, eid).1.value;
            exists j, at :: 0 <= j < i && SentBy(states[j], steps[j], key, Original(adu, eid, at))
  {
    var n, eid := states[i].nodes[steps[i].at], steps[i].eid;
    var key := KeyOf(n.world.bundles[TakenOut(n, eid)].header);
    RunKeepsInv(states, steps, i);
    assert NodeOk(n, steps[i].at, states[i].log);
    ReceiveIsWhole(n, eid, steps[i].at, states[i].log);
    LogIsHistory(states, steps, i, key);
    var o := states[i].log[key];
    assert o == Original(Receive(n, eid).1.value, eid, o.at);
  }
}
