/**
 Custody safety. A custodian drops a bundle as fully acknowledged only when
 every octet of its ADU has reached an agent where its destination is
 registered: a signal covers only octets that arrived, also after coalescing
 has grown the fragment it speaks for, and the recorded range only ever covers
 what signals covered.
 */
module CustodySafety {
  import opened Bytes
  import opened Bundles
  import opened Agent
  import opened Soundness
  import opened Custodial
  import opened Drain
  import opened Network
  import opened Integrity
  import opened EndToEnd
  import CS = CustodySignal
  import Endpoint

  // -------------------------------------------------------------- invariant

  predicate Covers(got: set<nat>, from: nat, to: nat)
  {
    forall k :: from <= k < to ==> k in got
  }

  ghost predicate AcksCovered(acks: seq<(nat, nat)>, got: set<nat>)
  {
    forall a :: a in acks ==> a.0 <= a.1 && Covers(got, a.0, a.1)
  }

  /** What is still a fragment away from its origin consists of octets that
      arrived, and so do the ranges a bundle's custodian has recorded. */
  ghost predicate BundleArrived(b: Bundle, at: NodeId, log: Log, got: Octets)
  {
    KeyOf(b.header) in log && AcksCovered(b.acks, OctetsOf(got, KeyOf(b.header))) &&
    (b.adu.Some? && b.header.fragment && at != log[KeyOf(b.header)].at ==>
       Covers(OctetsOf(got, KeyOf(b.header)), b.header.offset, b.header.offset + |b.adu.value|))
  }

  ghost predicate AllArrived(w: World<Id>, at: NodeId, log: Log, got: Octets)
  {
    forall x :: x in w.bundles ==> BundleArrived(w.bundles[x], at, log, got)
  }

  ghost predicate MoreOctets(got: Octets, got': Octets)
  {
    forall key :: OctetsOf(got, key) <= OctetsOf(got', key)
  }

  /** A successful signal speaks only of octets that arrived. */
  ghost predicate Truthful(c: CS.Signal, got: Octets)
  {
    c.status == CS.SUCCESS ==>
      c.offset + c.length < TWO32 && Covers(OctetsOf(got, SignalKey(c)), c.offset, c.offset + c.length)
  }

  ghost predicate TruthfulRecord(adu: seq<byte>, got: Octets)
  {
    CS.ParseAdmin(adu).Some? && CS.ParseAdmin(adu).value.Custody? ==> Truthful(CS.ParseAdmin(adu).value.signal, got)
  }

  // ----------------------------------------------------- acknowledged ranges

  /** Joining two covered ranges that touch gives a covered range. */
  lemma {:induction false} MergeCovered(acks: seq<(nat, nat)>, ack: (nat, nat), got: set<nat>)
    requires AcksCovered(acks, got) && ack.0 <= ack.1 && Covers(got, ack.0, ack.1)
    ensures AcksCovered(MergeAck(acks, ack), got)
  {
    if acks != [] {
      assert acks[0] in acks && forall a :: a in acks[1..] ==> a in acks;
      MergeCovered(acks[1..], ack, got);
    }
  }

  lemma AcknowledgeCovered(acks: seq<(nat, nat)>, ack: (nat, nat), got: set<nat>)
    requires AcksCovered(acks, got) && ack.0 <= ack.1 && Covers(got, ack.0, ack.1)
    ensures AcksCovered(Acknowledge(acks, ack), got)
  {
    MergeCovered(acks, ack, got);
  }

  // ----------------------------------------------------- one agent's world

  lemma TouchArrived(w: World<Id>, w': World<Id>, id: Id, at: NodeId, log: Log, got: Octets)
    requires AllArrived(w, at, log, got) && OnlyTouches(w, w', id)
    requires id in w'.bundles ==> BundleArrived(w'.bundles[id], at, log, got)
    ensures AllArrived(w', at, log, got)
  {
    forall x | x in w'.bundles ensures BundleArrived(w'.bundles[x], at, log, got) {
      if x != id {
        assert w'.bundles[x] == w.bundles[x];
      }
    }
  }

  lemma PutArrived(w: World<Id>, id: Id, b: Bundle, at: NodeId, log: Log, got: Octets)
    requires AllArrived(w, at, log, got) && BundleArrived(b, at, log, got)
    ensures AllArrived(Put(w, id, b), at, log, got)
  {
  }

  lemma DisposedArrived(b: Bundle, at: NodeId, log: Log, got: Octets)
    requires KeyOf(b.header) in log
    ensures BundleArrived(b.(adu := None, acks := []), at, log, got)
  {
  }

  lemma DropArrived(w: World<Id>, id: Id, at: NodeId, log: Log, got: Octets)
    requires AllArrived(w, at, log, got) && id in w.bundles
    ensures AllArrived(Dispose(Remove(w, id), id), at, log, got)
  {
    DisposedArrived(w.bundles[id], at, log, got);
    assert Dispose(Remove(w, id), id).bundles == w.bundles[id := w.bundles[id].(adu := None, acks := [])];
  }

  function JoinedBundle(f: Bundle, b: Bundle): Bundle
    requires f.adu.Some? && b.adu.Some?
  {
    f.(adu := Some(f.adu.value + b.adu.value),
       header := f.header.(fragment := f.header.fragment && |f.adu.value + b.adu.value| != f.header.aduLength))
  }

  lemma JoinedArrived(f: Bundle, b: Bundle, at: NodeId, log: Log, got: Octets)
    requires BundleArrived(f, at, log, got) && BundleArrived(b, at, log, got) && f.adu.Some? && b.adu.Some?
    requires KeyOf(b.header) == KeyOf(f.header) && b.header.offset == f.header.offset + Size(f) && b.header.fragment
    ensures BundleArrived(JoinedBundle(f, b), at, log, got)
  {
  }

  lemma SwallowBundles(w: World<Id>, front: Id, back: Id)
    requires front in w.bundles && back in w.bundles && w.bundles[front].adu.Some? && w.bundles[back].adu.Some?
    ensures Swallow(w, front, back).bundles == w.bundles[front := JoinedBundle(w.bundles[front], w.bundles[back])]
  {
  }

  lemma SwallowArrived(w: World<Id>, front: Id, back: Id, at: NodeId, log: Log, got: Octets)
    requires AllArrived(w, at, log, got) && WorldOk(w, at, log) && OneAdu(w, front, back, at, log)
    requires w.bundles[front].adu.Some? && w.bundles[back].adu.Some?
    requires w.bundles[back].header.offset == w.bundles[front].header.offset + Size(w.bundles[front])
    ensures AllArrived(Swallow(w, front, back), at, log, got)
  {
    var f, b := w.bundles[front], w.bundles[back];
    assert BundleOk(f, at, log) && BundleOk(b, at, log);
    assert BundleArrived(f, at, log, got) && BundleArrived(b, at, log, got);
    JoinedOk(f, b, at, log);
    JoinedArrived(f, b, at, log, got);
    SwallowBundles(w, front, back);
  }

  lemma CoalesceOneArrived(w: World<Id>, id: Id, it: Id, at: NodeId, log: Log, got: Octets)
    requires AllArrived(w, at, log, got) && WorldOk(w, at, log) && OneAdu(w, id, it, at, log)
    ensures AllArrived(CoalesceOne(w, id, it), at, log, got)
  {
    var b, p := w.bundles[id], w.bundles[it];
    if b.adu.Some? && p.adu.Some? {
      CoalesceOneIs(w, id, it);
      if b.header.offset == p.header.offset + Size(p) {
        SwallowArrived(w, it, id, at, log, got);
      } else if p.header.offset == b.header.offset + Size(b) {
        SwallowArrived(w, id, it, at, log, got);
      }
    }
  }

  lemma {:induction false} CoalesceArrived(w: World<Id>, id: Id, its: seq<Id>, at: NodeId, log: Log, got: Octets)
    requires AllArrived(w, at, log, got) && WorldOk(w, at, log)
    requires AllOneAdu(w, id, its, at, log) && forall x :: x in its ==> x in w.bundles
    ensures AllArrived(Coalesce(w, id, its), at, log, got)
    decreases |its|
  {
    if its != [] {
      assert OneAdu(w, id, its[0], at, log);
      var w1 := CoalesceOne(w, id, its[0]);
      CoalesceOneArrived(w, id, its[0], at, log, got);
      CoalesceOneOk(w, id, its[0], at, log);
      CoalesceOneHeaders(w, id, its[0]);
      OneAduKept(w, w1, id, its, at, log);
      CoalesceArrived(w1, id, its[1..], at, log, got);
    }
  }

  lemma AckedArrived(w: World<Id>, id: Id, c: CS.Signal, at: NodeId, log: Log, got: Octets)
    requires AllArrived(w, at, log, got) && id in w.bundles && KeyOf(w.bundles[id].header) == SignalKey(c)
    requires c.status == CS.SUCCESS && Truthful(c, got)
    ensures AllArrived(Acked(w, id, AckOf(c)), at, log, got)
  {
    var b := w.bundles[id];
    assert BundleArrived(b, at, log, got);
    AcknowledgeCovered(b.acks, AckOf(c), OctetsOf(got, SignalKey(c)));
  }

  lemma SettledArrived(w: World<Id>, id: Id, c: CS.Signal, at: NodeId, log: Log, got: Octets)
    requires AllArrived(w, at, log, got) && StoreKnown(w) && id in w.bundles
    requires KeyOf(w.bundles[id].header) == SignalKey(c) && c.status == CS.SUCCESS && Truthful(c, got)
    ensures AllArrived(Settled(w, id, AckOf(c)), at, log, got)
  {
    AckedArrived(w, id, c, at, log, got);
    DropArrived(Acked(w, id, AckOf(c)), id, at, log, got);
  }

  lemma SignalArrived(w: World<Id>, c: CS.Signal, at: NodeId, log: Log, got: Octets)
    requires AllArrived(w, at, log, got) && StoreKnown(w) && Truthful(c, got)
    ensures AllArrived(ProcessSignal(w, c), at, log, got)
  {
    match Target(w, c)
    case None =>
    case Some(id) => SettledArrived(w, id, c, at, log, got);
  }

  // ------------------------------------------------------------- forwarding

  /** In custody a bundle keeps its acknowledgements; without, it is emptied. */
  predicate Forwarded(b: Bundle, b': Bundle)
  {
    SameButSlice(b.header, b'.header) &&
    if CustodyAccepted in b.retention then b'.acks == b.acks else b'.adu.None? && b'.acks == []
  }

  lemma TransmitForwards<T>(w: World<T>, id: T, bundleSize: nat)
    requires Sound(w) && id in w.bundles && w.bundles[id].adu.Some? && bundleSize > 0
    requires !IsRunning(w, w.bundles[id].nextRetrans)
    requires ForwardPending in w.bundles[id].retention && DispatchPending !in w.bundles[id].retention
    ensures Forwarded(w.bundles[id], Transmit(w, id, bundleSize).0.bundles[id])
    ensures OnlyTouches(w, Transmit(w, id, bundleSize).0, id)
  {
    TransmitSound(w, id, bundleSize);
    SentSound(w, id, bundleSize);
    if CustodyAccepted in w.bundles[id].retention {
      assert CustodyAccepted in w.bundles[id].retention - {ForwardPending};
    } else {
      OnlyPending(w.bundles[id].retention);
    }
  }

  /** An own original may be cut into fragments. */
  lemma ForwardedArrived(b: Bundle, b': Bundle, at: NodeId, log: Log, got: Octets)
    requires BundleArrived(b, at, log, got) && BundleOk(b, at, log) && Forwarded(b, b')
    ensures BundleArrived(b', at, log, got)
  {
  }

  lemma TransmitArrived(w: World<Id>, id: Id, bundleSize: nat, at: NodeId, log: Log, got: Octets)
    requires Marked(w, id, at, log) && bundleSize > 0 && AllArrived(w, at, log, got)
    ensures AllArrived(Transmit(w, id, bundleSize).0, at, log, got)
  {
    var w' := Transmit(w, id, bundleSize).0;
    TransmitForwards(w, id, bundleSize);
    ForwardedArrived(w.bundles[id], w'.bundles[id], at, log, got);
    TouchArrived(w, w', id, at, log, got);
  }

  /** In order as far as integrity goes, and with only arrived octets. */
  ghost predicate Holds(w: World<Id>, at: NodeId, log: Log, got: Octets)
  {
    WorldOk(w, at, log) && AllArrived(w, at, log, got)
  }

  lemma ForwardArrived(n: Node<Id>, id: Id, at: NodeId, log: Log, got: Octets)
    requires Holds(n.world, at, log, got) && Sendable(n, id)
    requires !IsRunning(n.world, n.world.bundles[id].nextRetrans) && IsWhole(n.world.bundles[id], log)
    ensures AllArrived(Forward(n, id).0.world, at, log, got)
  {
    var w := MarkForward(n.world, id);
    assert BundleArrived(n.world.bundles[id], at, log, got);
    PutArrived(n.world, id, w.bundles[id], at, log, got);
    ForwardIs(n, id);
    if CanForward(n, w.bundles[id].header.dst) {
      MarkOk(n.world, id, at, log);
      TransmitArrived(w, id, n.bundleSize, at, log, got);
    }
  }

  lemma AddedArrived(w: World<Id>, w': World<Id>, id: Id, b: Bundle, at: NodeId, log: Log, got: Octets)
    requires AllArrived(w, at, log, got) && OnlyTouches(Put(w, id, b), w', id) && BundleArrived(b, at, log, got)
    requires w'.bundles[id] == b.(expireEvent := w'.bundles[id].expireEvent)
    ensures AllArrived(w', at, log, got)
  {
    PutArrived(w, id, b, at, log, got);
    assert BundleArrived(w'.bundles[id], at, log, got);
    TouchArrived(Put(w, id, b), w', id, at, log, got);
  }

  lemma AcceptedArrived(n: Node<Id>, id: Id, address: nat, now: nat, h: Header, adu: seq<byte>,
                        at: NodeId, log: Log, got: Octets)
    requires Holds(n.world, at, log, got) && id !in n.world.bundles && KeyOf(h) in log && !h.fragment
    ensures AllArrived(Accepted(n, id, address, now, h, adu).world, at, log, got)
  {
    var b := NewBundle(h, adu, OutboundRetention(h.custody), address);
    StoreNew(n.world, id, b, now);
    AddedArrived(n.world, Accepted(n, id, address, now, h, adu).world, id, b, at, log, got);
  }

  lemma SendArrived(n: Node<Id>, id: Id, address: nat, now: nat, adu: seq<byte>, src: Eid, dst: Eid,
                    lifetime: nat, custody: bool, priority: nat, at: NodeId, log: Log, got: Octets)
    requires NodeOk(n, at, log) && id !in n.world.bundles && now / SECOND < TWO32 && |adu| < TWO32
    requires Endpoint.ValidUri(src) && Endpoint.ValidUri(dst) && lifetime / SECOND < TWO64 && priority < 4
    requires MaySend(n, src) ==>
               NextKey(n, src, now) in log && log[NextKey(n, src, now)] == Original(adu, dst, at)
    requires AllArrived(n.world, at, log, got)
    ensures AllArrived(Send(n, id, address, now, adu, src, dst, lifetime, custody, priority).0.world, at, log, got)
  {
    if MaySend(n, src) {
      var h := OutboundHeader(n.eid, n.sequence, now, |adu|, src, dst, lifetime, custody, priority);
      OutboundNamed(n, now, adu, src, dst, lifetime, custody, priority, at, log);
      AcceptedOk(n, id, address, now, h, adu, at, log);
      AcceptedArrived(n, id, address, now, h, adu, at, log, got);
      ForwardArrived(Accepted(n, id, address, now, h, adu), id, at, log, got);
    }
  }

  // -------------------------------------------------------------- deliveries

  /** Bundle `id` lands, its octets counted as arrived; a record for the agent
      itself is truthful. */
  ghost predicate LandsArrived(n: Node<Id>, id: Id, at: NodeId, log: Log, got: Octets)
  {
    Landed(n, id, at, log) && AllArrived(n.world, at, log, got) &&
    (n.world.bundles[id].header.dst == n.eid && Active(n, n.eid) ==>
       TruthfulRecord(n.world.bundles[id].adu.value, got))
  }

  lemma ConsumedArrived(w: World<Id>, id: Id, record: CS.Admin, at: NodeId, log: Log, got: Octets)
    requires AllArrived(w, at, log, got) && StoreKnown(w) && id in w.bundles
    requires record.Custody? ==> Truthful(record.signal, got)
    ensures AllArrived(Consumed(w, id, record), at, log, got)
  {
    if record.Custody? {
      SignalArrived(w, record.signal, at, log, got);
      DropArrived(ProcessSignal(w, record.signal), id, at, log, got);
    } else {
      DropArrived(w, id, at, log, got);
    }
  }

  lemma EnqueuedArrived(n: Node<Id>, id: Id, at: NodeId, log: Log, got: Octets)
    requires LandsArrived(n, id, at, log, got) && n.world.bundles[id].header.dst in n.registrations
    ensures AllArrived(Enqueued(n, id).world, at, log, got)
  {
    var b := n.world.bundles[id];
    if Active(n, b.header.dst) {
      EnqueueIs(n.eid, n.world, id);
      if b.header.dst == n.eid {
        ConsumedArrived(n.world, id, CS.ParseAdmin(b.adu.value).value, at, log, got);
      } else if b.header.fragment {
        CoalesceArrived(n.world, id, WithKey(n.world.bundles, n.world.store, KeyOf(b.header)), at, log, got);
      }
    }
  }

  lemma SignalSentArrived(n: Node<Id>, id: Id, signalId: Id, address: nat, now: nat, at: NodeId, log: Log, got: Octets)
    requires MaySignal(n, id, signalId, now, at, log) && n.world.bundles[id].header.custody
    requires AllArrived(n.world, at, log, got)
    ensures AllArrived(SignalSent(n, n.world.bundles[id], signalId, address, now).0.world, at, log, got)
  {
    var b := n.world.bundles[id];
    SignalRanges(b, now, at, log);
    SendArrived(n, signalId, address, now, RecordFor(b, now), n.eid, b.header.cust, b.header.lifetime, false, 0,
                at, log, got);
  }

  lemma DeliverArrived(n: Node<Id>, id: Id, signalId: Id, address: nat, now: nat, at: NodeId, log: Log, got: Octets)
    requires MayDispatch(n, id, signalId, now, at, log) && LandsArrived(n, id, at, log, got)
    requires n.world.bundles[id].header.dst in n.registrations
    ensures AllArrived(Deliver(n, id, signalId, address, now).0.world, at, log, got)
  {
    EnqueuedMaySignal(n, id, signalId, now, at, log);
    EnqueuedArrived(n, id, at, log, got);
    DeliverIs(n, id, signalId, address, now);
    if Enqueued(n, id).world.bundles[id].header.custody {
      SignalSentArrived(Enqueued(n, id), id, signalId, address, now, at, log, got);
    }
  }

  lemma DispatchArrived(n: Node<Id>, id: Id, signalId: Id, address: nat, now: nat, at: NodeId, log: Log, got: Octets)
    requires MayDispatch(n, id, signalId, now, at, log) && LandsArrived(n, id, at, log, got)
    ensures AllArrived(Dispatch(n, id, signalId, address, now).0.world, at, log, got)
  {
    if n.world.bundles[id].header.dst in n.registrations {
      DeliverArrived(n, id, signalId, address, now, at, log, got);
    } else {
      ForwardArrived(n, id, at, log, got);
    }
  }

  /** The octets of the packet of `e` are counted, and what it says to the agent
      itself is true. */
  ghost predicate Counted(n: Node<Id>, e: Step, got: Octets)
    requires e.Arrive? && MayAct(n, e)
  {
    var p := PacketOf(e.octets);
    (p.header.dst in n.registrations ==>
       Covers(OctetsOf(got, KeyOf(p.header)), p.header.offset, p.header.offset + |p.payload|)) &&
    (p.header.dst == n.eid && Active(n, n.eid) ==> TruthfulRecord(p.payload, got))
  }

  lemma TakenLands(n: Node<Id>, e: Step, now: nat, log: Log, got: Octets)
    requires e.Arrive? && MayAct(n, e) && Faultless(n, e) && NodeOk(n, e.at, log)
    requires MayLand(n, PacketOf(e.octets), e.address, e.at, log)
    requires AllArrived(n.world, e.at, log, got) && Counted(n, e, got)
    ensures LandsArrived(Taken(n, PacketOf(e.octets), e.id, e.address, now), e.id, e.at, log, got)
  {
    var p := PacketOf(e.octets);
    var b, w' := Arrival(p, e.address), Taken(n, p, e.id, e.address, now).world;
    TakenOk(n, p, e.id, e.address, now, e.at, log);
    StoreNew(n.world, e.id, b, now);
    AddedArrived(n.world, w', e.id, b, e.at, log, got);
  }

  lemma ProcessArrived(n: Node<Id>, e: Step, now: nat, log: Log, got: Octets)
    requires MayProcess(n, e, now, log) && AllArrived(n.world, e.at, log, got) && Counted(n, e, got)
    ensures AllArrived(Act(n, e, now).0.world, e.at, log, got)
  {
    TakenMayDispatch(n, e, now, log);
    TakenLands(n, e, now, log, got);
    ArriveIs(n, e, now);
    DispatchArrived(Taken(n, PacketOf(e.octets), e.id, e.address, now), e.id, e.signalId, e.address + 1, now,
                    e.at, log, got);
  }

  lemma {:induction false} ForwardAllArrived(n: Node<Id>, ids: seq<Id>, at: NodeId, log: Log, got: Octets)
    requires NodeOk(n, at, log) && Snapshot(n, ids) && AllArrived(n.world, at, log, got)
    ensures AllArrived(ForwardAll(n, ids).0.world, at, log, got)
    decreases |ids|
  {
    if ids != [] {
      var n1 := Forward(n, ids[0]).0;
      WaitingIsWhole(n.world, ids[0], at, log);
      ForwardOk(n, ids[0], at, log);
      ForwardArrived(n, ids[0], at, log, got);
      SnapshotShrinks(n, ids, false);
      ForwardAllArrived(n1, ids[1..], at, log, got);
    }
  }

  lemma RetransmitArrived(n: Node<Id>, event: nat, at: NodeId, log: Log, got: Octets)
    requires NodeOk(n, at, log) && event in n.world.pending && n.world.pending[event].Retransmission?
    requires AllArrived(n.world, at, log, got)
    ensures Sendable(n, n.world.pending[event].bundle)
    ensures AllArrived(Retransmit(n, event).0.world, at, log, got)
  {
    TimedIsWhole(n.world, event, at, log);
    FireSound(n.world, event);
    var w := n.world.(pending := n.world.pending - {event});
    ForwardArrived(n.(world := w), n.world.pending[event].bundle, at, log, got);
  }

  // ------------------------------------------------------------------- steps

  /** What is logged for an agent's own endpoint is a truthful record. */
  ghost predicate TruthfulLog(log: Log, got: Octets, agents: set<Eid>)
  {
    forall key :: key in log && log[key].dst in agents ==> TruthfulRecord(log[key].adu, got)
  }

  ghost predicate SafeNode(n: Node<Id>, at: NodeId, log: Log, got: Octets, agents: set<Eid>)
  {
    AllArrived(n.world, at, log, got) && n.eid in agents
  }

  ghost predicate Safe(s: Net, agents: set<Eid>)
  {
    Inv(s) && TruthfulLog(s.log, s.arrived, agents) &&
    forall at :: at in s.nodes ==> SafeNode(s.nodes[at], at, s.log, s.arrived, agents)
  }

  /** Applications do not address the agents' own endpoints. */
  predicate Disciplined(e: Step, agents: set<Eid>)
  {
    e.Submit? ==> e.dst !in agents
  }

  lemma CoversMore(got: Octets, got': Octets, key: Key, from: nat, to: nat)
    requires MoreOctets(got, got') && Covers(OctetsOf(got, key), from, to)
    ensures Covers(OctetsOf(got', key), from, to)
  {
    assert OctetsOf(got, key) <= OctetsOf(got', key);
  }

  lemma BundleGrows(b: Bundle, at: NodeId, log: Log, got: Octets, log': Log, got': Octets)
    requires BundleArrived(b, at, log, got) && Extends(log, log') && MoreOctets(got, got')
    ensures BundleArrived(b, at, log', got')
  {
    var key := KeyOf(b.header);
    forall a | a in b.acks ensures Covers(OctetsOf(got', key), a.0, a.1) {
      CoversMore(got, got', key, a.0, a.1);
    }
    if b.adu.Some? && b.header.fragment && at != log[key].at {
      CoversMore(got, got', key, b.header.offset, b.header.offset + |b.adu.value|);
    }
  }

  lemma ArrivedGrows(w: World<Id>, at: NodeId, log: Log, got: Octets, log': Log, got': Octets)
    requires AllArrived(w, at, log, got) && Extends(log, log') && MoreOctets(got, got')
    ensures AllArrived(w, at, log', got')
  {
    forall x | x in w.bundles ensures BundleArrived(w.bundles[x], at, log', got') {
      BundleGrows(w.bundles[x], at, log, got, log', got');
    }
  }

  lemma RecordGrows(adu: seq<byte>, got: Octets, got': Octets)
    requires TruthfulRecord(adu, got) && MoreOctets(got, got')
    ensures TruthfulRecord(adu, got')
  {
    if CS.ParseAdmin(adu).Some? && CS.ParseAdmin(adu).value.Custody? {
      var c := CS.ParseAdmin(adu).value.signal;
      if c.status == CS.SUCCESS {
        CoversMore(got, got', SignalKey(c), c.offset, c.offset + c.length);
      }
    }
  }

  lemma TruthfulBy(log: Log, got: Octets, got': Octets, agents: set<Eid>, key: Key, o: Original)
    requires TruthfulLog(log, got, agents) && MoreOctets(got, got')
    ensures TruthfulLog(log, got', agents)
    ensures (o.dst in agents ==> TruthfulRecord(o.adu, got')) ==> TruthfulLog(log[key := o], got', agents)
  {
    forall k | k in log && log[k].dst in agents ensures TruthfulRecord(log[k].adu, got') {
      RecordGrows(log[k].adu, got, got');
    }
  }

  // ----------------------------------------------------------- an agent's step

  /** A regular step of an agent in order, with what it holds arrived and what
      the log says to agents true. */
  ghost predicate SafeReady(n: Node<Id>, e: Step, now: nat, log: Log, got: Octets, agents: set<Eid>)
  {
    Ready(n, e, now, log) && Disciplined(e, agents) && SafeNode(n, e.at, log, got, agents) &&
    TruthfulLog(log, got, agents)
  }

  ghost predicate ActsSafe(n: Node<Id>, e: Step, now: nat, log: Log, got: Octets, agents: set<Eid>)
  {
    !e.Clock? && MayAct(n, e) && Faultless(n, e) && SafeNode(Act(n, e, now).0, e.at, log, got, agents)
  }

  lemma SubmitSafe(n: Node<Id>, e: Step, now: nat, log: Log, got: Octets, agents: set<Eid>)
    requires SafeReady(n, e, now, log, got, agents) && e.Submit?
    ensures ActsSafe(n, e, now, LogAfter(n, e, now, log), got, agents)
  {
    var log' := LogAfter(n, e, now, log);
    SubmitLog(n, e, now, log);
    NodeGrows(n, e.at, log, log');
    ArrivedGrows(n.world, e.at, log, got, log', got);
    SendArrived(n, e.id, e.address, now, e.adu, e.src, e.dst, e.lifetime, e.custody, e.priority, e.at, log', got);
    SendFrame(n, e.id, e.address, now, e.adu, e.src, e.dst, e.lifetime, e.custody, e.priority);
  }

  lemma SubmitLogSafe(n: Node<Id>, e: Step, now: nat, log: Log, got: Octets, agents: set<Eid>)
    requires SafeReady(n, e, now, log, got, agents) && e.Submit?
    ensures TruthfulLog(LogAfter(n, e, now, log), got, agents)
  {
    TruthfulBy(log, got, got, agents, NextKey(n, e.src, now), Original(e.adu, e.dst, e.at));
  }

  lemma MoreWithArrived(got: Octets, p: Packet)
    ensures MoreOctets(got, WithArrived(got, p))
    ensures Covers(OctetsOf(WithArrived(got, p), KeyOf(p.header)), p.header.offset, p.header.offset + |p.payload|)
  {
  }

  lemma MoreArrived(n: Node<Id>, e: Step, got: Octets)
    requires MayAct(n, e)
    ensures MoreOctets(got, ArrivedAfter(n, e, got))
  {
    if e.Arrive? {
      MoreWithArrived(got, PacketOf(e.octets));
    }
  }

  /** A record that reaches the agent it is for reaches it whole. */
  lemma OwnRecordTruthful(n: Node<Id>, e: Step, log: Log, got: Octets, agents: set<Eid>)
    requires e.Arrive? && MayAct(n, e) && MayLand(n, PacketOf(e.octets), e.address, e.at, log)
    requires TruthfulLog(log, got, agents) && n.eid in agents
    requires PacketOf(e.octets).header.dst == n.eid && Active(n, n.eid)
    ensures TruthfulRecord(PacketOf(e.octets).payload, got)
  {
    var p := PacketOf(e.octets);
    var full := log[KeyOf(p.header)].adu;
    assert p.payload == full[0..|full|] == full;
  }

  lemma CountedHere(n: Node<Id>, e: Step, now: nat, log: Log, got: Octets, agents: set<Eid>)
    requires SafeReady(n, e, now, log, got, agents) && e.Arrive?
    ensures Counted(n, e, ArrivedAfter(n, e, got))
  {
    MoreWithArrived(got, PacketOf(e.octets));
    MayLandHere(n, e, now, log);
    if PacketOf(e.octets).header.dst == n.eid && Active(n, n.eid) {
      OwnRecordTruthful(n, e, log, got, agents);
      RecordGrows(PacketOf(e.octets).payload, got, ArrivedAfter(n, e, got));
    }
  }

  /** The signal for a delivered bundle speaks of octets that arrived. */
  lemma SignalTruthful(b: Bundle, now: nat, at: NodeId, log: Log, got: Octets)
    requires BundleOk(b, at, log) && BundleArrived(b, at, log, got) && SignalFits(b, now)
    requires |log[KeyOf(b.header)].adu| < TWO32 && at != log[KeyOf(b.header)].at
    ensures TruthfulRecord(RecordFor(b, now), got)
  {
    CS.RecordRoundTrip(SignalFor(b, now), b.header.fragment);
  }

  lemma DeliveredArrived(n: Node<Id>, e: Step, now: nat, log: Log, got: Octets)
    requires Ready(n, e, now, log) && e.Arrive? && PacketOf(e.octets).header.dst in n.registrations
    requires AllArrived(n.world, e.at, log, got) && Counted(n, e, got)
    ensures BundleArrived(Delivered(n, e, now), e.at, log, got)
  {
    MayLandHere(n, e, now, log);
    TakenLands(n, e, now, log, got);
    EnqueuedArrived(Taken(n, PacketOf(e.octets), e.id, e.address, now), e.id, e.at, log, got);
  }

  lemma RecordTruthful(n: Node<Id>, e: Step, now: nat, log: Log, got: Octets)
    requires Ready(n, e, now, log) && e.Arrive? && PacketOf(e.octets).header.dst in n.registrations
    requires AllArrived(n.world, e.at, log, got) && Counted(n, e, got)
    ensures TruthfulRecord(SignalOf(n, e, now).adu, got)
  {
    DeliveredHeader(n, e, now, log);
    SignalRanges(Delivered(n, e, now), now, e.at, log);
    DeliveredArrived(n, e, now, log, got);
    MayLandHere(n, e, now, log);
    SignalTruthful(Delivered(n, e, now), now, e.at, log, got);
  }

  lemma ArriveLogSafe(n: Node<Id>, e: Step, now: nat, log: Log, got: Octets, agents: set<Eid>)
    requires SafeReady(n, e, now, log, got, agents) && e.Arrive?
    ensures TruthfulLog(LogAfter(n, e, now, log), ArrivedAfter(n, e, got), agents)
  {
    var got' := ArrivedAfter(n, e, got);
    MoreArrived(n, e, got);
    CountedHere(n, e, now, log, got, agents);
    if Signals(n, PacketOf(e.octets)) {
      ArrivedGrows(n.world, e.at, log, got, log, got');
      RecordTruthful(n, e, now, log, got');
      TruthfulBy(log, got, got', agents, NextKey(n, n.eid, now), SignalOf(n, e, now));
    } else {
      TruthfulBy(log, got, got', agents, Key([], 0, 0), Original([], [], 0));
    }
  }

  lemma ArriveSafe(n: Node<Id>, e: Step, now: nat, log: Log, got: Octets, agents: set<Eid>)
    requires SafeReady(n, e, now, log, got, agents) && e.Arrive?
    ensures ActsSafe(n, e, now, LogAfter(n, e, now, log), ArrivedAfter(n, e, got), agents)
  {
    var log', got' := LogAfter(n, e, now, log), ArrivedAfter(n, e, got);
    ArriveLog(n, e, now, log);
    MoreArrived(n, e, got);
    CountedHere(n, e, now, log, got, agents);
    MayProcessHere(n, e, now, log);
    ArrivedGrows(n.world, e.at, log, got, log', got');
    ProcessArrived(n, e, now, log', got');
    ProcessFrame(n, PacketOf(e.octets), e.id, e.signalId, e.address, now);
  }

  lemma ReceiveArrived(n: Node<Id>, eid: Eid, at: NodeId, log: Log, got: Octets)
    requires NodeOk(n, at, log) && AllArrived(n.world, at, log, got)
    ensures AllArrived(Receive(n, eid).0.world, at, log, got)
  {
    match FirstFor(n.world.bundles, n.world.store, eid, false)
    case None =>
    case Some(id) => DropArrived(n.world, id, at, log, got);
  }

  lemma ExpirySafe(n: Node<Id>, e: Step, now: nat, log: Log, got: Octets, agents: set<Eid>)
    requires SafeReady(n, e, now, log, got, agents) && e.Timer? && n.world.pending[e.event].Expiry?
    ensures ActsSafe(n, e, now, log, got, agents)
  {
    ExpireSound(n.world, e.event);
    DropArrived(n.world, n.world.pending[e.event].bundle, e.at, log, got);
  }

  lemma RetransmissionSafe(n: Node<Id>, e: Step, now: nat, log: Log, got: Octets, agents: set<Eid>)
    requires SafeReady(n, e, now, log, got, agents) && e.Timer? && n.world.pending[e.event].Retransmission?
    ensures ActsSafe(n, e, now, log, got, agents)
  {
    RetransmitArrived(n, e.event, e.at, log, got);
    RetransmitFrame(n, e.event);
  }

  lemma ReadySafe(n: Node<Id>, e: Step, now: nat, log: Log, got: Octets, agents: set<Eid>)
    requires SafeReady(n, e, now, log, got, agents) && e.AdapterReady?
    ensures ActsSafe(n, e, now, log, got, agents)
  {
    WaitingIsSnapshot(n, n.world.store, e.cla);
    ForwardAllArrived(n, Waiting(n, n.world.store, e.cla), e.at, log, got);
    ForwardAllFrame(n, Waiting(n, n.world.store, e.cla));
  }

  lemma LocalSafe(n: Node<Id>, e: Step, now: nat, log: Log, got: Octets, agents: set<Eid>)
    requires SafeReady(n, e, now, log, got, agents) && (e.Fetch? || e.Configure?)
    ensures ActsSafe(n, e, now, log, got, agents)
  {
    if e.Fetch? {
      ReceiveArrived(n, e.eid, e.at, log, got);
    }
  }

  lemma ActKeepsSafe(n: Node<Id>, e: Step, now: nat, log: Log, got: Octets, agents: set<Eid>)
    requires SafeReady(n, e, now, log, got, agents)
    ensures ActsSafe(n, e, now, LogAfter(n, e, now, log), ArrivedAfter(n, e, got), agents)
    ensures TruthfulLog(LogAfter(n, e, now, log), ArrivedAfter(n, e, got), agents)
  {
    match e
    case Submit(_, _, _, _, _, _, _, _, _) =>
      SubmitSafe(n, e, now, log, got, agents);
      SubmitLogSafe(n, e, now, log, got, agents);
    case Arrive(_, _, _, _, _) =>
      ArriveSafe(n, e, now, log, got, agents);
      ArriveLogSafe(n, e, now, log, got, agents);
    case Timer(_, event) =>
      if n.world.pending[event].Expiry? {
        ExpirySafe(n, e, now, log, got, agents);
      } else {
        RetransmissionSafe(n, e, now, log, got, agents);
      }
    case AdapterReady(_, _) => ReadySafe(n, e, now, log, got, agents);
    case _ => LocalSafe(n, e, now, log, got, agents);
  }

  // -------------------------------------------------------------------- runs

  lemma SafeReadyHere(s: Net, e: Step, agents: set<Eid>)
    requires Safe(s, agents) && DirectStep(s, e) && Disciplined(e, agents) && !e.Clock?
    ensures SafeReady(s.nodes[e.at], e, s.now, s.log, s.arrived, agents)
  {
    ReadyHere(s, e);
    assert SafeNode(s.nodes[e.at], e.at, s.log, s.arrived, agents);
  }

  lemma ActSafeHere(s: Net, e: Step, agents: set<Eid>)
    requires Safe(s, agents) && DirectStep(s, e) && Disciplined(e, agents) && !e.Clock?
    ensures var n := s.nodes[e.at];
            Grown(s.log, LogAfter(n, e, s.now, s.log)) && MoreOctets(s.arrived, ArrivedAfter(n, e, s.arrived))
            && ActsSafe(n, e, s.now, LogAfter(n, e, s.now, s.log), ArrivedAfter(n, e, s.arrived), agents)
            && TruthfulLog(LogAfter(n, e, s.now, s.log), ArrivedAfter(n, e, s.arrived), agents)
  {
    SafeReadyHere(s, e, agents);
    ActKeepsOk(s.nodes[e.at], e, s.now, s.log);
    ActKeepsSafe(s.nodes[e.at], e, s.now, s.log, s.arrived, agents);
    MoreArrived(s.nodes[e.at], e, s.arrived);
  }

  lemma StepKeepsSafe(s: Net, e: Step, agents: set<Eid>)
    requires Safe(s, agents) && DirectStep(s, e) && Disciplined(e, agents)
    ensures Safe(Next(s, e), agents)
  {
    StepKeepsInv(s, e);
    if !e.Clock? {
      var s' := Next(s, e);
      NextIs(s, e);
      ActSafeHere(s, e, agents);
      forall x | x in s'.nodes ensures SafeNode(s'.nodes[x], x, s'.log, s'.arrived, agents) {
        if x != e.at {
          ArrivedGrows(s.nodes[x].world, x, s.log, s.arrived, s'.log, s'.arrived);
        }
      }
    }
  }

  function Agents(s: Net): set<Eid>
  {
    set at | at in s.nodes :: s.nodes[at].eid
  }

  ghost predicate DisciplinedRun(states: seq<Net>, steps: seq<Step>)
  {
    DirectRun(states, steps) && forall i :: 0 <= i < |steps| ==> Disciplined(steps[i], Agents(states[0]))
  }

  lemma InitialSafe(s: Net)
    requires Initial(s)
    ensures Safe(s, Agents(s))
  {
    InitialInv(s);
    forall at | at in s.nodes ensures SafeNode(s.nodes[at], at, s.log, s.arrived, Agents(s)) {
      assert Blank(s.nodes[at]);
    }
  }

  lemma {:induction false} RunKeepsSafe(states: seq<Net>, steps: seq<Step>, i: nat)
    requires DisciplinedRun(states, steps) && i <= |steps|
    ensures Safe(states[i], Agents(states[0]))
  {
    if i == 0 {
      InitialSafe(states[0]);
    } else {
      RunKeepsSafe(states, steps, i - 1);
      assert Goes(states[i - 1], steps[i - 1], states[i]);
      StepKeepsSafe(states[i - 1], steps[i - 1], Agents(states[0]));
    }
  }
}
