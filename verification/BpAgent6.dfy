/**
 The agent as an object (bp/model/bp-agent.cc, bp-agent-6.cc): its methods change
 the store, the bundles and the event queue in place and are proved equal to the
 functions of module `Agent`.
 */
module AgentObject {
  import opened Bytes
  import opened Bundles
  import opened Agent
  import opened BundleObjects
  import opened StaticRouting
  import opened Custodial
  import opened Drain
  import opened Integrity
  import opened EndToEnd
  import CS = CustodySignal
  import Endpoint

  lemma {:induction false} MergeSnoc(s: seq<(nat, nat)>, a: (nat, nat), ack: (nat, nat))
    ensures MergeAck(s + [a], ack) == MergeAck(s, ack) + MergeAck([a], ack)
  {
    if s == [] {
      assert s + [a] == [a];
    } else {
      assert (s + [a])[1..] == s[1..] + [a];
      MergeSnoc(s[1..], a, ack);
    }
  }

  function SentBundle(b: Bundle, bundleSize: nat): Bundle
    requires b.adu.Some? && bundleSize > 0
  {
    b.(header := SendSlices(b.header, b.adu.value, bundleSize, |b.adu.value|).0,
       retention := b.retention - {ForwardPending})
  }

  lemma TransmitIs<Id>(w: World<Id>, id: Id, bundleSize: nat)
    requires id in w.bundles && w.bundles[id].adu.Some? && bundleSize > 0
    ensures var w1 := if w.bundles[id].header.custody then Schedule(w, id) else w;
            var b := SentBundle(w1.bundles[id], bundleSize);
            var w2 := Put(w1, id, b);
            Transmit(w, id, bundleSize) ==
              (if b.retention == {} then Dispose(Bundles.Remove(w2, id), id) else w2,
               SendSlices(w.bundles[id].header, w.bundles[id].adu.value, bundleSize, |w.bundles[id].adu.value|).1)
  {
  }

  lemma AcceptedIs<Id>(n: Node<Id>, id: Id, address: nat, now: nat, h: Header, adu: seq<byte>)
    requires StoreKnown(n.world)
    ensures var b := NewBundle(h, adu, OutboundRetention(h.custody), address);
            Accepted(n, id, address, now, h, adu)
            == n.(sequence := (n.sequence + 1) % TWO32, world := StoreBundle(Put(n.world, id, b), id, now))
  {
  }

  lemma SendingIs<Id>(n: Node<Id>, id: Id, address: nat, now: nat, adu: seq<byte>, src: Eid, dst: Eid,
                      lifetime: nat, custody: bool, priority: nat)
    requires n.bundleSize > 0 && StoreKnown(n.world) && MaySend(n, src)
    ensures var h := OutboundHeader(n.eid, n.sequence, now, |adu|, src, dst, lifetime, custody, priority);
            var r := Agent.Forward(Accepted(n, id, address, now, h, adu), id);
            Agent.Send(n, id, address, now, adu, src, dst, lifetime, custody, priority) == (r.0, r.1, 0)
  {
  }

  lemma MergedOneMore(acks: seq<(nat, nat)>, i: nat, ack: (nat, nat))
    requires i < |acks|
    ensures var done := MergeAck(acks[..i], ack) + acks[i..];
            var it := MergeAck([acks[i]], ack)[0];
            done[i] == acks[i] && done[i := it] == MergeAck(acks[..i + 1], ack) + acks[i + 1..]
  {
    MergeSnoc(acks[..i], acks[i], ack);
    assert acks[..i + 1] == acks[..i] + [acks[i]];
    assert acks[i..] == [acks[i]] + acks[i + 1..];
  }

  /** The agent has become what a call makes of it, and sent what it sends. */
  ghost predicate Did(sent: seq<Packet>, sent': seq<Packet>, n': Node<Bundle6>, r: (Node<Bundle6>, seq<Packet>, int))
  {
    n' == r.0 && sent' == sent + r.1
  }

  lemma AdusStay<Id>(w: World<Id>, id: Id, it: Id)
    requires id in w.bundles && it in w.bundles
    ensures forall x :: x in w.bundles && w.bundles[x].adu.Some? ==> CoalesceOne(w, id, it).bundles[x].adu.Some?
  {
  }

  /** A signal only takes bundles away. */
  lemma StoredStayFull<Id>(w: World<Id>, id: Id, record: CS.Admin)
    requires StoreKnown(w) && id in w.bundles && w.bundles[id].adu.Some?
    requires forall x :: x in w.store ==> w.bundles[x].adu.Some?
    ensures record.Custody? ==>
              var w' := Agent.ProcessSignal(w, record.signal);
              forall x :: x in w'.store ==> w'.bundles[x].adu.Some?
  {
  }

  /** With the bundles `ids` still to be forwarded, all will be as one call of the
      whole snapshot makes it. */
  ghost predicate Remaining<Id>(n: Node<Id>, sent: seq<Packet>, ids: seq<Id>, all: (Node<Id>, seq<Packet>), sent0: seq<Packet>)
  {
    Sound(n.world) && Snapshot(n, ids) && ForwardAll(n, ids).0 == all.0 && sent + ForwardAll(n, ids).1 == sent0 + all.1
  }

  lemma OneMoreForwarded<Id>(n: Node<Id>, sent: seq<Packet>, ids: seq<Id>, all: (Node<Id>, seq<Packet>), sent0: seq<Packet>)
    requires Remaining(n, sent, ids, all, sent0) && ids != []
    ensures Sendable(n, ids[0])
    ensures Remaining(Agent.Forward(n, ids[0]).0, sent + Agent.Forward(n, ids[0]).1, ids[1..], all, sent0)
  {
    SnapshotShrinks(n, ids, false);
    var r := Agent.Forward(n, ids[0]);
    AppendAssoc(sent, r.1, ForwardAll(r.0, ids[1..]).1);
  }

  function Fired<Id(==)>(n: Node<Id>, event: nat): Node<Id>
  {
    n.(world := n.world.(pending := n.world.pending - {event}))
  }

  lemma RetransmitIs<Id>(n: Node<Id>, event: nat)
    requires event in n.world.pending && n.world.pending[event].Retransmission?
    requires Sendable(n, n.world.pending[event].bundle)
    ensures Sendable(Fired(n, event), n.world.pending[event].bundle)
    ensures Agent.Retransmit(n, event) == Agent.Forward(Fired(n, event), n.world.pending[event].bundle)
  {
  }

  /** One turn of the loop of `GetForwardPendingBundles`. */
  lemma WaitingNext<Id>(n: Node<Id>, s: seq<Id>, cla: Cla, found: seq<Id>, i: nat)
    requires (forall x :: x in s ==> x in n.world.bundles) && i < |s|
    requires Waiting(n, s, cla) == found + Waiting(n, s[i..], cla)
    ensures Waiting(n, s, cla) ==
            (if IsWaiting(n, n.world.bundles[s[i]], cla) then found + [s[i]] else found) + Waiting(n, s[i + 1..], cla)
  {
    assert s[i..][0] == s[i] && s[i..][1..] == s[i + 1..];
  }

  class BpAgent6 {
    const sim: Simulator
    const store: BundleStore
    const routing: BpStaticRoutingAgent
    var eid: Eid
    var registration: map<Eid, bool>
    /** The adapters that answer `IsReady` with true. */
    var ready: set<Cla>
    var bundleSize: nat
    var seqNo: nat
    var bundlesDelivered: nat
    var bytesDelivered: nat
    /** What was handed to the adapters, oldest first. */
    var sent: seq<Packet>

    constructor (sim: Simulator, routing: BpStaticRoutingAgent, eid: Eid)
      ensures Valid() && fresh(store) && this.sim == sim && this.routing == routing && sent == [] && bundleSize == 512
    {
      this.sim, this.routing, this.eid := sim, routing, eid;
      store := new BundleStore(sim);
      registration, ready, bundleSize, seqNo := map[], {}, 512, 0;
      bundlesDelivered, bytesDelivered, sent := 0, 0, [];
    }

    ghost predicate Valid()
      reads this, store
    {
      store.Valid() && store.sim == sim && bundleSize > 0
    }

    /** The agent these objects stand for. */
    ghost function Abs(): (n: Node<Bundle6>)
      requires Valid()
      reads this, store, sim, routing, store.objects
      ensures StoreKnown(n.world)
    {
      Node(eid, registration, routing.routes, ready, bundleSize, seqNo, store.Abs(), bundlesDelivered, bytesDelivered)
    }

    // ---------------------------------------------------------- registrations

    /** `Register`: a second registration of an endpoint is fatal. */
    method Register(e: Eid, active: bool)
      requires e !in registration
      modifies this`registration
      ensures registration == old(registration)[e := active]
    {
      registration := registration[e := active];
    }

    /** `Unregister` and `Bind` make a registration passive or active. */
    method SetState(e: Eid, active: bool) returns (r: int)
      modifies this`registration
      ensures if e in old(registration) then r == 0 && registration == old(registration)[e := active]
              else r == -1 && registration == old(registration)
    {
      if e !in registration {
        return -1;
      }
      registration := registration[e := active];
      return 0;
    }

    method Close(e: Eid) returns (r: int)
      modifies this`registration
      ensures registration == old(registration) - {e} && (r == 0 <==> e in old(registration)) && (r == 0 || r == -1)
    {
      if e !in registration {
        return -1;
      }
      registration := registration - {e};
      return 0;
    }

    predicate IsNodeMember(e: Eid)
      reads this
    {
      e in registration
    }

    // --------------------------------------------------------------- forwarding

    method OutgoingCla(dst: Eid) returns (cla: Option<Cla>)
      ensures cla == Agent.OutgoingCla(routing.routes, dst)
    {
      var nextHop := routing.NextHopEid(dst);
      if nextHop == Endpoint.DtnNone {
        return None;
      }
      cla := routing.NextHopCla(nextHop);
    }

    method MarkForward(b: Bundle6)
      requires Valid() && b in store.objects
      modifies b`retentionConstraints
      ensures Valid() && store.Abs() == Agent.MarkForward(old(store.Abs()), b)
    {
      ghost var w := store.Abs();
      b.retentionConstraints := b.retentionConstraints + {ForwardPending};
      b.retentionConstraints := b.retentionConstraints - {DispatchPending};
      assert store.Abs().bundles == Agent.MarkForward(w, b).bundles;
    }

    method ScheduleRetransmission(b: Bundle6)
      requires Valid() && b in store.objects
      modifies b`nextRetrans, sim`pending, sim`nextEvent
      ensures Valid() && store.Abs() == Schedule(old(store.Abs()), b)
    {
      ghost var w := store.Abs();
      var id := sim.Schedule(Retransmission(b));
      b.nextRetrans := Some(id);
      assert store.Abs().bundles == Schedule(w, b).bundles;
    }

    /** The sending loop of `Forward`. */
    method SendLoop(b: Bundle6)
      requires bundleSize > 0 && b.adu.Some?
      modifies b`header, this`sent
      ensures var (h, packets) := SendSlices(old(b.header), b.adu.value, bundleSize, |b.adu.value|);
              b.header == h && sent == old(sent) + packets
    {
      var adu := b.adu.value;
      var bytesLeft := |adu|;
      var fragment := |adu| > bundleSize;
      ghost var all := SendSlices(b.header, adu, bundleSize, |adu|);
      assert sent + all.1 == old(sent) + all.1;
      while bytesLeft > 0
        invariant 0 <= bytesLeft <= |adu|
        invariant SendSlices(b.header, adu, bundleSize, bytesLeft).0 == all.0
        invariant sent + SendSlices(b.header, adu, bundleSize, bytesLeft).1 == old(sent) + all.1
      {
        ghost var h, left := b.header, bytesLeft;
        var size := if bytesLeft < bundleSize then bytesLeft else bundleSize;
        var offset := if fragment then |adu| - bytesLeft else 0;
        bytesLeft := bytesLeft - size;
        b.header := b.header.(blockLength := size);
        b.header := b.header.(fragment := fragment);
        b.header := b.header.(offset := offset);
        assert b.header == SliceHeader(h, |adu|, bundleSize, left);
        var p := Packet(b.header, adu[offset..offset + size]);
        assert p == SlicePacket(h, adu, bundleSize, left);
        sent := sent + [p];
      }
      assert sent + [] == sent;
    }

    /** The loop and the retention after it. */
    method SendAndUnmark(b: Bundle6)
      requires Valid() && b in store.objects && b.adu.Some?
      modifies b`header, b`retentionConstraints, this`sent
      ensures Valid() && b.Value() == SentBundle(old(b.Value()), bundleSize)
      ensures sent == old(sent) + SendSlices(old(b.header), b.adu.value, bundleSize, |b.adu.value|).1
    {
      SendLoop(b);
      b.retentionConstraints := b.retentionConstraints - {ForwardPending};
    }

    /** Steps 4 to 6 of `Forward`. */
    method TransmitNow(b: Bundle6)
      requires Valid() && b in store.objects && b.adu.Some?
      modifies this`sent, store`store, store`storedBytes, sim`pending, sim`nextEvent, b
      ensures Valid() && bundleSize == old(bundleSize)
      ensures store.Abs() == Transmit(old(store.Abs()), b, bundleSize).0
      ensures sent == old(sent) + Transmit(old(store.Abs()), b, bundleSize).1
    {
      ghost var w := store.Abs();
      if b.header.custody {
        ScheduleRetransmission(b);
      }
      ghost var w1 := store.Abs();
      SendAndUnmark(b);
      ghost var w2 := Put(w1, b, SentBundle(w1.bundles[b], bundleSize));
      assert store.Abs().bundles == w2.bundles;
      TransmitIs(w, b, bundleSize);
      if b.retentionConstraints == {} {
        store.Drop(b);
      }
    }

    /** Steps 2 to 6. */
    method ForwardMarked(b: Bundle6)
      requires Valid() && b in store.objects && b.adu.Some?
      modifies this`sent, store`store, store`storedBytes, sim`pending, sim`nextEvent, b
      ensures Valid() && Abs() == old(Abs()).(world := store.Abs())
      ensures CanForward(old(Abs()), old(b.header.dst)) ==>
                store.Abs() == Transmit(old(store.Abs()), b, bundleSize).0
                && sent == old(sent) + Transmit(old(store.Abs()), b, bundleSize).1
      ensures !CanForward(old(Abs()), old(b.header.dst)) ==> store.Abs() == old(store.Abs()) && sent == old(sent)
    {
      var cla := OutgoingCla(b.header.dst);
      if cla.None? || cla.value !in ready {
        return;
      }
      TransmitNow(b);
    }

    /** `BpAgent6::Forward`. */
    method Forward(b: Bundle6)
      requires Valid() && b in store.objects && b.adu.Some?
      modifies this`sent, store`store, store`storedBytes, sim`pending, sim`nextEvent, b
      ensures Valid() && Sendable(old(Abs()), b)
      ensures Abs() == Agent.Forward(old(Abs()), b).0 && sent == old(sent) + Agent.Forward(old(Abs()), b).1
    {
      ghost var n := Abs();
      ForwardIs(n, b);
      MarkForward(b);
      assert sent + [] == sent;
      ForwardMarked(b);
    }

    // ----------------------------------------------------------------- sending

    /** The bundle object `Send` makes. */
    method Create(h: Header, adu: seq<byte>, address: nat) returns (b: Bundle6)
      ensures fresh(b) && b.Value() == NewBundle(h, adu, OutboundRetention(h.custody), address)
    {
      b := new Bundle6(h, adu, address);
      b.retentionConstraints := {DispatchPending};
      if h.custody {
        b.retentionConstraints := b.retentionConstraints + {CustodyAccepted};
      }
    }

    /** `Send` up to the call of `Store`. */
    method AcceptNew(h: Header, adu: seq<byte>, address: nat) returns (b: Bundle6)
      requires Valid()
      modifies this`seqNo, store, sim`pending, sim`nextEvent
      ensures Valid() && fresh(b) && b in store.objects && b.adu.Some? && seqNo == (old(seqNo) + 1) % TWO32
      ensures store.Abs() == StoreBundle(Put(old(store.Abs()), b, NewBundle(h, adu, OutboundRetention(h.custody), address)),
                                         b, sim.now)
    {
      b := Create(h, adu, address);
      seqNo := (seqNo + 1) % TWO32;
      store.Admit(b);
    }

    /** `Send`; `made` is the bundle object it creates. */
    method Send(adu: seq<byte>, src: Eid, dst: Eid, lifetime: nat, custody: bool, priority: nat, address: nat)
      returns (r: int, ghost made: Bundle6?)
      requires Valid()
      modifies this`seqNo, this`sent, store, sim`pending, sim`nextEvent
      ensures Valid() && (r == 0 || r == -1) && (r == 0 <==> MaySend(old(Abs()), src))
      ensures r != 0 ==> Abs() == old(Abs()) && sent == old(sent)
      ensures r == 0 ==>
                made != null && fresh(made)
                && Did(old(sent), sent, Abs(),
                       Agent.Send(old(Abs()), made, address, sim.now, adu, src, dst, lifetime, custody, priority))
    {
      if src != Endpoint.DtnNone && !IsNodeMember(src) {
        return -1, null;
      }
      var h := OutboundHeader(eid, seqNo, sim.now, |adu|, src, dst, lifetime, custody, priority);
      ghost var n := Abs();
      var b := AcceptNew(h, adu, address);
      AcceptedIs(n, b, address, sim.now, h, adu);
      assert Abs() == Accepted(n, b, address, sim.now, h, adu);
      Forward(b);
      SendingIs(n, b, address, sim.now, adu, src, dst, lifetime, custody, priority);
      return 0, b;
    }

    // --------------------------------------------------------- custody signals

    /** The loop over a bundle's acknowledged ranges. */
    method MergeRange(b: Bundle6, ack: (nat, nat))
      modifies b`acks
      ensures b.acks == MergeAck(old(b.acks), ack)
    {
      ghost var acks := b.acks;
      var i := 0;
      while i < |b.acks|
        invariant 0 <= i <= |b.acks| == |acks|
        invariant b.acks == MergeAck(acks[..i], ack) + acks[i..]
      {
        var it := b.acks[i];
        if it.1 == ack.0 {
          it := (it.0, ack.1);
        }
        if ack.1 == it.0 {
          it := (ack.0, it.1);
        }
        MergedOneMore(acks, i, ack);
        b.acks := b.acks[i := it];
        i := i + 1;
      }
      assert acks[..i] == acks;
    }

    /** The range joins those acknowledged. */
    method RecordRange(b: Bundle6, ack: (nat, nat))
      requires Valid() && b in store.objects
      modifies b`acks
      ensures Valid() && store.Abs() == Acked(old(store.Abs()), b, ack)
    {
      ghost var w := store.Abs();
      MergeRange(b, ack);
      if |b.acks| == 0 {
        b.acks := [ack];
      }
      assert store.Abs().bundles == Acked(w, b, ack).bundles;
    }

    /** What a signal does to the bundle it is about. */
    method Settle(b: Bundle6, ack: (nat, nat))
      requires Valid() && b in store.objects && (b in store.store ==> b.adu.Some?)
      modifies store`store, store`storedBytes, sim`pending, b`acks, b`adu
      ensures Valid() && store.Abs() == Settled(old(store.Abs()), b, ack)
    {
      SettledIs(store.Abs(), b, ack);
      RecordRange(b, ack);
      if |b.acks| == 1 && b.acks[0].0 == 0 && b.acks[0].1 == b.header.aduLength {
        assert b.acks == [(0, b.header.aduLength)];
        store.Drop(b);
      }
    }

    /** A custody signal for this agent. */
    method ProcessSignal(c: CS.Signal)
      requires Valid() && forall b :: b in store.store ==> b.adu.Some?
      modifies store`store, store`storedBytes, sim`pending, store.objects
      ensures Valid() && store.Abs() == Agent.ProcessSignal(old(store.Abs()), c)
    {
      if c.status == CS.SUCCESS {
        var found := store.GetBundles(SignalKey(c));
        if found != [] {
          Settle(found[0], AckOf(c));
        }
      }
    }

    // -------------------------------------------------------------- coalescing

    method ClearFlag(b: Bundle6)
      requires Valid() && b in store.objects
      modifies b`header
      ensures Valid() && store.Abs() == ClearFragment(old(store.Abs()), b)
    {
      ghost var w := store.Abs();
      b.header := b.header.(fragment := false);
      assert store.Abs().bundles == ClearFragment(w, b).bundles;
    }

    /** `front` takes over the octets of `back`, which leaves the store. */
    method Join(front: Bundle6, back: Bundle6)
      requires Valid() && front in store.objects && back in store.objects && front.adu.Some? && back.adu.Some?
      modifies front`adu, front`header, store`store, store`storedBytes, sim`pending
      ensures Valid() && store.Abs() == Swallow(old(store.Abs()), front, back)
    {
      ghost var w := store.Abs();
      front.adu := Some(front.adu.value + back.adu.value);
      ghost var b := w.bundles[front].(adu := Some(w.bundles[front].adu.value + w.bundles[back].adu.value));
      assert store.Abs().bundles == Put(w, front, b).bundles;
      store.Remove(back);
      if |front.adu.value| == front.header.aduLength {
        ClearFlag(front);
      }
    }

    /** One turn of the loop. */
    method Match(b: Bundle6, it: Bundle6)
      requires Valid() && b in store.objects && it in store.objects && b.adu.Some? && it.adu.Some?
      modifies store`store, store`storedBytes, sim`pending, store.objects
      ensures Valid() && store.Abs() == CoalesceOne(old(store.Abs()), b, it)
    {
      CoalesceOneIs(store.Abs(), b, it);
      if b.header.offset == it.header.offset + |it.adu.value| {
        Join(it, b);
      } else if b.header.offset + |b.adu.value| == it.header.offset {
        Join(b, it);
      }
    }

    /** The loop over the stored bundles of the same ADU. */
    method MatchAll(b: Bundle6, prevFrags: seq<Bundle6>)
      requires Valid() && b in store.objects && b.adu.Some?
      requires forall x :: x in prevFrags ==> x in store.objects && x.adu.Some?
      modifies store`store, store`storedBytes, sim`pending, store.objects
      ensures Valid() && store.Abs() == Coalesce(old(store.Abs()), b, prevFrags)
    {
      ghost var all := Coalesce(store.Abs(), b, prevFrags);
      var i := 0;
      while i < |prevFrags|
        invariant 0 <= i <= |prevFrags| && Valid() && store.objects == old(store.objects)
        invariant b.adu.Some? && forall x :: x in prevFrags ==> x.adu.Some?
        invariant Coalesce(store.Abs(), b, prevFrags[i..]) == all
      {
        ghost var w := store.Abs();
        assert prevFrags[i..][0] == prevFrags[i] && prevFrags[i..][1..] == prevFrags[i + 1..];
        Match(b, prevFrags[i]);
        AdusStay(w, b, prevFrags[i]);
        assert forall x :: x in store.objects ==> store.Abs().bundles[x] == x.Value();
        i := i + 1;
      }
    }

    // ---------------------------------------------------------------- delivery

    /** Every stored bundle still has its ADU. */
    ghost predicate Full()
      requires Valid()
      reads this, store, store.objects
    {
      forall b :: b in store.store ==> b.adu.Some?
    }

    /** An administrative record for this agent. */
    method Consume(b: Bundle6, record: CS.Admin)
      requires Valid() && b in store.objects && b.adu.Some? && Full()
      modifies store`store, store`storedBytes, sim`pending, store.objects
      ensures Valid() && store.Abs() == Consumed(old(store.Abs()), b, record)
    {
      ghost var w := store.Abs();
      if record.Custody? {
        ProcessSignal(record.signal);
      }
      StoredStayFull(w, b, record);
      assert forall x :: x in store.store ==> store.Abs().bundles[x] == x.Value();
      store.Drop(b);
    }

    /** `EnqueueForDeliveryToApplication`. */
    method Enqueue(b: Bundle6)
      requires Valid() && b in store.objects && b.adu.Some? && Full() && Readable(eid, b.Value())
      modifies store`store, store`storedBytes, sim`pending, store.objects
      ensures Valid() && store.Abs() == Agent.Enqueue(eid, old(store.Abs()), b)
    {
      EnqueueIs(eid, store.Abs(), b);
      if b.header.dst == eid {
        Consume(b, CS.ParseAdmin(b.adu.value).value);
      } else if b.header.fragment {
        var prevFrags := store.GetBundles(KeyOf(b.header));
        MatchAll(b, prevFrags);
      }
    }

    /** `SendCustodySignal`. */
    method SendCustodySignal(b: Bundle6, address: nat) returns (ghost signal: Bundle6)
      requires Valid() && b in store.objects
      modifies this`seqNo, this`sent, store, sim`pending, sim`nextEvent
      ensures Valid() && sent == old(sent) + SignalSent(old(Abs()), old(b.Value()), signal, address, sim.now).1
      ensures Abs() == SignalSent(old(Abs()), old(b.Value()), signal, address, sim.now).0
    {
      var record := RecordFor(b.Value(), sim.now);
      var r;
      ghost var made;
      ghost var n := Abs();
      assert sent + [] == sent;
      r, made := Send(record, eid, b.header.cust, b.header.lifetime, false, 0, address);
      signal := if made == null then b else made;
    }

    /** `Deliver` to a registered endpoint. */
    method Deliver(b: Bundle6, address: nat) returns (ghost signal: Bundle6)
      requires Valid() && b in store.objects && b.adu.Some? && Full() && b.header.dst in registration
      requires registration[b.header.dst] ==> Readable(eid, b.Value())
      modifies this`seqNo, this`sent, store, sim`pending, sim`nextEvent, store.objects
      ensures Valid() && sent == old(sent) + Agent.Deliver(old(Abs()), b, signal, address, sim.now).1
      ensures Abs() == Agent.Deliver(old(Abs()), b, signal, address, sim.now).0
    {
      ghost var n := Abs();
      assert sent + [] == sent;
      if registration[b.header.dst] {
        Enqueue(b);
      }
      assert Abs() == Enqueued(n, b);
      signal := b;
      if b.header.custody {
        signal := SendCustodySignal(b, address);
      }
      EndToEnd.DeliverIs(n, b, signal, address, sim.now);
    }

    /** `Dispatch`. */
    method Dispatch(b: Bundle6, address: nat) returns (ghost signal: Bundle6)
      requires Valid() && b in store.objects && b.adu.Some? && Full()
      requires Active(Abs(), b.header.dst) ==> Readable(eid, b.Value())
      modifies this`seqNo, this`sent, store, sim`pending, sim`nextEvent, store.objects
      ensures Valid() && sent == old(sent) + Agent.Dispatch(old(Abs()), b, signal, address, sim.now).1
      ensures Abs() == Agent.Dispatch(old(Abs()), b, signal, address, sim.now).0
    {
      signal := b;
      if IsNodeMember(b.header.dst) {
        signal := Deliver(b, address);
      } else {
        Forward(b);
      }
    }

    /** The first steps of `ProcessBundle`. */
    method Take(p: Packet, address: nat) returns (b: Bundle6)
      requires Valid() && Full()
      modifies store, sim`pending, sim`nextEvent
      ensures Valid() && fresh(b) && b in store.objects && b.adu.Some? && Full()
      ensures Abs() == Taken(old(Abs()), p, b, address, sim.now) && b.Value().header == p.header
      ensures b.Value() == Arrival(p, address).(expireEvent := b.expireEvent)
    {
      b := Arrived(p, address);
      ghost var w := store.Abs();
      store.Admit(b);
      assert store.Abs() == StoreBundle(Put(w, b, Arrival(p, address)), b, sim.now);
    }

    method Arrived(p: Packet, address: nat) returns (b: Bundle6)
      ensures fresh(b) && b.Value() == Arrival(p, address)
    {
      b := new Bundle6(p.header, p.payload, address);
      b.retentionConstraints := b.retentionConstraints + {DispatchPending};
    }

    /** `ProcessBundle` for a packet an adapter has taken apart. */
    method ProcessBundle(p: Packet, address: nat) returns (ghost made: Bundle6, ghost signal: Bundle6)
      requires Valid() && Full()
      requires Active(Abs(), p.header.dst) ==> Readable(eid, Arrival(p, address))
      modifies this`seqNo, this`sent, store, sim`pending, sim`nextEvent, store.objects
      ensures Valid() && fresh(made) && sent == old(sent) + Process(old(Abs()), p, made, signal, address, sim.now).1
      ensures Abs() == Process(old(Abs()), p, made, signal, address, sim.now).0
    {
      ghost var n := Abs();
      var b := Take(p, address);
      signal := Dispatch(b, address + 1);
      made := b;
      ProcessIs(n, p, b, signal, address, sim.now);
    }

    /** `Receive`. */
    method Receive(e: Eid) returns (p: Option<seq<byte>>)
      requires Valid() && Full()
      modifies this`bundlesDelivered, this`bytesDelivered, store`store, store`storedBytes, sim`pending, store.objects
      ensures Valid() && (Abs(), p) == Agent.Receive(old(Abs()), e)
    {
      p := store.GetAndRemoveBundle(e, false);
      if p.Some? {
        bundlesDelivered := bundlesDelivered + 1;
        bytesDelivered := bytesDelivered + |p.value|;
      }
    }

    // ----------------------------------------------------------------- adapters

    /** The condition in its loop. */
    method Waits(b: Bundle6, cla: Cla) returns (r: bool)
      requires Valid() && b in store.objects
      ensures r == IsWaiting(Abs(), b.Value(), cla)
    {
      var out := OutgoingCla(b.header.dst);
      r := ForwardPending in b.retentionConstraints && out == Some(cla);
    }

    /** `BundleStore::GetForwardPendingBundles`. */
    method ForwardPendingBundles(cla: Cla) returns (bundles: seq<Bundle6>)
      requires Valid()
      ensures bundles == Waiting(Abs(), store.store, cla)
    {
      ghost var n := Abs();
      bundles := [];
      var i := 0;
      while i < |store.store|
        invariant 0 <= i <= |store.store|
        invariant Waiting(n, store.store, cla) == bundles + Waiting(n, store.store[i..], cla)
      {
        var b := store.store[i];
        assert b.Value() == n.world.bundles[b];
        WaitingNext(n, store.store, cla, bundles, i);
        var waits := Waits(b, cla);
        if waits {
          bundles := bundles + [b];
        }
        i := i + 1;
      }
    }

    /** The loop of `ClaReady`: the snapshot is walked although forwarding changes
        the store. */
    method ForwardEach(bundles: seq<Bundle6>)
      requires Valid() && Sound(Abs().world) && Snapshot(Abs(), bundles)
      modifies this`sent, store`store, store`storedBytes, sim`pending, sim`nextEvent, store.objects
      ensures Valid() && Abs() == ForwardAll(old(Abs()), bundles).0 && sent == old(sent) + ForwardAll(old(Abs()), bundles).1
    {
      ghost var all := ForwardAll(Abs(), bundles);
      var it := 0;
      while it < |bundles|
        invariant 0 <= it <= |bundles| && Valid() && store.objects == old(store.objects)
        invariant Remaining(Abs(), sent, bundles[it..], all, old(sent))
      {
        var b := bundles[it];
        assert bundles[it..][0] == b && bundles[it..][1..] == bundles[it + 1..];
        OneMoreForwarded(Abs(), sent, bundles[it..], all, old(sent));
        assert b.Value() == Abs().world.bundles[b];
        Forward(b);
        it := it + 1;
      }
      assert sent + [] == sent;
    }

    /** `ClaReady`. */
    method ClaReady(cla: Cla)
      requires Valid() && Sound(Abs().world)
      modifies this`sent, store`store, store`storedBytes, sim`pending, sim`nextEvent, store.objects
      ensures Valid() && Abs() == Agent.ClaReady(old(Abs()), cla).0 && sent == old(sent) + Agent.ClaReady(old(Abs()), cla).1
    {
      ghost var n := Abs();
      var bundles := ForwardPendingBundles(cla);
      WaitingIsSnapshot(n, store.store, cla);
      assert Agent.ClaReady(n, cla) == ForwardAll(n, bundles);
      ForwardEach(bundles);
    }

    // ------------------------------------------------------------------- timers

    /** A retransmission event runs. */
    method Retransmit(event: nat)
      requires Valid() && event in sim.pending && sim.pending[event].Retransmission?
      requires sim.pending[event].bundle in store.objects && sim.pending[event].bundle.adu.Some?
      modifies this`sent, store`store, store`storedBytes, sim`pending, sim`nextEvent, store.objects
      ensures Valid() && Sendable(old(Abs()), old(sim.pending[event].bundle))
      ensures Abs() == Agent.Retransmit(old(Abs()), event).0 && sent == old(sent) + Agent.Retransmit(old(Abs()), event).1
    {
      var b := sim.pending[event].bundle;
      ghost var n := Abs();
      assert Sendable(n, b);
      RetransmitIs(n, event);
      sim.Cancel(Some(event));
      assert Abs() == Fired(n, event);
      Forward(b);
    }

    /** An expiry event runs. */
    method Expire(event: nat)
      requires Valid() && event in sim.pending && sim.pending[event].Expiry?
      requires sim.pending[event].bundle in store.objects && Full()
      modifies store`store, store`storedBytes, sim`pending, store.objects
      ensures Valid() && Abs() == ExpireEvent(old(Abs()), event)
    {
      var b := sim.pending[event].bundle;
      ghost var n := Abs();
      sim.Cancel(Some(event));
      assert Abs() == Fired(n, event);
      store.Expire(b);
    }
  }
}
