/**
 Custody timers, one agent: after every operation each bundle in custody is
 either waiting for an adapter or has exactly one live retransmission timer,
 and no bundle outside the store has one.
 */
module Custodial {
  import opened Bytes
  import opened Bundles
  import opened Agent
  import opened Soundness
  import CS = CustodySignal

  /** Since `Sound` gives an event to the one bundle holding it, "running" below
      means exactly one live timer. */
  ghost predicate Timed<Id>(w: World<Id>)
    requires StoreKnown(w)
  {
    && (forall e :: e in w.pending && w.pending[e].Retransmission? ==> w.pending[e].bundle in w.store)
    && (forall x :: x in w.store ==> InCustody(w, x))
  }

  ghost predicate InCustody<Id>(w: World<Id>, x: Id)
    requires x in w.bundles
  {
    var b := w.bundles[x];
    CustodyAccepted in b.retention ==>
      b.header.custody && (ForwardPending in b.retention <==> !IsRunning(w, b.nextRetrans))
  }

  /** `Sound` in every run, `Timed` as well in the runs that keep it. */
  ghost predicate Steady<Id>(w: World<Id>, timed: bool)
  {
    Sound(w) && (timed ==> Timed(w))
  }

  // ---------------------------------------------------------- the building blocks

  lemma TouchTimed<Id>(w: World<Id>, w': World<Id>, id: Id)
    requires Sound(w) && Timed(w) && Sound(w') && OnlyTouches(w, w', id)
    requires forall x :: x in w.store && x != id ==> x in w'.store
    requires forall x :: x in w'.store && x != id ==> x in w.store
    requires id in w'.store ==> InCustody(w', id)
    requires id !in w'.store ==> forall e :: e in w'.pending && w'.pending[e].bundle == id ==> w'.pending[e].Expiry?
    ensures Timed(w')
  {
    forall x | x in w'.store ensures InCustody(w', x) {
      if x != id {
        assert InCustody(w, x) && HandlesFit(w, x) && HandlesFit(w', x);
      }
    }
  }

  lemma DropSteady<Id>(w: World<Id>, id: Id, timed: bool)
    requires Steady(w, timed) && id in w.bundles
    ensures Steady(Dispose(Remove(w, id), id), timed)
  {
    DropSound(w, id);
    if timed {
      TouchTimed(w, Dispose(Remove(w, id), id), id);
    }
  }

  lemma RemoveSteady<Id>(w: World<Id>, id: Id, timed: bool)
    requires Steady(w, timed) && id in w.bundles
    ensures Steady(Remove(w, id), timed)
  {
    RemoveSound(w, id);
    ClearSound(w, id);
    if timed {
      TouchTimed(w, Remove(w, id), id);
    }
  }

  /** Field updates that leave header flags, retention and events alone. */
  lemma PutSteady<Id>(w: World<Id>, id: Id, b': Bundle, timed: bool)
    requires Steady(w, timed) && id in w.bundles && SameEvents(w.bundles[id], b')
    requires b'.retention == w.bundles[id].retention
    ensures Steady(Put(w, id, b'), timed)
  {
    assert HandlesFit(w, id);
    PutSound(w, id, b');
    if timed {
      if id in w.store {
        assert InCustody(w, id);
      }
      TouchTimed(w, Put(w, id, b'), id);
    }
  }

  // ------------------------------------------------------------- forwarding

  /** All but bundle `id` is timed, and `id` has no timer. */
  ghost predicate Untimed<Id>(w: World<Id>, id: Id)
    requires StoreKnown(w) && id in w.bundles
  {
    && (forall e :: e in w.pending && w.pending[e].Retransmission? ==>
          w.pending[e].bundle in w.store && w.pending[e].bundle != id)
    && (forall x :: x in w.store && x != id ==> InCustody(w, x))
    && (CustodyAccepted in w.bundles[id].retention ==> w.bundles[id].header.custody && id in w.store)
  }

  lemma MarkSound<Id>(w: World<Id>, id: Id)
    requires Sound(w) && id in w.bundles && !IsRunning(w, w.bundles[id].nextRetrans)
    ensures Sound(MarkForward(w, id)) && OnlyTouches(w, MarkForward(w, id), id)
    ensures !IsRunning(MarkForward(w, id), MarkForward(w, id).bundles[id].nextRetrans)
  {
    PutSound(w, id, MarkForward(w, id).bundles[id]);
  }

  lemma ForwardIs<Id>(n: Node<Id>, id: Id)
    requires Sendable(n, id)
    ensures var w := MarkForward(n.world, id);
            Forward(n, id) == if !CanForward(n, w.bundles[id].header.dst) then (n.(world := w), [])
                              else (n.(world := Transmit(w, id, n.bundleSize).0), Transmit(w, id, n.bundleSize).1)
  {
  }

  lemma ForwardSound<Id>(n: Node<Id>, id: Id)
    requires Sound(n.world) && Sendable(n, id) && !IsRunning(n.world, n.world.bundles[id].nextRetrans)
    ensures Sound(Forward(n, id).0.world) && OnlyTouches(n.world, Forward(n, id).0.world, id)
    ensures Forward(n, id).0 == n.(world := Forward(n, id).0.world)
    ensures forall x :: x in n.world.store && x != id ==> x in Forward(n, id).0.world.store
    ensures forall x :: x in Forward(n, id).0.world.store ==> x in n.world.store
  {
    var w := MarkForward(n.world, id);
    MarkSound(n.world, id);
    if CanForward(n, w.bundles[id].header.dst) {
      TransmitSound(w, id, n.bundleSize);
      TouchesTwice(n.world, w, Transmit(w, id, n.bundleSize).0, id);
    }
  }

  lemma OnlyPending(retention: set<Retention>)
    requires ForwardPending in retention && DispatchPending !in retention && CustodyAccepted !in retention
    ensures retention == {ForwardPending}
  {
    forall r | r in retention ensures r == ForwardPending {
      match r case DispatchPending => case ForwardPending => case CustodyAccepted =>
    }
  }

  lemma ForwardSteady<Id>(n: Node<Id>, id: Id, timed: bool)
    requires Sound(n.world) && Sendable(n, id) && !IsRunning(n.world, n.world.bundles[id].nextRetrans)
    requires timed ==> Untimed(n.world, id)
    ensures Steady(Forward(n, id).0.world, timed)
  {
    ForwardSound(n, id);
    if timed {
      ForwardTimed(n, id);
    }
  }

  lemma ForwardTimed<Id>(n: Node<Id>, id: Id)
    requires Sound(n.world) && Sendable(n, id) && !IsRunning(n.world, n.world.bundles[id].nextRetrans)
    requires Untimed(n.world, id)
    ensures Sound(Forward(n, id).0.world) && Timed(Forward(n, id).0.world)
  {
    var w0, w := n.world, MarkForward(n.world, id);
    MarkSound(w0, id);
    ForwardSound(n, id);
    var w' := Forward(n, id).0.world;
    forall x | x in w.store && x != id ensures InCustody(w, x) {
      assert InCustody(w0, x);
    }
    if CustodyAccepted !in w.bundles[id].retention {
      OnlyPending(w.bundles[id].retention);
    }
    if CanForward(n, w.bundles[id].header.dst) {
      TransmitSound(w, id, n.bundleSize);
      SentSound(w, id, n.bundleSize);
    }
    forall x | x in w'.store ensures InCustody(w', x) {
      if x != id {
        assert InCustody(w, x) && HandlesFit(w, x) && HandlesFit(w', x);
      }
    }
    forall e | e in w'.pending && w'.pending[e].Retransmission? ensures w'.pending[e].bundle in w'.store {
      assert EventHeld(w', e);
    }
  }

  /** A stored bundle waiting for an adapter, or one whose timer has just run. */
  lemma UntimedOf<Id>(w: World<Id>, id: Id)
    requires Sound(w) && Timed(w) && id in w.store && !IsRunning(w, w.bundles[id].nextRetrans)
    ensures Untimed(w, id)
  {
    assert InCustody(w, id);
    forall e | e in w.pending && w.pending[e].Retransmission? ensures w.pending[e].bundle != id {
      assert EventHeld(w, e);
    }
  }

  // ------------------------------------------------------------- coalescing

  lemma CoalesceOneSteady<Id>(w: World<Id>, id: Id, it: Id, timed: bool)
    requires Steady(w, timed) && id in w.bundles && it in w.bundles
    ensures Steady(CoalesceOne(w, id, it), timed)
  {
    var b, p := w.bundles[id], w.bundles[it];
    if b.adu.Some? && p.adu.Some? {
      if b.header.offset == p.header.offset + Size(p) {
        var adu := p.adu.value + b.adu.value;
        var w0 := Put(w, it, p.(adu := Some(adu)));
        PutSteady(w, it, p.(adu := Some(adu)), timed);
        RemoveSteady(w0, id, timed);
        var w1 := Remove(w0, id);
        PutSteady(w1, it, ClearFragment(w1, it).bundles[it], timed);
      } else if b.header.offset + Size(b) == p.header.offset {
        var adu := b.adu.value + p.adu.value;
        var w0 := Put(w, id, b.(adu := Some(adu)));
        PutSteady(w, id, b.(adu := Some(adu)), timed);
        RemoveSteady(w0, it, timed);
        var w1 := Remove(w0, it);
        PutSteady(w1, id, ClearFragment(w1, id).bundles[id], timed);
      }
    }
  }

  lemma {:induction false} CoalesceSteady<Id>(w: World<Id>, id: Id, its: seq<Id>, timed: bool)
    requires Steady(w, timed) && id in w.bundles && forall x :: x in its ==> x in w.bundles
    ensures Steady(Coalesce(w, id, its), timed)
    decreases |its|
  {
    if its != [] {
      CoalesceOneSteady(w, id, its[0], timed);
      assert forall x :: x in its[1..] ==> x in its;
      CoalesceSteady(CoalesceOne(w, id, its[0]), id, its[1..], timed);
    }
  }

  lemma SettledSteady<Id>(w: World<Id>, id: Id, ack: (nat, nat), timed: bool)
    requires Steady(w, timed) && id in w.bundles
    ensures Steady(Settled(w, id, ack), timed)
  {
    PutSteady(w, id, Acked(w, id, ack).bundles[id], timed);
    DropSteady(Acked(w, id, ack), id, timed);
  }

  lemma ProcessSignalSteady<Id>(w: World<Id>, c: CS.Signal, timed: bool)
    requires Steady(w, timed)
    ensures Steady(ProcessSignal(w, c), timed)
  {
    match Target(w, c)
    case None =>
    case Some(id) => SettledSteady(w, id, AckOf(c), timed);
  }

  lemma EnqueueSteady<Id>(agent: Eid, w: World<Id>, id: Id, timed: bool)
    requires Steady(w, timed) && id in w.bundles && Readable(agent, w.bundles[id])
    ensures Steady(Enqueue(agent, w, id), timed)
  {
    var b := w.bundles[id];
    if b.header.dst == agent {
      match CS.ParseAdmin(b.adu.value).value
      case Custody(c) =>
        ProcessSignalSteady(w, c, timed);
        DropSteady(ProcessSignal(w, c), id, timed);
      case Other =>
        DropSteady(w, id, timed);
    } else if b.header.fragment {
      CoalesceSteady(w, id, WithKey(w.bundles, w.store, KeyOf(b.header)), timed);
    }
  }

  // ------------------------------------------------------------- operations

  /** A fresh bundle object, stored unless it has expired. */
  ghost predicate MayAdd<Id>(w: World<Id>, id: Id, b: Bundle)
  {
    Sound(w) && id !in w.bundles && b.expireEvent.None? && b.nextRetrans.None? && b.adu.Some? &&
    (CustodyAccepted in b.retention ==> b.header.custody)
  }

  lemma StoreNew<Id>(w: World<Id>, id: Id, b: Bundle, now: nat)
    requires MayAdd(w, id, b)
    ensures var w' := StoreBundle(Put(w, id, b), id, now);
            Sound(w') && !IsRunning(w', w'.bundles[id].nextRetrans)
            && w'.bundles[id] == b.(expireEvent := w'.bundles[id].expireEvent)
            && (id in w'.store <==> !Expired(b.header, now))
            && OnlyTouches(Put(w, id, b), w', id)
  {
    AddSound(w, id, b);
    StoreSound(Put(w, id, b), id, now);
  }

  lemma StoreNewTimed<Id>(w: World<Id>, id: Id, b: Bundle, now: nat)
    requires MayAdd(w, id, b) && Timed(w)
    ensures var w' := StoreBundle(Put(w, id, b), id, now);
            StoreKnown(w') && id in w'.bundles
            && ((CustodyAccepted in b.retention ==> !Expired(b.header, now)) ==> Untimed(w', id))
            && (CustodyAccepted !in b.retention ==> Timed(w'))
  {
    StoreNew(w, id, b, now);
    var w' := StoreBundle(Put(w, id, b), id, now);
    forall x | x in w'.store && x != id ensures InCustody(w', x) {
      assert InCustody(w, x) && HandlesFit(w, x);
    }
  }

  lemma AcceptedSteady<Id>(n: Node<Id>, id: Id, address: nat, now: nat, h: Header, adu: seq<byte>, timed: bool)
    requires Steady(n.world, timed) && id !in n.world.bundles
    ensures var w := Accepted(n, id, address, now, h, adu).world;
            Sound(w) && !IsRunning(w, w.bundles[id].nextRetrans)
            && (timed && (h.custody ==> !Expired(h, now)) ==> Untimed(w, id))
  {
    var b := NewBundle(h, adu, OutboundRetention(h.custody), address);
    StoreNew(n.world, id, b, now);
    if timed {
      StoreNewTimed(n.world, id, b, now);
    }
  }

  lemma SendSteady<Id>(n: Node<Id>, id: Id, address: nat, now: nat, adu: seq<byte>,
                   src: Eid, dst: Eid, lifetime: nat, custody: bool, priority: nat, timed: bool)
    requires Steady(n.world, timed) && n.bundleSize > 0 && id !in n.world.bundles
    requires timed && custody ==>
      !Expired(OutboundHeader(n.eid, n.sequence, now, |adu|, src, dst, lifetime, custody, priority), now)
    ensures Steady(Send(n, id, address, now, adu, src, dst, lifetime, custody, priority).0.world, timed)
  {
    if MaySend(n, src) {
      var h := OutboundHeader(n.eid, n.sequence, now, |adu|, src, dst, lifetime, custody, priority);
      AcceptedSteady(n, id, address, now, h, adu, timed);
      ForwardSteady(Accepted(n, id, address, now, h, adu), id, timed);
    }
  }

  lemma DeliverSteady<Id>(n: Node<Id>, id: Id, signalId: Id, address: nat, now: nat, timed: bool)
    requires Steady(n.world, timed) && id in n.world.bundles && n.bundleSize > 0 && signalId !in n.world.bundles
    requires Active(n, n.world.bundles[id].header.dst) ==> Readable(n.eid, n.world.bundles[id])
    ensures Steady(Deliver(n, id, signalId, address, now).0.world, timed)
  {
    if Active(n, n.world.bundles[id].header.dst) {
      EnqueueSteady(n.eid, n.world, id, timed);
    }
    var n1 := Enqueued(n, id);
    var b := n1.world.bundles[id];
    if b.header.custody {
      SendSteady(n1, signalId, address, now, RecordFor(b, now), n1.eid, b.header.cust, b.header.lifetime, false, 0, timed);
    }
  }

  lemma ProcessIs<Id>(n: Node<Id>, p: Packet, id: Id, signalId: Id, address: nat, now: nat)
    requires StoreKnown(n.world) && n.bundleSize > 0
    requires Active(n, p.header.dst) ==> Readable(n.eid, Arrival(p, address))
    ensures Process(n, p, id, signalId, address, now)
         == Dispatch(Taken(n, p, id, address, now), id, signalId, address + 1, now)
  {
  }

  lemma ProcessSteady<Id>(n: Node<Id>, p: Packet, id: Id, signalId: Id, address: nat, now: nat, timed: bool)
    requires Steady(n.world, timed) && n.bundleSize > 0
    requires id !in n.world.bundles && signalId !in n.world.bundles && id != signalId
    requires Active(n, p.header.dst) ==> Readable(n.eid, Arrival(p, address))
    ensures Steady(Process(n, p, id, signalId, address, now).0.world, timed)
  {
    var n1 := Taken(n, p, id, address, now);
    TakenSteady(n, p, id, address, now, timed);
    DispatchSteady(n1, id, signalId, address + 1, now, timed);
    ProcessIs(n, p, id, signalId, address, now);
  }

  /** Bundle `id` was just taken off the wire. */
  ghost predicate Dispatchable<Id>(n: Node<Id>, id: Id, timed: bool)
  {
    Steady(n.world, timed) && Sendable(n, id) && !IsRunning(n.world, n.world.bundles[id].nextRetrans) &&
    (timed ==> Untimed(n.world, id)) &&
    (Active(n, n.world.bundles[id].header.dst) ==> Readable(n.eid, n.world.bundles[id]))
  }

  lemma DispatchSteady<Id>(n: Node<Id>, id: Id, signalId: Id, address: nat, now: nat, timed: bool)
    requires Dispatchable(n, id, timed) && signalId !in n.world.bundles
    ensures Steady(Dispatch(n, id, signalId, address, now).0.world, timed)
  {
    if n.world.bundles[id].header.dst in n.registrations {
      DeliverSteady(n, id, signalId, address, now, timed);
    } else {
      ForwardSteady(n, id, timed);
    }
  }

  lemma TakenSteady<Id>(n: Node<Id>, p: Packet, id: Id, address: nat, now: nat, timed: bool)
    requires Steady(n.world, timed) && id !in n.world.bundles && n.bundleSize > 0
    requires Active(n, p.header.dst) ==> Readable(n.eid, Arrival(p, address))
    ensures Dispatchable(Taken(n, p, id, address, now), id, timed)
  {
    StoreNew(n.world, id, Arrival(p, address), now);
    if timed {
      StoreNewTimed(n.world, id, Arrival(p, address), now);
    }
  }

  lemma ReceiveSteady<Id>(n: Node<Id>, eid: Eid, timed: bool)
    requires Steady(n.world, timed)
    ensures Steady(Receive(n, eid).0.world, timed)
  {
    match FirstFor(n.world.bundles, n.world.store, eid, false)
    case None =>
    case Some(id) => DropSteady(n.world, id, timed);
  }

  lemma ExpireSteady<Id>(n: Node<Id>, event: nat, timed: bool)
    requires Steady(n.world, timed) && event in n.world.pending && n.world.pending[event].Expiry?
    ensures n.world.pending[event].bundle in n.world.bundles
    ensures Steady(ExpireEvent(n, event).world, timed)
  {
    ExpireSound(n.world, event);
    DropSteady(n.world, n.world.pending[event].bundle, timed);
  }

  lemma RetransmitSteady<Id>(n: Node<Id>, event: nat, timed: bool)
    requires Steady(n.world, timed) && n.bundleSize > 0
    requires event in n.world.pending && n.world.pending[event].Retransmission?
    ensures Sendable(n, n.world.pending[event].bundle)
    ensures Steady(Retransmit(n, event).0.world, timed)
  {
    var id := n.world.pending[event].bundle;
    assert EventHeld(n.world, event);
    FireSound(n.world, event);
    var n' := n.(world := n.world.(pending := n.world.pending - {event}));
    ForwardSound(n', id);
    if timed {
      forall x | x in n'.world.store && x != id ensures InCustody(n'.world, x) {
        assert InCustody(n.world, x) && HandlesFit(n.world, x);
      }
      assert InCustody(n.world, id);
      forall e | e in n'.world.pending && n'.world.pending[e].Retransmission? ensures n'.world.pending[e].bundle != id {
        assert EventHeld(n.world, e);
      }
      ForwardTimed(n', id);
    }
  }
}
