/**
 How a bundle leaves custody. Over whole runs: a stored bundle whose custody the
 agent accepted stays stored and in custody until it expires, is handed to an
 application on its own agent, or every octet of its ADU has arrived.
 */
module CustodyRelease {
  import opened Bytes
  import opened Bundles
  import opened Agent
  import opened Soundness
  import opened Custodial
  import opened Drain
  import opened Network
  import opened Integrity
  import opened EndToEnd
  import opened CustodySafety
  import CS = CustodySignal

  ghost predicate HeldIn<T>(w: World<T>, x: T)
  {
    x in w.store && x in w.bundles && CustodyAccepted in w.bundles[x].retention
  }

  lemma TransmitHolds<T>(w: World<T>, id: T, bundleSize: nat, x: T)
    requires Sound(w) && id in w.bundles && w.bundles[id].adu.Some? && bundleSize > 0
    requires !IsRunning(w, w.bundles[id].nextRetrans) && HeldIn(w, x)
    ensures HeldIn(Transmit(w, id, bundleSize).0, x)
  {
    TransmitSound(w, id, bundleSize);
    SentSound(w, id, bundleSize);
    if x == id {
      assert CustodyAccepted in w.bundles[id].retention - {ForwardPending};
    }
  }

  /** Forwarding never ends custody. */
  lemma ForwardHolds<T>(n: Node<T>, id: T, x: T)
    requires Sound(n.world) && Sendable(n, id) && !IsRunning(n.world, n.world.bundles[id].nextRetrans)
    requires HeldIn(n.world, x)
    ensures HeldIn(Forward(n, id).0.world, x)
  {
    var w := MarkForward(n.world, id);
    MarkSound(n.world, id);
    ForwardIs(n, id);
    if CanForward(n, w.bundles[id].header.dst) {
      TransmitHolds(w, id, n.bundleSize, x);
    }
  }

  lemma DropHolds<T>(w: World<T>, id: T, x: T)
    requires Sound(w) && id in w.bundles && HeldIn(w, x) && x != id
    ensures HeldIn(Dispose(Remove(w, id), id), x)
  {
    DropSound(w, id);
  }

  lemma AddHolds<T>(w: World<T>, id: T, b: Bundle, now: nat, x: T)
    requires Sound(w) && id !in w.bundles && HeldIn(w, x)
    ensures HeldIn(StoreBundle(Put(w, id, b), id, now), x)
  {
  }

  lemma SendHolds<T>(n: Node<T>, id: T, address: nat, now: nat, adu: seq<byte>, src: Eid, dst: Eid,
                     lifetime: nat, custody: bool, priority: nat, x: T)
    requires Sound(n.world) && n.bundleSize > 0 && id !in n.world.bundles && HeldIn(n.world, x)
    ensures HeldIn(Send(n, id, address, now, adu, src, dst, lifetime, custody, priority).0.world, x)
  {
    if MaySend(n, src) {
      var h := OutboundHeader(n.eid, n.sequence, now, |adu|, src, dst, lifetime, custody, priority);
      AcceptedSteady(n, id, address, now, h, adu, false);
      AddHolds(n.world, id, NewBundle(h, adu, OutboundRetention(h.custody), address), now, x);
      ForwardHolds(Accepted(n, id, address, now, h, adu), id, x);
    }
  }

  // -------------------------------------------------------------- coalescing

  lemma SwallowHolds<T>(w: World<T>, front: T, back: T, x: T)
    requires front in w.bundles && back in w.bundles && w.bundles[front].adu.Some? && w.bundles[back].adu.Some?
    requires HeldIn(w, x) && x != back
    ensures HeldIn(Swallow(w, front, back), x)
  {
  }

  lemma CoalesceOneHolds<T>(w: World<T>, id: T, it: T, x: T)
    requires id in w.bundles && it in w.bundles && HeldIn(w, x) && x != id && x != it
    ensures HeldIn(CoalesceOne(w, id, it), x)
  {
    if w.bundles[id].adu.Some? && w.bundles[it].adu.Some? {
      CoalesceOneIs(w, id, it);
      SwallowHolds(w, it, id, x);
      SwallowHolds(w, id, it, x);
    }
  }

  lemma {:induction false} CoalesceHolds<T>(w: World<T>, id: T, its: seq<T>, x: T)
    requires id in w.bundles && (forall y :: y in its ==> y in w.bundles) && HeldIn(w, x) && x != id && x !in its
    ensures HeldIn(Coalesce(w, id, its), x)
    decreases |its|
  {
    if its != [] {
      assert its[0] in its && forall y :: y in its[1..] ==> y in its;
      CoalesceOneHolds(w, id, its[0], x);
      CoalesceHolds(CoalesceOne(w, id, its[0]), id, its[1..], x);
    }
  }

  // ----------------------------------------------------------------- signals

  /** Every octet of the ADU of bundle `x` has arrived. */
  ghost predicate AllThere(w: World<Id>, x: Id, got: Octets)
  {
    x in w.bundles && Covers(OctetsOf(got, KeyOf(w.bundles[x].header)), 0, w.bundles[x].header.aduLength)
  }

  lemma AckedAll(w: World<Id>, x: Id, c: CS.Signal, at: NodeId, log: Log, got: Octets)
    requires AllArrived(w, at, log, got) && x in w.bundles && KeyOf(w.bundles[x].header) == SignalKey(c)
    requires c.status == CS.SUCCESS && Truthful(c, got) && AllAcked(Acked(w, x, AckOf(c)), x)
    ensures AllThere(w, x, got)
  {
    AckedArrived(w, x, c, at, log, got);
    var b := Acked(w, x, AckOf(c)).bundles[x];
    assert BundleArrived(b, at, log, got);
    assert (0, b.header.aduLength) in b.acks;
  }

  lemma AckedHolds<T>(w: World<T>, id: T, ack: (nat, nat), x: T)
    requires id in w.bundles && HeldIn(w, x)
    ensures HeldIn(Acked(w, id, ack), x)
  {
  }

  lemma SettledHolds<T>(w: World<T>, id: T, ack: (nat, nat), x: T)
    requires id in w.bundles && StoreKnown(w) && Sound(Acked(w, id, ack)) && HeldIn(Acked(w, id, ack), x) && id != x
    ensures HeldIn(Settled(w, id, ack), x)
  {
    DropHolds(Acked(w, id, ack), id, x);
  }

  lemma OtherSettledHolds(w: World<Id>, id: Id, ack: (nat, nat), x: Id, at: NodeId, log: Log)
    requires WorldOk(w, at, log) && id in w.bundles && HeldIn(w, x) && id != x
    ensures HeldIn(Settled(w, id, ack), x)
  {
    AckedOk(w, id, ack, at, log);
    AckedHolds(w, id, ack, x);
    SettledHolds(w, id, ack, x);
  }

  /** A signal ends the custody of a bundle only if its whole ADU arrived. */
  lemma SignalHolds(w: World<Id>, c: CS.Signal, x: Id, at: NodeId, log: Log, got: Octets)
    requires AllArrived(w, at, log, got) && WorldOk(w, at, log) && Truthful(c, got) && HeldIn(w, x)
    ensures HeldIn(ProcessSignal(w, c), x) || AllThere(w, x, got)
  {
    match Target(w, c)
    case None =>
    case Some(id) =>
      AckedHolds(w, id, AckOf(c), x);
      if id != x {
        OtherSettledHolds(w, id, AckOf(c), x, at, log);
      } else if AllAcked(Acked(w, x, AckOf(c)), x) {
        AckedAll(w, x, c, at, log, got);
      }
  }

  lemma ConsumedHolds(w: World<Id>, id: Id, record: CS.Admin, x: Id, at: NodeId, log: Log, got: Octets)
    requires AllArrived(w, at, log, got) && WorldOk(w, at, log) && id in w.bundles && HeldIn(w, x) && x != id
    requires record.Custody? ==> Truthful(record.signal, got)
    ensures HeldIn(Consumed(w, id, record), x) || AllThere(w, x, got)
  {
    if record.Custody? {
      SignalHolds(w, record.signal, x, at, log, got);
      ProcessSignalOk(w, record.signal, at, log);
      if HeldIn(ProcessSignal(w, record.signal), x) {
        DropHolds(ProcessSignal(w, record.signal), id, x);
      }
    } else {
      DropHolds(w, id, x);
    }
  }

  lemma EnqueuedHolds(n: Node<Id>, id: Id, x: Id, at: NodeId, log: Log, got: Octets)
    requires LandsArrived(n, id, at, log, got) && n.world.bundles[id].header.dst in n.registrations
    requires HeldIn(n.world, x) && x != id
    ensures HeldIn(Enqueued(n, id).world, x) || AllThere(n.world, x, got)
  {
    var b := n.world.bundles[id];
    if Active(n, b.header.dst) {
      EnqueueIs(n.eid, n.world, id);
      if b.header.dst == n.eid {
        ConsumedHolds(n.world, id, CS.ParseAdmin(b.adu.value).value, x, at, log, got);
      } else if b.header.fragment {
        assert BundleOk(n.world.bundles[x], at, log);
        CoalesceHolds(n.world, id, WithKey(n.world.bundles, n.world.store, KeyOf(b.header)), x);
      }
    }
  }

  lemma DispatchHolds(n: Node<Id>, id: Id, signalId: Id, address: nat, now: nat, x: Id,
                      at: NodeId, log: Log, got: Octets)
    requires MayDispatch(n, id, signalId, now, at, log) && LandsArrived(n, id, at, log, got)
    requires HeldIn(n.world, x) && x != id
    ensures HeldIn(Dispatch(n, id, signalId, address, now).0.world, x) || AllThere(n.world, x, got)
  {
    if n.world.bundles[id].header.dst in n.registrations {
      var n1 := Enqueued(n, id);
      EnqueuedMaySignal(n, id, signalId, now, at, log);
      EnqueuedHolds(n, id, x, at, log, got);
      DeliverIs(n, id, signalId, address, now);
      var b := n1.world.bundles[id];
      if b.header.custody && HeldIn(n1.world, x) {
        SendHolds(n1, signalId, address, now, RecordFor(b, now), n1.eid, b.header.cust, b.header.lifetime, false, 0, x);
      }
    } else {
      ForwardHolds(n, id, x);
    }
  }

  lemma TakenSame(n: Node<Id>, e: Step, now: nat, x: Id)
    requires e.Arrive? && MayAct(n, e) && StoreKnown(n.world) && x in n.world.bundles
    ensures Taken(n, PacketOf(e.octets), e.id, e.address, now).world.bundles[x] == n.world.bundles[x]
  {
  }

  lemma ProcessHolds(n: Node<Id>, e: Step, now: nat, x: Id, log: Log, got: Octets)
    requires MayProcess(n, e, now, log) && AllArrived(n.world, e.at, log, got) && Counted(n, e, got)
    requires HeldIn(n.world, x)
    ensures HeldIn(Act(n, e, now).0.world, x) || AllThere(n.world, x, got)
  {
    var n1 := Taken(n, PacketOf(e.octets), e.id, e.address, now);
    AddHolds(n.world, e.id, Arrival(PacketOf(e.octets), e.address), now, x);
    TakenSame(n, e, now, x);
    TakenMayDispatch(n, e, now, log);
    TakenLands(n, e, now, log, got);
    ArriveIs(n, e, now);
    DispatchHolds(n1, e.id, e.signalId, e.address + 1, now, x, e.at, log, got);
  }

  // ------------------------------------------------------------- other steps

  lemma {:induction false} ForwardAllHolds(n: Node<Id>, ids: seq<Id>, x: Id)
    requires Sound(n.world) && n.bundleSize > 0 && Snapshot(n, ids) && HeldIn(n.world, x)
    ensures HeldIn(ForwardAll(n, ids).0.world, x)
    decreases |ids|
  {
    if ids != [] {
      assert HandlesFit(n.world, ids[0]);
      ForwardHolds(n, ids[0], x);
      SnapshotShrinks(n, ids, false);
      ForwardAllHolds(Forward(n, ids[0]).0, ids[1..], x);
    }
  }

  /** The ways a step at the agent can end the custody of bundle `x`. */
  ghost predicate Released(n: Node<Id>, e: Step, x: Id, got: Octets)
  {
    match e
    case Timer(_, event) => event in n.world.pending && n.world.pending[event] == Expiry(x)
    case Fetch(_, eid) => StoreKnown(n.world) && Receive(n, eid).1.Some? && TakenOut(n, eid) == x
    case Arrive(_, _, _, _, _) => AllThere(n.world, x, got)
    case _ => false
  }

  /** Still in custody after the step, or released by it. */
  ghost predicate Holds(n: Node<Id>, e: Step, now: nat, x: Id, got: Octets)
  {
    !e.Clock? && MayAct(n, e) && Faultless(n, e) &&
    (HeldIn(Act(n, e, now).0.world, x) || Released(n, e, x, got))
  }

  lemma ExpireHolds(n: Node<Id>, event: nat, x: Id)
    requires Sound(n.world) && event in n.world.pending && n.world.pending[event].Expiry? && HeldIn(n.world, x)
    ensures n.world.pending[event].bundle in n.world.bundles
    ensures HeldIn(ExpireEvent(n, event).world, x) || n.world.pending[event] == Expiry(x)
  {
    ExpireSound(n.world, event);
    if n.world.pending[event].bundle != x {
      DropHolds(n.world, n.world.pending[event].bundle, x);
    }
  }

  lemma RetransmitHolds(n: Node<Id>, event: nat, x: Id, at: NodeId, log: Log)
    requires NodeOk(n, at, log) && event in n.world.pending && n.world.pending[event].Retransmission?
    requires HeldIn(n.world, x)
    ensures Sendable(n, n.world.pending[event].bundle) && HeldIn(Retransmit(n, event).0.world, x)
  {
    TimedIsWhole(n.world, event, at, log);
    FireSound(n.world, event);
    var w := n.world.(pending := n.world.pending - {event});
    ForwardHolds(n.(world := w), n.world.pending[event].bundle, x);
  }

  lemma ReadyHolds(n: Node<Id>, cla: Cla, x: Id)
    requires Sound(n.world) && n.bundleSize > 0 && HeldIn(n.world, x)
    ensures HeldIn(ClaReady(n, cla).0.world, x)
  {
    WaitingIsSnapshot(n, n.world.store, cla);
    ForwardAllHolds(n, Waiting(n, n.world.store, cla), x);
  }

  lemma FetchHolds(n: Node<Id>, eid: Eid, x: Id)
    requires Sound(n.world) && HeldIn(n.world, x)
    ensures HeldIn(Receive(n, eid).0.world, x) || (Receive(n, eid).1.Some? && TakenOut(n, eid) == x)
  {
    match FirstFor(n.world.bundles, n.world.store, eid, false)
    case None =>
    case Some(id) =>
      if id != x {
        DropHolds(n.world, id, x);
      }
  }

  lemma SubmitHolds(n: Node<Id>, e: Step, now: nat, x: Id, log: Log, got: Octets)
    requires Ready(n, e, now, log) && e.Submit? && HeldIn(n.world, x)
    ensures Holds(n, e, now, x, got)
  {
    SendHolds(n, e.id, e.address, now, e.adu, e.src, e.dst, e.lifetime, e.custody, e.priority, x);
  }

  lemma ArriveHolds(n: Node<Id>, e: Step, now: nat, x: Id, log: Log, got: Octets, agents: set<Eid>)
    requires SafeReady(n, e, now, log, got, agents) && e.Arrive? && HeldIn(n.world, x)
    ensures Holds(n, e, now, x, ArrivedAfter(n, e, got))
  {
    var log', got' := LogAfter(n, e, now, log), ArrivedAfter(n, e, got);
    ArriveLog(n, e, now, log);
    MoreArrived(n, e, got);
    CountedHere(n, e, now, log, got, agents);
    MayProcessHere(n, e, now, log);
    ArrivedGrows(n.world, e.at, log, got, log', got');
    ProcessHolds(n, e, now, x, log', got');
  }

  lemma TimerHolds(n: Node<Id>, e: Step, now: nat, x: Id, log: Log, got: Octets)
    requires Ready(n, e, now, log) && e.Timer? && HeldIn(n.world, x)
    ensures Holds(n, e, now, x, got)
  {
    if n.world.pending[e.event].Expiry? {
      ExpireHolds(n, e.event, x);
    } else {
      RetransmitHolds(n, e.event, x, e.at, log);
    }
  }

  lemma AdapterActs(n: Node<Id>, e: Step, now: nat, log: Log)
    requires Ready(n, e, now, log) && e.AdapterReady?
    ensures !e.Clock? && MayAct(n, e) && Faultless(n, e) && Act(n, e, now).0.world == ClaReady(n, e.cla).0.world
  {
  }

  lemma AdapterHolds(n: Node<Id>, e: Step, now: nat, x: Id, log: Log, got: Octets)
    requires Ready(n, e, now, log) && e.AdapterReady? && HeldIn(n.world, x)
    ensures Holds(n, e, now, x, got)
  {
    AdapterActs(n, e, now, log);
    ReadyHolds(n, e.cla, x);
  }

  lemma FetchActs(n: Node<Id>, e: Step, now: nat, log: Log)
    requires Ready(n, e, now, log) && e.Fetch?
    ensures !e.Clock? && MayAct(n, e) && Faultless(n, e) && Act(n, e, now).0.world == Receive(n, e.eid).0.world
  {
  }

  lemma ReceiveHolds(n: Node<Id>, e: Step, now: nat, x: Id, log: Log, got: Octets)
    requires Ready(n, e, now, log) && e.Fetch? && HeldIn(n.world, x)
    ensures Holds(n, e, now, x, got)
  {
    FetchActs(n, e, now, log);
    FetchHolds(n, e.eid, x);
  }

  lemma ConfigureActs(n: Node<Id>, e: Step, now: nat, log: Log)
    requires Ready(n, e, now, log) && e.Configure?
    ensures !e.Clock? && MayAct(n, e) && Faultless(n, e) && Act(n, e, now).0.world == n.world
  {
  }

  lemma ConfigureHolds(n: Node<Id>, e: Step, now: nat, x: Id, log: Log, got: Octets)
    requires Ready(n, e, now, log) && e.Configure? && HeldIn(n.world, x)
    ensures Holds(n, e, now, x, got)
  {
    ConfigureActs(n, e, now, log);
  }

  lemma ActHolds(n: Node<Id>, e: Step, now: nat, x: Id, log: Log, got: Octets, agents: set<Eid>)
    requires SafeReady(n, e, now, log, got, agents) && HeldIn(n.world, x)
    ensures Holds(n, e, now, x, ArrivedAfter(n, e, got))
  {
    match e
    case Submit(_, _, _, _, _, _, _, _, _) => SubmitHolds(n, e, now, x, log, got);
    case Arrive(_, _, _, _, _) => ArriveHolds(n, e, now, x, log, got, agents);
    case Timer(_, _) => TimerHolds(n, e, now, x, log, got);
    case AdapterReady(_, _) => AdapterHolds(n, e, now, x, log, got);
    case Fetch(_, _) => ReceiveHolds(n, e, now, x, log, got);
    case Configure(_, _, _, _, _) => ConfigureHolds(n, e, now, x, log, got);
  }

  ghost predicate HeldAt(s: Net, at: NodeId, x: Id)
  {
    at in s.nodes && HeldIn(s.nodes[at].world, x)
  }

  lemma HereHolds(s: Net, e: Step, x: Id, agents: set<Eid>)
    requires Safe(s, agents) && DirectStep(s, e) && Disciplined(e, agents) && !e.Clock? && HeldAt(s, e.at, x)
    ensures Holds(s.nodes[e.at], e, s.now, x, ArrivedAfter(s.nodes[e.at], e, s.arrived))
  {
    SafeReadyHere(s, e, agents);
    ActHolds(s.nodes[e.at], e, s.now, x, s.log, s.arrived, agents);
  }

  /** The step is at the agent and ends the custody of `x`. */
  ghost predicate ReleasedBy(s: Net, e: Step, s': Net, at: NodeId, x: Id)
  {
    !e.Clock? && e.at == at && at in s.nodes && Released(s.nodes[at], e, x, s'.arrived)
  }

  lemma StepHoldsHere(s: Net, e: Step, s': Net, x: Id)
    requires !e.Clock? && Goes(s, e, s') && Holds(s.nodes[e.at], e, s.now, x, ArrivedAfter(s.nodes[e.at], e, s.arrived))
    ensures HeldAt(s', e.at, x) || ReleasedBy(s, e, s', e.at, x)
  {
    NextIs(s, e);
  }

  lemma StepHoldsElsewhere(s: Net, e: Step, s': Net, at: NodeId, x: Id)
    requires Goes(s, e, s') && HeldAt(s, at, x) && (e.Clock? || e.at != at)
    ensures HeldAt(s', at, x)
  {
    if !e.Clock? {
      NextIs(s, e);
    }
  }

  lemma StepHolds(s: Net, e: Step, s': Net, at: NodeId, x: Id, agents: set<Eid>)
    requires Safe(s, agents) && DirectStep(s, e) && Disciplined(e, agents) && HeldAt(s, at, x) && Goes(s, e, s')
    ensures HeldAt(s', at, x) || ReleasedBy(s, e, s', at, x)
  {
    if e.Clock? || e.at != at {
      StepHoldsElsewhere(s, e, s', at, x);
    } else {
      HereHolds(s, e, x, agents);
      StepHoldsHere(s, e, s', x);
    }
  }

  /** Custody safety: in every run over a direct channel whose applications do
      not address the agents' own endpoints, a step after which a bundle is no
      longer stored in custody is its expiry, a `Receive` on its own agent that
      takes it out, or an arrival after which every octet of its ADU has reached
      an agent where its destination is registered. */
  lemma CustodySafe(states: seq<Net>, steps: seq<Step>, i: nat, at: NodeId, x: Id)
    requires DisciplinedRun(states, steps) && i < |steps| && HeldAt(states[i], at, x)
    ensures HeldAt(states[i + 1], at, x) || ReleasedBy(states[i], steps[i], states[i + 1], at, x)
  {
    RunKeepsSafe(states, steps, i);
    assert Goes(states[i], steps[i], states[i + 1]);
    assert DirectStep(states[i], steps[i]) && Disciplined(steps[i], Agents(states[0]));
    StepHolds(states[i], steps[i], states[i + 1], at, x, Agents(states[0]));
  }
}
