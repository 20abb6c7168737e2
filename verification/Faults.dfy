/**
 No faults: in a run over a direct channel whose bundle sizes leave room for the
 custody signals, no step follows a pointer that disposing of a bundle has cleared
 or reads a packet past its end, so that such runs never break off.
 */
module Faults {
  import opened Bytes
  import opened Bundles
  import opened Agent
  import opened Custodial
  import opened Drain
  import opened Network
  import opened Integrity
  import opened EndToEnd
  import opened CustodySafety
  import CS = CustodySignal
  import Wire6

  /** A packet is a fragment only of an ADU larger than the bundle size. */
  ghost predicate CutOnlyBig(packets: seq<Packet>, log: Log, bundleSize: nat)
  {
    forall p :: p in packets && p.header.fragment ==>
      KeyOf(p.header) in log && |log[KeyOf(p.header)].adu| > bundleSize
  }

  lemma {:induction false} SlicesBig(h: Header, adu: seq<byte>, bundleSize: nat, left: nat, log: Log)
    requires left <= |adu| && bundleSize > 0 && KeyOf(h) in log && log[KeyOf(h)].adu == adu
    ensures CutOnlyBig(SendSlices(h, adu, bundleSize, left).1, log, bundleSize)
    decreases left
  {
    if left != 0 {
      SlicesBig(SliceHeader(h, |adu|, bundleSize, left), adu, bundleSize, left - SliceSize(bundleSize, left), log);
    }
  }

  lemma ForwardBig(n: Node<Id>, id: Id, log: Log)
    requires Sendable(n, id) && IsWhole(n.world.bundles[id], log)
    ensures CutOnlyBig(Forward(n, id).1, log, n.bundleSize)
  {
    var w := MarkForward(n.world, id);
    ForwardIs(n, id);
    if CanForward(n, w.bundles[id].header.dst) {
      var b := w.bundles[id];
      PacketsOfTransmit(w, id, n.bundleSize);
      SlicesBig(b.header, b.adu.value, n.bundleSize, |b.adu.value|, log);
    }
  }

  lemma SendBig(n: Node<Id>, id: Id, address: nat, now: nat, adu: seq<byte>, src: Eid, dst: Eid,
                lifetime: nat, custody: bool, priority: nat, log: Log)
    requires n.bundleSize > 0 && StoreKnown(n.world)
    requires MaySend(n, src) ==> NextKey(n, src, now) in log && log[NextKey(n, src, now)].adu == adu
    ensures CutOnlyBig(Send(n, id, address, now, adu, src, dst, lifetime, custody, priority).1, log, n.bundleSize)
  {
    if MaySend(n, src) {
      var h := OutboundHeader(n.eid, n.sequence, now, |adu|, src, dst, lifetime, custody, priority);
      ForwardBig(Accepted(n, id, address, now, h, adu), id, log);
    }
  }

  lemma DispatchBig(n: Node<Id>, id: Id, signalId: Id, address: nat, now: nat, at: NodeId, log: Log)
    requires MayDispatch(n, id, signalId, now, at, log)
    ensures CutOnlyBig(Dispatch(n, id, signalId, address, now).1, log, n.bundleSize)
  {
    if n.world.bundles[id].header.dst in n.registrations {
      var n1 := Enqueued(n, id);
      EnqueuedMaySignal(n, id, signalId, now, at, log);
      DeliverIs(n, id, signalId, address, now);
      var b := n1.world.bundles[id];
      if b.header.custody {
        SendBig(n1, signalId, address, now, RecordFor(b, now), n1.eid, b.header.cust, b.header.lifetime, false, 0, log);
      }
    } else {
      ForwardBig(n, id, log);
    }
  }

  lemma ProcessBig(n: Node<Id>, e: Step, now: nat, log: Log)
    requires MayProcess(n, e, now, log)
    ensures CutOnlyBig(Act(n, e, now).1, log, n.bundleSize)
  {
    TakenMayDispatch(n, e, now, log);
    ArriveIs(n, e, now);
    DispatchBig(Taken(n, PacketOf(e.octets), e.id, e.address, now), e.id, e.signalId, e.address + 1, now, e.at, log);
  }

  lemma {:induction false} ForwardAllBig(n: Node<Id>, ids: seq<Id>, at: NodeId, log: Log)
    requires NodeOk(n, at, log) && Snapshot(n, ids)
    ensures CutOnlyBig(ForwardAll(n, ids).1, log, n.bundleSize)
    decreases |ids|
  {
    if ids != [] {
      WaitingIsWhole(n.world, ids[0], at, log);
      ForwardBig(n, ids[0], log);
      ForwardOk(n, ids[0], at, log);
      SnapshotShrinks(n, ids, false);
      ForwardAllBig(Forward(n, ids[0]).0, ids[1..], at, log);
    }
  }

  lemma RetransmitBig(n: Node<Id>, e: Step, now: nat, log: Log)
    requires Ready(n, e, now, log) && e.Timer? && n.world.pending[e.event].Retransmission?
    ensures CutOnlyBig(Act(n, e, now).1, log, n.bundleSize)
  {
    RetransmissionIs(n, e, now);
    TimedIsWhole(n.world, e.event, e.at, log);
    var w := n.world.(pending := n.world.pending - {e.event});
    ForwardBig(n.(world := w), n.world.pending[e.event].bundle, log);
  }

  lemma ActBig(n: Node<Id>, e: Step, now: nat, log: Log)
    requires Ready(n, e, now, log)
    ensures CutOnlyBig(Act(n, e, now).1, LogAfter(n, e, now, log), n.bundleSize)
  {
    match e
    case Submit(_, id, address, adu, src, dst, lifetime, custody, priority) =>
      SendBig(n, id, address, now, adu, src, dst, lifetime, custody, priority, LogAfter(n, e, now, log));
    case Arrive(_, _, _, _, _) =>
      MayProcessHere(n, e, now, log);
      ProcessBig(n, e, now, LogAfter(n, e, now, log));
    case Timer(_, event) =>
      if n.world.pending[event].Retransmission? {
        RetransmitBig(n, e, now, log);
      }
    case AdapterReady(_, cla) =>
      WaitingIsSnapshot(n, n.world.store, cla);
      ForwardAllBig(n, Waiting(n, n.world.store, cla), e.at, log);
    case _ =>
  }

  // -------------------------------------------------------------- the channel

  /** What is logged for an agent's own endpoint is a record that parses and
      leaves its source at most `name` octets; no source is longer. */
  ghost predicate RecordLog(log: Log, agents: set<Eid>, name: nat)
  {
    forall key :: key in log ==> |key.src| <= name && (log[key].dst in agents ==> ShortRecord(log[key].adu, name))
  }

  predicate ShortRecord(adu: seq<byte>, name: nat)
  {
    |adu| <= name + SIGNAL_ROOM && CS.ParseAdmin(adu).Some?
  }

  ghost predicate WholeIn(w: seq<byte>, agents: set<Eid>)
  {
    Wire6.Decode(w).Some? && Wire6.Decode(w).value.header.dst in agents ==> !Wire6.Decode(w).value.header.fragment
  }

  /** Nothing for an agent's own endpoint is in pieces. */
  ghost predicate WholeRecords(channel: set<seq<byte>>, agents: set<Eid>)
  {
    forall w :: w in channel ==> WholeIn(w, agents)
  }

  lemma PacketWhole(p: Packet, packets: seq<Packet>, log: Log, bundleSize: nat, agents: set<Eid>, name: nat)
    requires p in packets && PacketsOk(packets, log) && CutOnlyBig(packets, log, bundleSize)
    requires RecordLog(log, agents, name) && bundleSize >= name + SIGNAL_ROOM
    ensures Wire6.Sendable6(p) && WholeIn(Wire6.Encode(p), agents)
  {
    assert PacketOk(p, log);
    Wire6.RoundTrip(p);
  }

  lemma EmitWhole(channel: set<seq<byte>>, packets: seq<Packet>, log: Log, bundleSize: nat, agents: set<Eid>, name: nat)
    requires WholeRecords(channel, agents) && PacketsOk(packets, log) && CutOnlyBig(packets, log, bundleSize)
    requires RecordLog(log, agents, name) && bundleSize >= name + SIGNAL_ROOM
    ensures WholeRecords(Emit(channel, packets), agents)
  {
    forall w | w in Emit(channel, packets) ensures WholeIn(w, agents) {
      if w !in channel {
        var p :| p in packets && Wire6.Sendable6(p) && w == Wire6.Encode(p);
        PacketWhole(p, packets, log, bundleSize, agents, name);
      }
    }
  }

  lemma SignalParses(n: Node<Id>, e: Step, now: nat, log: Log, agents: set<Eid>, name: nat)
    requires Ready(n, e, now, log) && e.Arrive? && PacketOf(e.octets).header.dst in n.registrations
    requires RecordLog(log, agents, name)
    ensures ShortRecord(SignalOf(n, e, now).adu, name)
  {
    var b := Delivered(n, e, now);
    DeliveredHeader(n, e, now, log);
    SignalRanges(b, now, e.at, log);
    CS.RecordRoundTrip(SignalFor(b, now), b.header.fragment);
    assert KeyOf(b.header) in log;
  }

  lemma RecordAdded(log: Log, key: Key, original: Original, agents: set<Eid>, name: nat)
    requires RecordLog(log, agents, name) && |key.src| <= name
    requires original.dst in agents ==> ShortRecord(original.adu, name)
    ensures RecordLog(log[key := original], agents, name)
  {
  }

  /** No endpoint that sends has a longer text. */
  predicate ShortNames(n: Node<Id>, e: Step, name: nat)
  {
    |n.eid| <= name && (e.Submit? ==> |e.src| <= name)
  }

  lemma RecordLogGrows(n: Node<Id>, e: Step, now: nat, log: Log, agents: set<Eid>, name: nat)
    requires Ready(n, e, now, log) && RecordLog(log, agents, name) && Disciplined(e, agents) && ShortNames(n, e, name)
    ensures RecordLog(LogAfter(n, e, now, log), agents, name)
  {
    var sends := SendsUnder(n, e, now);
    if sends.Some? {
      if e.Arrive? {
        SignalParses(n, e, now, log, agents, name);
      }
      RecordAdded(log, sends.value.0, sends.value.1, agents, name);
    }
  }

  // -------------------------------------------------------------------- runs

  /** Every agent's bundles have room for a custody signal, and no endpoint that
      sends has a text of more than `name` octets. */
  ghost predicate Roomy(s: Net, name: nat)
  {
    forall at :: at in s.nodes ==> |s.nodes[at].eid| <= name && s.nodes[at].bundleSize >= name + SIGNAL_ROOM
  }

  ghost predicate RoomyRun(states: seq<Net>, steps: seq<Step>, name: nat)
  {
    (forall j :: 0 <= j < |states| ==> Roomy(states[j], name)) &&
    forall j :: 0 <= j < |steps| && steps[j].Submit? ==> |steps[j].src| <= name
  }

  ghost predicate Sturdy(s: Net, agents: set<Eid>, name: nat)
  {
    Inv(s) && RecordLog(s.log, agents, name) && WholeRecords(s.channel, agents)
  }

  lemma StepKeepsSturdy(s: Net, e: Step, agents: set<Eid>, name: nat)
    requires Sturdy(s, agents, name) && Roomy(s, name) && DirectStep(s, e) && Disciplined(e, agents)
    requires e.Submit? ==> |e.src| <= name
    ensures Sturdy(Next(s, e), agents, name)
  {
    StepKeepsInv(s, e);
    if !e.Clock? {
      ActSturdy(s, e, agents, name);
      NextIs(s, e);
    }
  }

  lemma ActSturdy(s: Net, e: Step, agents: set<Eid>, name: nat)
    requires Sturdy(s, agents, name) && Roomy(s, name) && DirectStep(s, e) && Disciplined(e, agents) && !e.Clock?
    requires e.Submit? ==> |e.src| <= name
    ensures RecordLog(LogAfter(s.nodes[e.at], e, s.now, s.log), agents, name)
    ensures WholeRecords(Emit(s.channel, Act(s.nodes[e.at], e, s.now).1), agents)
  {
    var n := s.nodes[e.at];
    ReadyHere(s, e);
    RecordLogGrows(n, e, s.now, s.log, agents, name);
    ActKeepsOk(n, e, s.now, s.log);
    ActBig(n, e, s.now, s.log);
    EmitWhole(s.channel, Act(n, e, s.now).1, LogAfter(n, e, s.now, s.log), n.bundleSize, agents, name);
  }

  lemma {:induction false} RunKeepsSturdy(states: seq<Net>, steps: seq<Step>, name: nat, i: nat)
    requires DisciplinedRun(states, steps) && RoomyRun(states, steps, name) && i <= |steps|
    ensures Sturdy(states[i], Agents(states[0]), name)
  {
    if i == 0 {
      InitialInv(states[0]);
    } else {
      RunKeepsSturdy(states, steps, name, i - 1);
      assert Goes(states[i - 1], steps[i - 1], states[i]);
      assert DirectStep(states[i - 1], steps[i - 1]) && Disciplined(steps[i - 1], Agents(states[0]));
      StepKeepsSturdy(states[i - 1], steps[i - 1], Agents(states[0]), name);
    }
  }

  /** The run's agents keep their endpoints. */
  lemma {:induction false} EidsStay(states: seq<Net>, steps: seq<Step>, i: nat, at: NodeId)
    requires DisciplinedRun(states, steps) && i <= |steps| && at in states[i].nodes
    ensures states[i].nodes[at].eid in Agents(states[0])
  {
    RunKeepsSafe(states, steps, i);
    assert SafeNode(states[i].nodes[at], at, states[i].log, states[i].arrived, Agents(states[0]));
  }

  lemma ArrivalReadable(n: Node<Id>, e: Step, log: Log, agents: set<Eid>, name: nat)
    requires e.Arrive? && MayAct(n, e) && PacketOk(PacketOf(e.octets), log) && RecordLog(log, agents, name)
    requires n.eid in agents && WholeIn(e.octets, agents)
    ensures Readable(n.eid, Arrival(PacketOf(e.octets), e.address))
  {
    var p := PacketOf(e.octets);
    if p.header.dst == n.eid {
      ArrivalOk(p, e.address, e.at, log);
    }
  }

  /** No step that can be taken after such a run is at fault: with endpoint texts
      of at most `name` octets a bundle size of `name` + 32 is enough. */
  lemma NoFault(states: seq<Net>, steps: seq<Step>, e: Step, name: nat)
    requires DisciplinedRun(states, steps) && RoomyRun(states, steps, name)
    requires Possible(states[|steps|], e) && !e.Clock?
    ensures Faultless(states[|steps|].nodes[e.at], e)
  {
    var s, agents := states[|steps|], Agents(states[0]);
    RunKeepsSturdy(states, steps, name, |steps|);
    assert NodeOk(s.nodes[e.at], e.at, s.log);
    if e.Arrive? {
      EidsStay(states, steps, |steps|, e.at);
      ArrivalReadable(s.nodes[e.at], e, s.log, agents, name);
    } else {
      TimersAreFaultless(s.nodes[e.at], e, s.log);
    }
  }

  // ------------------------------------------------------- too small a bundle

  lemma {:induction false} SlicesFlag(h: Header, adu: seq<byte>, size: nat, left: nat)
    requires left <= |adu| && size > 0
    ensures forall p :: p in SendSlices(h, adu, size, left).1 ==> (p.header.fragment <==> |adu| > size)
    ensures forall p :: p in SendSlices(h, adu, size, left).1 ==> p.header.dst == h.dst
    decreases left
  {
    if left != 0 {
      SlicesFlag(SliceHeader(h, |adu|, size, left), adu, size, left - SliceSize(size, left));
    }
  }

  /** The arrival of packet `p` at an agent that delivers to its own endpoint. */
  ghost predicate ArrivesHome(n: Node<Id>, e: Step, p: Packet)
  {
    StoreKnown(n.world) && n.bundleSize > 0 && Active(n, n.eid) && e.Arrive? && MayAct(n, e) &&
    Wire6.Sendable6(p) && p.header.dst == n.eid && e.octets == Wire6.Encode(p)
  }

  lemma HomeIs(n: Node<Id>, e: Step, p: Packet)
    requires ArrivesHome(n, e, p)
    ensures Faultless(n, e) <==> !p.header.fragment && CS.ParseAdmin(p.payload).Some?
  {
    Wire6.RoundTrip(p);
  }

  /** A custody signal sent with bundle size `size`: its arrival is not at fault
      exactly when the record fits one bundle. Otherwise each of its packets is a
      fragment, which the agent takes for a record, disposes of and then still
      tries to coalesce. */
  lemma SignalArrival(n: Node<Id>, e: Step, h: Header, c: CS.Signal, fragment: bool, size: nat, p: Packet)
    requires CS.Ranges(c) && size > 0 && h.dst == n.eid && ArrivesHome(n, e, p)
    requires var record := CS.Record(c, fragment); p in SendSlices(h, record, size, |record|).1
    ensures Faultless(n, e) <==> |CS.Record(c, fragment)| <= size
  {
    var record := CS.Record(c, fragment);
    SlicesFlag(h, record, size, |record|);
    HomeIs(n, e, p);
    if |record| <= size {
      WholeSlice(h, record, size, p);
      CS.RecordRoundTrip(c, fragment);
    }
  }

  lemma WholeSlice(h: Header, adu: seq<byte>, size: nat, p: Packet)
    requires 0 < |adu| <= size && p in SendSlices(h, adu, size, |adu|).1
    ensures p.payload == adu
  {
    assert adu[0..|adu|] == adu;
    assert SendSlices(SliceHeader(h, |adu|, size, |adu|), adu, size, 0).1 == [];
  }
}
