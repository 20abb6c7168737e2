/**
 Runs of any number of agents over a channel that loses, duplicates and
 reorders. The channel is the set of all octet strings ever sent: an arrival
 takes any of them, any number of times and in any order, and one that never
 arrives is lost. Arriving octets are decoded as the adapter decodes them.

 `log` and `arrived` are history: what was given to `Send` under each key, and
 which octets of it reached an agent where its destination is registered.
 */
module Network {
  import opened Bytes
  import opened Bundles
  import opened Agent
  import Endpoint
  import Wire6

  type NodeId = nat
  type Id = nat

  datatype Original = Original(adu: seq<byte>, dst: Eid, at: NodeId)

  datatype Net = Net(
    nodes: map<NodeId, Node<Id>>, channel: set<seq<byte>>, now: nat,
    log: Log, arrived: Octets)

  /** What was given to `Send`, and which octets arrived, by key. */
  type Log = map<Key, Original>
  type Octets = map<Key, set<nat>>

  datatype Step =
    | Submit(at: NodeId, id: Id, address: nat, adu: seq<byte>, src: Eid, dst: Eid,
             lifetime: nat, custody: bool, priority: nat)
    | Arrive(at: NodeId, octets: seq<byte>, id: Id, signalId: Id, address: nat)
    | Timer(at: NodeId, event: nat)
    | AdapterReady(at: NodeId, cla: Cla)
    | Fetch(at: NodeId, eid: Eid)
    | Configure(at: NodeId, registrations: map<Eid, bool>, routes: map<Eid, seq<Route>>,
                ready: set<Cla>, bundleSize: nat)
    | Clock(now: nat)

  // --------------------------------------------------------------- one step

  function Emit(channel: set<seq<byte>>, packets: seq<Packet>): set<seq<byte>>
  {
    channel + set p | p in packets && Wire6.Sendable6(p) :: Wire6.Encode(p)
  }

  function Span(from: nat, to: nat): (r: set<nat>)
    ensures forall i :: (i in r <==> from <= i < to)
    decreases if from < to then to - from else 0
  {
    if from >= to then {} else {from} + Span(from + 1, to)
  }

  function OctetsOf(got: Octets, key: Key): set<nat>
  {
    if key in got then got[key] else {}
  }

  function PacketOf(octets: seq<byte>): Packet
    requires Wire6.Decode(octets).Some?
  {
    Wire6.Decode(octets).value
  }

  /** What the environment can make an agent do: names of new objects are new,
      events that run are pending, packets are complete, values fit their types. */
  predicate MayAct(n: Node<Id>, e: Step)
  {
    match e
    case Submit(_, id, _, adu, src, dst, lifetime, _, priority) =>
      id !in n.world.bundles && |adu| < TWO32 && Endpoint.ValidUri(src) && Endpoint.ValidUri(dst) &&
      lifetime / SECOND < TWO64 && priority < 4
    case Arrive(_, octets, id, signalId, _) =>
      Wire6.Decode(octets).Some? && id != signalId && id !in n.world.bundles && signalId !in n.world.bundles
    case Timer(_, event) => event in n.world.pending
    case Configure(_, _, _, _, bundleSize) => 0 < bundleSize < Wire6.PAYLOAD_LIMIT
    case _ => true
  }

  predicate Possible(s: Net, e: Step)
  {
    if e.Clock? then s.now <= e.now && e.now / SECOND < TWO32
    else e.at in s.nodes && MayAct(s.nodes[e.at], e) && (e.Arrive? ==> e.octets in s.channel)
  }

  /** The agent divides by no bundle size of 0, follows no pointer that disposing
      of a bundle has cleared, and reads no packet past its end. */
  predicate Faultless(n: Node<Id>, e: Step)
    requires MayAct(n, e)
  {
    StoreKnown(n.world) && n.bundleSize > 0 &&
    match e
    case Arrive(_, octets, _, _, address) =>
      Active(n, PacketOf(octets).header.dst) ==> Readable(n.eid, Arrival(PacketOf(octets), address))
    case Timer(_, event) =>
      n.world.pending[event].bundle in n.world.bundles &&
      (n.world.pending[event].Retransmission? ==> Sendable(n, n.world.pending[event].bundle))
    case _ => true
  }

  /** The agent after the step, and the packets it sends. */
  function Act(n: Node<Id>, e: Step, now: nat): (Node<Id>, seq<Packet>)
    requires !e.Clock? && MayAct(n, e) && Faultless(n, e)
  {
    match e
    case Submit(_, id, address, adu, src, dst, lifetime, custody, priority) =>
      var (n', packets, _) := Send(n, id, address, now, adu, src, dst, lifetime, custody, priority);
      (n', packets)
    case Arrive(_, octets, id, signalId, address) => Process(n, PacketOf(octets), id, signalId, address, now)
    case Timer(_, event) =>
      if n.world.pending[event].Expiry? then (ExpireEvent(n, event), []) else Retransmit(n, event)
    case AdapterReady(_, cla) => ClaReady(n, cla)
    case Fetch(_, eid) => (Receive(n, eid).0, [])
    case Configure(_, registrations, routes, ready, bundleSize) =>
      (n.(registrations := registrations, routes := routes, ready := ready, bundleSize := bundleSize), [])
  }

  // ----------------------------------------------------------------- history

  /** The key under which agent `n` sends next, with source `src`. */
  function NextKey(n: Node<Id>, src: Eid, now: nat): Key
  {
    Key(src, now / SECOND, n.sequence)
  }

  /** The delivered bundle as its custody signal is made from it. */
  function Delivered(n: Node<Id>, e: Step, now: nat): Bundle
    requires e.Arrive? && MayAct(n, e) && Faultless(n, e)
  {
    Enqueued(Taken(n, PacketOf(e.octets), e.id, e.address, now), e.id).world.bundles[e.id]
  }

  /** The ADU of the custody signal an arrival gives rise to. */
  function SignalOf(n: Node<Id>, e: Step, now: nat): Original
    requires e.Arrive? && MayAct(n, e) && Faultless(n, e)
  {
    Original(RecordFor(Delivered(n, e, now), now), PacketOf(e.octets).header.cust, e.at)
  }

  /** A custody signal is due for the packet, and the agent may send it. */
  predicate Signals(n: Node<Id>, p: Packet)
  {
    p.header.dst in n.registrations && p.header.custody && MaySend(n, n.eid)
  }

  /** What the step gives to `Send` and under which key: an application's ADU,
      or the agent's own custody signal. */
  function SendsUnder(n: Node<Id>, e: Step, now: nat): Option<(Key, Original)>
    requires MayAct(n, e) && Faultless(n, e)
  {
    match e
    case Submit(at, _, _, adu, src, dst, _, _, _) =>
      if MaySend(n, src) then Some((NextKey(n, src, now), Original(adu, dst, at))) else None
    case Arrive(_, octets, _, _, _) =>
      if Signals(n, PacketOf(octets)) then Some((NextKey(n, n.eid, now), SignalOf(n, e, now))) else None
    case _ => None
  }

  function LogAfter(n: Node<Id>, e: Step, now: nat, log: Log): Log
    requires MayAct(n, e) && Faultless(n, e)
  {
    match SendsUnder(n, e, now)
    case None => log
    case Some((key, original)) => log[key := original]
  }

  function WithArrived(got: Octets, p: Packet): Octets
  {
    var key := KeyOf(p.header);
    got[key := OctetsOf(got, key) + Span(p.header.offset, p.header.offset + |p.payload|)]
  }

  function ArrivedAfter(n: Node<Id>, e: Step, got: Octets): Octets
    requires MayAct(n, e)
  {
    if e.Arrive? && PacketOf(e.octets).header.dst in n.registrations then WithArrived(got, PacketOf(e.octets)) else got
  }

  function Next(s: Net, e: Step): Net
    requires Possible(s, e) && (!e.Clock? ==> Faultless(s.nodes[e.at], e))
  {
    if e.Clock? then s.(now := e.now)
    else
      var n := s.nodes[e.at];
      var (n', packets) := Act(n, e, s.now);
      Net(s.nodes[e.at := n'], Emit(s.channel, packets), s.now, LogAfter(n, e, s.now, s.log),
          ArrivedAfter(n, e, s.arrived))
  }

  // ------------------------------------------------------------------- runs

  predicate Blank(n: Node<Id>)
  {
    n.world == World(map[], [], 0, 0, map[], 0) && 0 < n.bundleSize < Wire6.PAYLOAD_LIMIT &&
    n.sequence == 0 && Endpoint.ValidUri(n.eid)
  }

  predicate Initial(s: Net)
  {
    s.channel == {} && s.log == map[] && s.arrived == map[] && s.now / SECOND < TWO32 &&
    forall at :: at in s.nodes ==> Blank(s.nodes[at])
  }

  /** `states[i]` goes to `states[i + 1]` by `steps[i]`. */
  ghost predicate Run(states: seq<Net>, steps: seq<Step>)
  {
    |states| == |steps| + 1 && Initial(states[0]) &&
    forall i :: 0 <= i < |steps| ==> Goes(states[i], steps[i], states[i + 1])
  }

  ghost predicate Goes(s: Net, e: Step, s': Net)
  {
    Possible(s, e) && (!e.Clock? ==> Faultless(s.nodes[e.at], e)) && s' == Next(s, e)
  }

  // ----------------------------------------------------- conditions on runs

  /** No key is used twice: not by two agents sending with one source endpoint,
      nor by one agent after 2^32 ADUs in one second. */
  predicate FreshKey(n: Node<Id>, e: Step, now: nat, log: Log)
    requires MayAct(n, e) && Faultless(n, e)
  {
    SendsUnder(n, e, now).Some? ==> SendsUnder(n, e, now).value.0 !in log
  }

  /** A direct channel: an agent is not sent its own ADUs for delivery, and no
      fragment reaches an agent that would have to relay it. */
  predicate Direct(n: Node<Id>, e: Step, log: Log)
    requires MayAct(n, e)
  {
    e.Arrive? ==>
      var h := PacketOf(e.octets).header;
      if h.dst in n.registrations then KeyOf(h) in log ==> log[KeyOf(h)].at != e.at
      else !h.fragment
  }
}
