/**
 The version 6 agent's operations as functions from the state before to the
 state after and the packets handed to the convergence layer
 (bp/model/bp-agent-6.cc, bp/model/bp-agent.cc, bp/model/bp-static-routing-agent.cc).
 Class `BpAgent6` proves its methods equal to these functions.
 */
module Agent {
  import opened Bytes
  import opened Bundles
  import CS = CustodySignal
  import Endpoint

  type Cla = nat

  datatype Route = Route(nextHop: Eid, up: bool, cla: Option<Cla>, note: string)

  /** What the convergence layer sends: header fields and a slice of an ADU. */
  datatype Packet = Packet(header: Header, payload: seq<byte>)

  /** `registrations` maps a registered endpoint to its active state; `ready`
      are the adapters whose `IsReady` answers true. */
  datatype Node<Id(==)> = Node(
    eid: Eid, registrations: map<Eid, bool>, routes: map<Eid, seq<Route>>, ready: set<Cla>,
    bundleSize: nat, sequence: nat, world: World<Id>, bundlesDelivered: nat, bytesDelivered: nat)

  // -------------------------------------------------------------- routing

  function FirstUp(routes: seq<Route>): Option<Route>
  {
    if routes == [] then None else if routes[0].up then Some(routes[0]) else FirstUp(routes[1..])
  }

  function LookUp(routes: map<Eid, seq<Route>>, eid: Eid): Option<Route>
  {
    if eid in routes then FirstUp(routes[eid]) else None
  }

  /** `BpAgent::OutgoingCla`: the next hop's endpoint is routed once more. */
  function OutgoingCla(routes: map<Eid, seq<Route>>, dst: Eid): Option<Cla>
  {
    match LookUp(routes, dst)
    case None => None
    case Some(r) =>
      if r.nextHop == Endpoint.DtnNone then None
      else match LookUp(routes, r.nextHop)
           case None => None
           case Some(r') => r'.cla
  }

  predicate CanForward<Id(==)>(n: Node<Id>, dst: Eid)
  {
    OutgoingCla(n.routes, dst).Some? && OutgoingCla(n.routes, dst).value in n.ready
  }

  // ----------------------------------------------------------- forwarding

  function SliceSize(bundleSize: nat, left: nat): nat
  {
    if left < bundleSize then left else bundleSize
  }

  /** The header fields one turn of the sending loop sets: `total` octets in
      all, `left` of them not sent yet. */
  function SliceHeader(h: Header, total: nat, bundleSize: nat, left: nat): Header
    requires left <= total
  {
    h.(blockLength := SliceSize(bundleSize, left), fragment := total > bundleSize,
       offset := if total > bundleSize then total - left else 0)
  }

  function SlicePacket(h: Header, adu: seq<byte>, bundleSize: nat, left: nat): Packet
    requires left <= |adu|
  {
    var h1 := SliceHeader(h, |adu|, bundleSize, left);
    Packet(h1, adu[h1.offset..h1.offset + h1.blockLength])
  }

  /** The sending loop of `Forward` with `left` octets still to send: the header
      as the loop leaves it, and the packets. */
  function SendSlices(h: Header, adu: seq<byte>, bundleSize: nat, left: nat): (Header, seq<Packet>)
    requires left <= |adu| && bundleSize > 0
    decreases left
  {
    if left == 0 then (h, [])
    else
      var (h', packets) := SendSlices(SliceHeader(h, |adu|, bundleSize, left), adu, bundleSize,
                                      left - SliceSize(bundleSize, left));
      (h', [SlicePacket(h, adu, bundleSize, left)] + packets)
  }

  function Schedule<Id(==)>(w: World<Id>, id: Id): World<Id>
    requires id in w.bundles
  {
    Put(w, id, w.bundles[id].(nextRetrans := Some(w.nextEvent)))
    .(pending := w.pending[w.nextEvent := Retransmission(id)], nextEvent := w.nextEvent + 1)
  }

  /** Steps 4 to 6 of `Forward`, once an adapter is there and ready. */
  function Transmit<Id(==)>(w: World<Id>, id: Id, bundleSize: nat): (World<Id>, seq<Packet>)
    requires id in w.bundles && w.bundles[id].adu.Some? && bundleSize > 0
  {
    var w1 := if w.bundles[id].header.custody then Schedule(w, id) else w;
    var b := w1.bundles[id];
    var (h, packets) := SendSlices(b.header, b.adu.value, bundleSize, |b.adu.value|);
    var b' := b.(header := h, retention := b.retention - {ForwardPending});
    var w2 := Put(w1, id, b');
    (if b'.retention == {} then Dispose(Remove(w2, id), id) else w2, packets)
  }

  function MarkForward<Id(==)>(w: World<Id>, id: Id): World<Id>
    requires id in w.bundles
  {
    var b := w.bundles[id];
    Put(w, id, b.(retention := b.retention + {ForwardPending} - {DispatchPending}))
  }

  predicate Sendable<Id(==)>(n: Node<Id>, id: Id)
  {
    id in n.world.bundles && n.world.bundles[id].adu.Some? && n.bundleSize > 0
  }

  /** `BpAgent6::Forward`. */
  function Forward<Id(==)>(n: Node<Id>, id: Id): (Node<Id>, seq<Packet>)
    requires Sendable(n, id)
  {
    var w := MarkForward(n.world, id);
    if !CanForward(n, w.bundles[id].header.dst) then (n.(world := w), [])
    else
      var (w', packets) := Transmit(w, id, n.bundleSize);
      (n.(world := w'), packets)
  }

  // --------------------------------------------------------------- sending

  function NewBundle(h: Header, adu: seq<byte>, retention: set<Retention>, address: nat): Bundle
  {
    Bundle(h, Some(adu), retention, [], None, None, address)
  }

  /** The header `Send` builds for sequence number `sequence` at time `now`. */
  function OutboundHeader(agent: Eid, sequence: nat, now: nat, size: nat,
                          src: Eid, dst: Eid, lifetime: nat, custody: bool, priority: nat): Header
  {
    Header(src, dst, if custody then agent else Endpoint.DtnNone, now / SECOND, sequence, lifetime,
           custody, false, 0, size, 0, priority)
  }

  predicate MaySend<Id(==)>(n: Node<Id>, src: Eid)
  {
    src == Endpoint.DtnNone || src in n.registrations
  }

  function OutboundRetention(custody: bool): set<Retention>
  {
    {DispatchPending} + if custody then {CustodyAccepted} else {}
  }

  /** `Send` up to and including the call of `Store`. */
  function Accepted<Id(==)>(n: Node<Id>, id: Id, address: nat, now: nat, h: Header, adu: seq<byte>): (n': Node<Id>)
    requires StoreKnown(n.world)
    ensures n' == n.(sequence := (n.sequence + 1) % TWO32, world := n'.world) && StoreKnown(n'.world)
    ensures n'.world.bundles.Keys == n.world.bundles.Keys + {id}
    ensures n'.world.bundles[id]
         == NewBundle(h, adu, OutboundRetention(h.custody), address).(expireEvent := n'.world.bundles[id].expireEvent)
  {
    var b := NewBundle(h, adu, OutboundRetention(h.custody), address);
    n.(sequence := (n.sequence + 1) % TWO32, world := StoreBundle(Put(n.world, id, b), id, now))
  }

  /** `BpAgent6::Send` creating bundle object `id`; the last component is the
      return value. */
  function Send<Id(==)>(n: Node<Id>, id: Id, address: nat, now: nat, adu: seq<byte>,
                    src: Eid, dst: Eid, lifetime: nat, custody: bool, priority: nat)
    : (Node<Id>, seq<Packet>, int)
    requires n.bundleSize > 0 && StoreKnown(n.world)
  {
    if !MaySend(n, src) then (n, [], -1)
    else
      var h := OutboundHeader(n.eid, n.sequence, now, |adu|, src, dst, lifetime, custody, priority);
      var (n', packets) := Forward(Accepted(n, id, address, now, h, adu), id);
      (n', packets, 0)
  }

  // ------------------------------------------------------ custody signals

  /** Merging one acknowledged range [first, second) into the list. */
  function MergeAck(acks: seq<(nat, nat)>, ack: (nat, nat)): (r: seq<(nat, nat)>)
    ensures |r| == |acks|
  {
    if acks == [] then []
    else
      var a := acks[0];
      var a1 := if a.1 == ack.0 then (a.0, ack.1) else a;
      var a2 := if ack.1 == a1.0 then (ack.0, a1.1) else a1;
      [a2] + MergeAck(acks[1..], ack)
  }

  function Acknowledge(acks: seq<(nat, nat)>, ack: (nat, nat)): seq<(nat, nat)>
  {
    if acks == [] then [ack] else MergeAck(acks, ack)
  }

  predicate FullyAcked(acks: seq<(nat, nat)>, aduLength: nat)
  {
    acks == [(0, aduLength)]
  }

  /** The range a signal acknowledges, in the program's 32-bit arithmetic. */
  function AckOf(c: CS.Signal): (nat, nat)
  {
    (c.offset, (c.offset + c.length) % TWO32)
  }

  function SignalKey(c: CS.Signal): Key
  {
    Key(c.source, c.timestamp, c.sequence)
  }

  /** The stored bundle a successful signal is about (`BundleStore::GetBundle`). */
  function Target<Id(==)>(w: World<Id>, c: CS.Signal): (r: Option<Id>)
    requires StoreKnown(w)
    ensures r.Some? ==> c.status == CS.SUCCESS && r.value in w.store && r.value in w.bundles
                        && KeyOf(w.bundles[r.value].header) == SignalKey(c)
  {
    var found := WithKey(w.bundles, w.store, SignalKey(c));
    if c.status != CS.SUCCESS || found == [] then None else Some(found[0])
  }

  function Acked<Id(==)>(w: World<Id>, id: Id, ack: (nat, nat)): World<Id>
    requires id in w.bundles
  {
    Put(w, id, w.bundles[id].(acks := Acknowledge(w.bundles[id].acks, ack)))
  }

  predicate AllAcked<Id(==)>(w: World<Id>, id: Id)
    requires id in w.bundles
  {
    FullyAcked(w.bundles[id].acks, w.bundles[id].header.aduLength)
  }

  /** The range is recorded, and the bundle dropped once that is all of it. */
  function Settled<Id(==)>(w: World<Id>, id: Id, ack: (nat, nat)): (w': World<Id>)
    requires id in w.bundles && StoreKnown(w)
    ensures w'.bundles.Keys == w.bundles.Keys && StoreKnown(w')
  {
    var w1 := Acked(w, id, ack);
    if AllAcked(w1, id) then Dispose(Remove(w1, id), id) else w1
  }

  /** What a custody signal does to the bundle it names, if that is stored. */
  function ProcessSignal<Id(==)>(w: World<Id>, c: CS.Signal): (w': World<Id>)
    requires StoreKnown(w)
    ensures w'.bundles.Keys == w.bundles.Keys && StoreKnown(w')
  {
    match Target(w, c)
    case None => w
    case Some(id) => Settled(w, id, AckOf(c))
  }

  /** The signal for a delivered bundle, as `SendCustodySignal` fills it in. */
  function SignalFor(b: Bundle, now: nat): CS.Signal
  {
    CS.Signal(CS.SUCCESS, b.header.offset, if b.header.fragment then Size(b) else 0, now / SECOND,
              b.header.timestamp, b.header.sequence, b.header.src)
  }

  // -------------------------------------------------------------- delivery

  /** One turn of the coalescing loop: new bundle `id` against stored `it`. */
  function CoalesceOne<Id(==)>(w: World<Id>, id: Id, it: Id): (w': World<Id>)
    requires id in w.bundles && it in w.bundles
    ensures w'.bundles.Keys == w.bundles.Keys && (StoreKnown(w) ==> StoreKnown(w'))
  {
    var b, p := w.bundles[id], w.bundles[it];
    if b.adu.None? || p.adu.None? then w
    else if b.header.offset == p.header.offset + Size(p) then
      var adu := p.adu.value + b.adu.value;
      var w1 := Remove(Put(w, it, p.(adu := Some(adu))), id);
      if |adu| == p.header.aduLength then ClearFragment(w1, it) else w1
    else if b.header.offset + Size(b) == p.header.offset then
      var adu := b.adu.value + p.adu.value;
      var w1 := Remove(Put(w, id, b.(adu := Some(adu))), it);
      if |adu| == b.header.aduLength then ClearFragment(w1, id) else w1
    else w
  }

  function ClearFragment<Id(==)>(w: World<Id>, id: Id): (w': World<Id>)
    requires id in w.bundles
    ensures w'.bundles.Keys == w.bundles.Keys && w'.store == w.store
  {
    var b := w.bundles[id];
    Put(w, id, b.(header := b.header.(fragment := false)))
  }

  /** The loop over the snapshot `its` of the stored bundles of the same ADU. */
  function Coalesce<Id(==)>(w: World<Id>, id: Id, its: seq<Id>): (w': World<Id>)
    requires id in w.bundles && forall x :: x in its ==> x in w.bundles
    ensures w'.bundles.Keys == w.bundles.Keys && (StoreKnown(w) ==> StoreKnown(w'))
    decreases |its|
  {
    if its == [] then w
    else
      var w1 := CoalesceOne(w, id, its[0]);
      assert forall x :: x in its[1..] ==> x in its;
      Coalesce(w1, id, its[1..])
  }

  /** An administrative record can be read out of a bundle for the agent
      itself: neither do the record's octets run out, nor is the bundle a
      fragment, whose coalescing would follow the pointer that disposing of it
      has just cleared. */
  predicate Readable(agent: Eid, b: Bundle)
  {
    b.header.dst == agent ==> b.adu.Some? && CS.ParseAdmin(b.adu.value).Some? && !b.header.fragment
  }

  /** `EnqueueForDeliveryToApplication`. */
  function Enqueue<Id(==)>(agent: Eid, w: World<Id>, id: Id): (w': World<Id>)
    requires id in w.bundles && StoreKnown(w) && Readable(agent, w.bundles[id])
    ensures w'.bundles.Keys == w.bundles.Keys && StoreKnown(w')
  {
    var b := w.bundles[id];
    if b.header.dst == agent then
      var w1 := match CS.ParseAdmin(b.adu.value).value
                case Custody(c) => ProcessSignal(w, c)
                case Other => w;
      Dispose(Remove(w1, id), id)
    else if b.header.fragment then
      Coalesce(w, id, WithKey(w.bundles, w.store, KeyOf(b.header)))
    else w
  }

  predicate Active<Id(==)>(n: Node<Id>, eid: Eid)
  {
    eid in n.registrations && n.registrations[eid]
  }

  /** Delivery to an endpoint whose registration is passive changes nothing. */
  function Enqueued<Id(==)>(n: Node<Id>, id: Id): (n': Node<Id>)
    requires id in n.world.bundles && StoreKnown(n.world)
    requires Active(n, n.world.bundles[id].header.dst) ==> Readable(n.eid, n.world.bundles[id])
    ensures n'.world.bundles.Keys == n.world.bundles.Keys && StoreKnown(n'.world)
    ensures n' == n.(world := n'.world)
  {
    if Active(n, n.world.bundles[id].header.dst) then n.(world := Enqueue(n.eid, n.world, id)) else n
  }

  function RecordFor(b: Bundle, now: nat): seq<byte>
  {
    CS.Record(SignalFor(b, now), b.header.fragment)
  }

  /** `Deliver` to a registered endpoint; `signalId` is the bundle object of
      the custody signal, if one is due. */
  function Deliver<Id(==)>(n: Node<Id>, id: Id, signalId: Id, address: nat, now: nat): (Node<Id>, seq<Packet>)
    requires id in n.world.bundles && StoreKnown(n.world) && n.bundleSize > 0
    requires Active(n, n.world.bundles[id].header.dst) ==> Readable(n.eid, n.world.bundles[id])
  {
    var n1 := Enqueued(n, id);
    var b := n1.world.bundles[id];
    if !b.header.custody then (n1, [])
    else
      var (n2, packets, _) := Send(n1, signalId, address, now, RecordFor(b, now), n1.eid, b.header.cust,
                                   b.header.lifetime, false, 0);
      (n2, packets)
  }

  function Arrival(p: Packet, address: nat): Bundle
  {
    NewBundle(p.header, p.payload, {DispatchPending}, address)
  }

  /** The first steps of `ProcessBundle`: a bundle object is made of the packet
      and stored. */
  function Taken<Id(==)>(n: Node<Id>, p: Packet, id: Id, address: nat, now: nat): (n': Node<Id>)
    requires StoreKnown(n.world)
    ensures n' == n.(world := n'.world) && StoreKnown(n'.world)
    ensures n'.world.bundles.Keys == n.world.bundles.Keys + {id}
    ensures n'.world.bundles[id] == Arrival(p, address).(expireEvent := n'.world.bundles[id].expireEvent)
  {
    n.(world := StoreBundle(Put(n.world, id, Arrival(p, address)), id, now))
  }

  /** `Dispatch`. */
  function Dispatch<Id(==)>(n: Node<Id>, id: Id, signalId: Id, address: nat, now: nat): (Node<Id>, seq<Packet>)
    requires Sendable(n, id) && StoreKnown(n.world)
    requires Active(n, n.world.bundles[id].header.dst) ==> Readable(n.eid, n.world.bundles[id])
  {
    if n.world.bundles[id].header.dst in n.registrations then Deliver(n, id, signalId, address, now)
    else Forward(n, id)
  }

  /** `ProcessBundle` for a packet that becomes bundle `id`. */
  function Process<Id(==)>(n: Node<Id>, p: Packet, id: Id, signalId: Id, address: nat, now: nat)
    : (Node<Id>, seq<Packet>)
    requires StoreKnown(n.world) && n.bundleSize > 0
    requires Active(n, p.header.dst) ==> Readable(n.eid, Arrival(p, address))
  {
    Dispatch(Taken(n, p, id, address, now), id, signalId, address + 1, now)
  }

  // ------------------------------------------------------- other operations

  /** `Receive`. */
  function Receive<Id(==)>(n: Node<Id>, eid: Eid): (Node<Id>, Option<seq<byte>>)
    requires StoreKnown(n.world)
  {
    var (w, adu) := GetAndRemove(n.world, eid, false);
    if adu.None? then (n.(world := w), None)
    else (n.(world := w, bundlesDelivered := n.bundlesDelivered + 1,
             bytesDelivered := n.bytesDelivered + |adu.value|), adu)
  }

  /** The stored bundles waiting to be forwarded through `cla`, in store order. */
  function Waiting<Id(==)>(n: Node<Id>, s: seq<Id>, cla: Cla): (r: seq<Id>)
    requires forall x :: x in s ==> x in n.world.bundles
    ensures forall x :: x in r ==> x in s && IsWaiting(n, n.world.bundles[x], cla)
    ensures forall x :: x in s && IsWaiting(n, n.world.bundles[x], cla) ==> x in r
  {
    if s == [] then []
    else if IsWaiting(n, n.world.bundles[s[0]], cla) then [s[0]] + Waiting(n, s[1..], cla)
    else Waiting(n, s[1..], cla)
  }

  predicate IsWaiting<Id(==)>(n: Node<Id>, b: Bundle, cla: Cla)
  {
    ForwardPending in b.retention && OutgoingCla(n.routes, b.header.dst) == Some(cla)
  }

  function ForwardAll<Id(==)>(n: Node<Id>, ids: seq<Id>): (Node<Id>, seq<Packet>)
    decreases |ids|
  {
    if ids == [] || !Sendable(n, ids[0]) then (n, [])
    else
      var (n1, p1) := Forward(n, ids[0]);
      var (n2, p2) := ForwardAll(n1, ids[1..]);
      (n2, p1 + p2)
  }

  /** `ClaReady`: forward what the snapshot holds. */
  function ClaReady<Id(==)>(n: Node<Id>, cla: Cla): (Node<Id>, seq<Packet>)
    requires StoreKnown(n.world)
  {
    ForwardAll(n, Waiting(n, n.world.store, cla))
  }

  /** A retransmission event runs: it is gone, and the bundle is forwarded. */
  function Retransmit<Id(==)>(n: Node<Id>, event: nat): (Node<Id>, seq<Packet>)
    requires event in n.world.pending && n.world.pending[event].Retransmission?
    requires Sendable(n, n.world.pending[event].bundle)
  {
    Forward(n.(world := n.world.(pending := n.world.pending - {event})), n.world.pending[event].bundle)
  }

  function ExpireEvent<Id(==)>(n: Node<Id>, event: nat): Node<Id>
    requires event in n.world.pending && n.world.pending[event].Expiry?
    requires n.world.pending[event].bundle in n.world.bundles
  {
    n.(world := Expire(n.world.(pending := n.world.pending - {event}), n.world.pending[event].bundle))
  }
}
