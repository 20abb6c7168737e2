/**
 The order of deliveries and the acknowledged ranges over whole runs. Priority,
 timestamp and sequence number of a bundle are never rewritten, while `Forward`
 does rewrite the offset of a bundle in the store; so it is the order by these
 three that every agent keeps, at sources as well as at destinations.
 */
module QueueOrder {
  import opened Bytes
  import opened Bundles
  import opened Agent
  import opened Soundness
  import opened Custodial
  import opened Network
  import opened Integrity
  import opened EndToEnd
  import opened Delivery
  import opened CustodyTimers
  import CS = CustodySignal

  // ---------------------------------------------------------------- the order

  /** By priority, then timestamp, then sequence number. */
  predicate Ahead(g: Header, h: Header)
  {
    if g.priority != h.priority then g.priority < h.priority
    else if g.timestamp != h.timestamp then g.timestamp < h.timestamp
    else g.sequence < h.sequence
  }

  predicate SameRank(g: Header, h: Header)
  {
    g.priority == h.priority && g.timestamp == h.timestamp && g.sequence == h.sequence
  }

  /** No bundle stands behind one it is ahead of; `hidden` ones do not count. */
  ghost predicate Queued<T>(b: map<T, Bundle>, s: seq<T>, hidden: iset<T>)
    requires forall x :: x in s ==> x in b
  {
    forall i, j :: 0 <= i < j < |s| && s[i] !in hidden && s[j] !in hidden ==> !Ahead(b[s[j]].header, b[s[i]].header)
  }

  lemma ConsQueued<T>(b: map<T, Bundle>, x: T, s: seq<T>, hidden: iset<T>)
    requires x in b && forall y :: y in s ==> y in b
    ensures Queued(b, [x] + s, hidden) <==>
              Queued(b, s, hidden)
              && (x !in hidden ==> forall y :: y in s && y !in hidden ==> !Ahead(b[y].header, b[x].header))
  {
    var t := [x] + s;
    if Queued(b, t, hidden) {
      forall i, j | 0 <= i < j < |s| && s[i] !in hidden && s[j] !in hidden
        ensures !Ahead(b[s[j]].header, b[s[i]].header)
      {
        assert t[i + 1] == s[i] && t[j + 1] == s[j];
      }
      forall y | y in s && y !in hidden && x !in hidden ensures !Ahead(b[y].header, b[x].header) {
        var i :| 0 <= i < |s| && s[i] == y;
        assert t[0] == x && t[i + 1] == y;
      }
    }
  }

  lemma QueuedSame<T>(b: map<T, Bundle>, b': map<T, Bundle>, s: seq<T>, hidden: iset<T>)
    requires Known(b, s) && Queued(b, s, hidden)
    requires forall x :: x in s ==> x in b' && SameRank(b[x].header, b'[x].header)
    ensures Queued(b', s, hidden)
  {
    assert forall i :: 0 <= i < |s| ==> SameRank(b[s[i]].header, b'[s[i]].header);
  }

  predicate Known<T(==)>(b: map<T, Bundle>, s: seq<T>)
  {
    forall x :: x in s ==> x in b
  }

  lemma {:induction false} WithoutQueued<T>(b: map<T, Bundle>, s: seq<T>, id: T, hidden: iset<T>)
    requires Known(b, s) && Queued(b, s, hidden)
    ensures Queued(b, Without(s, id), hidden)
  {
    if s != [] {
      assert s == [s[0]] + s[1..];
      ConsQueued(b, s[0], s[1..], hidden);
      WithoutQueued(b, s[1..], id, hidden);
      ConsQueued(b, s[0], Without(s[1..], id), hidden);
    }
  }

  /** The new bundle does not count, or all others do and lie near it. */
  ghost predicate Placeable<T>(b: map<T, Bundle>, s: seq<T>, id: T, hidden: iset<T>)
    requires id in b && Known(b, s)
  {
    id !in hidden ==> forall y :: y in s ==> y !in hidden && Near(b[id], b[y])
  }

  /** On near bundles the comparator agrees with the order. */
  lemma BeforeIsAhead(x: Bundle, y: Bundle)
    requires Near(x, y)
    ensures Before(x, y) ==> !Ahead(y.header, x.header)
    ensures !Before(x, y) ==> !Ahead(x.header, y.header)
  {
  }

  lemma FrontQueued<T>(b: map<T, Bundle>, s: seq<T>, id: T, hidden: iset<T>)
    requires id in b && Known(b, s) && s != [] && Queued(b, s, hidden) && Placeable(b, s, id, hidden)
    requires Before(b[id], b[s[0]])
    ensures Queued(b, [id] + s, hidden)
  {
    ConsQueued(b, id, s, hidden);
    if id !in hidden {
      BeforeIsAhead(b[id], b[s[0]]);
      assert s == [s[0]] + s[1..];
      ConsQueued(b, s[0], s[1..], hidden);
    }
  }

  /** A bundle put where the comparator says comes behind none it is ahead of. */
  lemma {:induction false} InsertQueued<T>(b: map<T, Bundle>, s: seq<T>, id: T, hidden: iset<T>)
    requires id in b && Known(b, s) && Queued(b, s, hidden) && Placeable(b, s, id, hidden)
    ensures Queued(b, Insert(b, s, id), hidden)
  {
    if s == [] {
    } else if Before(b[id], b[s[0]]) {
      FrontQueued(b, s, id, hidden);
    } else {
      var h, t := s[0], s[1..];
      assert s == [h] + t;
      ConsQueued(b, h, t, hidden);
      InsertQueued(b, t, id, hidden);
      ConsQueued(b, h, Insert(b, t, id), hidden);
      if id !in hidden {
        BeforeIsAhead(b[id], b[h]);
      }
    }
  }

  lemma {:induction false} ForQueued<T>(b: map<T, Bundle>, s: seq<T>, eid: Eid, hidden: iset<T>)
    requires Known(b, s) && Queued(b, s, hidden)
    ensures Queued(b, For(b, s, eid), hidden)
  {
    if s != [] {
      assert s == [s[0]] + s[1..];
      ConsQueued(b, s[0], s[1..], hidden);
      ForQueued(b, s[1..], eid, hidden);
      ConsQueued(b, s[0], For(b, s[1..], eid), hidden);
    }
  }

  // -------------------------------------------------------- what a step keeps

  /** The store is in order and no bundle has more than one acknowledged range. */
  ghost predicate Orderly<T>(w: World<T>, hidden: iset<T>)
  {
    StoreKnown(w) && Queued(w.bundles, w.store, hidden) && forall x :: x in w.bundles ==> |w.bundles[x].acks| <= 1
  }

  ghost predicate Ranked<T>(w: World<T>, w': World<T>)
  {
    forall x :: x in w.bundles ==> x in w'.bundles && SameRank(w.bundles[x].header, w'.bundles[x].header)
  }

  ghost predicate Keeps<T>(w: World<T>, w': World<T>, hidden: iset<T>)
  {
    Ranked(w, w') && (Orderly(w, hidden) ==> Orderly(w', hidden))
  }

  lemma KeepsTwice<T>(w0: World<T>, w1: World<T>, w2: World<T>, hidden: iset<T>)
    requires Keeps(w0, w1, hidden) && Keeps(w1, w2, hidden)
    ensures Keeps(w0, w2, hidden)
  {
  }

  lemma PutKeeps<T>(w: World<T>, id: T, b: Bundle, hidden: iset<T>)
    requires id in w.bundles && SameRank(w.bundles[id].header, b.header)
    requires |w.bundles[id].acks| <= 1 ==> |b.acks| <= 1
    ensures Keeps(w, Put(w, id, b), hidden)
  {
    if Orderly(w, hidden) {
      QueuedSame(w.bundles, Put(w, id, b).bundles, w.store, hidden);
    }
  }

  lemma RemoveKeeps<T>(w: World<T>, id: T, hidden: iset<T>)
    requires id in w.bundles
    ensures Keeps(w, Remove(w, id), hidden)
  {
    if Orderly(w, hidden) {
      WithoutQueued(w.bundles, w.store, id, hidden);
    }
  }

  lemma DisposeKeeps<T>(w: World<T>, id: T, hidden: iset<T>)
    requires id in w.bundles
    ensures Keeps(w, Dispose(w, id), hidden)
  {
    PutKeeps(w, id, w.bundles[id].(adu := None, acks := []), hidden);
  }

  lemma DropKeeps<T>(w: World<T>, id: T, hidden: iset<T>)
    requires id in w.bundles
    ensures Keeps(w, Dispose(Remove(w, id), id), hidden)
  {
    RemoveKeeps(w, id, hidden);
    DisposeKeeps(Remove(w, id), id, hidden);
    KeepsTwice(w, Remove(w, id), Dispose(Remove(w, id), id), hidden);
  }

  lemma SentKeeps<T>(w: World<T>, id: T, bundleSize: nat, hidden: iset<T>)
    requires id in w.bundles && w.bundles[id].adu.Some? && bundleSize > 0
    ensures Keeps(w, Sent(w, id, bundleSize), hidden)
  {
    var b := w.bundles[id];
    var h := SendSlices(b.header, b.adu.value, bundleSize, |b.adu.value|).0;
    SlicesHeader(b.header, b.adu.value, bundleSize, |b.adu.value|);
    PutKeeps(w, id, Sent(w, id, bundleSize).bundles[id], hidden);
    assert Sent(w, id, bundleSize).bundles == Put(w, id, Sent(w, id, bundleSize).bundles[id]).bundles;
  }

  lemma TransmitKeeps<T>(w: World<T>, id: T, bundleSize: nat, hidden: iset<T>)
    requires id in w.bundles && w.bundles[id].adu.Some? && bundleSize > 0
    ensures Keeps(w, Transmit(w, id, bundleSize).0, hidden)
  {
    var timed := Sent(w, id, bundleSize);
    TransmitParts(w, id, bundleSize);
    SentKeeps(w, id, bundleSize, hidden);
    DropKeeps(timed, id, hidden);
    KeepsTwice(w, timed, Dispose(Remove(timed, id), id), hidden);
  }

  lemma ForwardKeeps<T>(n: Node<T>, id: T, hidden: iset<T>)
    requires Sendable(n, id)
    ensures Keeps(n.world, Forward(n, id).0.world, hidden)
  {
    var w := MarkForward(n.world, id);
    ForwardIs(n, id);
    PutKeeps(n.world, id, w.bundles[id], hidden);
    if CanForward(n, w.bundles[id].header.dst) {
      TransmitKeeps(w, id, n.bundleSize, hidden);
      KeepsTwice(n.world, w, Transmit(w, id, n.bundleSize).0, hidden);
    }
  }

  // ------------------------------------------------------------------ storing

  lemma AddKeeps<T>(w: World<T>, id: T, b: Bundle, hidden: iset<T>)
    requires id !in w.bundles && StoreKnown(w) && b.acks == []
    ensures Keeps(w, Put(w, id, b), hidden)
  {
    if Orderly(w, hidden) {
      QueuedSame(w.bundles, Put(w, id, b).bundles, w.store, hidden);
    }
  }

  lemma StoreKeeps<T>(w: World<T>, id: T, now: nat, hidden: iset<T>)
    requires id in w.bundles && StoreKnown(w) && Placeable(w.bundles, w.store, id, hidden)
    ensures Keeps(w, StoreBundle(w, id, now), hidden)
  {
    if !Expired(w.bundles[id].header, now) {
      var w1 := WithExpiry(w, id);
      PutKeeps(w, id, w1.bundles[id], hidden);
      assert w1.bundles == Put(w, id, w1.bundles[id]).bundles;
      if Orderly(w1, hidden) {
        InsertQueued(w1.bundles, w1.store, id, hidden);
      }
    }
  }

  /** A new bundle object in the store, where it may be placed. */
  lemma StoreNewKeeps<T>(w: World<T>, id: T, b: Bundle, now: nat, hidden: iset<T>)
    requires id !in w.bundles && StoreKnown(w) && b.acks == [] && Placeable(w.bundles[id := b], w.store, id, hidden)
    ensures Keeps(w, StoreBundle(Put(w, id, b), id, now), hidden)
  {
    AddKeeps(w, id, b, hidden);
    StoreKeeps(Put(w, id, b), id, now, hidden);
    KeepsTwice(w, Put(w, id, b), StoreBundle(Put(w, id, b), id, now), hidden);
  }

  /** Near what the store holds, or not counted. */
  ghost predicate Fitting<T>(n: Node<T>, id: T, h: Header, hidden: iset<T>)
    requires StoreKnown(n.world)
  {
    id !in hidden ==> forall y :: y in n.world.store ==> y !in hidden && NearBy(h, n.world.bundles[y].header)
  }

  lemma AcceptedKeeps<T>(n: Node<T>, id: T, address: nat, now: nat, h: Header, adu: seq<byte>, hidden: iset<T>)
    requires StoreKnown(n.world) && id !in n.world.bundles && Fitting(n, id, h, hidden)
    ensures Keeps(n.world, Accepted(n, id, address, now, h, adu).world, hidden)
  {
    StoreNewKeeps(n.world, id, NewBundle(h, adu, OutboundRetention(h.custody), address), now, hidden);
  }

  lemma SendKeeps<T>(n: Node<T>, id: T, address: nat, now: nat, adu: seq<byte>, src: Eid, dst: Eid,
                     lifetime: nat, custody: bool, priority: nat, hidden: iset<T>)
    requires StoreKnown(n.world) && n.bundleSize > 0 && id !in n.world.bundles
    requires Fitting(n, id, OutboundHeader(n.eid, n.sequence, now, |adu|, src, dst, lifetime, custody, priority), hidden)
    ensures Keeps(n.world, Send(n, id, address, now, adu, src, dst, lifetime, custody, priority).0.world, hidden)
  {
    if MaySend(n, src) {
      var h := OutboundHeader(n.eid, n.sequence, now, |adu|, src, dst, lifetime, custody, priority);
      var n1 := Accepted(n, id, address, now, h, adu);
      SendIs(n, id, address, now, adu, src, dst, lifetime, custody, priority);
      AcceptedKeeps(n, id, address, now, h, adu, hidden);
      ForwardKeeps(n1, id, hidden);
      KeepsTwice(n.world, n1.world, Forward(n1, id).0.world, hidden);
    }
  }

  lemma TakenKeeps<T>(n: Node<T>, p: Packet, id: T, address: nat, now: nat, hidden: iset<T>)
    requires StoreKnown(n.world) && id !in n.world.bundles && Fitting(n, id, p.header, hidden)
    ensures Keeps(n.world, Taken(n, p, id, address, now).world, hidden)
  {
    StoreNewKeeps(n.world, id, Arrival(p, address), now, hidden);
  }

  // --------------------------------------------------------------- delivering

  lemma SwallowKeeps<T>(w: World<T>, front: T, back: T, hidden: iset<T>)
    requires front in w.bundles && back in w.bundles && w.bundles[front].adu.Some? && w.bundles[back].adu.Some?
    ensures Keeps(w, Swallow(w, front, back), hidden)
  {
    var f := w.bundles[front].(adu := Some(w.bundles[front].adu.value + w.bundles[back].adu.value));
    var w0 := Put(w, front, f);
    var w1 := Remove(w0, back);
    PutKeeps(w, front, f, hidden);
    RemoveKeeps(w0, back, hidden);
    KeepsTwice(w, w0, w1, hidden);
    PutKeeps(w1, front, ClearFragment(w1, front).bundles[front], hidden);
    KeepsTwice(w, w1, ClearFragment(w1, front), hidden);
  }

  lemma CoalesceOneKeeps<T>(w: World<T>, id: T, it: T, hidden: iset<T>)
    requires id in w.bundles && it in w.bundles
    ensures Keeps(w, CoalesceOne(w, id, it), hidden)
  {
    if w.bundles[id].adu.Some? && w.bundles[it].adu.Some? {
      CoalesceOneIs(w, id, it);
      SwallowKeeps(w, it, id, hidden);
      SwallowKeeps(w, id, it, hidden);
    }
  }

  lemma {:induction false} CoalesceKeeps<T>(w: World<T>, id: T, its: seq<T>, hidden: iset<T>)
    requires id in w.bundles && forall x :: x in its ==> x in w.bundles
    ensures Keeps(w, Coalesce(w, id, its), hidden)
    decreases |its|
  {
    if its != [] {
      var w1 := CoalesceOne(w, id, its[0]);
      CoalesceOneKeeps(w, id, its[0], hidden);
      assert forall x :: x in its[1..] ==> x in its;
      CoalesceKeeps(w1, id, its[1..], hidden);
      KeepsTwice(w, w1, Coalesce(w1, id, its[1..]), hidden);
    }
  }

  lemma AckedKeeps<T>(w: World<T>, id: T, ack: (nat, nat), hidden: iset<T>)
    requires id in w.bundles
    ensures Keeps(w, Acked(w, id, ack), hidden)
  {
    PutKeeps(w, id, Acked(w, id, ack).bundles[id], hidden);
  }

  lemma SettledKeeps<T>(w: World<T>, id: T, ack: (nat, nat), hidden: iset<T>)
    requires id in w.bundles && StoreKnown(w)
    ensures Keeps(w, Settled(w, id, ack), hidden)
  {
    var w1 := Acked(w, id, ack);
    SettledIs(w, id, ack);
    AckedKeeps(w, id, ack, hidden);
    DropKeeps(w1, id, hidden);
    KeepsTwice(w, w1, Dispose(Remove(w1, id), id), hidden);
  }

  lemma ProcessSignalKeeps<T>(w: World<T>, c: CS.Signal, hidden: iset<T>)
    requires StoreKnown(w)
    ensures Keeps(w, ProcessSignal(w, c), hidden)
  {
    match Target(w, c)
    case None =>
    case Some(id) => SettledKeeps(w, id, AckOf(c), hidden);
  }

  lemma ConsumedKeeps<T>(w: World<T>, id: T, record: CS.Admin, hidden: iset<T>)
    requires id in w.bundles && StoreKnown(w)
    ensures Keeps(w, Consumed(w, id, record), hidden)
  {
    var w1 := if record.Custody? then ProcessSignal(w, record.signal) else w;
    if record.Custody? {
      ProcessSignalKeeps(w, record.signal, hidden);
    }
    DropKeeps(w1, id, hidden);
    KeepsTwice(w, w1, Consumed(w, id, record), hidden);
  }

  lemma EnqueueKeeps<T>(agent: Eid, w: World<T>, id: T, hidden: iset<T>)
    requires id in w.bundles && StoreKnown(w) && Readable(agent, w.bundles[id])
    ensures Keeps(w, Enqueue(agent, w, id), hidden)
  {
    var b := w.bundles[id];
    EnqueueIs(agent, w, id);
    if b.header.dst == agent {
      ConsumedKeeps(w, id, CS.ParseAdmin(b.adu.value).value, hidden);
    } else if b.header.fragment {
      CoalesceKeeps(w, id, WithKey(w.bundles, w.store, KeyOf(b.header)), hidden);
    }
  }

  /** The header of the signal for delivered bundle `b`. */
  function SignalHeader<T(==)>(n: Node<T>, b: Bundle, now: nat): Header
  {
    OutboundHeader(n.eid, n.sequence, now, |RecordFor(b, now)|, n.eid, b.header.cust, b.header.lifetime, false, 0)
  }

  ghost predicate MayEnqueue<T>(n: Node<T>, id: T)
  {
    id in n.world.bundles && StoreKnown(n.world) && n.bundleSize > 0 &&
    (Active(n, n.world.bundles[id].header.dst) ==> Readable(n.eid, n.world.bundles[id]))
  }

  lemma EnqueuedKeeps<T>(n: Node<T>, id: T, hidden: iset<T>)
    requires MayEnqueue(n, id)
    ensures Keeps(n.world, Enqueued(n, id).world, hidden)
  {
    if Active(n, n.world.bundles[id].header.dst) {
      EnqueueKeeps(n.eid, n.world, id, hidden);
    }
  }

  lemma DeliverKeeps<T>(n: Node<T>, id: T, signalId: T, address: nat, now: nat, hidden: iset<T>)
    requires MayEnqueue(n, id) && signalId !in n.world.bundles
    requires var n1 := Enqueued(n, id);
             n1.world.bundles[id].header.custody ==>
               Fitting(n1, signalId, SignalHeader(n1, n1.world.bundles[id], now), hidden)
    ensures Keeps(n.world, Deliver(n, id, signalId, address, now).0.world, hidden)
  {
    var n1 := Enqueued(n, id);
    var b := n1.world.bundles[id];
    DeliverIs(n, id, signalId, address, now);
    EnqueuedKeeps(n, id, hidden);
    if b.header.custody {
      SendKeeps(n1, signalId, address, now, RecordFor(b, now), n1.eid, b.header.cust, b.header.lifetime, false, 0, hidden);
      KeepsTwice(n.world, n1.world, SignalSent(n1, b, signalId, address, now).0.world, hidden);
    }
  }

  // ---------------------------------------------------------- an agent's step

  lemma {:induction false} ForwardAllKeeps<T>(n: Node<T>, ids: seq<T>, hidden: iset<T>)
    ensures Keeps(n.world, ForwardAll(n, ids).0.world, hidden)
    decreases |ids|
  {
    if ids != [] && Sendable(n, ids[0]) {
      var n1 := Forward(n, ids[0]).0;
      ForwardKeeps(n, ids[0], hidden);
      ForwardAllKeeps(n1, ids[1..], hidden);
      KeepsTwice(n.world, n1.world, ForwardAll(n1, ids[1..]).0.world, hidden);
    }
  }

  lemma ReceiveKeeps<T>(n: Node<T>, eid: Eid, hidden: iset<T>)
    requires StoreKnown(n.world)
    ensures Keeps(n.world, Receive(n, eid).0.world, hidden)
  {
    match FirstFor(n.world.bundles, n.world.store, eid, false)
    case None =>
    case Some(id) => DropKeeps(n.world, id, hidden);
  }

  lemma TimerKeeps(n: Node<Id>, e: Step, now: nat, hidden: iset<Id>)
    requires e.Timer? && MayAct(n, e) && Faultless(n, e)
    ensures Keeps(n.world, Act(n, e, now).0.world, hidden)
  {
    var w, x := n.world.(pending := n.world.pending - {e.event}), n.world.pending[e.event].bundle;
    if n.world.pending[e.event].Expiry? {
      DropKeeps(w, x, hidden);
    } else {
      ForwardKeeps(n.(world := w), x, hidden);
    }
  }

  lemma DispatchKeeps<T>(n: Node<T>, id: T, signalId: T, address: nat, now: nat, hidden: iset<T>)
    requires MayEnqueue(n, id) && Sendable(n, id) && signalId !in n.world.bundles
    requires SignalFitting(n, id, signalId, now, hidden)
    ensures Keeps(n.world, Dispatch(n, id, signalId, address, now).0.world, hidden)
  {
    if n.world.bundles[id].header.dst in n.registrations {
      DeliverKeeps(n, id, signalId, address, now, hidden);
    } else {
      ForwardKeeps(n, id, hidden);
    }
  }

  /** If a signal is due for bundle `id`, it fits. */
  ghost predicate SignalFitting<T>(n: Node<T>, id: T, signalId: T, now: nat, hidden: iset<T>)
    requires MayEnqueue(n, id)
  {
    var n1 := Enqueued(n, id);
    n.world.bundles[id].header.dst in n.registrations && n1.world.bundles[id].header.custody ==>
      Fitting(n1, signalId, SignalHeader(n1, n1.world.bundles[id], now), hidden)
  }

  /** A bundle taken off the wire, about to be dispatched. */
  function Lands(n: Node<Id>, e: Step, now: nat): Node<Id>
    requires e.Arrive? && MayAct(n, e) && Faultless(n, e)
  {
    Taken(n, PacketOf(e.octets), e.id, e.address, now)
  }

  lemma LandsMayEnqueue(n: Node<Id>, e: Step, now: nat)
    requires e.Arrive? && MayAct(n, e) && Faultless(n, e)
    ensures MayEnqueue(Lands(n, e, now), e.id) && Sendable(Lands(n, e, now), e.id)
    ensures Lands(n, e, now).world.bundles[e.id].header == PacketOf(e.octets).header
    ensures e.signalId !in Lands(n, e, now).world.bundles
    ensures Act(n, e, now) == Dispatch(Lands(n, e, now), e.id, e.signalId, e.address + 1, now)
  {
    ArriveIs(n, e, now);
  }

  lemma ArriveKeeps(n: Node<Id>, e: Step, now: nat, hidden: iset<Id>)
    requires e.Arrive? && MayAct(n, e) && Faultless(n, e)
    requires Fitting(n, e.id, PacketOf(e.octets).header, hidden)
    requires MayEnqueue(Lands(n, e, now), e.id) && SignalFitting(Lands(n, e, now), e.id, e.signalId, now, hidden)
    ensures Keeps(n.world, Act(n, e, now).0.world, hidden)
    ensures Keeps(Lands(n, e, now).world, Act(n, e, now).0.world, hidden)
  {
    var n1 := Lands(n, e, now);
    LandsMayEnqueue(n, e, now);
    TakenKeeps(n, PacketOf(e.octets), e.id, e.address, now, hidden);
    DispatchKeeps(n1, e.id, e.signalId, e.address + 1, now, hidden);
    KeepsTwice(n.world, n1.world, Act(n, e, now).0.world, hidden);
  }

  // --------------------------------------------- what stays stored over a step

  /** `Send` stores and takes out nothing but its own bundle. */
  lemma SendStore<T>(n: Node<T>, id: T, address: nat, now: nat, adu: seq<byte>, src: Eid, dst: Eid,
                     lifetime: nat, custody: bool, priority: nat, x: T)
    requires Sound(n.world) && n.bundleSize > 0 && id !in n.world.bundles && x != id
    ensures x in Send(n, id, address, now, adu, src, dst, lifetime, custody, priority).0.world.store <==> x in n.world.store
  {
    if MaySend(n, src) {
      var h := OutboundHeader(n.eid, n.sequence, now, |adu|, src, dst, lifetime, custody, priority);
      SendIs(n, id, address, now, adu, src, dst, lifetime, custody, priority);
      AcceptedSteady(n, id, address, now, h, adu, false);
      ForwardSound(Accepted(n, id, address, now, h, adu), id);
    }
  }

  lemma CoalesceOneLeaves<T>(w: World<T>, id: T, it: T, x: T)
    requires id in w.bundles && it in w.bundles && x in w.store && x != id && x != it
    ensures x in CoalesceOne(w, id, it).store
  {
    if w.bundles[id].adu.Some? && w.bundles[it].adu.Some? {
      CoalesceOneIs(w, id, it);
    }
  }

  lemma {:induction false} CoalesceLeaves<T>(w: World<T>, id: T, its: seq<T>, x: T)
    requires id in w.bundles && (forall y :: y in its ==> y in w.bundles) && x in w.store && x != id && x !in its
    ensures x in Coalesce(w, id, its).store
    decreases |its|
  {
    if its != [] {
      CoalesceOneLeaves(w, id, its[0], x);
      assert forall y :: y in its[1..] ==> y in its;
      CoalesceLeaves(CoalesceOne(w, id, its[0]), id, its[1..], x);
    }
  }

  /** Enqueueing a bundle that stays takes out none of other ADUs. */
  lemma EnqueueLeaves<T>(agent: Eid, w: World<T>, id: T, x: T)
    requires id in w.bundles && StoreKnown(w) && Readable(agent, w.bundles[id]) && x in w.store && x != id
    requires id in Enqueue(agent, w, id).store
    ensures x in Enqueue(agent, w, id).store || KeyOf(w.bundles[x].header) == KeyOf(w.bundles[id].header)
  {
    EnqueueIs(agent, w, id);
    var b := w.bundles[id];
    if b.header.dst != agent && b.header.fragment && KeyOf(w.bundles[x].header) != KeyOf(b.header) {
      CoalesceLeaves(w, id, WithKey(w.bundles, w.store, KeyOf(b.header)), x);
    }
  }

  lemma EnqueuedLeaves<T>(n: Node<T>, id: T, x: T)
    requires MayEnqueue(n, id) && x in n.world.store && x != id && id in Enqueued(n, id).world.store
    ensures x in Enqueued(n, id).world.store || KeyOf(n.world.bundles[x].header) == KeyOf(n.world.bundles[id].header)
  {
    if Active(n, n.world.bundles[id].header.dst) {
      EnqueueLeaves(n.eid, n.world, id, x);
    }
  }

  lemma EnqueuedSound<T>(n: Node<T>, id: T)
    requires MayEnqueue(n, id) && Sound(n.world)
    ensures Sound(Enqueued(n, id).world)
  {
    if Active(n, n.world.bundles[id].header.dst) {
      EnqueueSteady(n.eid, n.world, id, false);
    }
  }

  /** After a delivery exactly the signal may be stored besides what enqueueing left. */
  lemma DeliverStore<T>(n: Node<T>, id: T, signalId: T, address: nat, now: nat, x: T)
    requires MayEnqueue(n, id) && Sound(n.world) && signalId !in n.world.bundles && x != signalId
    ensures x in Deliver(n, id, signalId, address, now).0.world.store <==> x in Enqueued(n, id).world.store
  {
    var n1 := Enqueued(n, id);
    var b := n1.world.bundles[id];
    DeliverIs(n, id, signalId, address, now);
    EnqueuedSound(n, id);
    if b.header.custody {
      SendStore(n1, signalId, address, now, RecordFor(b, now), n1.eid, b.header.cust, b.header.lifetime, false, 0, x);
    }
  }

  /** Dispatching a bundle that stays takes out none of other ADUs. */
  lemma DispatchLeaves<T>(n: Node<T>, id: T, signalId: T, address: nat, now: nat, x: T)
    requires Dispatchable(n, id, false) && signalId !in n.world.bundles && x in n.world.store && x != id
    requires id in Dispatch(n, id, signalId, address, now).0.world.store
    ensures x in Dispatch(n, id, signalId, address, now).0.world.store
         || KeyOf(n.world.bundles[x].header) == KeyOf(n.world.bundles[id].header)
  {
    if n.world.bundles[id].header.dst in n.registrations {
      DeliverStore(n, id, signalId, address, now, x);
      DeliverStore(n, id, signalId, address, now, id);
      EnqueuedLeaves(n, id, x);
    } else {
      ForwardSound(n, id);
    }
  }

  // ------------------------------------------------------------ near at the end

  ghost predicate AllNear<T>(w: World<T>)
    requires StoreKnown(w)
  {
    forall x, y :: x in w.store && y in w.store ==> NearBy(w.bundles[x].header, w.bundles[y].header)
  }

  function NewIds(e: Step): set<Id>
  {
    match e
    case Submit(_, id, _, _, _, _, _, _, _) => {id}
    case Arrive(_, _, id, signalId, _) => {id, signalId}
    case _ => {}
  }

  /** New objects that are not stored after the step. */
  ghost function Passing(e: Step, w: World<Id>): iset<Id>
  {
    iset x | x in NewIds(e) && x !in w.store
  }

  /** When the step is over those no longer matter. */
  lemma PassedBy(e: Step, w: World<Id>)
    requires Orderly(w, Passing(e, w))
    ensures Orderly(w, iset{})
  {
    forall i, j | 0 <= i < j < |w.store| ensures !Ahead(w.bundles[w.store[j]].header, w.bundles[w.store[i]].header) {
      assert w.store[i] in w.store && w.store[j] in w.store;
    }
  }

  ghost function Everyone(n: Node<Id>, e: Step): iset<Id>
  {
    iset x | x in n.world.bundles || x in NewIds(e)
  }

  /** Whatever the step stores fits where it is put. */
  ghost predicate StepFits(n: Node<Id>, e: Step, now: nat, hidden: iset<Id>)
    requires !e.Clock? && MayAct(n, e) && Faultless(n, e)
  {
    match e
    case Submit(_, id, _, _, _, _, _, _, _) => Fitting(n, id, HeaderOf(n, e, now), hidden)
    case Arrive(_, _, id, signalId, _) =>
      Fitting(n, id, PacketOf(e.octets).header, hidden) &&
      MayEnqueue(Lands(n, e, now), id) && SignalFitting(Lands(n, e, now), id, signalId, now, hidden)
    case _ => true
  }

  lemma ActKeeps(n: Node<Id>, e: Step, now: nat, hidden: iset<Id>)
    requires !e.Clock? && MayAct(n, e) && Faultless(n, e) && StepFits(n, e, now, hidden)
    ensures Keeps(n.world, Act(n, e, now).0.world, hidden)
  {
    match e
    case Submit(_, id, address, adu, src, dst, lifetime, custody, priority) =>
      SendKeeps(n, id, address, now, adu, src, dst, lifetime, custody, priority, hidden);
    case Arrive(_, _, _, _, _) => ArriveKeeps(n, e, now, hidden);
    case Timer(_, _) => TimerKeeps(n, e, now, hidden);
    case AdapterReady(_, cla) => ForwardAllKeeps(n, Waiting(n, n.world.store, cla), hidden);
    case Fetch(_, eid) => ReceiveKeeps(n, eid, hidden);
    case Configure(_, _, _, _, _) =>
  }

  lemma EveryoneFits(n: Node<Id>, e: Step, now: nat)
    requires !e.Clock? && MayAct(n, e) && Faultless(n, e)
    ensures StepFits(n, e, now, Everyone(n, e))
  {
    if e.Arrive? {
      LandsMayEnqueue(n, e, now);
    }
  }

  /** Ranks are never rewritten. */
  lemma LandsRanked(n: Node<Id>, e: Step, now: nat)
    requires e.Arrive? && MayAct(n, e) && Faultless(n, e)
    ensures Ranked(Lands(n, e, now).world, Act(n, e, now).0.world)
  {
    EveryoneFits(n, e, now);
    ArriveKeeps(n, e, now, Everyone(n, e));
  }

  /** A bundle that `Send` has made and stored has the rank it was made with. */
  lemma SendRank<T>(n: Node<T>, id: T, address: nat, now: nat, adu: seq<byte>, src: Eid, dst: Eid,
                    lifetime: nat, custody: bool, priority: nat)
    requires Sound(n.world) && n.bundleSize > 0 && id !in n.world.bundles
    ensures var h := OutboundHeader(n.eid, n.sequence, now, |adu|, src, dst, lifetime, custody, priority);
            var w' := Send(n, id, address, now, adu, src, dst, lifetime, custody, priority).0.world;
            Ranked(n.world, w') && (id in w'.store ==> id in w'.bundles && SameRank(h, w'.bundles[id].header))
  {
    if MaySend(n, src) {
      var h := OutboundHeader(n.eid, n.sequence, now, |adu|, src, dst, lifetime, custody, priority);
      var n1 := Accepted(n, id, address, now, h, adu);
      SendIs(n, id, address, now, adu, src, dst, lifetime, custody, priority);
      AcceptedKeeps(n, id, address, now, h, adu, iset{id});
      ForwardKeeps(n1, id, iset{id});
    }
  }

  lemma SubmitFits(n: Node<Id>, e: Step, now: nat)
    requires e.Submit? && MayAct(n, e) && Faultless(n, e) && Sound(n.world)
    requires StoreKnown(Act(n, e, now).0.world) && AllNear(Act(n, e, now).0.world)
    ensures StepFits(n, e, now, Passing(e, Act(n, e, now).0.world))
  {
    var w' := Act(n, e, now).0.world;
    SendRank(n, e.id, e.address, now, e.adu, e.src, e.dst, e.lifetime, e.custody, e.priority);
    if e.id in w'.store {
      forall y | y in n.world.store
        ensures y !in Passing(e, w') && NearBy(HeaderOf(n, e, now), n.world.bundles[y].header)
      {
        SendStore(n, e.id, e.address, now, e.adu, e.src, e.dst, e.lifetime, e.custody, e.priority, y);
        assert NearBy(w'.bundles[e.id].header, w'.bundles[y].header);
      }
    }
  }

  lemma LandsAdds(n: Node<Id>, e: Step, now: nat)
    requires e.Arrive? && MayAct(n, e) && Faultless(n, e) && Sound(n.world)
    ensures Dispatchable(Lands(n, e, now), e.id, false)
    ensures forall y :: y in n.world.store ==>
              y in Lands(n, e, now).world.store && Lands(n, e, now).world.bundles[y] == n.world.bundles[y]
  {
    TakenSteady(n, PacketOf(e.octets), e.id, e.address, now, false);
  }

  /** The arrival fits among what is stored before it: what is not stored any more
      at the end belongs to the same ADU. */
  lemma TakenFits(n: Node<Id>, e: Step, now: nat)
    requires e.Arrive? && MayAct(n, e) && Faultless(n, e) && Sound(n.world)
    requires StoreKnown(Act(n, e, now).0.world) && AllNear(Act(n, e, now).0.world)
    ensures Fitting(n, e.id, PacketOf(e.octets).header, Passing(e, Act(n, e, now).0.world))
  {
    var n1, w' := Lands(n, e, now), Act(n, e, now).0.world;
    LandsMayEnqueue(n, e, now);
    LandsAdds(n, e, now);
    LandsRanked(n, e, now);
    if e.id in w'.store {
      forall y | y in n.world.store
        ensures y !in Passing(e, w') && NearBy(PacketOf(e.octets).header, n.world.bundles[y].header)
      {
        DispatchLeaves(n1, e.id, e.signalId, e.address + 1, now, y);
        if y in w'.store {
          assert NearBy(w'.bundles[e.id].header, w'.bundles[y].header);
        }
      }
    }
  }

  lemma DeliverFits<T>(n: Node<T>, id: T, signalId: T, address: nat, now: nat, hidden: iset<T>)
    requires MayEnqueue(n, id) && Sound(n.world) && signalId !in n.world.bundles
    requires n.world.bundles[id].header.dst in n.registrations
    requires var w' := Deliver(n, id, signalId, address, now).0.world;
             StoreKnown(w') && AllNear(w') && (forall x :: x in hidden ==> x !in w'.store) && (signalId !in w'.store ==> signalId in hidden)
    ensures SignalFitting(n, id, signalId, now, hidden)
  {
    var n1, w' := Enqueued(n, id), Deliver(n, id, signalId, address, now).0.world;
    var b := n1.world.bundles[id];
    DeliverIs(n, id, signalId, address, now);
    EnqueuedSound(n, id);
    if b.header.custody && signalId in w'.store {
      SendRank(n1, signalId, address, now, RecordFor(b, now), n1.eid, b.header.cust, b.header.lifetime, false, 0);
      forall y | y in n1.world.store
        ensures y !in hidden && NearBy(SignalHeader(n1, b, now), n1.world.bundles[y].header)
      {
        SendStore(n1, signalId, address, now, RecordFor(b, now), n1.eid, b.header.cust, b.header.lifetime, false, 0, y);
        assert NearBy(w'.bundles[signalId].header, w'.bundles[y].header);
      }
    }
  }

  lemma ArriveFits(n: Node<Id>, e: Step, now: nat)
    requires e.Arrive? && MayAct(n, e) && Faultless(n, e) && Sound(n.world)
    requires StoreKnown(Act(n, e, now).0.world) && AllNear(Act(n, e, now).0.world)
    ensures StepFits(n, e, now, Passing(e, Act(n, e, now).0.world))
  {
    var n1 := Lands(n, e, now);
    LandsMayEnqueue(n, e, now);
    LandsAdds(n, e, now);
    TakenFits(n, e, now);
    if PacketOf(e.octets).header.dst in n.registrations {
      DeliverFits(n1, e.id, e.signalId, e.address + 1, now, Passing(e, Act(n, e, now).0.world));
    }
  }

  /** A step after which the stored sequence numbers are near keeps the order. */
  lemma ActOrderly(n: Node<Id>, e: Step, now: nat)
    requires !e.Clock? && MayAct(n, e) && Faultless(n, e) && Sound(n.world) && Orderly(n.world, iset{})
    requires StoreKnown(Act(n, e, now).0.world) && AllNear(Act(n, e, now).0.world)
    ensures Orderly(Act(n, e, now).0.world, iset{})
  {
    var w' := Act(n, e, now).0.world;
    if e.Submit? {
      SubmitFits(n, e, now);
    } else if e.Arrive? {
      ArriveFits(n, e, now);
    }
    ActKeeps(n, e, now, Passing(e, w'));
    OrderedOn(n.world, e, w');
  }

  lemma OrderedOn(w: World<Id>, e: Step, w': World<Id>)
    requires Orderly(w, iset{}) && Keeps(w, w', Passing(e, w')) && StoreKnown(w')
    ensures Orderly(w', iset{})
  {
    PassedBy(e, w');
  }

  ghost predicate OneRangeEach<T>(w: World<T>)
  {
    forall x :: x in w.bundles ==> |w.bundles[x].acks| <= 1
  }

  /** Every step keeps the ranges, near or not. */
  lemma ActRanges(n: Node<Id>, e: Step, now: nat)
    requires !e.Clock? && MayAct(n, e) && Faultless(n, e) && OneRangeEach(n.world)
    ensures OneRangeEach(Act(n, e, now).0.world)
  {
    EveryoneFits(n, e, now);
    ActKeeps(n, e, now, Everyone(n, e));
  }

  // -------------------------------------------------------------------- runs

  ghost predicate NearNet(s: Net)
  {
    forall at :: at in s.nodes ==> StoreKnown(s.nodes[at].world) && AllNear(s.nodes[at].world)
  }

  lemma {:induction false} RunOrderly(states: seq<Net>, steps: seq<Step>, i: nat, at: NodeId)
    requires Run(states, steps) && i <= |steps| && at in states[i].nodes && forall j :: 0 <= j <= i ==> NearNet(states[j])
    ensures Orderly(states[i].nodes[at].world, iset{})
  {
    if i == 0 {
      assert Blank(states[0].nodes[at]);
    } else {
      var s, e := states[i - 1], steps[i - 1];
      assert Goes(s, e, states[i]);
      RunOrderly(states, steps, i - 1, at);
      if !e.Clock? && e.at == at {
        RunSteady(states, steps, i - 1, false);
        assert Steady(s.nodes[at].world, false) && NearNet(states[i]);
        NextIs(s, e);
        ActOrderly(s.nodes[at], e, s.now);
      }
    }
  }

  /** In every state of every run no bundle has more than one acknowledged range. */
  lemma {:induction false} OneRangeThroughout(states: seq<Net>, steps: seq<Step>, i: nat, at: NodeId)
    requires Run(states, steps) && i <= |steps| && at in states[i].nodes
    ensures OneRangeEach(states[i].nodes[at].world)
  {
    if i == 0 {
      assert Blank(states[0].nodes[at]);
    } else {
      var s, e := states[i - 1], steps[i - 1];
      assert Goes(s, e, states[i]);
      OneRangeThroughout(states, steps, i - 1, at);
      if !e.Clock? && e.at == at {
        NextIs(s, e);
        ActRanges(s.nodes[at], e, s.now);
      }
    }
  }

  // --------------------------------------------------------------- deliveries

  /** `g` has lower priority value, or the same and was sent no later. */
  predicate NotBehind(g: Header, h: Header)
  {
    g.priority < h.priority ||
    (g.priority == h.priority &&
     (g.timestamp < h.timestamp || (g.timestamp == h.timestamp && g.sequence <= h.sequence)))
  }

  lemma OrderlyDelivery<T>(n: Node<T>, eid: Eid)
    requires Sound(n.world) && Orderly(n.world, iset{})
    ensures var b, l := n.world.bundles, For(n.world.bundles, n.world.store, eid);
            forall j, k :: 0 <= j < k < |l| ==> NotBehind(b[l[j]].header, b[l[k]].header)
  {
    ForQueued(n.world.bundles, n.world.store, eid, iset{});
    var l := For(n.world.bundles, n.world.store, eid);
    forall j, k | 0 <= j < k < |l| ensures NotBehind(n.world.bundles[l[j]].header, n.world.bundles[l[k]].header) {
      assert !Ahead(n.world.bundles[l[k]].header, n.world.bundles[l[j]].header);
    }
  }

  /** Delivery order: at any agent, in any state of any run whose stored sequence
      numbers stay near each other, as many calls of `Receive` in a row as there
      are whole bundles stored for an endpoint return their ADUs, each once; they
      come by priority, and within one priority by timestamp and sequence number;
      nothing else is taken out, and the next call returns nothing. */
  lemma DeliveredInOrder(states: seq<Net>, steps: seq<Step>, i: nat, at: NodeId, eid: Eid)
    requires Run(states, steps) && i <= |steps| && at in states[i].nodes && forall j :: 0 <= j <= i ==> NearNet(states[j])
    ensures var n := states[i].nodes[at];
            StoreKnown(n.world) &&
            var b, l := n.world.bundles, For(n.world.bundles, n.world.store, eid);
            var (n', adus) := ReceiveTimes(n, eid, |l|);
            Distinct(l) && Returned(b, l, adus) && HandedOut(n.world, n'.world, l) && Receive(n', eid) == (n', None)
            && forall j, k :: 0 <= j < k < |l| ==> NotBehind(b[l[j]].header, b[l[k]].header)
  {
    var n := states[i].nodes[at];
    RunSteady(states, steps, i, false);
    assert Steady(n.world, false);
    RunOrderly(states, steps, i, at);
    ReceivedInStoreOrder(n, eid);
    OrderlyDelivery(n, eid);
  }
}
