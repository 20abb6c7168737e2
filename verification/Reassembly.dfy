/**
 Reassembly is complete for every order of arrival in which each fragment after
 the first extends the run stored so far at its head or at its tail.
 */
module Reassembly {
  import opened Bytes
  import opened Bundles
  import opened Agent
  import opened Soundness
  import opened Custodial
  import opened Integrity
  import opened EndToEnd
  import opened Tiling

  /** An ADU as its destination waits for it. */
  datatype Adu = Adu(key: Key, dst: Eid, octets: seq<byte>)

  /** A fragment of it on the wire. */
  predicate PieceOf(p: Packet, a: Adu)
  {
    var h := p.header;
    KeyOf(h) == a.key && h.dst == a.dst && h.aduLength == |a.octets| && h.fragment && 0 < |p.payload| < |a.octets| &&
    h.offset + |p.payload| <= |a.octets| && p.payload == a.octets[h.offset..h.offset + |p.payload|]
  }

  /** Bundle `x` holds octets `lo` to `hi`, says so, and is the only stored one of
      the ADU. */
  ghost predicate Holder<T>(w: World<T>, a: Adu, x: T, lo: nat, hi: nat)
  {
    x in w.store && x in w.bundles && lo < hi <= |a.octets| && HoldsRun(w.bundles[x], a, lo, hi) &&
    forall y :: y in w.store && y in w.bundles && KeyOf(w.bundles[y].header) == a.key ==> y == x
  }

  predicate HoldsRun(b: Bundle, a: Adu, lo: nat, hi: nat)
    requires lo < hi <= |a.octets|
  {
    KeyOf(b.header) == a.key && b.header.dst == a.dst && b.header.offset == lo && b.header.aduLength == |a.octets| &&
    b.adu == Some(a.octets[lo..hi]) && (b.header.fragment <==> hi - lo < |a.octets|)
  }

  ghost predicate OneRun<T>(w: World<T>, a: Adu, lo: nat, hi: nat)
  {
    exists x :: x in w.store && Holder(w, a, x, lo, hi)
  }

  ghost predicate NoneStored<T>(w: World<T>, a: Adu)
  {
    forall y :: y in w.store && y in w.bundles ==> KeyOf(w.bundles[y].header) != a.key
  }

  // ------------------------------------------------------------- one landing

  /** What taking a packet off the wire adds to the world. */
  ghost predicate Added<T>(w: World<T>, w1: World<T>, id: T, b: Bundle)
  {
    Sound(w1) && id in w1.bundles && id in w1.store && w1.bundles[id] == b.(expireEvent := w1.bundles[id].expireEvent) &&
    (forall y :: y in w.store ==> y in w1.store && y in w.bundles && y in w1.bundles && w1.bundles[y] == w.bundles[y]) &&
    (forall y :: y in w1.store ==> y in w.store || y == id)
  }

  lemma TakenAdds<T>(n: Node<T>, p: Packet, id: T, address: nat, now: nat)
    requires Sound(n.world) && id !in n.world.bundles && !Expired(p.header, now)
    ensures Added(n.world, Taken(n, p, id, address, now).world, id, Arrival(p, address))
  {
    StoreNew(n.world, id, Arrival(p, address), now);
  }

  lemma FirstIsHolder<T>(w: World<T>, w1: World<T>, id: T, p: Packet, address: nat, a: Adu)
    requires Added(w, w1, id, Arrival(p, address)) && PieceOf(p, a) && NoneStored(w, a)
    ensures Holder(w1, a, id, p.header.offset, p.header.offset + |p.payload|)
  {
  }

  lemma {:induction false} WithKeyDistinct<T>(bundles: map<T, Bundle>, s: seq<T>, key: Key)
    requires Distinct(s) && forall x :: x in s ==> x in bundles
    ensures Distinct(WithKey(bundles, s, key))
  {
    if s != [] {
      assert s == [s[0]] + s[1..];
      ConsDistinct(s[0], s[1..]);
      WithKeyDistinct(bundles, s[1..], key);
      ConsDistinct(s[0], WithKey(bundles, s[1..], key));
    }
  }

  lemma {:induction false} DistinctSize<T>(s: seq<T>, t: set<T>)
    requires Distinct(s) && forall y :: y in s ==> y in t
    ensures |s| <= |t|
  {
    if s != [] {
      assert s == [s[0]] + s[1..];
      ConsDistinct(s[0], s[1..]);
      DistinctSize(s[1..], t - {s[0]});
    }
  }

  lemma OneElement<T>(s: seq<T>, x: T)
    requires Distinct(s) && x in s && forall y :: y in s ==> y == x
    ensures s == [x]
  {
    DistinctSize(s, {x});
  }

  lemma TwoElements<T>(s: seq<T>, x: T, y: T)
    requires Distinct(s) && x != y && x in s && y in s && forall z :: z in s ==> z == x || z == y
    ensures s == [x, y] || s == [y, x]
  {
    DistinctSize(s, {x, y});
  }

  /** A bundle is not adjacent to itself. */
  lemma SelfStays<T>(w: World<T>, id: T)
    requires id in w.bundles && (w.bundles[id].adu.Some? ==> Size(w.bundles[id]) > 0)
    ensures CoalesceOne(w, id, id) == w
  {
  }

  lemma CoalesceAlone<T>(w: World<T>, id: T)
    requires id in w.bundles && (w.bundles[id].adu.Some? ==> Size(w.bundles[id]) > 0)
    ensures Coalesce(w, id, [id]) == w
  {
    SelfStays(w, id);
    assert Coalesce(w, id, [id]) == Coalesce(CoalesceOne(w, id, id), id, [id][1..]);
  }

  /** In either order of the snapshot the result is that of the one real turn. */
  lemma CoalescePair<T>(w: World<T>, id: T, x: T, its: seq<T>)
    requires id in w.bundles && x in w.bundles && id != x && (its == [x, id] || its == [id, x])
    requires w.bundles[id].adu.Some? && Size(w.bundles[id]) > 0
    requires var b := CoalesceOne(w, id, x).bundles[id]; b.adu.Some? && Size(b) > 0
    ensures Coalesce(w, id, its) == CoalesceOne(w, id, x)
  {
    SelfStays(w, id);
    var w1 := CoalesceOne(w, id, x);
    SelfStays(w1, id);
    if its == [x, id] {
      CoalesceAlone(w1, id);
      assert its[1..] == [id];
    } else {
      assert its[1..] == [x];
      assert Coalesce(w, id, [x]) == Coalesce(w1, id, [x][1..]);
    }
  }

  /** Of two adjacent runs the front one holds both, and is stored alone. */
  lemma SwallowHolds<T>(w: World<T>, front: T, back: T, a: Adu, lo: nat, mid: nat, hi: nat)
    requires front in w.bundles && back in w.bundles && front != back && front in w.store && back in w.store
    requires lo < mid < hi <= |a.octets| && hi - lo <= |a.octets|
    requires HoldsRun(w.bundles[front], a, lo, mid) && HoldsRun(w.bundles[back], a, mid, hi)
    requires forall y :: y in w.store && y in w.bundles && KeyOf(w.bundles[y].header) == a.key ==> y == front || y == back
    ensures Holder(Swallow(w, front, back), a, front, lo, hi)
  {
    assert a.octets[lo..mid] + a.octets[mid..hi] == a.octets[lo..hi];
  }

  /** Packet `p` extends the run from `lo` to `hi` at its tail or at its head. */
  predicate Touches(p: Packet, lo: nat, hi: nat)
  {
    p.header.offset == hi || p.header.offset + |p.payload| == lo
  }

  function Joint<T>(p: Packet, x: T, id: T, hi: nat): T
  {
    if p.header.offset == hi then x else id
  }

  /** Bundle `id`, just added, next to the run that `x` holds. */
  ghost predicate Next<T>(w1: World<T>, id: T, x: T, p: Packet, a: Adu, lo: nat, hi: nat)
  {
    Sound(w1) && id in w1.bundles && x in w1.bundles && id != x && id in w1.store && x in w1.store &&
    lo < hi <= |a.octets| && hi - lo < |a.octets| && PieceOf(p, a) && Touches(p, lo, hi) &&
    HoldsRun(w1.bundles[x], a, lo, hi) &&
    HoldsRun(w1.bundles[id], a, p.header.offset, p.header.offset + |p.payload|) &&
    forall y :: y in w1.store && KeyOf(w1.bundles[y].header) == a.key ==> y == x || y == id
  }

  lemma AddedIsNext<T>(w: World<T>, w1: World<T>, id: T, p: Packet, address: nat, a: Adu, x: T, lo: nat, hi: nat)
    requires Added(w, w1, id, Arrival(p, address)) && id !in w.bundles && StoreKnown(w)
    requires PieceOf(p, a) && Holder(w, a, x, lo, hi) && hi - lo < |a.octets| && Touches(p, lo, hi)
    ensures Next(w1, id, x, p, a, lo, hi)
  {
  }

  lemma TurnJoins<T>(w1: World<T>, id: T, x: T, p: Packet, a: Adu, lo: nat, hi: nat)
    requires Next(w1, id, x, p, a, lo, hi)
    ensures var k := p.header.offset;
            if k == hi then Holder(CoalesceOne(w1, id, x), a, x, lo, hi + |p.payload|)
            else Holder(CoalesceOne(w1, id, x), a, id, k, hi)
    ensures var b := CoalesceOne(w1, id, x).bundles[id]; b.adu.Some? && Size(b) > 0
  {
    CoalesceOneIs(w1, id, x);
    if p.header.offset == hi {
      SwallowHolds(w1, x, id, a, lo, hi, hi + |p.payload|);
    } else {
      SwallowHolds(w1, id, x, a, p.header.offset, lo, hi);
    }
  }

  lemma SnapshotIsPair<T>(w1: World<T>, id: T, x: T, p: Packet, a: Adu, lo: nat, hi: nat)
    requires Next(w1, id, x, p, a, lo, hi)
    ensures var its := WithKey(w1.bundles, w1.store, a.key); its == [x, id] || its == [id, x]
  {
    WithKeyDistinct(w1.bundles, w1.store, a.key);
    TwoElements(WithKey(w1.bundles, w1.store, a.key), x, id);
  }

  lemma EnqueueJoins<T>(agent: Eid, w1: World<T>, id: T, x: T, p: Packet, a: Adu, lo: nat, hi: nat)
    requires Next(w1, id, x, p, a, lo, hi) && a.dst != agent
    ensures Holder(Enqueue(agent, w1, id), a, Joint(p, x, id, hi),
                   if p.header.offset == hi then lo else p.header.offset,
                   if p.header.offset == hi then hi + |p.payload| else hi)
  {
    EnqueueIs(agent, w1, id);
    SnapshotIsPair(w1, id, x, p, a, lo, hi);
    TurnJoins(w1, id, x, p, a, lo, hi);
    CoalescePair(w1, id, x, WithKey(w1.bundles, w1.store, a.key));
  }

  lemma EnqueueFirst<T>(agent: Eid, w1: World<T>, id: T, a: Adu, lo: nat, hi: nat)
    requires Sound(w1) && Holder(w1, a, id, lo, hi) && a.dst != agent
    ensures Enqueue(agent, w1, id) == w1
  {
    EnqueueIs(agent, w1, id);
    if w1.bundles[id].header.fragment {
      WithKeyDistinct(w1.bundles, w1.store, a.key);
      OneElement(WithKey(w1.bundles, w1.store, a.key), id);
      CoalesceAlone(w1, id);
    }
  }

  // ----------------------------------------------- the custody signal after it

  lemma ForwardKey<T>(n: Node<T>, id: T)
    requires Sound(n.world) && Sendable(n, id) && !IsRunning(n.world, n.world.bundles[id].nextRetrans)
    ensures id in Forward(n, id).0.world.bundles
    ensures KeyOf(Forward(n, id).0.world.bundles[id].header) == KeyOf(n.world.bundles[id].header)
  {
    var w := MarkForward(n.world, id);
    MarkSound(n.world, id);
    ForwardIs(n, id);
    if CanForward(n, w.bundles[id].header.dst) {
      TransmitSound(w, id, n.bundleSize);
      SentSound(w, id, n.bundleSize);
    }
  }

  lemma ForwardKeepsHolder<T>(n: Node<T>, id: T, a: Adu, x: T, lo: nat, hi: nat)
    requires Sound(n.world) && Sendable(n, id) && !IsRunning(n.world, n.world.bundles[id].nextRetrans)
    requires Holder(n.world, a, x, lo, hi) && x != id && KeyOf(n.world.bundles[id].header) != a.key
    ensures Holder(Forward(n, id).0.world, a, x, lo, hi)
  {
    ForwardSound(n, id);
    ForwardKey(n, id);
  }

  /** A bundle of another ADU changes nothing. */
  lemma SendKeepsHolder<T>(n: Node<T>, id: T, address: nat, now: nat, adu: seq<byte>, src: Eid, dst: Eid,
                           lifetime: nat, custody: bool, priority: nat, a: Adu, x: T, lo: nat, hi: nat)
    requires Sound(n.world) && n.bundleSize > 0 && id !in n.world.bundles && src != a.key.src
    requires Holder(n.world, a, x, lo, hi)
    ensures Holder(Send(n, id, address, now, adu, src, dst, lifetime, custody, priority).0.world, a, x, lo, hi)
  {
    if MaySend(n, src) {
      var h := OutboundHeader(n.eid, n.sequence, now, |adu|, src, dst, lifetime, custody, priority);
      AcceptedSteady(n, id, address, now, h, adu, false);
      AcceptedKeepsHolder(n, id, address, now, h, adu, a, x, lo, hi);
      ForwardKeepsHolder(Accepted(n, id, address, now, h, adu), id, a, x, lo, hi);
    }
  }

  lemma AcceptedKeepsHolder<T>(n: Node<T>, id: T, address: nat, now: nat, h: Header, adu: seq<byte>,
                               a: Adu, x: T, lo: nat, hi: nat)
    requires Sound(n.world) && id !in n.world.bundles && KeyOf(h) != a.key && Holder(n.world, a, x, lo, hi)
    ensures Holder(Accepted(n, id, address, now, h, adu).world, a, x, lo, hi)
  {
  }

  // ------------------------------------------------------------- all landings

  /** A packet taken off the wire: the objects made for it and the time. */
  datatype Landing<T> = Landing(packet: Packet, id: T, signalId: T, address: nat, now: nat)

  /** The agent can take it: its objects are new and its lifetime has not run out. */
  ghost predicate MayLandOn<T>(n: Node<T>, l: Landing<T>)
  {
    l.id !in n.world.bundles && l.signalId !in n.world.bundles && l.id != l.signalId &&
    !Expired(l.packet.header, l.now)
  }

  /** An agent that waits for the ADU: an application is registered for it, and
      its source is not the agent itself. */
  ghost predicate Awaits<T>(n: Node<T>, a: Adu)
  {
    Sound(n.world) && n.bundleSize > 0 && Active(n, a.dst) && a.dst != n.eid && a.key.src != n.eid
  }

  function Land<T(==)>(n: Node<T>, l: Landing<T>): Node<T>
    requires StoreKnown(n.world) && n.bundleSize > 0 && l.packet.header.dst != n.eid
  {
    Process(n, l.packet, l.id, l.signalId, l.address, l.now).0
  }

  lemma LandIs<T>(n: Node<T>, l: Landing<T>, a: Adu)
    requires Awaits(n, a) && PieceOf(l.packet, a) && MayLandOn(n, l)
    ensures Land(n, l) == Deliver(Taken(n, l.packet, l.id, l.address, l.now), l.id, l.signalId, l.address + 1, l.now).0
  {
    ProcessIs(n, l.packet, l.id, l.signalId, l.address, l.now);
  }

  lemma LandKeepsAwaits<T>(n: Node<T>, l: Landing<T>, a: Adu)
    requires Awaits(n, a) && PieceOf(l.packet, a) && MayLandOn(n, l)
    ensures Awaits(Land(n, l), a)
  {
    ProcessSteady(n, l.packet, l.id, l.signalId, l.address, l.now, false);
    ProcessFrame(n, l.packet, l.id, l.signalId, l.address, l.now);
  }

  /** Delivery, once the store holds the run in one bundle. */
  lemma DeliverKeepsHolder<T>(n: Node<T>, id: T, signalId: T, address: nat, now: nat, a: Adu, x: T, lo: nat, hi: nat)
    requires Awaits(n, a) && id in n.world.bundles && n.world.bundles[id].header.dst == a.dst
    requires signalId !in n.world.bundles && Holder(Enqueued(n, id).world, a, x, lo, hi)
    ensures Holder(Deliver(n, id, signalId, address, now).0.world, a, x, lo, hi)
  {
    var n1 := Enqueued(n, id);
    DeliverIs(n, id, signalId, address, now);
    EnqueueSteady(n.eid, n.world, id, false);
    var b := n1.world.bundles[id];
    if b.header.custody {
      SendKeepsHolder(n1, signalId, address, now, RecordFor(b, now), n1.eid, b.header.cust, b.header.lifetime, false, 0,
                      a, x, lo, hi);
    }
  }

  lemma LandFirst<T>(n: Node<T>, l: Landing<T>, a: Adu)
    requires Awaits(n, a) && PieceOf(l.packet, a) && MayLandOn(n, l) && NoneStored(n.world, a)
    ensures OneRun(Land(n, l).world, a, l.packet.header.offset, l.packet.header.offset + |l.packet.payload|)
  {
    var n1, k := Taken(n, l.packet, l.id, l.address, l.now), l.packet.header.offset;
    TakenAdds(n, l.packet, l.id, l.address, l.now);
    FirstIsHolder(n.world, n1.world, l.id, l.packet, l.address, a);
    EnqueueFirst(n.eid, n1.world, l.id, a, k, k + |l.packet.payload|);
    DeliverKeepsHolder(n1, l.id, l.signalId, l.address + 1, l.now, a, l.id, k, k + |l.packet.payload|);
    LandIs(n, l, a);
  }

  function Low(p: Packet, lo: nat, hi: nat): nat
  {
    if p.header.offset == hi then lo else p.header.offset
  }

  function High(p: Packet, lo: nat, hi: nat): nat
  {
    if p.header.offset == hi then hi + |p.payload| else hi
  }

  lemma TakenIsNext<T>(n: Node<T>, l: Landing<T>, a: Adu, x: T, lo: nat, hi: nat)
    requires Awaits(n, a) && PieceOf(l.packet, a) && MayLandOn(n, l) && Holder(n.world, a, x, lo, hi)
    requires hi - lo < |a.octets| && Touches(l.packet, lo, hi)
    ensures Next(Taken(n, l.packet, l.id, l.address, l.now).world, l.id, x, l.packet, a, lo, hi)
  {
    TakenAdds(n, l.packet, l.id, l.address, l.now);
    AddedIsNext(n.world, Taken(n, l.packet, l.id, l.address, l.now).world, l.id, l.packet, l.address, a, x, lo, hi);
  }

  lemma EnqueuedIs<T>(n: Node<T>, id: T, x: T, p: Packet, a: Adu, lo: nat, hi: nat)
    requires Awaits(n, a) && Next(n.world, id, x, p, a, lo, hi)
    ensures Enqueued(n, id).world == Enqueue(n.eid, n.world, id)
  {
  }

  lemma EnqueuedJoins<T>(n: Node<T>, id: T, x: T, p: Packet, a: Adu, lo: nat, hi: nat)
    requires Awaits(n, a) && Next(n.world, id, x, p, a, lo, hi)
    ensures Holder(Enqueued(n, id).world, a, Joint(p, x, id, hi), Low(p, lo, hi), High(p, lo, hi))
  {
    EnqueuedIs(n, id, x, p, a, lo, hi);
    EnqueueJoins(n.eid, n.world, id, x, p, a, lo, hi);
    Ends(Enqueue(n.eid, n.world, id), p, a, Joint(p, x, id, hi), lo, hi);
  }

  lemma Ends<T>(w: World<T>, p: Packet, a: Adu, x: T, lo: nat, hi: nat)
    requires Holder(w, a, x, if p.header.offset == hi then lo else p.header.offset,
                    if p.header.offset == hi then hi + |p.payload| else hi)
    ensures Holder(w, a, x, Low(p, lo, hi), High(p, lo, hi))
  {
  }

  lemma LandNextHolder<T>(n: Node<T>, l: Landing<T>, a: Adu, x: T, lo: nat, hi: nat)
    requires Awaits(n, a) && PieceOf(l.packet, a) && MayLandOn(n, l) && Holder(n.world, a, x, lo, hi)
    requires hi - lo < |a.octets| && Touches(l.packet, lo, hi)
    ensures Holder(Land(n, l).world, a, Joint(l.packet, x, l.id, hi), Low(l.packet, lo, hi), High(l.packet, lo, hi))
  {
    var n1 := Taken(n, l.packet, l.id, l.address, l.now);
    TakenIsNext(n, l, a, x, lo, hi);
    EnqueuedJoins(n1, l.id, x, l.packet, a, lo, hi);
    DeliverKeepsHolder(n1, l.id, l.signalId, l.address + 1, l.now, a, Joint(l.packet, x, l.id, hi),
                       Low(l.packet, lo, hi), High(l.packet, lo, hi));
    LandIs(n, l, a);
  }

  lemma LandNext<T>(n: Node<T>, l: Landing<T>, a: Adu, lo: nat, hi: nat)
    requires Awaits(n, a) && PieceOf(l.packet, a) && MayLandOn(n, l) && OneRun(n.world, a, lo, hi)
    requires hi - lo < |a.octets| && Touches(l.packet, lo, hi)
    ensures OneRun(Land(n, l).world, a, Low(l.packet, lo, hi), High(l.packet, lo, hi))
  {
    var x :| x in n.world.store && Holder(n.world, a, x, lo, hi);
    LandNextHolder(n, l, a, x, lo, hi);
  }

  /** What the first `k` packets make one run of. */
  function Reach(packets: seq<Packet>, k: nat): (nat, nat)
    requires 1 <= k <= |packets|
  {
    var p := packets[k - 1];
    if k == 1 then (p.header.offset, p.header.offset + |p.payload|)
    else
      var (lo, hi) := Reach(packets, k - 1);
      (Low(p, lo, hi), High(p, lo, hi))
  }

  /** Every packet after the first extends the run there is, which is not yet all. */
  predicate Extending(packets: seq<Packet>, a: Adu)
  {
    |packets| > 0 && (forall p :: p in packets ==> PieceOf(p, a)) &&
    forall k :: 1 <= k < |packets| ==> ExtendsRun(packets, k, a)
  }

  predicate ExtendsRun(packets: seq<Packet>, k: nat, a: Adu)
    requires 1 <= k < |packets|
  {
    var (lo, hi) := Reach(packets, k);
    hi - lo < |a.octets| && Touches(packets[k], lo, hi)
  }

  ghost predicate LandsTo<T>(n: Node<T>, l: Landing<T>, n': Node<T>)
  {
    StoreKnown(n.world) && n.bundleSize > 0 && l.packet.header.dst != n.eid && MayLandOn(n, l) && n' == Land(n, l)
  }

  function PacketsIn<T>(ls: seq<Landing<T>>): (r: seq<Packet>)
    ensures |r| == |ls| && forall i :: 0 <= i < |ls| ==> r[i] == ls[i].packet
  {
    seq(|ls|, i requires 0 <= i < |ls| => ls[i].packet)
  }

  /** The packets of the ADU land one after the other at an agent that waits for
      it and has none of it yet. */
  ghost predicate Landings<T>(nodes: seq<Node<T>>, ls: seq<Landing<T>>, a: Adu)
  {
    |nodes| == |ls| + 1 && Awaits(nodes[0], a) && NoneStored(nodes[0].world, a) && Extending(PacketsIn(ls), a) &&
    forall i :: 0 <= i < |ls| ==> LandsTo(nodes[i], ls[i], nodes[i + 1])
  }

  /** The first `k` packets are stored in one bundle. */
  ghost predicate Gathered<T>(n: Node<T>, a: Adu, packets: seq<Packet>, k: nat)
  {
    1 <= k <= |packets| && Awaits(n, a) && OneRun(n.world, a, Reach(packets, k).0, Reach(packets, k).1)
  }

  lemma RunGrows<T>(n: Node<T>, l: Landing<T>, n': Node<T>, a: Adu, packets: seq<Packet>, k: nat)
    requires LandsTo(n, l, n') && PieceOf(l.packet, a) && 1 <= k < |packets| && packets[k] == l.packet
    requires Gathered(n, a, packets, k) && ExtendsRun(packets, k, a)
    ensures Gathered(n', a, packets, k + 1)
  {
    LandNext(n, l, a, Reach(packets, k).0, Reach(packets, k).1);
    LandKeepsAwaits(n, l, a);
  }

  /** The packet alone is stored. */
  ghost predicate HasFirst<T>(n: Node<T>, a: Adu, p: Packet)
  {
    Awaits(n, a) && OneRun(n.world, a, p.header.offset, p.header.offset + |p.payload|)
  }

  lemma GatheredFirst<T>(n: Node<T>, a: Adu, packets: seq<Packet>, p: Packet)
    requires |packets| > 0 && p == packets[0] && HasFirst(n, a, p)
    ensures Gathered(n, a, packets, 1)
  {
    assert Reach(packets, 1) == (p.header.offset, p.header.offset + |p.payload|);
  }

  lemma RunBegins<T>(n: Node<T>, l: Landing<T>, n': Node<T>, a: Adu)
    requires LandsTo(n, l, n') && Awaits(n, a) && PieceOf(l.packet, a) && NoneStored(n.world, a)
    ensures HasFirst(n', a, l.packet)
  {
    LandFirst(n, l, a);
    LandKeepsAwaits(n, l, a);
  }

  lemma OneGathered<T>(n: Node<T>, l: Landing<T>, n': Node<T>, a: Adu, packets: seq<Packet>)
    requires LandsTo(n, l, n') && Awaits(n, a) && PieceOf(l.packet, a) && NoneStored(n.world, a)
    requires |packets| > 0 && packets[0] == l.packet
    ensures Gathered(n', a, packets, 1)
  {
    RunBegins(n, l, n', a);
    GatheredFirst(n', a, packets, l.packet);
  }

  /** After every arrival exactly one bundle of the ADU is stored, and it holds
      what has arrived. */
  lemma {:induction false} OneRunThroughout<T>(nodes: seq<Node<T>>, ls: seq<Landing<T>>, a: Adu, k: nat)
    requires Landings(nodes, ls, a) && 1 <= k <= |ls|
    ensures Gathered(nodes[k], a, PacketsIn(ls), k)
  {
    var packets := PacketsIn(ls);
    assert LandsTo(nodes[k - 1], ls[k - 1], nodes[k]) && packets[k - 1] in packets;
    if k == 1 {
      OneGathered(nodes[0], ls[0], nodes[1], a, packets);
    } else {
      OneRunThroughout(nodes, ls, a, k - 1);
      RunGrows(nodes[k - 1], ls[k - 1], nodes[k], a, packets, k - 1);
    }
  }

  /** What `Receive` finds when it is the only thing for its endpoint. */
  lemma WholeIsReceived<T>(n: Node<T>, a: Adu)
    requires StoreKnown(n.world) && 0 < |a.octets| && OneRun(n.world, a, 0, |a.octets|)
    requires forall y :: y in n.world.store && Wanted(n.world.bundles[y], a.dst, false) ==>
               KeyOf(n.world.bundles[y].header) == a.key
    ensures Receive(n, a.dst).1 == Some(a.octets)
  {
    var x :| x in n.world.store && Holder(n.world, a, x, 0, |a.octets|);
    assert a.octets[0..|a.octets|] == a.octets;
    assert Wanted(n.world.bundles[x], a.dst, false);
    var found := FirstFor(n.world.bundles, n.world.store, a.dst, false);
    assert found.Some? && found.value == x;
  }

  /** Reassembly is complete: once the run is the whole ADU, the one stored bundle
      of it is not a fragment any more, and `Receive` returns the ADU unless
      another one waits for the same endpoint. */
  lemma {:induction false} Reassembles<T>(nodes: seq<Node<T>>, ls: seq<Landing<T>>, a: Adu)
    requires Landings(nodes, ls, a) && Reach(PacketsIn(ls), |ls|) == (0, |a.octets|)
    ensures StoreKnown(nodes[|ls|].world) && 0 < |a.octets| && OneRun(nodes[|ls|].world, a, 0, |a.octets|)
    ensures var n := nodes[|ls|];
            (forall y :: y in n.world.store && Wanted(n.world.bundles[y], a.dst, false) ==>
               KeyOf(n.world.bundles[y].header) == a.key)
            ==> Receive(n, a.dst).1 == Some(a.octets)
  {
    var n := nodes[|ls|];
    OneRunThroughout(nodes, ls, a, |ls|);
    assert PacketsIn(ls)[0] in PacketsIn(ls);
    if forall y :: y in n.world.store && Wanted(n.world.bundles[y], a.dst, false) ==>
         KeyOf(n.world.bundles[y].header) == a.key {
      WholeIsReceived(n, a);
    }
  }

  // --------------------------------------------------- orders that are covered

  /** The packets `Forward` cuts the ADU into, for the given header. */
  ghost predicate TilesOf(packets: seq<Packet>, h: Header, a: Adu, size: nat)
  {
    0 < size < |a.octets| && KeyOf(h) == a.key && h.dst == a.dst && h.aduLength == |a.octets| &&
    packets == SendSlices(h, a.octets, size, |a.octets|).1
  }

  lemma TilePlace(packets: seq<Packet>, h: Header, a: Adu, size: nat, i: nat)
    requires TilesOf(packets, h, a, size) && i < |packets|
    ensures PieceOf(packets[i], a) && packets[i].header.offset == i * size
    ensures i * size + |packets[i].payload| == if i == |packets| - 1 then |a.octets| else (i + 1) * size
    ensures i < |packets| - 1 ==> (i + 1) * size < |a.octets|
  {
    ForwardTiles(h, a.octets, size);
    TilesIsLeast(|a.octets|, size);
    assert (i + 1) * size == i * size + size;
    if i < |packets| - 1 {
      assert IsTile(packets[i + 1], h, a.octets, size, (i + 1) * size);
    }
  }

  lemma {:induction false} InOrderReach(packets: seq<Packet>, h: Header, a: Adu, size: nat, k: nat)
    requires TilesOf(packets, h, a, size) && 1 <= k <= |packets|
    ensures Reach(packets, k) == (0, if k == |packets| then |a.octets| else k * size)
    ensures k < |packets| ==> k * size < |a.octets|
  {
    TilePlace(packets, h, a, size, k - 1);
    if k > 1 {
      InOrderReach(packets, h, a, size, k - 1);
    }
  }

  /** Fragments that arrive in the order they were sent make the whole ADU. */
  lemma InOrder(packets: seq<Packet>, h: Header, a: Adu, size: nat)
    requires TilesOf(packets, h, a, size)
    ensures Extending(packets, a) && Reach(packets, |packets|) == (0, |a.octets|)
  {
    ForwardTiles(h, a.octets, size);
    TilesIsLeast(|a.octets|, size);
    forall p | p in packets ensures PieceOf(p, a) {
      var i :| 0 <= i < |packets| && packets[i] == p;
      TilePlace(packets, h, a, size, i);
    }
    forall k | 1 <= k < |packets| ensures ExtendsRun(packets, k, a) {
      InOrderReach(packets, h, a, size, k);
      TilePlace(packets, h, a, size, k);
    }
    InOrderReach(packets, h, a, size, |packets|);
  }

  function Backwards(packets: seq<Packet>): (r: seq<Packet>)
    ensures |r| == |packets| && forall i :: 0 <= i < |packets| ==> r[i] == packets[|packets| - 1 - i]
  {
    seq(|packets|, i requires 0 <= i < |packets| => packets[|packets| - 1 - i])
  }

  lemma {:induction false} BackwardsReach(packets: seq<Packet>, h: Header, a: Adu, size: nat, k: nat)
    requires TilesOf(packets, h, a, size) && 1 <= k <= |packets|
    ensures Reach(Backwards(packets), k) == ((|packets| - k) * size, |a.octets|)
  {
    TilePlace(packets, h, a, size, |packets| - k);
    if k > 1 {
      BackwardsReach(packets, h, a, size, k - 1);
    }
  }

  lemma BackwardsPieces(packets: seq<Packet>, h: Header, a: Adu, size: nat)
    requires TilesOf(packets, h, a, size)
    ensures |packets| > 0 && forall p :: p in Backwards(packets) ==> PieceOf(p, a)
  {
    ForwardTiles(h, a.octets, size);
    TilesIsLeast(|a.octets|, size);
    var back := Backwards(packets);
    forall p | p in back ensures PieceOf(p, a) {
      var i :| 0 <= i < |back| && back[i] == p;
      TilePlace(packets, h, a, size, |packets| - 1 - i);
    }
  }

  lemma BackwardsExtends(packets: seq<Packet>, h: Header, a: Adu, size: nat, k: nat)
    requires TilesOf(packets, h, a, size) && 1 <= k < |packets|
    ensures ExtendsRun(Backwards(packets), k, a)
  {
    BackwardsReach(packets, h, a, size, k);
    TilePlace(packets, h, a, size, |packets| - 1 - k);
  }

  /** So do fragments that arrive in the reverse order. */
  lemma Reverse(packets: seq<Packet>, h: Header, a: Adu, size: nat)
    requires TilesOf(packets, h, a, size)
    ensures Extending(Backwards(packets), a) && Reach(Backwards(packets), |packets|) == (0, |a.octets|)
  {
    BackwardsPieces(packets, h, a, size);
    forall k | 1 <= k < |packets| ensures ExtendsRun(Backwards(packets), k, a) {
      BackwardsExtends(packets, h, a, size, k);
    }
    BackwardsReach(packets, h, a, size, |packets|);
  }
}
