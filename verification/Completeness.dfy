/**
 Reassembly over whole orders of arrival: the fragments of an ADU, each landing
 once, end as the whole ADU exactly when each after the first extends the run
 stored so far at its head or at its tail. Repeated, they stay in one bundle
 under the same condition.
 */
module Completeness {
  import opened Bytes
  import opened Bundles
  import opened Agent
  import opened Reassembly
  import opened Gaps
  import opened Endpoint
  import opened Custodial
  import opened Integrity

  // ------------------------------------------------------------- the fragments

  predicate Spans(p: Packet, q: nat)
  {
    p.header.offset <= q < End(p)
  }

  /** One of the first `k` packets carries octet `q`. */
  ghost predicate Carried(packets: seq<Packet>, k: nat, q: nat)
  {
    exists i :: 0 <= i < k && i < |packets| && Spans(packets[i], q)
  }

  /** The packets are fragments of the ADU with one priority, and each of its
      octets is in one of them and in no other. */
  ghost predicate Partition(packets: seq<Packet>, a: Adu, priority: nat)
  {
    |packets| > 0 && (forall p :: p in packets ==> PieceOf(p, a) && p.header.priority == priority) &&
    (forall q :: 0 <= q < |a.octets| ==> Carried(packets, |packets|, q)) &&
    forall i, j :: 0 <= i < j < |packets| ==> Disjoint(packets[i], packets[j])
  }

  predicate Disjoint(p: Packet, r: Packet)
  {
    End(p) <= r.header.offset || End(r) <= p.header.offset
  }

  lemma NotCarriedYet(packets: seq<Packet>, a: Adu, priority: nat, k: nat, q: nat)
    requires Partition(packets, a, priority) && k < |packets| && Spans(packets[k], q)
    ensures !Carried(packets, k, q)
  {
    forall i | 0 <= i < k ensures !Spans(packets[i], q) {
      assert Disjoint(packets[i], packets[k]);
    }
  }

  lemma StillCarried(packets: seq<Packet>, k: nat, k': nat, q: nat)
    requires Carried(packets, k, q) && k <= k'
    ensures Carried(packets, k', q)
  {
    var i :| 0 <= i < k && i < |packets| && Spans(packets[i], q);
    assert Spans(packets[i], q) && i < k';
  }

  // ---------------------------------------------------------------- the agent

  /** Every octet stored of the ADU came in one of the first `k` packets. */
  ghost predicate Within<T>(w: World<T>, a: Adu, packets: seq<Packet>, k: nat)
  {
    forall q :: Stored(w, a, q) ==> Carried(packets, k, q)
  }

  ghost predicate Stage<T>(n: Node<T>, a: Adu, priority: nat, packets: seq<Packet>, k: nat)
  {
    Awaits(n, a) && SortedWorld(n.world) && Parts(n.world, a, priority) && Within(n.world, a, packets, k)
  }

  /** Packet `k` of a partition lands. */
  ghost predicate Turn<T>(n: Node<T>, l: Landing<T>, n': Node<T>, a: Adu, priority: nat, packets: seq<Packet>, k: nat)
  {
    Stage(n, a, priority, packets, k) && Partition(packets, a, priority) && k < |packets| && packets[k] == l.packet &&
    LandsTo(n, l, n') && StaysComparable(n, l)
  }

  lemma TurnIsFresh<T>(n: Node<T>, l: Landing<T>, n': Node<T>, a: Adu, priority: nat, packets: seq<Packet>, k: nat)
    requires Turn(n, l, n', a, priority, packets, k)
    ensures Fresh(n, l, a, priority)
  {
    var p := l.packet;
    assert p in packets;
    forall y | y in Mine(n.world, a)
      ensures Hi(n.world.bundles[y]) <= p.header.offset || End(p) <= Lo(n.world.bundles[y])
    {
      var b := n.world.bundles[y];
      assert RunOf(b, a, priority);
      if !(Hi(b) <= p.header.offset || End(p) <= Lo(b)) {
        var q := if Lo(b) <= p.header.offset then p.header.offset else Lo(b);
        assert Stored(n.world, a, q) && Spans(p, q);
        NotCarriedYet(packets, a, priority, k, q);
      }
    }
  }

  /** The landing, with the runs it touches. */
  ghost predicate Moves<T>(n: Node<T>, l: Landing<T>, n': Node<T>, a: Adu, priority: nat,
                           front: Option<T>, back: Option<T>)
  {
    Lands(n.world, n'.world, l.id, a, priority, l.packet.header.offset, End(l.packet), front, back)
  }

  lemma TurnMoves<T>(n: Node<T>, l: Landing<T>, n': Node<T>, a: Adu, priority: nat, packets: seq<Packet>, k: nat)
    returns (front: Option<T>, back: Option<T>)
    requires Turn(n, l, n', a, priority, packets, k)
    ensures Moves(n, l, n', a, priority, front, back) && Awaits(n', a) && SortedWorld(n'.world)
  {
    TurnIsFresh(n, l, n', a, priority, packets, k);
    front, back := FindNeighbours(n.world, a, priority, l.packet.header.offset, End(l.packet));
    TakenSorted(n, l, a, priority);
    LandGrows(n, l, a, priority, front, back);
    LandSorted(n, l, a, priority, front, back);
    LandKeepsAwaits(n, l, a);
  }

  lemma TurnKeepsStage<T>(n: Node<T>, l: Landing<T>, n': Node<T>, a: Adu, priority: nat, packets: seq<Packet>, k: nat)
    requires Turn(n, l, n', a, priority, packets, k)
    ensures Stage(n', a, priority, packets, k + 1)
  {
    var front, back := TurnMoves(n, l, n', a, priority, packets, k);
    PartsKept(n.world, n'.world, l.id, a, priority, l.packet.header.offset, End(l.packet), front, back);
    forall q | Stored(n'.world, a, q) ensures Carried(packets, k + 1, q) {
      StoredBefore(n.world, n'.world, l.id, a, priority, l.packet.header.offset, End(l.packet), front, back, q);
      if Stored(n.world, a, q) {
        StillCarried(packets, k, k + 1, q);
      } else {
        assert Spans(packets[k], q);
      }
    }
  }

  // ----------------------------------------------------------------- broken

  /** Octet `q` has arrived and is stored no more. */
  ghost predicate Lost<T>(w: World<T>, a: Adu, packets: seq<Packet>, k: nat, q: nat)
  {
    Carried(packets, k, q) && !Stored(w, a, q)
  }

  /** There are two runs, or octets are lost. */
  ghost predicate Broken<T>(w: World<T>, a: Adu, packets: seq<Packet>, k: nat)
  {
    Two(w, a) || exists q :: Lost(w, a, packets, k, q)
  }

  lemma LostStays<T>(n: Node<T>, l: Landing<T>, n': Node<T>, a: Adu, priority: nat, packets: seq<Packet>, k: nat, q: nat)
    requires Turn(n, l, n', a, priority, packets, k) && Lost(n.world, a, packets, k, q)
    ensures Lost(n'.world, a, packets, k + 1, q)
  {
    var front, back := TurnMoves(n, l, n', a, priority, packets, k);
    StillCarried(packets, k, k + 1, q);
    if Stored(n'.world, a, q) {
      StoredBefore(n.world, n'.world, l.id, a, priority, l.packet.header.offset, End(l.packet), front, back, q);
      NotCarriedYet(packets, a, priority, k, q);
    }
  }

  /** Once broken it stays broken. */
  lemma BrokenStays<T>(n: Node<T>, l: Landing<T>, n': Node<T>, a: Adu, priority: nat, packets: seq<Packet>, k: nat)
    requires Turn(n, l, n', a, priority, packets, k) && Broken(n.world, a, packets, k)
    ensures Broken(n'.world, a, packets, k + 1)
  {
    if Two(n.world, a) {
      var front, back := TurnMoves(n, l, n', a, priority, packets, k);
      TwoStayOrLose(n.world, n'.world, l.id, a, priority, l.packet.header.offset, End(l.packet), front, back);
      if !Two(n'.world, a) {
        StillCarried(packets, k, k + 1, End(l.packet));
        assert Lost(n'.world, a, packets, k + 1, End(l.packet));
      }
    } else {
      var q :| Lost(n.world, a, packets, k, q);
      LostStays(n, l, n', a, priority, packets, k, q);
    }
  }

  /** What is whole is not broken. */
  lemma WholeIsNotBroken<T>(w: World<T>, a: Adu, priority: nat, packets: seq<Packet>, k: nat)
    requires OneRun(w, a, 0, |a.octets|) && Partition(packets, a, priority) && StoreKnown(w)
    ensures !Broken(w, a, packets, k)
  {
    var x :| x in w.store && Holder(w, a, x, 0, |a.octets|);
    assert forall y :: y in Mine(w, a) ==> y == x;
    assert x in Mine(w, a) && Lo(w.bundles[x]) == 0 && Hi(w.bundles[x]) == |a.octets|;
    forall q | Carried(packets, k, q) ensures Stored(w, a, q) {
      var i :| 0 <= i < k && i < |packets| && Spans(packets[i], q);
      assert packets[i] in packets;
    }
  }

  lemma TwoNow<T>(w: World<T>, w': World<T>, id: T, a: Adu, priority: nat, lo: nat, hi: nat,
                  front: Option<T>, back: Option<T>, x: T)
    requires Lands(w, w', id, a, priority, lo, hi, front, back) && x in Mine(w, a) && front.None? && back != Some(x)
    ensures Two(w', a)
  {
    Stays(w, w', id, a, priority, lo, hi, front, back, x);
    TakerIs(w, w', id, a, priority, lo, hi, front, back);
  }

  lemma TheRun<T>(n: Node<T>, a: Adu, packets: seq<Packet>, k: nat) returns (x: T)
    requires Gathered(n, a, packets, k)
    ensures Mine(n.world, a) == {x} && Lo(n.world.bundles[x]) == Reach(packets, k).0
    ensures Hi(n.world.bundles[x]) == Reach(packets, k).1
  {
    var (lo, hi) := Reach(packets, k);
    x :| x in n.world.store && Holder(n.world, a, x, lo, hi);
    assert x in Mine(n.world, a) && forall y :: y in Mine(n.world, a) ==> y == x;
  }

  /** A fragment that does not touch the one run makes a second. */
  lemma GapBreaks<T>(n: Node<T>, l: Landing<T>, n': Node<T>, a: Adu, priority: nat, packets: seq<Packet>, k: nat)
    requires Turn(n, l, n', a, priority, packets, k) && Gathered(n, a, packets, k) && !ExtendsRun(packets, k, a)
    ensures Two(n'.world, a)
  {
    var x := TheRun(n, a, packets, k);
    assert x in Mine(n.world, a);
    var front, back := TurnMoves(n, l, n', a, priority, packets, k);
    RoomLeft(n, l, n', a, priority, packets, k, x);
    TwoNow(n.world, n'.world, l.id, a, priority, l.packet.header.offset, End(l.packet), front, back, x);
  }

  /** While a packet is still to come the run is not the whole ADU. */
  lemma RoomLeft<T>(n: Node<T>, l: Landing<T>, n': Node<T>, a: Adu, priority: nat, packets: seq<Packet>, k: nat, x: T)
    requires Turn(n, l, n', a, priority, packets, k) && x in Mine(n.world, a)
    ensures Hi(n.world.bundles[x]) - Lo(n.world.bundles[x]) < |a.octets|
  {
    var p, b := l.packet, n.world.bundles[x];
    assert p in packets && RunOf(b, a, priority);
    if Hi(b) - Lo(b) == |a.octets| {
      assert Stored(n.world, a, p.header.offset) && Spans(p, p.header.offset);
      NotCarriedYet(packets, a, priority, k, p.header.offset);
    }
  }

  // ------------------------------------------------------------------ all orders

  /** The fragments of a partition land one after the other, in any order, at an
      agent that waits for the ADU, has none of it yet, and has a sorted store. */
  ghost predicate Arrivals<T>(nodes: seq<Node<T>>, ls: seq<Landing<T>>, a: Adu, priority: nat)
  {
    |nodes| == |ls| + 1 && Awaits(nodes[0], a) && NoneStored(nodes[0].world, a) && SortedWorld(nodes[0].world) &&
    Partition(PacketsIn(ls), a, priority) &&
    forall i :: 0 <= i < |ls| ==> LandsTo(nodes[i], ls[i], nodes[i + 1]) && StaysComparable(nodes[i], ls[i])
  }

  lemma {:induction false} StageAt<T>(nodes: seq<Node<T>>, ls: seq<Landing<T>>, a: Adu, priority: nat, k: nat)
    requires Arrivals(nodes, ls, a, priority) && k <= |ls|
    ensures Stage(nodes[k], a, priority, PacketsIn(ls), k)
  {
    if k == 0 {
      assert Mine(nodes[0].world, a) == {};
    } else {
      StageAt(nodes, ls, a, priority, k - 1);
      assert LandsTo(nodes[k - 1], ls[k - 1], nodes[k]);
      TurnKeepsStage(nodes[k - 1], ls[k - 1], nodes[k], a, priority, PacketsIn(ls), k - 1);
    }
  }

  lemma TurnAt<T>(nodes: seq<Node<T>>, ls: seq<Landing<T>>, a: Adu, priority: nat, k: nat)
    requires Arrivals(nodes, ls, a, priority) && k < |ls|
    ensures Turn(nodes[k], ls[k], nodes[k + 1], a, priority, PacketsIn(ls), k)
  {
    StageAt(nodes, ls, a, priority, k);
  }

  /** The first `k` packets have made one run, each extending it. */
  ghost predicate Smooth<T>(n: Node<T>, a: Adu, packets: seq<Packet>, k: nat)
  {
    Gathered(n, a, packets, k) && AllExtend(packets, a, k)
  }

  ghost predicate AllExtend(packets: seq<Packet>, a: Adu, k: nat)
    requires k <= |packets|
  {
    forall j :: 1 <= j < k ==> ExtendsRun(packets, j, a)
  }

  lemma OneMoreExtends(packets: seq<Packet>, a: Adu, k: nat)
    requires 1 <= k < |packets| && AllExtend(packets, a, k) && ExtendsRun(packets, k, a)
    ensures AllExtend(packets, a, k + 1)
  {
  }

  ghost predicate SmoothOrNot<T>(n: Node<T>, a: Adu, packets: seq<Packet>, k: nat)
  {
    Smooth(n, a, packets, k) || Broken(n.world, a, packets, k)
  }

  lemma FirstIsSmooth<T>(n: Node<T>, l: Landing<T>, n': Node<T>, a: Adu, priority: nat, packets: seq<Packet>)
    requires Turn(n, l, n', a, priority, packets, 0) && NoneStored(n.world, a)
    ensures Smooth(n', a, packets, 1)
  {
    assert packets[0] in packets;
    OneGathered(n, l, n', a, packets);
  }

  lemma SmoothOn<T>(n: Node<T>, l: Landing<T>, n': Node<T>, a: Adu, priority: nat, packets: seq<Packet>, k: nat)
    requires Turn(n, l, n', a, priority, packets, k) && Smooth(n, a, packets, k) && ExtendsRun(packets, k, a)
    ensures Smooth(n', a, packets, k + 1)
  {
    assert packets[k] in packets;
    OneMoreExtends(packets, a, k);
    RunGrows(n, l, n', a, packets, k);
  }

  lemma Onward<T>(n: Node<T>, l: Landing<T>, n': Node<T>, a: Adu, priority: nat, packets: seq<Packet>, k: nat)
    requires Turn(n, l, n', a, priority, packets, k) && SmoothOrNot(n, a, packets, k)
    ensures SmoothOrNot(n', a, packets, k + 1)
  {
    if Broken(n.world, a, packets, k) {
      BrokenStays(n, l, n', a, priority, packets, k);
    } else if ExtendsRun(packets, k, a) {
      SmoothOn(n, l, n', a, priority, packets, k);
    } else {
      GapBreaks(n, l, n', a, priority, packets, k);
    }
  }

  /** After the first landing it is one run or broken for good. */
  lemma {:induction false} SmoothOrBroken<T>(nodes: seq<Node<T>>, ls: seq<Landing<T>>, a: Adu, priority: nat, k: nat)
    requires Arrivals(nodes, ls, a, priority) && 1 <= k <= |ls|
    ensures SmoothOrNot(nodes[k], a, PacketsIn(ls), k)
  {
    TurnAt(nodes, ls, a, priority, k - 1);
    if k == 1 {
      FirstIsSmooth(nodes[0], ls[0], nodes[1], a, priority, PacketsIn(ls));
    } else {
      SmoothOrBroken(nodes, ls, a, priority, k - 1);
      Onward(nodes[k - 1], ls[k - 1], nodes[k], a, priority, PacketsIn(ls), k - 1);
    }
  }

  /** What the run reaches takes in every packet so far. */
  lemma {:induction false} ReachHolds(packets: seq<Packet>, a: Adu, k: nat, i: nat)
    requires Extending(packets, a) && i < k <= |packets|
    ensures Reach(packets, k).0 <= packets[i].header.offset && End(packets[i]) <= Reach(packets, k).1 <= |a.octets|
  {
    assert packets[k - 1] in packets;
    if k > 1 {
      assert ExtendsRun(packets, k - 1, a);
      ReachHolds(packets, a, k - 1, if i < k - 1 then i else 0);
    }
  }

  lemma ReachesOctet(packets: seq<Packet>, a: Adu, priority: nat, q: nat)
    requires Partition(packets, a, priority) && Extending(packets, a) && q < |a.octets|
    ensures Reach(packets, |packets|).0 <= q < Reach(packets, |packets|).1 <= |a.octets|
  {
    assert Carried(packets, |packets|, q);
    var i :| 0 <= i < |packets| && Spans(packets[i], q);
    ReachHolds(packets, a, |packets|, i);
  }

  /** Extending packets that carry every octet reach from end to end. */
  lemma ReachesAll(packets: seq<Packet>, a: Adu, priority: nat)
    requires Partition(packets, a, priority) && Extending(packets, a)
    ensures Reach(packets, |packets|) == (0, |a.octets|)
  {
    assert packets[0] in packets;
    ReachesOctet(packets, a, priority, 0);
    ReachesOctet(packets, a, priority, |a.octets| - 1);
    FromEndToEnd(Reach(packets, |packets|), |a.octets|);
  }

  lemma FromEndToEnd(r: (nat, nat), n: nat)
    requires r.0 <= 0 && n - 1 < r.1 <= n
    ensures r == (0, n)
  {
  }

  /** Completeness of reassembly: whatever the order in which the fragments of an
      ADU land, each once, at an agent that waits for it, the ADU ends stored whole
      and alone if and only if each fragment after the first extends the run stored
      so far. */
  lemma WholeIffExtending<T>(nodes: seq<Node<T>>, ls: seq<Landing<T>>, a: Adu, priority: nat)
    requires Arrivals(nodes, ls, a, priority)
    ensures OneRun(nodes[|ls|].world, a, 0, |a.octets|) <==> Extending(PacketsIn(ls), a)
  {
    var packets := PacketsIn(ls);
    if Extending(packets, a) {
      ReachesAll(packets, a, priority);
      Reassembles(nodes, ls, a);
    } else {
      SmoothOrBroken(nodes, ls, a, priority, |ls|);
      StageAt(nodes, ls, a, priority, |ls|);
      if OneRun(nodes[|ls|].world, a, 0, |a.octets|) {
        WholeIsNotBroken(nodes[|ls|].world, a, priority, packets, |ls|);
      }
    }
  }

  // ------------------------------------------------------------- with repetitions

  /** Any fragments of the ADU, any number of times each. */
  ghost predicate AnyArrivals<T>(nodes: seq<Node<T>>, ls: seq<Landing<T>>, a: Adu)
  {
    |nodes| == |ls| + 1 && |ls| > 0 && Awaits(nodes[0], a) && NoneStored(nodes[0].world, a) &&
    forall i :: 0 <= i < |ls| ==> LandsTo(nodes[i], ls[i], nodes[i + 1]) && PieceOf(ls[i].packet, a)
  }

  ghost predicate SomeRun<T>(w: World<T>, a: Adu)
  {
    exists lo, hi :: OneRun(w, a, lo, hi)
  }

  lemma TwoAreNotOne<T>(w: World<T>, a: Adu, x: T, y: T)
    requires x in Mine(w, a) && y in Mine(w, a) && x != y
    ensures !SomeRun(w, a)
  {
    forall lo, hi ensures !OneRun(w, a, lo, hi) {
      forall z | z in w.store ensures !Holder(w, a, z, lo, hi) {
      }
    }
  }

  /** A fragment that does not touch the one run stays beside it, new octets or not. */
  lemma MissStaysBeside<T>(n: Node<T>, l: Landing<T>, a: Adu, x: T, lo: nat, hi: nat)
    requires Awaits(n, a) && PieceOf(l.packet, a) && MayLandOn(n, l) && Holder(n.world, a, x, lo, hi)
    requires !Touches(l.packet, lo, hi)
    ensures !SomeRun(Land(n, l).world, a)
  {
    var n1 := Taken(n, l.packet, l.id, l.address, l.now);
    TakenAdds(n, l.packet, l.id, l.address, l.now);
    AddedMine(n.world, n1.world, l.id, l.packet, l.address, a);
    MissIsIdle(n1, l, a, x, lo, hi);
    SignalParts(n1, l.id, l.signalId, l.address + 1, l.now, a);
    LandIs(n, l, a);
    TwoAreNotOne(Land(n, l).world, a, x, l.id);
  }

  lemma MissIsIdle<T>(n1: Node<T>, l: Landing<T>, a: Adu, x: T, lo: nat, hi: nat)
    requires Awaits(n1, a) && PieceOf(l.packet, a) && Mine(n1.world, a) == {x, l.id} && lo < hi <= |a.octets|
    requires HoldsRun(n1.world.bundles[x], a, lo, hi) && !Touches(l.packet, lo, hi)
    requires n1.world.bundles[l.id].header == l.packet.header && n1.world.bundles[l.id].adu == Some(l.packet.payload)
    ensures Enqueued(n1, l.id).world == n1.world
  {
    assert x in Mine(n1.world, a) && l.id in Mine(n1.world, a);
    EnqueuedCoalesces(n1, l.id, a);
    forall y | y in Snapshot(n1.world, a) ensures Misses(n1.world.bundles[l.id], n1.world.bundles[y]) {
      assert y in Mine(n1.world, a);
    }
    Idle(n1.world, l.id, Snapshot(n1.world, a));
  }

  ghost predicate RunsSoFar<T>(nodes: seq<Node<T>>, a: Adu, k: nat)
  {
    k < |nodes| && forall j :: 1 <= j <= k ==> SomeRun(nodes[j].world, a)
  }

  lemma {:induction false} RunsExtend<T>(nodes: seq<Node<T>>, ls: seq<Landing<T>>, a: Adu, k: nat)
    requires AnyArrivals(nodes, ls, a) && 1 <= k <= |ls| && RunsSoFar(nodes, a, k)
    ensures Smooth(nodes[k], a, PacketsIn(ls), k)
  {
    var packets := PacketsIn(ls);
    assert LandsTo(nodes[k - 1], ls[k - 1], nodes[k]);
    if k == 1 {
      OneGathered(nodes[0], ls[0], nodes[1], a, packets);
    } else {
      RunsExtend(nodes, ls, a, k - 1);
      OneRunMoves(nodes[k - 1], ls[k - 1], nodes[k], a, packets, k - 1);
    }
  }

  lemma OneRunMoves<T>(n: Node<T>, l: Landing<T>, n': Node<T>, a: Adu, packets: seq<Packet>, k: nat)
    requires LandsTo(n, l, n') && PieceOf(l.packet, a) && 1 <= k < |packets| && packets[k] == l.packet
    requires Smooth(n, a, packets, k) && SomeRun(n'.world, a)
    ensures Smooth(n', a, packets, k + 1)
  {
    var (lo, hi) := Reach(packets, k);
    var x :| x in n.world.store && Holder(n.world, a, x, lo, hi);
    if Touches(l.packet, lo, hi) {
      OneMoreExtends(packets, a, k);
      RunGrows(n, l, n', a, packets, k);
    } else {
      MissStaysBeside(n, l, a, x, lo, hi);
    }
  }

  lemma {:induction false} ExtendingRuns<T>(nodes: seq<Node<T>>, ls: seq<Landing<T>>, a: Adu, k: nat)
    requires AnyArrivals(nodes, ls, a) && 1 <= k <= |ls| && Extending(PacketsIn(ls), a)
    ensures SomeRun(nodes[k].world, a)
  {
    OneRunThroughout(nodes, ls, a, k);
    assert OneRun(nodes[k].world, a, Reach(PacketsIn(ls), k).0, Reach(PacketsIn(ls), k).1);
  }

  /** Whatever fragments arrive, repeated or not and in whatever order, the ADU is
      in one bundle after every arrival if and only if each after the first extends
      the run stored so far. So a repeated fragment always leaves a second bundle
      as long as its octets are stored. */
  lemma OneBundleIffExtending<T>(nodes: seq<Node<T>>, ls: seq<Landing<T>>, a: Adu)
    requires AnyArrivals(nodes, ls, a)
    ensures RunsSoFar(nodes, a, |ls|) <==> Extending(PacketsIn(ls), a)
  {
    if Extending(PacketsIn(ls), a) {
      forall j | 1 <= j <= |ls| ensures SomeRun(nodes[j].world, a) {
        ExtendingRuns(nodes, ls, a, j);
      }
    }
    if RunsSoFar(nodes, a, |ls|) {
      RunsExtend(nodes, ls, a, |ls|);
      AllPieces(nodes, ls, a);
    }
  }

  lemma AllPieces<T>(nodes: seq<Node<T>>, ls: seq<Landing<T>>, a: Adu)
    requires AnyArrivals(nodes, ls, a)
    ensures forall p :: p in PacketsIn(ls) ==> PieceOf(p, a)
  {
    forall p | p in PacketsIn(ls) ensures PieceOf(p, a) {
      var i :| 0 <= i < |ls| && PacketsIn(ls)[i] == p;
      assert LandsTo(nodes[i], ls[i], nodes[i + 1]);
    }
  }

  /** What a closed gap has lost comes back with its fragment: repeated, it extends
      the run that was left. */
  lemma LostComesBack<T>(n: Node<T>, l: Landing<T>, again: Landing<T>, a: Adu, priority: nat, x: T, z: T)
    requires Fresh(n, l, a, priority) && Meets(n.world, a, l.packet.header.offset, End(l.packet), Some(x), Some(z))
    requires SortedWorld(Taken(n, l.packet, l.id, l.address, l.now).world) && Mine(n.world, a) == {x, z}
    requires Awaits(Land(n, l), a) && MayLandOn(Land(n, l), again)
    requires PieceOf(again.packet, a) && again.packet.header.offset == End(l.packet)
    ensures x in n.world.bundles
    ensures OneRun(Land(Land(n, l), again).world, a, Lo(n.world.bundles[x]), End(again.packet))
  {
    LeftAlone(n, l, a, priority, x, z);
    LandsOnto(Land(n, l), again, a, Lo(n.world.bundles[x]), End(l.packet));
  }

  lemma LandsOnto<T>(n: Node<T>, l: Landing<T>, a: Adu, lo: nat, hi: nat)
    requires Awaits(n, a) && PieceOf(l.packet, a) && MayLandOn(n, l) && OneRun(n.world, a, lo, hi)
    requires l.packet.header.offset == hi
    ensures OneRun(Land(n, l).world, a, lo, End(l.packet))
  {
    Touching(l.packet, a, lo, hi);
    LandNext(n, l, a, lo, hi);
    AtItsEnd(Land(n, l).world, l.packet, a, lo, hi);
  }

  lemma Touching(p: Packet, a: Adu, lo: nat, hi: nat)
    requires PieceOf(p, a) && p.header.offset == hi
    ensures hi - lo < |a.octets| && Touches(p, lo, hi)
  {
  }

  lemma AtItsEnd<T>(w: World<T>, p: Packet, a: Adu, lo: nat, hi: nat)
    requires p.header.offset == hi && OneRun(w, a, Low(p, lo, hi), High(p, lo, hi))
    ensures OneRun(w, a, lo, End(p))
  {
  }

  lemma LeftAlone<T>(n: Node<T>, l: Landing<T>, a: Adu, priority: nat, x: T, z: T)
    requires Fresh(n, l, a, priority) && Meets(n.world, a, l.packet.header.offset, End(l.packet), Some(x), Some(z))
    requires SortedWorld(Taken(n, l.packet, l.id, l.address, l.now).world) && Mine(n.world, a) == {x, z}
    ensures x in n.world.bundles && OneRun(Land(n, l).world, a, Lo(n.world.bundles[x]), End(l.packet))
  {
    var w' := Land(n, l).world;
    BridgingLoses(n, l, a, priority, x, z);
    LandGrows(n, l, a, priority, Some(x), Some(z));
    TakerIs(n.world, w', l.id, a, priority, l.packet.header.offset, End(l.packet), Some(x), Some(z));
    forall y | y in w'.store && y in w'.bundles && KeyOf(w'.bundles[y].header) == a.key ensures y == x {
      assert y in Mine(w', a);
    }
    assert Holder(w', a, x, Lo(n.world.bundles[x]), End(l.packet));
  }

  // ---------------------------------------------------------- an order that fails

  /** Octet `i` of an ADU of three, in a fragment of its own. */
  function Third(src: Eid, dst: Eid, i: nat): Packet
    requires i < 3
  {
    Packet(Header(src, dst, DtnNone, 0, 0, 0, false, true, i, 3, 1, 0), [[1, 2, 3][i]])
  }

  function Destination(eid: Eid, dst: Eid, w: World<nat>): Node<nat>
  {
    Node(eid, map[dst := true], map[], {}, 512, 0, w, 0, 0)
  }

  function FragmentBundle(src: Eid, dst: Eid, i: nat, octets: seq<byte>): Bundle
    requires i < 3
  {
    NewBundle(Third(src, dst, i).header, octets, {DispatchPending}, i)
  }

  /** With the first fragment, then the third as well, then all three arrived. */
  function OneIn(src: Eid, dst: Eid): World<nat>
  {
    World(map[0 := FragmentBundle(src, dst, 0, [1])], [0], 1, 1, map[], 0)
  }

  function TwoIn(src: Eid, dst: Eid): World<nat>
  {
    World(map[0 := FragmentBundle(src, dst, 0, [1]), 2 := FragmentBundle(src, dst, 2, [3])], [0, 2], 2, 2, map[], 0)
  }

  lemma FirstLands(eid: Eid, src: Eid, dst: Eid)
    requires eid != dst
    ensures Land(Destination(eid, dst, World(map[], [], 0, 0, map[], 0)), Landing(Third(src, dst, 0), 0, 10, 0, 0))
         == Destination(eid, dst, OneIn(src, dst))
  {
    var n0 := Destination(eid, dst, World(map[], [], 0, 0, map[], 0));
    var n1 := Taken(n0, Third(src, dst, 0), 0, 0, 0);
    assert n1.world == OneIn(src, dst);
    assert WithKey(n1.world.bundles, n1.world.store, Key(src, 0, 0)) == [0];
    CoalesceAlone(n1.world, 0);
    ProcessIs(n0, Third(src, dst, 0), 0, 10, 0, 0);
  }

  lemma SecondLands(eid: Eid, src: Eid, dst: Eid)
    requires eid != dst
    ensures Land(Destination(eid, dst, OneIn(src, dst)), Landing(Third(src, dst, 2), 2, 12, 2, 0))
         == Destination(eid, dst, TwoIn(src, dst))
  {
    var n1 := Destination(eid, dst, OneIn(src, dst));
    var n2 := Taken(n1, Third(src, dst, 2), 2, 2, 0);
    assert n2.world == TwoIn(src, dst);
    assert WithKey(n2.world.bundles, [2], Key(src, 0, 0)) == [2];
    assert WithKey(n2.world.bundles, n2.world.store, Key(src, 0, 0)) == [0, 2];
    Idle(n2.world, 2, [0, 2]);
    ProcessIs(n1, Third(src, dst, 2), 2, 12, 2, 0);
  }

  /** All three are in the store, before the last of them is enqueued. */
  function ThreeIn(src: Eid, dst: Eid): World<nat>
  {
    World(TwoIn(src, dst).bundles[1 := FragmentBundle(src, dst, 1, [2])], [0, 1, 2], 3, 3, map[], 0)
  }

  lemma LastIsTaken(eid: Eid, src: Eid, dst: Eid)
    ensures Taken(Destination(eid, dst, TwoIn(src, dst)), Third(src, dst, 1), 1, 1, 0)
         == Destination(eid, dst, ThreeIn(src, dst))
  {
    var b := ThreeIn(src, dst).bundles;
    assert Insert(b, [2], 1) == [1, 2];
    assert Insert(b, [0, 2], 1) == [0] + Insert(b, [2], 1);
    assert TwoIn(src, dst).bundles[1 := FragmentBundle(src, dst, 1, [2])] == b;
  }

  /** The loop leaves the first two octets stored, in one fragment. */
  lemma LastCoalesces(src: Eid, dst: Eid)
    ensures var w' := Coalesce(ThreeIn(src, dst), 1, [0, 1, 2]);
            w'.store == [0] && 0 in w'.bundles && w'.bundles[0].header == Third(src, dst, 0).header
            && w'.bundles[0].adu == Some([1, 2])
  {
    var w := ThreeIn(src, dst);
    var w1, w2 := Swallow(w, 0, 1), Swallow(Swallow(w, 0, 1), 1, 2);
    SwallowIs(w, 0, 1);
    SwallowIs(w1, 1, 2);
    CoalesceOneIs(w, 1, 0);
    CoalesceOneIs(w1, 1, 2);
    MissStays(w1, 1, 1);
    CoalesceAppend(w, 1, [0], [1, 2]);
    CoalesceAppend(w1, 1, [1], [2]);
    assert [0] + [1, 2] == [0, 1, 2] && [1] + [2] == [1, 2];
    assert Coalesce(w, 1, [0]) == w1 && Coalesce(w1, 1, [1]) == w1 && Coalesce(w1, 1, [2]) == w2;
    assert Without([0, 1, 2], 1) == [0] + Without([1, 2], 1);
    assert Without([0, 2], 2) == [0] + Without([2], 2);
  }

  /** The three fragments of an ADU arrive in the order first, third, second at an
      agent that has just been started: the application receives nothing, and the
      third octet is gone. */
  lemma GapOrderExample(eid: Eid, src: Eid, dst: Eid)
    requires eid != dst
    ensures var n1 := Land(Destination(eid, dst, World(map[], [], 0, 0, map[], 0)), Landing(Third(src, dst, 0), 0, 10, 0, 0));
            StoreKnown(n1.world) && n1.bundleSize > 0 && n1.eid == eid &&
            var n2 := Land(n1, Landing(Third(src, dst, 2), 2, 12, 2, 0));
            StoreKnown(n2.world) && n2.bundleSize > 0 && n2.eid == eid &&
            var n3 := Land(n2, Landing(Third(src, dst, 1), 1, 11, 1, 0));
            StoreKnown(n3.world) && Receive(n3, dst).1 == None
            && n3.world.store == [0] && n3.world.bundles[0].adu == Some([1, 2])
  {
    FirstLands(eid, src, dst);
    SecondLands(eid, src, dst);
    LastLands(eid, src, dst);
  }

  lemma LastIsCoalesced(eid: Eid, src: Eid, dst: Eid)
    requires eid != dst
    ensures Land(Destination(eid, dst, TwoIn(src, dst)), Landing(Third(src, dst, 1), 1, 11, 1, 0))
         == Destination(eid, dst, Coalesce(ThreeIn(src, dst), 1, [0, 1, 2]))
  {
    var w := ThreeIn(src, dst);
    LastIsTaken(eid, src, dst);
    assert WithKey(w.bundles, [2], Key(src, 0, 0)) == [2];
    assert WithKey(w.bundles, [1, 2], Key(src, 0, 0)) == [1, 2];
    assert WithKey(w.bundles, w.store, Key(src, 0, 0)) == [0, 1, 2];
    EnqueueIs(eid, w, 1);
    CoalesceHeaders(w, 1, [0, 1, 2]);
    ProcessIs(Destination(eid, dst, TwoIn(src, dst)), Third(src, dst, 1), 1, 11, 1, 0);
  }

  lemma LastLands(eid: Eid, src: Eid, dst: Eid)
    requires eid != dst
    ensures var n3 := Land(Destination(eid, dst, TwoIn(src, dst)), Landing(Third(src, dst, 1), 1, 11, 1, 0));
            StoreKnown(n3.world) && Receive(n3, dst).1 == None
            && n3.world.store == [0] && n3.world.bundles[0].adu == Some([1, 2])
  {
    LastIsCoalesced(eid, src, dst);
    LastCoalesces(src, dst);
  }
}
