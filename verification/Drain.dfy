/**
 `ClaReady`: the bundles waiting for an adapter are forwarded, each exactly
 once, although forwarding takes bundles out of the store the snapshot was
 made of.
 */
module Drain {
  import opened Bundles
  import opened Agent
  import opened Soundness
  import opened Custodial

  /** The octets one bundle would put on the wire, from the state as it is. */
  function PacketsOf<Id(==)>(n: Node<Id>, id: Id): seq<Packet>
    requires Sendable(n, id)
  {
    var b := n.world.bundles[id];
    SendSlices(b.header, b.adu.value, n.bundleSize, |b.adu.value|).1
  }

  predicate AllSendable<Id(==)>(n: Node<Id>, ids: seq<Id>)
  {
    forall x :: x in ids ==> Sendable(n, x)
  }

  function AllPackets<Id(==)>(n: Node<Id>, ids: seq<Id>): seq<Packet>
    requires AllSendable(n, ids)
  {
    if ids == [] then [] else PacketsOf(n, ids[0]) + AllPackets(n, ids[1..])
  }

  /** `ids` are stored, waiting, and listed once. */
  ghost predicate Snapshot<Id>(n: Node<Id>, ids: seq<Id>)
  {
    Distinct(ids) && forall x :: x in ids ==>
      x in n.world.store && Sendable(n, x) && ForwardPending in n.world.bundles[x].retention
  }

  lemma {:induction false} WaitingIsSnapshot<Id>(n: Node<Id>, s: seq<Id>, cla: Cla)
    requires Sound(n.world) && n.bundleSize > 0 && Distinct(s) && forall x :: x in s ==> x in n.world.store
    ensures Snapshot(n, Waiting(n, s, cla))
  {
    if s != [] {
      assert s == [s[0]] + s[1..];
      ConsDistinct(s[0], s[1..]);
      WaitingIsSnapshot(n, s[1..], cla);
      ConsDistinct(s[0], Waiting(n, s[1..], cla));
    }
  }

  lemma {:induction false} SamePackets<Id>(n: Node<Id>, n': Node<Id>, ids: seq<Id>)
    requires AllSendable(n, ids) && n'.bundleSize == n.bundleSize
    requires forall x :: x in ids ==> x in n'.world.bundles && n'.world.bundles[x] == n.world.bundles[x]
    ensures AllSendable(n', ids) && AllPackets(n', ids) == AllPackets(n, ids)
  {
    if ids != [] {
      assert forall x :: x in ids[1..] ==> x in ids;
      SamePackets(n, n', ids[1..]);
    }
  }

  /** One forwarding leaves the rest of the snapshot as it was. */
  lemma SnapshotShrinks<Id>(n: Node<Id>, ids: seq<Id>, timed: bool)
    requires Steady(n.world, timed) && Snapshot(n, ids) && ids != []
    ensures var n1 := Forward(n, ids[0]).0;
            Steady(n1.world, timed) && Snapshot(n1, ids[1..]) && n1 == n.(world := n1.world)
            && n1.world.bundles.Keys == n.world.bundles.Keys
            && (forall x :: x in n.world.bundles && x != ids[0] ==> n1.world.bundles[x] == n.world.bundles[x])
            && (forall x :: x in n1.world.store ==> x in n.world.store)
  {
    var id := ids[0];
    assert ids == [id] + ids[1..];
    ConsDistinct(id, ids[1..]);
    assert HandlesFit(n.world, id);
    if timed {
      UntimedOf(n.world, id);
    }
    ForwardSteady(n, id, timed);
    ForwardSound(n, id);
  }

  /** What one forwarding of a waiting bundle does and sends. */
  lemma ForwardEffect<Id>(n: Node<Id>, id: Id)
    requires Sound(n.world) && Sendable(n, id) && ForwardPending in n.world.bundles[id].retention
    ensures var (n', packets) := Forward(n, id);
            if CanForward(n, n.world.bundles[id].header.dst) then
              packets == PacketsOf(n, id)
              && (id in n'.world.store ==> ForwardPending !in n'.world.bundles[id].retention)
            else packets == [] && id in n'.world.bundles && ForwardPending in n'.world.bundles[id].retention
                 && n'.world.bundles[id].header == n.world.bundles[id].header && n'.world.store == n.world.store
  {
    assert HandlesFit(n.world, id);
    var w := MarkForward(n.world, id);
    MarkSound(n.world, id);
    if CanForward(n, n.world.bundles[id].header.dst) {
      TransmitSound(w, id, n.bundleSize);
      SentSound(w, id, n.bundleSize);
      assert Transmit(w, id, n.bundleSize).1 == PacketsOf(n, id);
    }
  }

  /** The whole snapshot, through a ready adapter. */
  lemma {:induction false} ForwardAllEffect<Id>(n: Node<Id>, ids: seq<Id>, timed: bool)
    requires Steady(n.world, timed) && Snapshot(n, ids)
    requires forall x :: x in ids ==> CanForward(n, n.world.bundles[x].header.dst)
    ensures AllSendable(n, ids)
    ensures var (n', packets) := ForwardAll(n, ids);
            Steady(n'.world, timed) && n' == n.(world := n'.world) && packets == AllPackets(n, ids)
            && n'.world.bundles.Keys == n.world.bundles.Keys
            && (forall x :: x in n'.world.store ==> x in n.world.store)
            && (forall x :: x in n.world.bundles && x !in ids ==> n'.world.bundles[x] == n.world.bundles[x])
            && (forall x :: x in ids && x in n'.world.store ==> ForwardPending !in n'.world.bundles[x].retention)
    decreases |ids|
  {
    if ids != [] {
      var n1 := Forward(n, ids[0]).0;
      SnapshotShrinks(n, ids, timed);
      ForwardEffect(n, ids[0]);
      assert ids == [ids[0]] + ids[1..];
      ConsDistinct(ids[0], ids[1..]);
      ForwardAllEffect(n1, ids[1..], timed);
      SamePackets(n, n1, ids[1..]);
    }
  }

  /** Without the adapter nothing is sent and everything keeps waiting. */
  lemma {:induction false} ForwardNone<Id>(n: Node<Id>, ids: seq<Id>, timed: bool)
    requires Steady(n.world, timed) && Snapshot(n, ids)
    requires forall x :: x in ids ==> !CanForward(n, n.world.bundles[x].header.dst)
    ensures var (n', packets) := ForwardAll(n, ids);
            Steady(n'.world, timed) && n' == n.(world := n'.world) && packets == []
            && n'.world.bundles.Keys == n.world.bundles.Keys && n'.world.store == n.world.store
            && (forall x :: x in n.world.bundles && x !in ids ==> n'.world.bundles[x] == n.world.bundles[x])
            && (forall x :: x in ids ==> ForwardPending in n'.world.bundles[x].retention
                                         && n'.world.bundles[x].header == n.world.bundles[x].header)
    decreases |ids|
  {
    if ids != [] {
      var n1 := Forward(n, ids[0]).0;
      SnapshotShrinks(n, ids, timed);
      ForwardEffect(n, ids[0]);
      assert ids == [ids[0]] + ids[1..];
      ConsDistinct(ids[0], ids[1..]);
      ForwardNone(n1, ids[1..], timed);
    }
  }

  /** `ClaReady` through a ready adapter: the snapshot is exactly the stored
      bundles waiting for it, each once; what goes out is each one's packets,
      once and in that order; no other bundle changes; and afterwards no stored
      bundle waits for the adapter. */
  lemma ClaReadyDrains<Id>(n: Node<Id>, cla: Cla)
    requires Sound(n.world) && n.bundleSize > 0 && cla in n.ready
    ensures var ids := Waiting(n, n.world.store, cla);
            Distinct(ids) && (forall x :: x in n.world.store && IsWaiting(n, n.world.bundles[x], cla) ==> x in ids)
            && (forall x :: x in ids ==> x in n.world.store && IsWaiting(n, n.world.bundles[x], cla))
            && AllSendable(n, ids) && ClaReady(n, cla).1 == AllPackets(n, ids)
            && ClaReady(n, cla).0.world.bundles.Keys == n.world.bundles.Keys
            && forall x :: x in n.world.bundles && x !in ids ==>
                 ClaReady(n, cla).0.world.bundles[x] == n.world.bundles[x]
    ensures var n' := ClaReady(n, cla).0;
            Sound(n'.world) && forall x :: x in n'.world.store ==> !IsWaiting(n', n'.world.bundles[x], cla)
  {
    var ids := Waiting(n, n.world.store, cla);
    WaitingIsSnapshot(n, n.world.store, cla);
    ForwardAllEffect(n, ids, false);
    var n' := ClaReady(n, cla).0;
    forall x | x in n'.world.store ensures !IsWaiting(n', n'.world.bundles[x], cla) {
      if x !in ids {
        assert n'.world.bundles[x] == n.world.bundles[x];
      }
    }
  }

  /** Called for an adapter that is not ready it sends nothing, and the same
      bundles keep waiting. */
  lemma ClaNotReady<Id>(n: Node<Id>, cla: Cla)
    requires Sound(n.world) && n.bundleSize > 0 && cla !in n.ready
    ensures var (n', packets) := ClaReady(n, cla);
            packets == [] && n'.world.store == n.world.store && Sound(n'.world)
            && forall x :: x in n.world.store ==>
                 IsWaiting(n', n'.world.bundles[x], cla) == IsWaiting(n, n.world.bundles[x], cla)
  {
    WaitingIsSnapshot(n, n.world.store, cla);
    ForwardNone(n, Waiting(n, n.world.store, cla), false);
  }

  lemma ClaReadySteady<Id>(n: Node<Id>, cla: Cla, timed: bool)
    requires Steady(n.world, timed) && n.bundleSize > 0
    ensures Steady(ClaReady(n, cla).0.world, timed)
    ensures ClaReady(n, cla).0 == n.(world := ClaReady(n, cla).0.world)
  {
    var ids := Waiting(n, n.world.store, cla);
    WaitingIsSnapshot(n, n.world.store, cla);
    if cla in n.ready {
      ForwardAllEffect(n, ids, timed);
    } else {
      ForwardNone(n, ids, timed);
    }
  }
}
