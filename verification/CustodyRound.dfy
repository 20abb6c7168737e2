/**
 A custody round through both agents. Fragments that arrive in order each get a
 signal, made after the fragment was coalesced; these signals, in order, make the
 custodian drop the bundle.
 */
module CustodyRound {
  import opened Bytes
  import opened Bundles
  import opened Agent
  import opened Custodial
  import opened Integrity
  import opened EndToEnd
  import opened Reassembly
  import opened Gaps
  import opened AckProgress
  import CS = CustodySignal

  // ------------------------------------------------------- at the destination

  ghost predicate MayLandFor<T>(n: Node<T>, l: Landing<T>, a: Adu)
  {
    Awaits(n, a) && PieceOf(l.packet, a) && MayLandOn(n, l)
  }

  /** The fragment's bundle once it is enqueued: what its signal is made from. */
  ghost function LandedBundle<T>(n: Node<T>, l: Landing<T>, a: Adu): Bundle
    requires MayLandFor(n, l, a)
  {
    Enqueued(Taken(n, l.packet, l.id, l.address, l.now), l.id).world.bundles[l.id]
  }

  /** For a fragment with custody the landing sends that signal. */
  lemma LandAnswers<T>(n: Node<T>, l: Landing<T>, a: Adu)
    requires MayLandFor(n, l, a) && LandedBundle(n, l, a).header.custody
    ensures Process(n, l.packet, l.id, l.signalId, l.address, l.now)
         == SignalSent(Enqueued(Taken(n, l.packet, l.id, l.address, l.now), l.id), LandedBundle(n, l, a),
                       l.signalId, l.address + 1, l.now)
  {
    ProcessIs(n, l.packet, l.id, l.signalId, l.address, l.now);
    DeliverIs(Taken(n, l.packet, l.id, l.address, l.now), l.id, l.signalId, l.address + 1, l.now);
  }

  /** Nothing that the signal speaks of differs. */
  predicate SpeaksOf(b: Bundle, p: Packet)
  {
    b.header == p.header && b.adu == Some(p.payload)
  }

  lemma SameRange(b: Bundle, p: Packet, a: Adu, now: nat)
    requires SpeaksOf(b, p) && PieceOf(p, a)
    ensures AckOf(SignalFor(b, now)) == AckOf(SignalFor(Arrival(p, 0), 0)) && Speaks(SignalFor(b, now), a.key)
  {
  }

  lemma FirstIsUnchanged<T>(n: Node<T>, l: Landing<T>, a: Adu)
    requires MayLandFor(n, l, a) && NoneStored(n.world, a)
    ensures SpeaksOf(LandedBundle(n, l, a), l.packet)
  {
    var n1, k := Taken(n, l.packet, l.id, l.address, l.now), l.packet.header.offset;
    TakenAdds(n, l.packet, l.id, l.address, l.now);
    FirstIsHolder(n.world, n1.world, l.id, l.packet, l.address, a);
    EnqueueFirst(n.eid, n1.world, l.id, a, k, k + |l.packet.payload|);
  }

  /** The run in front takes the octets; the new bundle itself stays as it came. */
  lemma TailIsUnchanged<T>(n: Node<T>, l: Landing<T>, a: Adu, x: T, lo: nat, hi: nat)
    requires MayLandFor(n, l, a) && Holder(n.world, a, x, lo, hi) && hi - lo < |a.octets|
    requires l.packet.header.offset == hi
    ensures SpeaksOf(LandedBundle(n, l, a), l.packet)
  {
    var n1 := Taken(n, l.packet, l.id, l.address, l.now);
    TakenAdds(n, l.packet, l.id, l.address, l.now);
    TakenIsNext(n, l, a, x, lo, hi);
    EnqueuedIs(n1, l.id, x, l.packet, a, lo, hi);
    TailJoins(n1.eid, n1.world, l.id, x, l.packet, a, lo, hi);
  }

  lemma TailJoins<T>(agent: Eid, w1: World<T>, id: T, x: T, p: Packet, a: Adu, lo: nat, hi: nat)
    requires Next(w1, id, x, p, a, lo, hi) && a.dst != agent && p.header.offset == hi
    ensures id in w1.bundles && Enqueue(agent, w1, id).bundles[id] == w1.bundles[id]
  {
    EnqueueIs(agent, w1, id);
    SnapshotIsPair(w1, id, x, p, a, lo, hi);
    TurnJoins(w1, id, x, p, a, lo, hi);
    CoalescePair(w1, id, x, WithKey(w1.bundles, w1.store, a.key));
    CoalesceOneIs(w1, id, x);
    SwallowIs(w1, x, id);
  }

  /** In order, every fragment's bundle is as it came when its signal is made. */
  lemma InOrderUnchanged<T>(nodes: seq<Node<T>>, ls: seq<Landing<T>>, a: Adu, h: Header, size: nat, k: nat)
    requires Landings(nodes, ls, a) && TilesOf(PacketsIn(ls), h, a, size) && k < |ls|
    ensures MayLandFor(nodes[k], ls[k], a) && SpeaksOf(LandedBundle(nodes[k], ls[k], a), ls[k].packet)
  {
    var packets := PacketsIn(ls);
    assert LandsTo(nodes[k], ls[k], nodes[k + 1]) && packets[k] in packets;
    if k == 0 {
      FirstIsUnchanged(nodes[0], ls[0], a);
    } else {
      OneRunThroughout(nodes, ls, a, k);
      InOrderReach(packets, h, a, size, k);
      TilePlace(packets, h, a, size, k);
      TailOfRun(nodes[k], ls[k], a, packets, k);
    }
  }

  lemma TailOfRun<T>(n: Node<T>, l: Landing<T>, a: Adu, packets: seq<Packet>, k: nat)
    requires MayLandFor(n, l, a) && Gathered(n, a, packets, k) && Reach(packets, k) == (0, l.packet.header.offset)
    ensures SpeaksOf(LandedBundle(n, l, a), l.packet)
  {
    var hi := l.packet.header.offset;
    var x :| x in n.world.store && Holder(n.world, a, x, 0, hi);
    TailIsUnchanged(n, l, a, x, 0, hi);
  }

  // ---------------------------------------------------------- at the custodian

  /** Bundle `x` is the only one stored of its ADU. */
  ghost predicate Custodian<T>(w: World<T>, x: T, key: Key, aduLength: nat)
  {
    StoreKnown(w) && x in w.store && x in w.bundles && w.bundles[x].adu.Some? &&
    KeyOf(w.bundles[x].header) == key && w.bundles[x].header.aduLength == aduLength &&
    forall y :: y in w.store && KeyOf(w.bundles[y].header) == key ==> y == x
  }

  ghost predicate Released<T>(w: World<T>, x: T, key: Key)
  {
    StoreKnown(w) && x !in w.store && forall y :: y in w.store ==> KeyOf(w.bundles[y].header) != key
  }

  predicate Speaks(c: CS.Signal, key: Key)
  {
    c.status == CS.SUCCESS && SignalKey(c) == key
  }

  function ProcessAll<T(==)>(w: World<T>, cs: seq<CS.Signal>): (w': World<T>)
    requires StoreKnown(w)
    decreases |cs|
  {
    if cs == [] then w else ProcessAll(ProcessSignal(w, cs[0]), cs[1..])
  }

  lemma TargetIs<T>(w: World<T>, x: T, key: Key, aduLength: nat, c: CS.Signal)
    requires Custodian(w, x, key, aduLength) && Speaks(c, key)
    ensures ProcessSignal(w, c) == Settled(w, x, AckOf(c))
  {
    assert x in WithKey(w.bundles, w.store, key);
  }

  lemma SettledEither<T>(w: World<T>, x: T, key: Key, aduLength: nat, ack: (nat, nat))
    requires Custodian(w, x, key, aduLength)
    ensures var w' := Settled(w, x, ack);
            match Hear(Some(w.bundles[x].acks), ack, aduLength)
            case None => Released(w', x, key)
            case Some(acks) => Custodian(w', x, key, aduLength) && w'.bundles[x].acks == acks
  {
    SettledIs(w, x, ack);
  }

  lemma NoTarget<T>(w: World<T>, x: T, key: Key, c: CS.Signal)
    requires Released(w, x, key) && Speaks(c, key)
    ensures ProcessSignal(w, c) == w
  {
    assert forall y :: y in WithKey(w.bundles, w.store, key) ==> y in w.store;
  }

  lemma {:induction false} StaysOut<T>(w: World<T>, x: T, key: Key, cs: seq<CS.Signal>)
    requires Released(w, x, key) && forall c :: c in cs ==> Speaks(c, key)
    ensures x !in ProcessAll(w, cs).store
    decreases |cs|
  {
    if cs != [] {
      assert cs[0] in cs && forall c :: c in cs[1..] ==> c in cs;
      NoTarget(w, x, key, cs[0]);
      StaysOut(w, x, key, cs[1..]);
    }
  }

  function Ranges(cs: seq<CS.Signal>): (r: seq<(nat, nat)>)
    ensures |r| == |cs| && forall i :: 0 <= i < |cs| ==> r[i] == AckOf(cs[i])
  {
    seq(|cs|, i requires 0 <= i < |cs| => AckOf(cs[i]))
  }

  /** The bundle stays stored exactly while the record is kept. */
  lemma {:induction false} HeardAll<T>(w: World<T>, x: T, key: Key, aduLength: nat, cs: seq<CS.Signal>)
    requires Custodian(w, x, key, aduLength) && forall c :: c in cs ==> Speaks(c, key)
    ensures x in ProcessAll(w, cs).store <==> HearAll(Some(w.bundles[x].acks), Ranges(cs), aduLength).Some?
    decreases |cs|
  {
    if cs != [] {
      assert cs[0] in cs && forall c :: c in cs[1..] ==> c in cs;
      assert Ranges(cs)[1..] == Ranges(cs[1..]);
      TargetIs(w, x, key, aduLength, cs[0]);
      SettledEither(w, x, key, aduLength, AckOf(cs[0]));
      var w' := ProcessSignal(w, cs[0]);
      if Hear(Some(w.bundles[x].acks), AckOf(cs[0]), aduLength).Some? {
        HeardAll(w', x, key, aduLength, cs[1..]);
      } else {
        StaysOut(w', x, key, cs[1..]);
        HearNothing(Ranges(cs[1..]), aduLength);
      }
    }
  }

  // ------------------------------------------------------------- the whole round

  /** The signals for the landings, in their order. */
  ghost predicate Answers<T>(cs: seq<CS.Signal>, nodes: seq<Node<T>>, ls: seq<Landing<T>>, a: Adu)
  {
    |cs| == |ls| < |nodes| &&
    forall i :: 0 <= i < |ls| ==> MayLandFor(nodes[i], ls[i], a) && cs[i] == SignalFor(LandedBundle(nodes[i], ls[i], a), ls[i].now)
  }

  lemma AnswerIsTile<T>(cs: seq<CS.Signal>, nodes: seq<Node<T>>, ls: seq<Landing<T>>, a: Adu, h: Header, size: nat, i: nat)
    requires Landings(nodes, ls, a) && TilesOf(PacketsIn(ls), h, a, size) && Answers(cs, nodes, ls, a) && i < |ls|
    ensures AckOf(cs[i]) == AckOf(SignalFor(Arrival(ls[i].packet, 0), 0)) && Speaks(cs[i], a.key)
  {
    InOrderUnchanged(nodes, ls, a, h, size, i);
    SameRange(LandedBundle(nodes[i], ls[i], a), ls[i].packet, a, ls[i].now);
  }

  lemma AnswersAreTiles<T>(cs: seq<CS.Signal>, nodes: seq<Node<T>>, ls: seq<Landing<T>>, a: Adu, h: Header, size: nat)
    requires Landings(nodes, ls, a) && TilesOf(PacketsIn(ls), h, a, size) && Answers(cs, nodes, ls, a)
    ensures Ranges(cs) == AcksOf(PacketsIn(ls), 0, 0)
    ensures forall c :: c in cs ==> Speaks(c, a.key)
  {
    forall i | 0 <= i < |ls| ensures Ranges(cs)[i] == AcksOf(PacketsIn(ls), 0, 0)[i] && Speaks(cs[i], a.key) {
      AnswerIsTile(cs, nodes, ls, a, h, size, i);
    }
  }

  /** A round through both agents: the fragments of an ADU arrive in the order they
      were sent, then the signals made for them arrive at the custodian in that
      order. After the last of them the custodian no longer stores the bundle. */
  lemma InOrderReleases<T, U>(nodes: seq<Node<T>>, ls: seq<Landing<T>>, a: Adu, h: Header, size: nat,
                              cs: seq<CS.Signal>, w: World<U>, x: U)
    requires Landings(nodes, ls, a) && TilesOf(PacketsIn(ls), h, a, size) && Answers(cs, nodes, ls, a)
    requires |a.octets| < TWO32 && Custodian(w, x, a.key, |a.octets|) && w.bundles[x].acks == []
    ensures x !in ProcessAll(w, cs).store
  {
    AnswersAreTiles(cs, nodes, ls, a, h, size);
    HeardAll(w, x, a.key, |a.octets|, cs);
    FragmentsRelease(h, a.octets, size, 0, 0);
  }
}
