/**
 End-to-end integrity. In every run over a direct channel each bundle an agent
 holds is either its own original or carries exactly the slice of the original
 its header says, and is taken for whole only when that slice is; so whatever
 `Receive` hands to an application is what was given to `Send`.
 */
module Integrity {
  import opened Bytes
  import opened Bundles
  import opened Agent
  import opened Soundness
  import opened Custodial
  import opened Network
  import CS = CustodySignal
  import Endpoint
  import Wire6

  // -------------------------------------------------------------- invariant

  /** Fields that every packet made from the header can carry. */
  predicate Carries(h: Header)
  {
    Wire6.Endpoints(h) && h.timestamp < TWO32 && h.sequence < TWO32 && h.lifetime / SECOND < TWO64 &&
    h.priority < 4 && h.aduLength < TWO32
  }

  /** The header names an ADU that was sent, with its destination and length. */
  predicate Named(h: Header, log: Log)
  {
    KeyOf(h) in log && h.dst == log[KeyOf(h)].dst && h.aduLength == |log[KeyOf(h)].adu| &&
    h.offset <= h.aduLength && Carries(h)
  }

  /** `adu` is the non-empty slice of `full` that the header says, and all of it
      unless the header says fragment. */
  predicate Slice(h: Header, adu: seq<byte>, full: seq<byte>)
  {
    0 < |adu| && h.offset + |adu| <= |full| && adu == full[h.offset..h.offset + |adu|] &&
    (!h.fragment ==> |adu| == |full|)
  }

  /** To be forwarded, in custody, or forwarded with a timer. */
  predicate Kept(b: Bundle)
  {
    ForwardPending in b.retention || CustodyAccepted in b.retention || b.nextRetrans.Some?
  }

  /** Own originals are whole whatever `Forward` left in their headers, all
      others are slices; what `Forward` has been or will be given is whole. */
  predicate BundleOk(b: Bundle, at: NodeId, log: Log)
  {
    Named(b.header, log) && (CustodyAccepted in b.retention ==> at == log[KeyOf(b.header)].at) &&
    (b.adu.Some? ==>
       var full := log[KeyOf(b.header)].adu;
       ((b.adu.value == full && at == log[KeyOf(b.header)].at) || Slice(b.header, b.adu.value, full))
       && (Kept(b) ==> b.adu.value == full))
  }

  predicate PacketOk(p: Packet, log: Log)
  {
    Named(p.header, log) && Slice(p.header, p.payload, log[KeyOf(p.header)].adu) && Wire6.Sendable6(p)
  }

  ghost predicate WorldOk(w: World<Id>, at: NodeId, log: Log)
  {
    Sound(w) && AllOk(w.bundles, at, log)
  }

  ghost predicate AllOk(bundles: map<Id, Bundle>, at: NodeId, log: Log)
  {
    forall x :: x in bundles ==> BundleOk(bundles[x], at, log)
  }

  predicate Configured(n: Node<Id>)
  {
    0 < n.bundleSize < Wire6.PAYLOAD_LIMIT && Endpoint.ValidUri(n.eid) && n.sequence < TWO32
  }

  ghost predicate NodeOk(n: Node<Id>, at: NodeId, log: Log)
  {
    Configured(n) && WorldOk(n.world, at, log)
  }

  ghost predicate ChannelOk(channel: set<seq<byte>>, log: Log)
  {
    forall w :: w in channel ==> Wire6.Decode(w).Some? && PacketOk(Wire6.Decode(w).value, log)
  }

  ghost predicate Inv(s: Net)
  {
    && s.now / SECOND < TWO32
    && (forall k :: k in s.log ==> |s.log[k].adu| < TWO32)
    && (forall at :: at in s.nodes ==> NodeOk(s.nodes[at], at, s.log))
    && ChannelOk(s.channel, s.log)
  }

  ghost predicate Extends(log: Log, log': Log)
  {
    forall k :: k in log ==> k in log' && log'[k] == log[k]
  }

  ghost predicate PacketsOk(packets: seq<Packet>, log: Log)
  {
    forall p :: p in packets ==> PacketOk(p, log)
  }

  // ------------------------------------------------------------- monotonicity

  lemma NodeGrows(n: Node<Id>, at: NodeId, log: Log, log': Log)
    requires NodeOk(n, at, log) && Extends(log, log')
    ensures NodeOk(n, at, log')
  {
    var bundles := n.world.bundles;
    forall x | x in bundles ensures BundleOk(bundles[x], at, log') {
      assert BundleOk(bundles[x], at, log);
    }
  }

  lemma SecondsOk(h: Header, log: Log)
    requires Named(h, log)
    ensures Named(Wire6.WholeSeconds(h), log) && KeyOf(Wire6.WholeSeconds(h)) == KeyOf(h)
  {
    assert Wire6.WholeSeconds(h).lifetime / SECOND == h.lifetime / SECOND;
    assert Carries(h) && Carries(Wire6.WholeSeconds(h));
  }

  lemma InSecondsOk(p: Packet, log: Log)
    requires PacketOk(p, log)
    ensures PacketOk(Packet(Wire6.WholeSeconds(p.header), p.payload), log)
  {
    SecondsOk(p.header, log);
  }

  lemma DecodedOk(p: Packet, log: Log)
    requires PacketOk(p, log)
    ensures Wire6.Decode(Wire6.Encode(p)).Some? && PacketOk(Wire6.Decode(Wire6.Encode(p)).value, log)
  {
    Wire6.RoundTrip(p);
    InSecondsOk(p, log);
  }

  lemma EmitOk(channel: set<seq<byte>>, packets: seq<Packet>, log: Log, log': Log)
    requires ChannelOk(channel, log) && Extends(log, log') && PacketsOk(packets, log')
    ensures ChannelOk(Emit(channel, packets), log')
  {
    forall w | w in Emit(channel, packets)
      ensures Wire6.Decode(w).Some? && PacketOk(Wire6.Decode(w).value, log')
    {
      if w in channel {
        assert PacketOk(Wire6.Decode(w).value, log);
      } else {
        var p :| p in packets && Wire6.Sendable6(p) && w == Wire6.Encode(p);
        DecodedOk(p, log');
      }
    }
  }

  // --------------------------------------------------------------- forwarding

  lemma OneSliceOk(h: Header, adu: seq<byte>, bundleSize: nat, left: nat, log: Log)
    requires 0 < left <= |adu| && 0 < bundleSize < Wire6.PAYLOAD_LIMIT
    requires Named(h, log) && adu == log[KeyOf(h)].adu && (|adu| <= bundleSize ==> left == |adu|)
    ensures Named(SliceHeader(h, |adu|, bundleSize, left), log)
    ensures KeyOf(SliceHeader(h, |adu|, bundleSize, left)) == KeyOf(h)
    ensures PacketOk(SlicePacket(h, adu, bundleSize, left), log)
  {
  }

  lemma {:induction false} SlicesOk(h: Header, adu: seq<byte>, bundleSize: nat, left: nat, log: Log)
    requires left <= |adu| && 0 < bundleSize < Wire6.PAYLOAD_LIMIT
    requires Named(h, log) && adu == log[KeyOf(h)].adu && (|adu| <= bundleSize ==> left == |adu| || left == 0)
    ensures PacketsOk(SendSlices(h, adu, bundleSize, left).1, log)
    decreases left
  {
    if left != 0 {
      var h1, rest := SliceHeader(h, |adu|, bundleSize, left), left - SliceSize(bundleSize, left);
      OneSliceOk(h, adu, bundleSize, left, log);
      SlicesOk(h1, adu, bundleSize, rest, log);
      ConsOk(SlicePacket(h, adu, bundleSize, left), SendSlices(h1, adu, bundleSize, rest).1, log);
    }
  }

  lemma ConsOk(p: Packet, packets: seq<Packet>, log: Log)
    requires PacketOk(p, log) && PacketsOk(packets, log)
    ensures PacketsOk([p] + packets, log)
  {
  }

  /** Only bundle `id` has to be looked at again. */
  lemma TouchOk(w: World<Id>, w': World<Id>, id: Id, at: NodeId, log: Log)
    requires WorldOk(w, at, log) && Sound(w') && OnlyTouches(w, w', id)
    requires id in w'.bundles ==> BundleOk(w'.bundles[id], at, log)
    ensures WorldOk(w', at, log)
  {
    forall x | x in w'.bundles ensures BundleOk(w'.bundles[x], at, log) {
      if x != id {
        assert w'.bundles[x] == w.bundles[x];
      }
    }
  }

  ghost predicate IsWhole(b: Bundle, log: Log)
  {
    b.adu.Some? && KeyOf(b.header) in log && b.adu.value == log[KeyOf(b.header)].adu
  }

  /** About to be sent: whole, without a timer, waiting only to be forwarded. */
  ghost predicate Marked(w: World<Id>, id: Id, at: NodeId, log: Log)
  {
    WorldOk(w, at, log) && id in w.bundles && IsWhole(w.bundles[id], log) &&
    !IsRunning(w, w.bundles[id].nextRetrans) &&
    ForwardPending in w.bundles[id].retention && DispatchPending !in w.bundles[id].retention
  }

  lemma {:induction false} SlicesNamed(h: Header, adu: seq<byte>, bundleSize: nat, left: nat, log: Log)
    requires left <= |adu| && bundleSize > 0 && Named(h, log) && adu == log[KeyOf(h)].adu
    ensures Named(SendSlices(h, adu, bundleSize, left).0, log)
    decreases left
  {
    if left != 0 {
      SlicesNamed(SliceHeader(h, |adu|, bundleSize, left), adu, bundleSize, left - SliceSize(bundleSize, left), log);
    }
  }

  /** An own original stays one; any other bundle is dropped. */
  lemma TransmitBundleOk(b: Bundle, b': Bundle, at: NodeId, log: Log)
    requires BundleOk(b, at, log) && SameButSlice(b.header, b'.header) && Named(b'.header, log)
    requires b'.adu == b.adu || b'.adu == None
    requires CustodyAccepted in b'.retention ==> CustodyAccepted in b.retention
    requires b'.adu.Some? ==> IsWhole(b, log) && at == log[KeyOf(b.header)].at
    ensures BundleOk(b', at, log)
  {
  }

  lemma TransmitNamed(w: World<Id>, id: Id, bundleSize: nat, at: NodeId, log: Log)
    requires Marked(w, id, at, log) && bundleSize > 0
    ensures Named(Sent(w, id, bundleSize).bundles[id].header, log)
  {
    var b := w.bundles[id];
    assert BundleOk(b, at, log);
    SlicesNamed(b.header, b.adu.value, bundleSize, |b.adu.value|, log);
  }

  lemma TransmitOk(w: World<Id>, id: Id, bundleSize: nat, at: NodeId, log: Log)
    requires Marked(w, id, at, log) && bundleSize > 0
    ensures WorldOk(Transmit(w, id, bundleSize).0, at, log)
  {
    var b, w' := w.bundles[id], Transmit(w, id, bundleSize).0;
    assert BundleOk(b, at, log);
    TransmitSound(w, id, bundleSize);
    SentSound(w, id, bundleSize);
    TransmitNamed(w, id, bundleSize, at, log);
    if CustodyAccepted !in b.retention {
      OnlyPending(b.retention);
    }
    TransmitBundleOk(b, w'.bundles[id], at, log);
    TouchOk(w, w', id, at, log);
  }

  lemma TransmitPacketsOk(w: World<Id>, id: Id, bundleSize: nat, at: NodeId, log: Log)
    requires Marked(w, id, at, log) && 0 < bundleSize < Wire6.PAYLOAD_LIMIT
    ensures PacketsOk(Transmit(w, id, bundleSize).1, log)
  {
    var b := w.bundles[id];
    assert BundleOk(b, at, log);
    SlicesOk(b.header, b.adu.value, bundleSize, |b.adu.value|, log);
    PacketsOfTransmit(w, id, bundleSize);
  }

  ghost predicate ResultOk(r: (Node<Id>, seq<Packet>), at: NodeId, log: Log)
  {
    WorldOk(r.0.world, at, log) && PacketsOk(r.1, log)
  }

  /** A whole bundle may be kept for forwarding. */
  lemma WholeOk(b: Bundle, b': Bundle, at: NodeId, log: Log)
    requires BundleOk(b, at, log) && IsWhole(b, log) && b' == b.(retention := b'.retention)
    requires CustodyAccepted in b'.retention ==> CustodyAccepted in b.retention
    ensures BundleOk(b', at, log)
  {
  }

  lemma MarkChanges<T>(w: World<T>, id: T)
    requires id in w.bundles
    ensures var b, w' := w.bundles[id], MarkForward(w, id);
            id in w'.bundles && w'.bundles[id] == b.(retention := w'.bundles[id].retention) &&
            (CustodyAccepted in w'.bundles[id].retention ==> CustodyAccepted in b.retention) &&
            ForwardPending in w'.bundles[id].retention && DispatchPending !in w'.bundles[id].retention
  {
  }

  lemma MarkOk(w: World<Id>, id: Id, at: NodeId, log: Log)
    requires WorldOk(w, at, log) && id in w.bundles && IsWhole(w.bundles[id], log)
    requires !IsRunning(w, w.bundles[id].nextRetrans)
    ensures Marked(MarkForward(w, id), id, at, log)
  {
    MarkSound(w, id);
    MarkChanges(w, id);
    MarkedOk(w, MarkForward(w, id), id, at, log);
  }

  lemma MarkedOk(w: World<Id>, w': World<Id>, id: Id, at: NodeId, log: Log)
    requires WorldOk(w, at, log) && id in w.bundles && IsWhole(w.bundles[id], log)
    requires Sound(w') && OnlyTouches(w, w', id) && !IsRunning(w', w'.bundles[id].nextRetrans)
    requires w'.bundles[id] == w.bundles[id].(retention := w'.bundles[id].retention)
    requires CustodyAccepted in w'.bundles[id].retention ==> CustodyAccepted in w.bundles[id].retention
    requires ForwardPending in w'.bundles[id].retention && DispatchPending !in w'.bundles[id].retention
    ensures Marked(w', id, at, log)
  {
    assert BundleOk(w.bundles[id], at, log);
    WholeOk(w.bundles[id], w'.bundles[id], at, log);
    TouchOk(w, w', id, at, log);
  }

  lemma ForwardOk(n: Node<Id>, id: Id, at: NodeId, log: Log)
    requires WorldOk(n.world, at, log) && Sendable(n, id) && n.bundleSize < Wire6.PAYLOAD_LIMIT
    requires !IsRunning(n.world, n.world.bundles[id].nextRetrans) && IsWhole(n.world.bundles[id], log)
    ensures ResultOk(Forward(n, id), at, log)
  {
    MarkOk(n.world, id, at, log);
    ForwardIs(n, id);
    var w := MarkForward(n.world, id);
    if CanForward(n, w.bundles[id].header.dst) {
      TransmitOk(w, id, n.bundleSize, at, log);
      TransmitPacketsOk(w, id, n.bundleSize, at, log);
    }
  }

  lemma PacketsOfTransmit<T>(w: World<T>, id: T, bundleSize: nat)
    requires id in w.bundles && w.bundles[id].adu.Some? && bundleSize > 0
    ensures var b := w.bundles[id];
            Transmit(w, id, bundleSize).1 == SendSlices(b.header, b.adu.value, bundleSize, |b.adu.value|).1
  {
  }

  // ------------------------------------------------------------------ sending

  lemma AcceptedOk(n: Node<Id>, id: Id, address: nat, now: nat, h: Header, adu: seq<byte>, at: NodeId, log: Log)
    requires WorldOk(n.world, at, log) && id !in n.world.bundles && Named(h, log)
    requires log[KeyOf(h)].adu == adu && log[KeyOf(h)].at == at
    ensures var w := Accepted(n, id, address, now, h, adu).world;
            WorldOk(w, at, log) && !IsRunning(w, w.bundles[id].nextRetrans) && IsWhole(w.bundles[id], log)
  {
    var b := NewBundle(h, adu, OutboundRetention(h.custody), address);
    StoreNew(n.world, id, b, now);
    var w := Accepted(n, id, address, now, h, adu).world;
    assert BundleOk(w.bundles[id], at, log);
    forall x | x in w.bundles ensures BundleOk(w.bundles[x], at, log) {
      if x != id {
        assert w.bundles[x] == n.world.bundles[x];
      }
    }
  }

  lemma OutboundNamed(n: Node<Id>, now: nat, adu: seq<byte>, src: Eid, dst: Eid,
                      lifetime: nat, custody: bool, priority: nat, at: NodeId, log: Log)
    requires Configured(n) && now / SECOND < TWO32 && |adu| < TWO32
    requires Endpoint.ValidUri(src) && Endpoint.ValidUri(dst) && lifetime / SECOND < TWO64 && priority < 4
    requires NextKey(n, src, now) in log && log[NextKey(n, src, now)] == Original(adu, dst, at)
    ensures var h := OutboundHeader(n.eid, n.sequence, now, |adu|, src, dst, lifetime, custody, priority);
            Named(h, log) && KeyOf(h) == NextKey(n, src, now)
  {
    Endpoint.DtnNoneIsValid();
  }

  lemma SendOk(n: Node<Id>, id: Id, address: nat, now: nat, adu: seq<byte>, src: Eid, dst: Eid,
               lifetime: nat, custody: bool, priority: nat, at: NodeId, log: Log)
    requires NodeOk(n, at, log) && id !in n.world.bundles && now / SECOND < TWO32 && |adu| < TWO32
    requires Endpoint.ValidUri(src) && Endpoint.ValidUri(dst) && lifetime / SECOND < TWO64 && priority < 4
    requires MaySend(n, src) ==>
               NextKey(n, src, now) in log && log[NextKey(n, src, now)] == Original(adu, dst, at)
    ensures var (n', packets, _) := Send(n, id, address, now, adu, src, dst, lifetime, custody, priority);
            WorldOk(n'.world, at, log) && PacketsOk(packets, log)
  {
    if MaySend(n, src) {
      var h := OutboundHeader(n.eid, n.sequence, now, |adu|, src, dst, lifetime, custody, priority);
      OutboundNamed(n, now, adu, src, dst, lifetime, custody, priority, at, log);
      AcceptedOk(n, id, address, now, h, adu, at, log);
      ForwardOk(Accepted(n, id, address, now, h, adu), id, at, log);
    }
  }

  // --------------------------------------------------------------- coalescing

  lemma PutOk(w: World<Id>, id: Id, b': Bundle, at: NodeId, log: Log)
    requires WorldOk(w, at, log) && id in w.bundles && SameEvents(w.bundles[id], b')
    requires b'.retention == w.bundles[id].retention && BundleOk(b', at, log)
    ensures WorldOk(Put(w, id, b'), at, log)
  {
    PutSteady(w, id, b', false);
  }

  lemma RemoveOk(w: World<Id>, id: Id, at: NodeId, log: Log)
    requires WorldOk(w, at, log) && id in w.bundles
    ensures WorldOk(Remove(w, id), at, log)
  {
    RemoveSound(w, id);
  }

  lemma DropOk(w: World<Id>, id: Id, at: NodeId, log: Log)
    requires WorldOk(w, at, log) && id in w.bundles
    ensures WorldOk(Dispose(Remove(w, id), id), at, log)
  {
    DropSound(w, id);
    assert BundleOk(w.bundles[id], at, log);
    TouchOk(w, Dispose(Remove(w, id), id), id, at, log);
  }

  /** Joining two adjacent slices gives a slice; neither was whole before. */
  lemma JoinedOk(front: Bundle, back: Bundle, at: NodeId, log: Log)
    requires BundleOk(front, at, log) && BundleOk(back, at, log)
    requires KeyOf(front.header) == KeyOf(back.header) && log[KeyOf(front.header)].at != at
    requires front.adu.Some? && back.adu.Some? && back.header.offset == front.header.offset + Size(front)
    ensures BundleOk(front.(adu := Some(front.adu.value + back.adu.value)), at, log)
    ensures front.header.fragment && back.header.fragment && !Kept(front) && !Kept(back)
  {
    var full := log[KeyOf(front.header)].adu;
    var joined, o := front.adu.value + back.adu.value, front.header.offset;
    assert joined == full[o..o + |joined|];
  }

  /** The flag is cleared only when the slice is everything. */
  lemma ClearedOk(b: Bundle, at: NodeId, log: Log)
    requires BundleOk(b, at, log) && b.adu.Some? && Size(b) == b.header.aduLength
    ensures BundleOk(b.(header := b.header.(fragment := false)), at, log)
  {
  }

  /** Bundle `front` swallows `back`, which leaves the store. */
  function Swallow<T(==)>(w: World<T>, front: T, back: T): World<T>
    requires front in w.bundles && back in w.bundles && w.bundles[front].adu.Some? && w.bundles[back].adu.Some?
  {
    var adu := w.bundles[front].adu.value + w.bundles[back].adu.value;
    var w1 := Remove(Put(w, front, w.bundles[front].(adu := Some(adu))), back);
    if |adu| == w.bundles[front].header.aduLength then ClearFragment(w1, front) else w1
  }

  lemma CoalesceOneIs<T>(w: World<T>, id: T, it: T)
    requires id in w.bundles && it in w.bundles && w.bundles[id].adu.Some? && w.bundles[it].adu.Some?
    ensures var b, p := w.bundles[id], w.bundles[it];
            CoalesceOne(w, id, it) ==
              if b.header.offset == p.header.offset + Size(p) then Swallow(w, it, id)
              else if p.header.offset == b.header.offset + Size(b) then Swallow(w, id, it)
              else w
  {
  }

  lemma SwallowOk(w: World<Id>, front: Id, back: Id, at: NodeId, log: Log)
    requires WorldOk(w, at, log) && front in w.bundles && back in w.bundles
    requires w.bundles[front].adu.Some? && w.bundles[back].adu.Some?
    requires KeyOf(w.bundles[front].header) == KeyOf(w.bundles[back].header)
    requires log[KeyOf(w.bundles[front].header)].at != at
    requires w.bundles[back].header.offset == w.bundles[front].header.offset + Size(w.bundles[front])
    ensures WorldOk(Swallow(w, front, back), at, log)
  {
    var f, b := w.bundles[front], w.bundles[back];
    assert BundleOk(f, at, log) && BundleOk(b, at, log);
    JoinedOk(f, b, at, log);
    var f' := f.(adu := Some(f.adu.value + b.adu.value));
    PutOk(w, front, f', at, log);
    var w1 := Remove(Put(w, front, f'), back);
    RemoveOk(Put(w, front, f'), back, at, log);
    if Size(f') == f.header.aduLength {
      ClearedOk(f', at, log);
      PutOk(w1, front, f'.(header := f'.header.(fragment := false)), at, log);
    }
  }

  predicate SameButFlag(h: Header, h': Header)
  {
    h' == h.(fragment := h'.fragment)
  }

  /** Nothing but fragment flags differs between the headers. */
  ghost predicate SameHeaders<T>(w: World<T>, w': World<T>)
  {
    w'.bundles.Keys == w.bundles.Keys &&
    forall x :: x in w.bundles ==> SameButFlag(w.bundles[x].header, w'.bundles[x].header)
  }

  lemma SwallowHeaders<T>(w: World<T>, front: T, back: T)
    requires front in w.bundles && back in w.bundles
    requires w.bundles[front].adu.Some? && w.bundles[back].adu.Some?
    ensures SameHeaders(w, Swallow(w, front, back))
  {
  }

  ghost predicate OneAdu(w: World<Id>, id: Id, it: Id, at: NodeId, log: Log)
  {
    id in w.bundles && it in w.bundles && KeyOf(w.bundles[id].header) == KeyOf(w.bundles[it].header) &&
    KeyOf(w.bundles[id].header) in log && log[KeyOf(w.bundles[id].header)].at != at
  }

  lemma CoalesceOneHeaders<T>(w: World<T>, id: T, it: T)
    requires id in w.bundles && it in w.bundles
    ensures SameHeaders(w, CoalesceOne(w, id, it))
  {
    if w.bundles[id].adu.Some? && w.bundles[it].adu.Some? {
      CoalesceOneIs(w, id, it);
      SwallowHeaders(w, it, id);
      SwallowHeaders(w, id, it);
    }
  }

  lemma CoalesceOneOk(w: World<Id>, id: Id, it: Id, at: NodeId, log: Log)
    requires WorldOk(w, at, log) && OneAdu(w, id, it, at, log)
    ensures WorldOk(CoalesceOne(w, id, it), at, log)
  {
    var b, p := w.bundles[id], w.bundles[it];
    if b.adu.Some? && p.adu.Some? {
      CoalesceOneIs(w, id, it);
      if b.header.offset == p.header.offset + Size(p) {
        SwallowOk(w, it, id, at, log);
      } else if p.header.offset == b.header.offset + Size(b) {
        SwallowOk(w, id, it, at, log);
      }
    }
  }

  lemma HeadersTwice<T>(w0: World<T>, w1: World<T>, w2: World<T>)
    requires SameHeaders(w0, w1) && SameHeaders(w1, w2)
    ensures SameHeaders(w0, w2)
  {
    forall x | x in w0.bundles ensures SameButFlag(w0.bundles[x].header, w2.bundles[x].header) {
      assert SameButFlag(w0.bundles[x].header, w1.bundles[x].header);
      assert SameButFlag(w1.bundles[x].header, w2.bundles[x].header);
    }
  }

  lemma {:induction false} CoalesceHeaders<T>(w: World<T>, id: T, its: seq<T>)
    requires id in w.bundles && forall x :: x in its ==> x in w.bundles
    ensures SameHeaders(w, Coalesce(w, id, its))
    decreases |its|
  {
    if its != [] {
      var w1 := CoalesceOne(w, id, its[0]);
      CoalesceOneHeaders(w, id, its[0]);
      assert forall x :: x in its[1..] ==> x in its;
      CoalesceHeaders(w1, id, its[1..]);
      HeadersTwice(w, w1, Coalesce(w1, id, its[1..]));
    }
  }

  /** `id` and all of `its` belong to one ADU, sent elsewhere. */
  ghost predicate AllOneAdu(w: World<Id>, id: Id, its: seq<Id>, at: NodeId, log: Log)
  {
    id in w.bundles && KeyOf(w.bundles[id].header) in log && log[KeyOf(w.bundles[id].header)].at != at &&
    forall x :: x in its ==> OneAdu(w, id, x, at, log)
  }

  lemma OneAduKept(w: World<Id>, w': World<Id>, id: Id, its: seq<Id>, at: NodeId, log: Log)
    requires AllOneAdu(w, id, its, at, log) && SameHeaders(w, w') && its != []
    ensures AllOneAdu(w', id, its[1..], at, log)
  {
    forall x | x in its[1..] ensures OneAdu(w', id, x, at, log) {
      assert OneAdu(w, id, x, at, log);
      assert SameButFlag(w.bundles[x].header, w'.bundles[x].header);
    }
  }

  lemma {:induction false} CoalesceOk(w: World<Id>, id: Id, its: seq<Id>, at: NodeId, log: Log)
    requires WorldOk(w, at, log) && AllOneAdu(w, id, its, at, log) && forall x :: x in its ==> x in w.bundles
    ensures WorldOk(Coalesce(w, id, its), at, log)
    decreases |its|
  {
    if its != [] {
      assert OneAdu(w, id, its[0], at, log);
      var w1 := CoalesceOne(w, id, its[0]);
      CoalesceOneOk(w, id, its[0], at, log);
      CoalesceOneHeaders(w, id, its[0]);
      OneAduKept(w, w1, id, its, at, log);
      CoalesceOk(w1, id, its[1..], at, log);
    }
  }

  // ----------------------------------------------------------------- delivery

  lemma AckedOk(w: World<Id>, id: Id, ack: (nat, nat), at: NodeId, log: Log)
    requires WorldOk(w, at, log) && id in w.bundles
    ensures WorldOk(Acked(w, id, ack), at, log)
  {
    assert BundleOk(w.bundles[id], at, log);
    PutOk(w, id, Acked(w, id, ack).bundles[id], at, log);
  }

  lemma SettledIs<T>(w: World<T>, id: T, ack: (nat, nat))
    requires id in w.bundles && StoreKnown(w)
    ensures var w1 := Acked(w, id, ack);
            Settled(w, id, ack) == if AllAcked(w1, id) then Dispose(Remove(w1, id), id) else w1
  {
  }

  lemma SettledOk(w: World<Id>, id: Id, ack: (nat, nat), at: NodeId, log: Log)
    requires WorldOk(w, at, log) && id in w.bundles
    ensures WorldOk(Settled(w, id, ack), at, log)
  {
    SettledIs(w, id, ack);
    AckedOk(w, id, ack, at, log);
    if AllAcked(Acked(w, id, ack), id) {
      DropOk(Acked(w, id, ack), id, at, log);
    }
  }

  lemma ProcessSignalOk(w: World<Id>, c: CS.Signal, at: NodeId, log: Log)
    requires WorldOk(w, at, log)
    ensures WorldOk(ProcessSignal(w, c), at, log)
  {
    match Target(w, c)
    case None =>
    case Some(id) => SettledOk(w, id, AckOf(c), at, log);
  }

  lemma SignalHeaders<T>(w: World<T>, c: CS.Signal)
    requires StoreKnown(w)
    ensures SameHeaders(w, ProcessSignal(w, c))
  {
  }

  /** What becomes of an administrative record. */
  function Consumed<T(==)>(w: World<T>, id: T, record: CS.Admin): World<T>
    requires id in w.bundles && StoreKnown(w)
  {
    var w1 := if record.Custody? then ProcessSignal(w, record.signal) else w;
    Dispose(Remove(w1, id), id)
  }

  lemma EnqueueIs<T>(agent: Eid, w: World<T>, id: T)
    requires id in w.bundles && StoreKnown(w) && Readable(agent, w.bundles[id])
    ensures var b := w.bundles[id];
            Enqueue(agent, w, id) ==
              if b.header.dst == agent then Consumed(w, id, CS.ParseAdmin(b.adu.value).value)
              else if b.header.fragment then Coalesce(w, id, WithKey(w.bundles, w.store, KeyOf(b.header)))
              else w
  {
  }

  lemma ConsumedOk(w: World<Id>, id: Id, record: CS.Admin, at: NodeId, log: Log)
    requires WorldOk(w, at, log) && id in w.bundles
    ensures WorldOk(Consumed(w, id, record), at, log)
  {
    if record.Custody? {
      ProcessSignalOk(w, record.signal, at, log);
      DropOk(ProcessSignal(w, record.signal), id, at, log);
    } else {
      DropOk(w, id, at, log);
    }
  }

  lemma ConsumedHeaders<T>(w: World<T>, id: T, record: CS.Admin)
    requires id in w.bundles && StoreKnown(w)
    ensures SameHeaders(w, Consumed(w, id, record))
  {
    if record.Custody? {
      SignalHeaders(w, record.signal);
    }
  }

  lemma EnqueueOk(agent: Eid, w: World<Id>, id: Id, at: NodeId, log: Log)
    requires WorldOk(w, at, log) && id in w.bundles && Readable(agent, w.bundles[id])
    requires KeyOf(w.bundles[id].header) in log && log[KeyOf(w.bundles[id].header)].at != at
    ensures WorldOk(Enqueue(agent, w, id), at, log)
  {
    EnqueueIs(agent, w, id);
    var b := w.bundles[id];
    if b.header.dst == agent {
      ConsumedOk(w, id, CS.ParseAdmin(b.adu.value).value, at, log);
    } else if b.header.fragment {
      CoalesceOk(w, id, WithKey(w.bundles, w.store, KeyOf(b.header)), at, log);
    }
  }

  lemma EnqueueHeaders<T>(agent: Eid, w: World<T>, id: T)
    requires id in w.bundles && StoreKnown(w) && Readable(agent, w.bundles[id])
    ensures SameHeaders(w, Enqueue(agent, w, id))
  {
    EnqueueIs(agent, w, id);
    var b := w.bundles[id];
    if b.header.dst == agent {
      ConsumedHeaders(w, id, CS.ParseAdmin(b.adu.value).value);
    } else if b.header.fragment {
      CoalesceHeaders(w, id, WithKey(w.bundles, w.store, KeyOf(b.header)));
    }
  }
}
