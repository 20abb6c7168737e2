/**
 Every operation keeps `Sound`: store, bundles and event queue agree.
 */
module Soundness {
  import opened Bytes
  import opened Bundles
  import opened Agent

  // ------------------------------------------------------------ the store

  ghost predicate NoEvents<Id>(w: World<Id>, id: Id)
  {
    forall e :: e in w.pending ==> w.pending[e].bundle != id
  }

  lemma ConsDistinct<Id>(x: Id, s: seq<Id>)
    ensures Distinct([x] + s) <==> x !in s && Distinct(s)
  {
    var t := [x] + s;
    if Distinct(t) {
      forall i, j | 0 <= i < j < |s| ensures s[i] != s[j] {
        assert t[i + 1] == s[i] && t[j + 1] == s[j];
      }
      forall i | 0 <= i < |s| ensures s[i] != x {
        assert t[i + 1] == s[i] && t[0] == x;
      }
    }
  }

  lemma {:induction false} WithoutDistinct<Id>(s: seq<Id>, id: Id)
    requires Distinct(s)
    ensures Distinct(Without(s, id))
  {
    if s != [] {
      assert s == [s[0]] + s[1..];
      ConsDistinct(s[0], s[1..]);
      WithoutDistinct(s[1..], id);
      ConsDistinct(s[0], Without(s[1..], id));
    }
  }

  lemma {:induction false} InsertDistinct<Id>(bundles: map<Id, Bundle>, s: seq<Id>, id: Id)
    requires id in bundles && forall x :: x in s ==> x in bundles
    requires Distinct(s) && id !in s
    ensures Distinct(Insert(bundles, s, id))
  {
    ConsDistinct(id, s);
    if s != [] && !Before(bundles[id], bundles[s[0]]) {
      assert s == [s[0]] + s[1..];
      ConsDistinct(s[0], s[1..]);
      InsertDistinct(bundles, s[1..], id);
      ConsDistinct(s[0], Insert(bundles, s[1..], id));
    }
  }

  /** A bundle field update that leaves the events and the ADU's presence alone. */
  predicate SameEvents(b: Bundle, b': Bundle)
  {
    b'.header.lifetime == b.header.lifetime && b'.header.custody == b.header.custody &&
    b'.expireEvent == b.expireEvent && b'.nextRetrans == b.nextRetrans && b'.adu.Some? == b.adu.Some?
  }

  lemma PutSound<Id>(w: World<Id>, id: Id, b': Bundle)
    requires Sound(w) && id in w.bundles && SameEvents(w.bundles[id], b')
    requires ForwardPending in b'.retention ==>
               ForwardPending in w.bundles[id].retention || !IsRunning(w, b'.nextRetrans)
    ensures Sound(Put(w, id, b'))
  {
    var w' := Put(w, id, b');
    forall e | e in w'.pending ensures EventHeld(w', e) {
      assert EventHeld(w, e);
    }
    forall x | x in w'.bundles ensures HandlesFit(w', x) {
      assert HandlesFit(w, x);
    }
  }

  lemma AddSound<Id>(w: World<Id>, id: Id, b: Bundle)
    requires Sound(w) && id !in w.bundles && b.expireEvent.None? && b.nextRetrans.None?
    ensures Sound(Put(w, id, b)) && NoEvents(Put(w, id, b), id) && id !in w.store
  {
    var w' := Put(w, id, b);
    forall e | e in w'.pending ensures EventHeld(w', e) && w'.pending[e].bundle != id {
      assert EventHeld(w, e);
    }
    forall x | x in w'.bundles ensures HandlesFit(w', x) {
      if x != id {
        assert HandlesFit(w, x);
      }
    }
  }

  /** In a world that is sound but for the new expiry event of a bundle that is
      about to be shelved. */
  lemma ExpiryHandles<Id>(w: World<Id>, id: Id)
    requires Sound(w) && id in w.bundles && !IsRunning(w, w.bundles[id].expireEvent)
    ensures forall x :: x in w.bundles ==> HandlesFit(WithExpiry(w, id), x)
  {
    var w' := WithExpiry(w, id);
    forall x | x in w.bundles ensures HandlesFit(w', x) {
      assert HandlesFit(w, x);
    }
  }

  lemma ShelvedHandles<Id>(w: World<Id>, id: Id)
    requires id in w.bundles && StoreKnown(w) && forall x :: x in w.bundles ==> HandlesFit(w, x)
    ensures forall x :: x in w.bundles ==> HandlesFit(Shelved(w, id), x)
  {
    forall x | x in w.bundles ensures HandlesFit(Shelved(w, id), x) {
      assert HandlesFit(w, x);
    }
  }

  lemma StoreSound<Id>(w: World<Id>, id: Id, now: nat)
    requires Sound(w) && id in w.bundles && id !in w.store && w.bundles[id].adu.Some?
    requires !IsRunning(w, w.bundles[id].expireEvent)
    ensures Sound(StoreBundle(w, id, now))
    ensures id in StoreBundle(w, id, now).store <==> !Expired(w.bundles[id].header, now)
  {
    var w' := StoreBundle(w, id, now);
    if !Expired(w.bundles[id].header, now) {
      InsertDistinct(w'.bundles, w.store, id);
      forall e | e in w'.pending ensures EventHeld(w', e) {
        if e in w.pending {
          assert EventHeld(w, e);
        }
      }
      ExpiryHandles(w, id);
      ShelvedHandles(WithExpiry(w, id), id);
    }
  }

  lemma ClearSound<Id>(w: World<Id>, id: Id)
    requires Sound(w) && id in w.bundles
    ensures NoEvents(ClearEvents(w, id), id)
    ensures forall e :: e in w.pending && w.pending[e].bundle != id <==> e in ClearEvents(w, id).pending
    ensures forall e :: e in ClearEvents(w, id).pending ==> ClearEvents(w, id).pending[e] == w.pending[e]
  {
    var w', b := ClearEvents(w, id), w.bundles[id];
    assert HandlesFit(w, id);
    forall e | e in w.pending && w.pending[e].bundle == id ensures e !in w'.pending {
      assert EventHeld(w, e);
    }
  }

  /** Removing takes the bundle out and leaves it without events. */
  lemma RemoveSound<Id>(w: World<Id>, id: Id)
    requires Sound(w) && id in w.bundles
    ensures Sound(Remove(w, id)) && NoEvents(Remove(w, id), id) && id !in Remove(w, id).store
    ensures forall x :: x in w.store && x != id ==> x in Remove(w, id).store
    ensures forall x :: x in Remove(w, id).store ==> x in w.store
  {
    var w' := Remove(w, id);
    ClearSound(w, id);
    if id in w.store {
      WithoutDistinct(w.store, id);
    }
    forall e | e in w'.pending ensures EventHeld(w', e) {
      assert EventHeld(w, e);
    }
    forall x | x in w'.bundles ensures HandlesFit(w', x) {
      assert HandlesFit(w, x);
    }
    forall x | x in w'.store && w'.bundles[x].header.lifetime != 0
      ensures IsRunning(w', w'.bundles[x].expireEvent)
    {
      assert HandlesFit(w, x);
    }
  }

  lemma DisposeSound<Id>(w: World<Id>, id: Id)
    requires Sound(w) && id in w.bundles && id !in w.store && NoEvents(w, id)
    ensures Sound(Dispose(w, id)) && NoEvents(Dispose(w, id), id)
    ensures Dispose(w, id).pending == w.pending
  {
    var w' := Dispose(w, id);
    ClearSound(w, id);
    assert w'.pending == w.pending;
    forall e | e in w'.pending ensures EventHeld(w', e) {
      assert EventHeld(w, e);
    }
    forall x | x in w'.bundles ensures HandlesFit(w', x) {
      assert HandlesFit(w, x);
    }
  }

  /** An event that runs has left the queue. */
  lemma FireSound<Id>(w: World<Id>, event: nat)
    requires Sound(w) && event in w.pending && w.pending[event].Retransmission?
    ensures Sound(w.(pending := w.pending - {event}))
    ensures !IsRunning(w.(pending := w.pending - {event}), w.bundles[w.pending[event].bundle].nextRetrans)
  {
    var w' := w.(pending := w.pending - {event});
    assert EventHeld(w, event);
    forall e | e in w'.pending ensures EventHeld(w', e) {
      assert EventHeld(w, e);
    }
    forall x | x in w'.bundles ensures HandlesFit(w', x) {
      assert HandlesFit(w, x);
    }
    forall x | x in w'.store && w'.bundles[x].header.lifetime != 0
      ensures IsRunning(w', w'.bundles[x].expireEvent)
    {
      assert HandlesFit(w, x);
    }
  }

  /** An expiry event that runs leaves its bundle without one until it is
      removed; both together keep the agreement. */
  lemma ExpireSound<Id>(w: World<Id>, event: nat)
    requires Sound(w) && event in w.pending && w.pending[event].Expiry?
    ensures w.pending[event].bundle in w.bundles
    ensures var id := w.pending[event].bundle;
            Expire(w.(pending := w.pending - {event}), id) == Expire(w, id)
            && Sound(Expire(w, id)) && NoEvents(Expire(w, id), id)
  {
    var id := w.pending[event].bundle;
    assert EventHeld(w, event);
    RemoveAfterFire(w, id, event);
    RemoveSound(w, id);
    DisposeSound(Remove(w, id), id);
  }

  lemma RemoveAfterFire<Id>(w: World<Id>, id: Id, event: nat)
    requires id in w.bundles && w.bundles[id].expireEvent == Some(event) && w.bundles[id].header.lifetime != 0
    ensures Remove(w.(pending := w.pending - {event}), id) == Remove(w, id)
  {
    var w0 := w.(pending := w.pending - {event});
    assert w.pending - {event} - {event} == w.pending - {event};
    assert ClearEvents(w0, id) == ClearEvents(w, id);
  }

  /** A bundle has a live expiry event exactly when it is stored with a lifetime. */
  lemma ExpiresIfStored<Id>(w: World<Id>)
    requires Sound(w)
    ensures forall x :: x in w.bundles ==>
              ((exists e :: e in w.pending && w.pending[e] == Expiry(x))
               <==> (x in w.store && w.bundles[x].header.lifetime != 0))
  {
    forall x | x in w.bundles
      ensures (exists e :: e in w.pending && w.pending[e] == Expiry(x))
         <==> (x in w.store && w.bundles[x].header.lifetime != 0)
    {
      assert HandlesFit(w, x);
      if x in w.store && w.bundles[x].header.lifetime != 0 {
        assert w.pending[w.bundles[x].expireEvent.value] == Expiry(x);
      }
      if e :| e in w.pending && w.pending[e] == Expiry(x) {
        assert EventHeld(w, e);
      }
    }
  }

  // ------------------------------------------------------------ the agent

  lemma ScheduleSound<Id>(w: World<Id>, id: Id)
    requires Sound(w) && id in w.bundles && w.bundles[id].adu.Some? && w.bundles[id].header.custody
    requires !IsRunning(w, w.bundles[id].nextRetrans) && ForwardPending !in w.bundles[id].retention
    ensures Sound(Schedule(w, id)) && IsRunning(Schedule(w, id), Schedule(w, id).bundles[id].nextRetrans)
  {
    var w' := Schedule(w, id);
    assert HandlesFit(w, id);
    forall e | e in w'.pending ensures EventHeld(w', e) {
      if e in w.pending {
        assert EventHeld(w, e);
      }
    }
    forall x | x in w'.bundles ensures HandlesFit(w', x) {
      assert HandlesFit(w, x);
    }
  }

  /** The loop leaves its three header fields changed and nothing else. */
  lemma {:induction false} SlicesHeader(h: Header, adu: seq<byte>, bundleSize: nat, left: nat)
    requires left <= |adu| && bundleSize > 0
    ensures var h' := SendSlices(h, adu, bundleSize, left).0;
            h' == h.(blockLength := h'.blockLength, fragment := h'.fragment, offset := h'.offset)
    decreases left
  {
    if left != 0 {
      SlicesHeader(SliceHeader(h, |adu|, bundleSize, left), adu, bundleSize, left - SliceSize(bundleSize, left));
    }
  }

  /** `Transmit` without its last clean-up, in an order that keeps `Sound` at
      every point: first the header and the retention, then the timer. */
  lemma TransmitParts<Id>(w: World<Id>, id: Id, bundleSize: nat)
    requires id in w.bundles && w.bundles[id].adu.Some? && bundleSize > 0
    ensures var timed := Sent(w, id, bundleSize);
            Transmit(w, id, bundleSize).0 ==
              if w.bundles[id].retention - {ForwardPending} == {} then Dispose(Remove(timed, id), id) else timed
  {
    var b := w.bundles[id];
    var adu := b.adu.value;
    var h := SendSlices(b.header, adu, bundleSize, |adu|).0;
    var sent := Put(w, id, b.(header := h, retention := b.retention - {ForwardPending}));
    var timed := if b.header.custody then Schedule(sent, id) else sent;
    var w1 := if b.header.custody then Schedule(w, id) else w;
    var b1 := w1.bundles[id];
    assert b1.header == b.header && b1.adu == b.adu;
    var w2 := Put(w1, id, b1.(header := h, retention := b1.retention - {ForwardPending}));
    assert w2.bundles == timed.bundles;
    assert w2 == timed;
  }

  /** Only bundle `id` and its events differ between `w` and `w'`. */
  ghost predicate OnlyTouches<Id>(w: World<Id>, w': World<Id>, id: Id)
  {
    && w'.bundles.Keys == w.bundles.Keys
    && (forall x :: x in w.bundles && x != id ==> w'.bundles[x] == w.bundles[x])
    && (forall e :: e in w.pending && w.pending[e].bundle != id ==> e in w'.pending && w'.pending[e] == w.pending[e])
    && (forall e :: e in w'.pending && w'.pending[e].bundle != id ==> e in w.pending && w'.pending[e] == w.pending[e])
  }

  lemma TouchesTwice<Id>(w0: World<Id>, w1: World<Id>, w2: World<Id>, id: Id)
    requires OnlyTouches(w0, w1, id) && OnlyTouches(w1, w2, id)
    ensures OnlyTouches(w0, w2, id)
  {
  }

  /** Taking a bundle out for good. */
  lemma DropSound<Id>(w: World<Id>, id: Id)
    requires Sound(w) && id in w.bundles
    ensures var w' := Dispose(Remove(w, id), id);
            Sound(w') && NoEvents(w', id) && OnlyTouches(w, w', id) && id !in w'.store
            && (forall x :: x in w.store && x != id ==> x in w'.store)
            && (forall x :: x in w'.store ==> x in w.store)
            && w'.bundles[id] == w.bundles[id].(adu := None, acks := [])
  {
    ClearSound(w, id);
    RemoveSound(w, id);
    DisposeSound(Remove(w, id), id);
  }

  /** The bundle after its octets went out, with its next timer running if it
      asks for custody transfer; before the last clean-up. */
  function Sent<Id(==)>(w: World<Id>, id: Id, bundleSize: nat): World<Id>
    requires id in w.bundles && w.bundles[id].adu.Some? && bundleSize > 0
  {
    var b := w.bundles[id];
    var h := SendSlices(b.header, b.adu.value, bundleSize, |b.adu.value|).0;
    var sent := Put(w, id, b.(header := h, retention := b.retention - {ForwardPending}));
    if b.header.custody then Schedule(sent, id) else sent
  }

  lemma SentSound<Id>(w: World<Id>, id: Id, bundleSize: nat)
    requires Sound(w) && id in w.bundles && w.bundles[id].adu.Some? && bundleSize > 0
    requires !IsRunning(w, w.bundles[id].nextRetrans)
    ensures var w', b := Sent(w, id, bundleSize), w.bundles[id];
            Sound(w') && OnlyTouches(w, w', id) && w'.store == w.store
            && SameButSlice(b.header, w'.bundles[id].header)
            && w'.bundles[id] == b.(header := w'.bundles[id].header, retention := b.retention - {ForwardPending},
                                    nextRetrans := w'.bundles[id].nextRetrans)
            && (b.header.custody ==> IsRunning(w', w'.bundles[id].nextRetrans))
  {
    var b := w.bundles[id];
    var h := SendSlices(b.header, b.adu.value, bundleSize, |b.adu.value|).0;
    SlicesHeader(b.header, b.adu.value, bundleSize, |b.adu.value|);
    var sent := Put(w, id, b.(header := h, retention := b.retention - {ForwardPending}));
    PutSound(w, id, sent.bundles[id]);
    assert HandlesFit(w, id);
    if b.header.custody {
      ScheduleSound(sent, id);
    }
    assert forall e :: e in w.pending ==> e != w.nextEvent;
  }

  predicate SameButSlice(h: Header, h': Header)
  {
    h' == h.(blockLength := h'.blockLength, fragment := h'.fragment, offset := h'.offset)
  }

  /** What forwarding makes of the bundle, the store and the queue. */
  lemma TransmitSound<Id>(w: World<Id>, id: Id, bundleSize: nat)
    requires Sound(w) && id in w.bundles && w.bundles[id].adu.Some? && bundleSize > 0
    requires !IsRunning(w, w.bundles[id].nextRetrans)
    ensures var w', b := Transmit(w, id, bundleSize).0, w.bundles[id];
            Sound(w') && OnlyTouches(w, w', id)
            && if b.retention - {ForwardPending} == {} then
                 w' == Dispose(Remove(Sent(w, id, bundleSize), id), id) && NoEvents(w', id) && id !in w'.store
                 && (forall x :: x in w.store && x != id ==> x in w'.store)
                 && (forall x :: x in w'.store ==> x in w.store)
               else w' == Sent(w, id, bundleSize)
  {
    TransmitParts(w, id, bundleSize);
    SentSound(w, id, bundleSize);
    var timed := Sent(w, id, bundleSize);
    if w.bundles[id].retention - {ForwardPending} == {} {
      DropSound(timed, id);
      TouchesTwice(w, timed, Dispose(Remove(timed, id), id), id);
    }
  }
}
