/**
 The simulator's event queue, bundle objects and the bundle store as objects
 (bp/model/bp-bundle.cc, bp-bundle-6.cc, bp-bundle-store.cc). Each method is
 proved equal to a function of module `Bundles` on the world the objects stand for.
 */
module BundleObjects {
  import opened Bytes
  import opened Bundles

  class Simulator {
    var now: nat
    var pending: map<nat, Event<Bundle6>>
    var nextEvent: nat

    constructor ()
      ensures now == 0 && pending == map[] && nextEvent == 0
    {
      now, pending, nextEvent := 0, map[], 0;
    }

    method Schedule(event: Event<Bundle6>) returns (id: nat)
      modifies this`pending, this`nextEvent
      ensures id == old(nextEvent) && nextEvent == id + 1 && pending == old(pending)[id := event]
    {
      id := nextEvent;
      pending, nextEvent := pending[id := event], id + 1;
    }

    predicate IsRunning(event: Option<nat>)
      reads this
    {
      event.Some? && event.value in pending
    }

    /** Cancelling and removing an event both take it off the queue. */
    method Cancel(event: Option<nat>)
      modifies this`pending
      ensures pending == if event.Some? then old(pending) - {event.value} else old(pending)
    {
      if event.Some? {
        pending := pending - {event.value};
      }
    }
  }

  class Bundle6 {
    var header: Header
    var adu: Option<seq<byte>>
    var retentionConstraints: set<Retention>
    var acks: seq<(nat, nat)>
    var expireEvent: Option<nat>
    var nextRetrans: Option<nat>
    const address: nat

    constructor (header: Header, adu: seq<byte>, address: nat)
      ensures Value() == Bundle(header, Some(adu), {}, [], None, None, address)
    {
      this.header, this.adu, this.address := header, Some(adu), address;
      retentionConstraints, acks, expireEvent, nextRetrans := {}, [], None, None;
    }

    function Value(): Bundle
      reads this
    {
      Bundle(header, adu, retentionConstraints, acks, expireEvent, nextRetrans, address)
    }

    /** `Bundle6::ClearEvents`: the expiry event if the bundle has a lifetime, the
        retransmission timer if it asks for custody. */
    method ClearEvents(sim: Simulator)
      modifies sim`pending
      ensures sim.pending == Cleared(Value(), old(sim.pending))
    {
      if header.lifetime != 0 && sim.IsRunning(expireEvent) {
        sim.Cancel(expireEvent);
      }
      if header.custody && sim.IsRunning(nextRetrans) {
        sim.Cancel(nextRetrans);
      }
    }

    /** `Bundle6::DoDispose`. */
    method DoDispose(sim: Simulator)
      modifies this`adu, this`acks, sim`pending
      ensures Value() == old(Value()).(adu := None, acks := [])
      ensures sim.pending == Cleared(old(Value()), old(sim.pending))
    {
      adu := None;
      if header.lifetime != 0 {
        sim.Cancel(expireEvent);
      }
      acks := [];
      if header.custody {
        sim.Cancel(nextRetrans);
      }
    }
  }

  /** The queue without the events the bundle's flags say it has. */
  ghost function Cleared(b: Bundle, pending: map<nat, Event<Bundle6>>): map<nat, Event<Bundle6>>
  {
    var p1 := if b.header.lifetime != 0 && b.expireEvent.Some? then pending - {b.expireEvent.value} else pending;
    if b.header.custody && b.nextRetrans.Some? then p1 - {b.nextRetrans.value} else p1
  }

  lemma {:induction false} InsertAt<Id>(bundles: map<Id, Bundle>, s: seq<Id>, id: Id, i: nat)
    requires id in bundles && (forall x :: x in s ==> x in bundles) && i <= |s|
    requires forall j :: 0 <= j < i ==> !Before(bundles[id], bundles[s[j]])
    requires i < |s| ==> Before(bundles[id], bundles[s[i]])
    ensures Insert(bundles, s, id) == s[..i] + [id] + s[i..]
  {
    if i > 0 {
      InsertAt(bundles, s[1..], id, i - 1);
      OneFurther(s, id, i);
    } else if s != [] {
      assert s[..0] + [id] + s[0..] == [id] + s;
    }
  }

  lemma OneFurther<Id>(s: seq<Id>, id: Id, i: nat)
    requires 0 < i <= |s|
    ensures [s[0]] + (s[1..][..i - 1] + [id] + s[1..][i - 1..]) == s[..i] + [id] + s[i..]
  {
  }

  /** One turn of the loop of `GetBundles`. */
  lemma WithKeyNext<Id>(bundles: map<Id, Bundle>, s: seq<Id>, key: Key, found: seq<Id>, i: nat)
    requires (forall x :: x in s ==> x in bundles) && i < |s|
    requires WithKey(bundles, s, key) == found + WithKey(bundles, s[i..], key)
    ensures WithKey(bundles, s, key) ==
            (if KeyOf(bundles[s[i]].header) == key then found + [s[i]] else found) + WithKey(bundles, s[i + 1..], key)
  {
    assert s[i..][0] == s[i] && s[i..][1..] == s[i + 1..];
  }

  class BundleStore {
    const sim: Simulator
    var store: seq<Bundle6>
    var maxBundlesStored: nat
    var storedBytes: int
    /** Every bundle object the agent holds a pointer to. */
    ghost var objects: set<Bundle6>

    constructor (sim: Simulator)
      ensures this.sim == sim && Valid() && objects == {} && store == [] && storedBytes == 0 && maxBundlesStored == 0
    {
      this.sim := sim;
      store, maxBundlesStored, storedBytes, objects := [], 0, 0, {};
    }

    ghost predicate Valid()
      reads this
    {
      forall b :: b in store ==> b in objects
    }

    /** The world these objects stand for. */
    ghost function Abs(): (w: World<Bundle6>)
      requires Valid()
      reads this, sim, objects
      ensures StoreKnown(w) && w.bundles.Keys == objects && w.store == store
    {
      World(map b | b in objects :: b.Value(), store, storedBytes, maxBundlesStored, sim.pending, sim.nextEvent)
    }

    /** A bundle object new to the agent. */
    ghost method Hold(b: Bundle6)
      requires Valid()
      modifies this`objects
      ensures Valid() && objects == old(objects) + {b} && Abs() == Put(old(Abs()), b, b.Value())
    {
      objects := objects + {b};
      assert Abs().bundles == Put(old(Abs()), b, b.Value()).bundles;
    }

    method ScheduleExpiry(b: Bundle6)
      requires Valid() && b in objects && b.header.lifetime != 0
      modifies sim`pending, sim`nextEvent, b`expireEvent
      ensures Valid() && Abs() == WithExpiry(old(Abs()), b)
    {
      ghost var w := Abs();
      var evid := sim.Schedule(Expiry(b));
      b.expireEvent := Some(evid);
      assert Abs().bundles == WithExpiry(w, b).bundles;
    }

    /** `BundleStore::Store`. */
    method Store(b: Bundle6)
      requires Valid() && b in objects && b.adu.Some?
      modifies this`store, this`maxBundlesStored, this`storedBytes, sim`pending, sim`nextEvent, b`expireEvent
      ensures Valid() && Abs() == StoreBundle(old(Abs()), b, sim.now)
    {
      var lifetime := b.header.lifetime;
      if lifetime != 0 {
        var timeLeft := b.header.timestamp * SECOND + lifetime - sim.now;
        if timeLeft < 0 {
          return;
        }
        ScheduleExpiry(b);
      }
      Shelve(b);
    }

    method Shelve(b: Bundle6)
      requires Valid() && b in objects && b.adu.Some?
      modifies this`store, this`maxBundlesStored, this`storedBytes
      ensures Valid() && Abs() == Shelved(old(Abs()), b)
    {
      InsertHere(b);
      if |store| > maxBundlesStored {
        maxBundlesStored := |store|;
      }
      storedBytes := storedBytes + |b.adu.value|;
    }

    /** A new bundle object, stored at once. */
    method Admit(b: Bundle6)
      requires Valid() && b.adu.Some?
      modifies this, sim`pending, sim`nextEvent, b`expireEvent
      ensures Valid() && b in objects && Abs() == StoreBundle(Put(old(Abs()), b, old(b.Value())), b, sim.now)
    {
      Hold(b);
      Store(b);
    }

    /** Insertion into the ordered set: in front of the first bundle the new one
        precedes. */
    method InsertHere(b: Bundle6)
      requires Valid() && b in objects
      modifies this`store
      ensures Valid() && Abs() == old(Abs()).(store := Insert(old(Abs()).bundles, old(store), b))
    {
      var i := 0;
      while i < |store| && !Before(b.Value(), store[i].Value())
        invariant 0 <= i <= |store|
        invariant forall j :: 0 <= j < i ==> !Before(b.Value(), store[j].Value())
      {
        i := i + 1;
      }
      InsertAt(Abs().bundles, store, b, i);
      store := store[..i] + [b] + store[i..];
    }

    /** `BundleStore::Remove`. */
    method Remove(b: Bundle6)
      requires Valid() && b in objects && (b in store ==> b.adu.Some?)
      modifies this`store, this`storedBytes, sim`pending
      ensures Valid() && Abs() == Bundles.Remove(old(Abs()), b)
    {
      b.ClearEvents(sim);
      if b in store {
        store := Without(store, b);
        storedBytes := storedBytes - |b.adu.value|;
      }
    }

    /** `DoDispose` of a bundle the agent holds. */
    method DisposeOf(b: Bundle6)
      requires Valid() && b in objects
      modifies sim`pending, b`adu, b`acks
      ensures Valid() && Abs() == Dispose(old(Abs()), b)
    {
      ghost var w := Abs();
      b.DoDispose(sim);
      assert Abs().bundles == Dispose(w, b).bundles;
    }

    /** Both in a row, as they always are. */
    method Drop(b: Bundle6)
      requires Valid() && b in objects && (b in store ==> b.adu.Some?)
      modifies this`store, this`storedBytes, sim`pending, b`adu, b`acks
      ensures Valid() && Abs() == Dispose(Bundles.Remove(old(Abs()), b), b)
    {
      Remove(b);
      DisposeOf(b);
    }

    /** `BundleStore::Expire`. */
    method Expire(b: Bundle6)
      requires Valid() && b in objects && (b in store ==> b.adu.Some?)
      modifies this`store, this`storedBytes, sim`pending, b`adu, b`acks
      ensures Valid() && Abs() == Bundles.Expire(old(Abs()), b)
    {
      Drop(b);
    }

    /** `BundleStore::GetAndRemoveBundle`. */
    method GetAndRemoveBundle(eid: Eid, fragOk: bool) returns (adu: Option<seq<byte>>)
      requires Valid() && forall b :: b in store ==> b.adu.Some?
      modifies this`store, this`storedBytes, sim`pending, objects
      ensures Valid() && (Abs(), adu) == GetAndRemove(old(Abs()), eid, fragOk)
    {
      ghost var w := Abs();
      var i := 0;
      while i < |store|
        invariant 0 <= i <= |store| && Abs() == w
        invariant FirstFor(w.bundles, store, eid, fragOk) == FirstFor(w.bundles, store[i..], eid, fragOk)
      {
        var b := store[i];
        assert store[i..][0] == b && store[i..][1..] == store[i + 1..];
        if b.header.dst == eid {
          if b.header.fragment && !fragOk {
            i := i + 1;
            continue;
          }
          adu := b.adu;
          Drop(b);
          return;
        }
        i := i + 1;
      }
      return None;
    }

    /** `BundleStore::GetBundles`; `GetBundle` is the first of them. */
    method GetBundles(key: Key) returns (bundles: seq<Bundle6>)
      requires Valid()
      ensures bundles == WithKey(Abs().bundles, store, key)
    {
      ghost var all := Abs().bundles;
      bundles := [];
      var i := 0;
      while i < |store|
        invariant 0 <= i <= |store|
        invariant WithKey(all, store, key) == bundles + WithKey(all, store[i..], key)
      {
        WithKeyNext(all, store, key, bundles, i);
        if KeyOf(store[i].header) == key {
          bundles := bundles + [store[i]];
        }
        i := i + 1;
      }
    }
  }
}
