/**
 The store's own books over every run of its operations: its octet count is the
 sum of what it holds, its high-water mark the greatest number it ever held, and
 a bundle has a live expiry event exactly when it is stored with a lifetime.
 */
module Accounting {
  import opened Bundles
  import opened Soundness
  import opened Delivery

  /** A call on the store; a bundle object is stored once, when it is new. */
  datatype Call<Id> =
    | Store(id: Id, bundle: Bundle, now: nat)
    | Remove(id: Id)
    | Expire(event: nat)
    | Fetch(eid: Eid, fragOk: bool)

  ghost predicate May<Id>(w: World<Id>, c: Call<Id>)
  {
    match c
    case Store(id, b, _) => id !in w.bundles && b.adu.Some? && b.expireEvent.None? && b.nextRetrans.None?
    case Remove(id) => id in w.bundles
    case Expire(event) => event in w.pending && w.pending[event].Expiry? && w.pending[event].bundle in w.bundles
    case Fetch(_, _) => true
  }

  ghost function After<Id>(w: World<Id>, c: Call<Id>): World<Id>
    requires StoreKnown(w) && May(w, c)
  {
    match c
    case Store(id, b, now) => StoreBundle(Put(w, id, b), id, now)
    case Remove(id) => Bundles.Remove(w, id)
    case Expire(event) => Bundles.Expire(w.(pending := w.pending - {event}), w.pending[event].bundle)
    case Fetch(eid, fragOk) => GetAndRemove(w, eid, fragOk).0
  }

  function Sum<Id(==)>(bundles: map<Id, Bundle>, s: seq<Id>): nat
    requires forall x :: x in s ==> x in bundles
  {
    if s == [] then 0 else Size(bundles[s[0]]) + Sum(bundles, s[1..])
  }

  lemma {:induction false} SumSame<Id>(b: map<Id, Bundle>, b': map<Id, Bundle>, s: seq<Id>)
    requires forall x :: x in s ==> x in b && x in b' && Size(b'[x]) == Size(b[x])
    ensures Sum(b', s) == Sum(b, s)
  {
    if s != [] {
      SumSame(b, b', s[1..]);
    }
  }

  lemma {:induction false} SumInsert<Id>(b: map<Id, Bundle>, s: seq<Id>, id: Id)
    requires id in b && forall x :: x in s ==> x in b
    ensures Sum(b, Insert(b, s, id)) == Sum(b, s) + Size(b[id])
  {
    if s != [] && !Before(b[id], b[s[0]]) {
      SumInsert(b, s[1..], id);
    }
  }

  lemma {:induction false} SumWithout<Id>(b: map<Id, Bundle>, s: seq<Id>, id: Id)
    requires id in s && Distinct(s) && forall x :: x in s ==> x in b
    ensures Sum(b, Without(s, id)) == Sum(b, s) - Size(b[id])
  {
    assert s == [s[0]] + s[1..];
    ConsDistinct(s[0], s[1..]);
    if s[0] == id {
      NothingWithout(s[1..], id);
    } else {
      SumWithout(b, s[1..], id);
      assert Without(s, id)[1..] == Without(s[1..], id);
    }
  }

  /** The books agree with the shelves. */
  ghost predicate Kept<Id>(w: World<Id>)
  {
    Sound(w) && w.storedBytes == Sum(w.bundles, w.store)
  }

  lemma StoreKept<Id>(w: World<Id>, id: Id, b: Bundle, now: nat)
    requires Kept(w) && May(w, Call.Store(id, b, now))
    ensures Kept(StoreBundle(Put(w, id, b), id, now))
  {
    var w1 := Put(w, id, b);
    var w' := StoreBundle(w1, id, now);
    AddSound(w, id, b);
    StoreSound(w1, id, now);
    SumSame(w.bundles, w'.bundles, w.store);
    if !Expired(b.header, now) {
      SumInsert(w'.bundles, w.store, id);
    }
  }

  lemma RemoveKept<Id>(w: World<Id>, id: Id)
    requires Kept(w) && id in w.bundles
    ensures Kept(Bundles.Remove(w, id))
  {
    RemoveSound(w, id);
    if id in w.store {
      SumWithout(w.bundles, w.store, id);
    }
  }

  lemma DropKept<Id>(w: World<Id>, id: Id)
    requires Kept(w) && id in w.bundles
    ensures Kept(Dispose(Bundles.Remove(w, id), id))
  {
    RemoveKept(w, id);
    DropSound(w, id);
    var w1 := Bundles.Remove(w, id);
    SumSame(w1.bundles, Dispose(w1, id).bundles, w1.store);
  }

  lemma CallKept<Id>(w: World<Id>, c: Call<Id>)
    requires Kept(w) && May(w, c)
    ensures Kept(After(w, c))
  {
    match c
    case Store(id, b, now) => StoreKept(w, id, b, now);
    case Remove(id) => RemoveKept(w, id);
    case Expire(event) =>
      ExpireSound(w, event);
      DropKept(w, w.pending[event].bundle);
    case Fetch(eid, fragOk) =>
      match FirstFor(w.bundles, w.store, eid, fragOk)
      case None =>
      case Some(id) => DropKept(w, id);
  }

  function Max(a: nat, b: nat): nat
  {
    if a < b then b else a
  }

  /** A call raises the mark to the number stored after it, if that is more. */
  lemma CallMarks<Id>(w: World<Id>, c: Call<Id>)
    requires Kept(w) && May(w, c) && |w.store| <= w.maxStored
    ensures After(w, c).maxStored == Max(w.maxStored, |After(w, c).store|)
  {
    if c.Fetch? {
      match FirstFor(w.bundles, w.store, c.eid, c.fragOk)
      case None =>
      case Some(id) =>
    }
  }

  // -------------------------------------------------------------------- runs

  ghost predicate Calls<Id>(worlds: seq<World<Id>>, calls: seq<Call<Id>>)
  {
    |worlds| == |calls| + 1 && worlds[0] == World(map[], [], 0, 0, map[], 0) &&
    forall i :: 0 <= i < |calls| ==> CallsTo(worlds[i], calls[i], worlds[i + 1])
  }

  ghost predicate CallsTo<Id>(w: World<Id>, c: Call<Id>, w': World<Id>)
  {
    StoreKnown(w) && May(w, c) && w' == After(w, c)
  }

  /** The greatest number of bundles stored in the first `i` + 1 states. */
  function HighWater<Id>(worlds: seq<World<Id>>, i: nat): nat
    requires i < |worlds|
  {
    if i == 0 then |worlds[0].store| else Max(HighWater(worlds, i - 1), |worlds[i].store|)
  }

  lemma {:induction false} RunKept<Id>(worlds: seq<World<Id>>, calls: seq<Call<Id>>, i: nat)
    requires Calls(worlds, calls) && i < |worlds|
    ensures Kept(worlds[i]) && worlds[i].maxStored == HighWater(worlds, i) && |worlds[i].store| <= worlds[i].maxStored
  {
    if i > 0 {
      RunKept(worlds, calls, i - 1);
      assert CallsTo(worlds[i - 1], calls[i - 1], worlds[i]);
      CallKept(worlds[i - 1], calls[i - 1]);
      CallMarks(worlds[i - 1], calls[i - 1]);
    }
  }

  lemma {:induction false} HighWaterIsGreatest<Id>(worlds: seq<World<Id>>, i: nat)
    requires i < |worlds|
    ensures forall j :: 0 <= j <= i ==> |worlds[j].store| <= HighWater(worlds, i)
    ensures exists j :: 0 <= j <= i && |worlds[j].store| == HighWater(worlds, i)
  {
    if i > 0 {
      HighWaterIsGreatest(worlds, i - 1);
      var j :| 0 <= j <= i - 1 && |worlds[j].store| == HighWater(worlds, i - 1);
      assert |worlds[if HighWater(worlds, i - 1) < |worlds[i].store| then i else j].store| == HighWater(worlds, i);
    } else {
      assert |worlds[0].store| == HighWater(worlds, 0);
    }
  }

  /** Store accounting: over every run of the store's operations from an empty
      store, the octet count is the sum of the stored ADUs' sizes, the high-water
      mark is the greatest number of bundles stored at any time, and a bundle has
      a live expiry event exactly when it is stored with a lifetime. */
  lemma BooksAgree<Id>(worlds: seq<World<Id>>, calls: seq<Call<Id>>, i: nat)
    requires Calls(worlds, calls) && i < |worlds|
    ensures var w := worlds[i];
            StoreKnown(w) && w.storedBytes == Sum(w.bundles, w.store)
            && (forall j :: 0 <= j <= i ==> |worlds[j].store| <= w.maxStored)
            && (exists j :: 0 <= j <= i && |worlds[j].store| == w.maxStored)
            && forall x :: x in w.bundles ==>
                 ((exists e :: e in w.pending && w.pending[e] == Expiry(x))
                  <==> (x in w.store && w.bundles[x].header.lifetime != 0))
  {
    RunKept(worlds, calls, i);
    HighWaterIsGreatest(worlds, i);
    ExpiresIfStored(worlds[i]);
  }

  // --------------------------------------------------------------- the order

  lemma SortedSame<Id>(b: map<Id, Bundle>, b': map<Id, Bundle>, s: seq<Id>)
    requires (forall x :: x in s ==> x in b && x in b' && b'[x] == b[x]) && Sorted(b, s)
    ensures Sorted(b', s)
  {
    assert forall i :: 0 <= i < |s| ==> b'[s[i]] == b[s[i]];
  }

  lemma DropSorted<Id>(w: World<Id>, id: Id)
    requires Sound(w) && id in w.bundles && Sorted(w.bundles, w.store)
    ensures var w' := Dispose(Bundles.Remove(w, id), id);
            StoreKnown(w') && Sorted(w'.bundles, w'.store)
  {
    var w' := Dispose(Bundles.Remove(w, id), id);
    DropSound(w, id);
    WithoutSorted(w.bundles, w.store, id);
    SortedSame(w.bundles, w'.bundles, w'.store);
  }

  lemma StoreSorted<Id>(w: World<Id>, id: Id, b: Bundle, now: nat)
    requires Sound(w) && May(w, Call.Store(id, b, now)) && Sorted(w.bundles, w.store)
    requires var w' := StoreBundle(Put(w, id, b), id, now); Comparable(w'.bundles, w'.store)
    ensures var w' := StoreBundle(Put(w, id, b), id, now); Sorted(w'.bundles, w'.store)
  {
    var w' := StoreBundle(Put(w, id, b), id, now);
    SortedSame(w.bundles, w'.bundles, w.store);
    if !Expired(b.header, now) {
      assert forall x :: x in w.store + [id] ==> x in w'.store;
      InsertSorted(w'.bundles, w.store, id);
    }
  }

  lemma CallSorted<Id>(w: World<Id>, c: Call<Id>)
    requires Kept(w) && May(w, c) && Sorted(w.bundles, w.store)
    requires StoreKnown(After(w, c)) && Comparable(After(w, c).bundles, After(w, c).store)
    ensures Sorted(After(w, c).bundles, After(w, c).store)
  {
    match c
    case Store(id, b, now) => StoreSorted(w, id, b, now);
    case Remove(id) => WithoutSorted(w.bundles, w.store, id);
    case Expire(event) =>
      ExpireSound(w, event);
      DropSorted(w, w.pending[event].bundle);
    case Fetch(eid, fragOk) =>
      match FirstFor(w.bundles, w.store, eid, fragOk)
      case None =>
      case Some(id) => DropSorted(w, id);
  }

  /** While the stored sequence numbers stay within half their range, the store
      is sorted in every state, so what is fetched is always the least of those
      that qualify. */
  lemma {:induction false} RunSorted<Id>(worlds: seq<World<Id>>, calls: seq<Call<Id>>, i: nat)
    requires Calls(worlds, calls) && i < |worlds|
    requires forall j :: 0 <= j <= i ==> StoreKnown(worlds[j]) && Comparable(worlds[j].bundles, worlds[j].store)
    ensures StoreKnown(worlds[i]) && Sorted(worlds[i].bundles, worlds[i].store)
  {
    if i > 0 {
      RunSorted(worlds, calls, i - 1);
      RunKept(worlds, calls, i - 1);
      assert CallsTo(worlds[i - 1], calls[i - 1], worlds[i]);
      CallSorted(worlds[i - 1], calls[i - 1]);
    }
  }
}
