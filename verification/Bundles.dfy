/**
 Bundles, the event queue and the bundle store as values.

 A `World` is everything the agent's operations touch in place: the bundle
 objects it holds pointers to, the store, and the simulator's pending events.
 `Id` is the identity of a bundle object; class `BundleStore` uses the object
 references themselves, the runs in module `Network` use numbers.
 Sources: bp/model/bp-bundle.h, bp-bundle.cc, bp-bundle-6.cc, bp-bundle-store.h,
 bp-bundle-store.cc.
 */
module Bundles {
  import opened Bytes

  type Eid = seq<byte>

  datatype Retention = DispatchPending | ForwardPending | CustodyAccepted

  /** What the agent reads and writes of a primary block: the endpoint URIs its
      getters answer, the two flags it uses, and the numbers. Lifetimes are in
      ticks of the simulator, creation timestamps in seconds. */
  datatype Header = Header(
    src: Eid, dst: Eid, cust: Eid, timestamp: nat, sequence: nat, lifetime: nat,
    custody: bool, fragment: bool, offset: nat, aduLength: nat, blockLength: nat, priority: nat)

  /** The source endpoint, timestamp and sequence number that name an ADU. */
  datatype Key = Key(src: Eid, timestamp: nat, sequence: nat)

  function KeyOf(h: Header): Key
  {
    Key(h.src, h.timestamp, h.sequence)
  }

  /** `adu` is `None` after `DoDispose`; an event handle stays set after its
      event has run or was cancelled, as an `EventId` does. `address` stands for
      the object's address, the last criterion of the store's order. */
  datatype Bundle = Bundle(
    header: Header, adu: Option<seq<byte>>, retention: set<Retention>, acks: seq<(nat, nat)>,
    expireEvent: Option<nat>, nextRetrans: Option<nat>, address: nat)

  function Size(b: Bundle): nat
  {
    if b.adu.Some? then |b.adu.value| else 0
  }

  datatype Event<Id> = Expiry(bundle: Id) | Retransmission(bundle: Id)

  datatype World<Id(==)> = World(
    bundles: map<Id, Bundle>, store: seq<Id>, storedBytes: int, maxStored: nat,
    pending: map<nat, Event<Id>>, nextEvent: nat)

  function Put<Id(==)>(w: World<Id>, id: Id, b: Bundle): World<Id>
  {
    w.(bundles := w.bundles[id := b])
  }

  // ------------------------------------------------------------ the order

  const HALF_RANGE: nat := 0x7fff_ffff

  /** The simulator's 32-bit sequence numbers compare within half their range. */
  predicate SequenceAfter(a: nat, b: nat)
  {
    (a > b && a - b <= HALF_RANGE) || (b > a && b - a > HALF_RANGE)
  }

  predicate SequenceBefore(a: nat, b: nat)
  {
    !SequenceAfter(a, b) && a != b
  }

  predicate UriBefore(a: Eid, b: Eid)
  {
    if b == [] then false
    else if a == [] then true
    else a[0] < b[0] || (a[0] == b[0] && UriBefore(a[1..], b[1..]))
  }

  /** `BundlePriorityCompare`. */
  predicate Before(x: Bundle, y: Bundle)
  {
    if x.header.priority != y.header.priority then x.header.priority < y.header.priority
    else if x.header.timestamp != y.header.timestamp then x.header.timestamp < y.header.timestamp
    else if x.header.sequence != y.header.sequence then SequenceBefore(x.header.sequence, y.header.sequence)
    else if x.header.offset != y.header.offset then x.header.offset < y.header.offset
    else if x.header.src != y.header.src then UriBefore(x.header.src, y.header.src)
    else x.address < y.address
  }

  // ------------------------------------------------------------- the events

  function Cancel<Id(==)>(w: World<Id>, event: Option<nat>): World<Id>
  {
    if event.Some? then w.(pending := w.pending - {event.value}) else w
  }

  predicate IsRunning<Id(==)>(w: World<Id>, event: Option<nat>)
  {
    event.Some? && event.value in w.pending
  }

  /** `Bundle6::ClearEvents`. */
  function ClearEvents<Id(==)>(w: World<Id>, id: Id): (w': World<Id>)
    requires id in w.bundles
    ensures w'.bundles == w.bundles && w'.store == w.store
  {
    var b := w.bundles[id];
    var w1 := if b.header.lifetime != 0 then Cancel(w, b.expireEvent) else w;
    if b.header.custody then Cancel(w1, b.nextRetrans) else w1
  }

  /** `Bundle6::DoDispose`: the ADU and the acknowledgements are dropped and
      the events removed. */
  function Dispose<Id(==)>(w: World<Id>, id: Id): (w': World<Id>)
    requires id in w.bundles
    ensures w'.bundles.Keys == w.bundles.Keys && w'.store == w.store
  {
    var b := w.bundles[id];
    Put(ClearEvents(w, id), id, b.(adu := None, acks := []))
  }

  // -------------------------------------------------------------- the store

  function Without<Id(==)>(s: seq<Id>, id: Id): (r: seq<Id>)
    ensures forall x :: x in r ==> x in s && x != id
    ensures forall x :: x in s && x != id ==> x in r
    ensures |r| <= |s|
  {
    if s == [] then []
    else if s[0] == id then Without(s[1..], id)
    else [s[0]] + Without(s[1..], id)
  }

  /** In front of the first stored bundle that the new one precedes. */
  function Insert<Id(==)>(bundles: map<Id, Bundle>, s: seq<Id>, id: Id): (r: seq<Id>)
    requires id in bundles && forall x :: x in s ==> x in bundles
    ensures |r| == |s| + 1
    ensures id in r && forall x :: x in s ==> x in r
    ensures forall x :: x in r ==> x in s || x == id
  {
    if s == [] then [id]
    else if Before(bundles[id], bundles[s[0]]) then [id] + s
    else [s[0]] + Insert(bundles, s[1..], id)
  }

  predicate StoreKnown<Id(==)>(w: World<Id>)
  {
    forall x :: x in w.store ==> x in w.bundles
  }

  /** A bundle with a lifetime is refused once that has run out. */
  predicate Expired(h: Header, now: nat)
  {
    h.lifetime != 0 && h.timestamp * SECOND + h.lifetime < now
  }

  /** A bundle with a lifetime gets its expiry event. */
  function WithExpiry<Id(==)>(w: World<Id>, id: Id): World<Id>
    requires id in w.bundles
  {
    if w.bundles[id].header.lifetime == 0 then w
    else Put(w, id, w.bundles[id].(expireEvent := Some(w.nextEvent)))
         .(pending := w.pending[w.nextEvent := Expiry(id)], nextEvent := w.nextEvent + 1)
  }

  /** In the ordered set, and in the books. */
  function Shelved<Id(==)>(w: World<Id>, id: Id): (w': World<Id>)
    requires id in w.bundles && StoreKnown(w)
    ensures w'.bundles == w.bundles && StoreKnown(w')
  {
    var store := Insert(w.bundles, w.store, id);
    w.(store := store, maxStored := if |store| > w.maxStored then |store| else w.maxStored,
       storedBytes := w.storedBytes + Size(w.bundles[id]))
  }

  /** `BundleStore::Store`. */
  function StoreBundle<Id(==)>(w: World<Id>, id: Id, now: nat): (w': World<Id>)
    requires id in w.bundles && StoreKnown(w)
    ensures w'.bundles.Keys == w.bundles.Keys && StoreKnown(w')
  {
    if Expired(w.bundles[id].header, now) then w else Shelved(WithExpiry(w, id), id)
  }

  /** `BundleStore::Remove`. */
  function Remove<Id(==)>(w: World<Id>, id: Id): (w': World<Id>)
    requires id in w.bundles
    ensures w'.bundles == w.bundles
    ensures StoreKnown(w) ==> StoreKnown(w')
  {
    var w1 := ClearEvents(w, id);
    if id in w1.store then
      w1.(store := Without(w1.store, id), storedBytes := w1.storedBytes - Size(w.bundles[id]))
    else w1
  }

  /** The handler of an expiry event; the event itself is gone when it runs. */
  function Expire<Id(==)>(w: World<Id>, id: Id): World<Id>
    requires id in w.bundles
  {
    Dispose(Remove(w, id), id)
  }

  predicate Wanted(b: Bundle, eid: Eid, fragOk: bool)
  {
    b.header.dst == eid && (fragOk || !b.header.fragment)
  }

  /** The first stored bundle for `eid`, in store order, that is not a fragment
      unless fragments are wanted. */
  function FirstFor<Id(==)>(bundles: map<Id, Bundle>, s: seq<Id>, eid: Eid, fragOk: bool): (r: Option<Id>)
    requires forall x :: x in s ==> x in bundles
    ensures r.Some? ==> r.value in s && Wanted(bundles[r.value], eid, fragOk)
    ensures r.None? ==> forall x :: x in s ==> !Wanted(bundles[x], eid, fragOk)
  {
    if s == [] then None
    else if Wanted(bundles[s[0]], eid, fragOk) then Some(s[0])
    else FirstFor(bundles, s[1..], eid, fragOk)
  }

  /** `BundleStore::GetAndRemoveBundle`. */
  function GetAndRemove<Id(==)>(w: World<Id>, eid: Eid, fragOk: bool): (World<Id>, Option<seq<byte>>)
    requires StoreKnown(w)
  {
    match FirstFor(w.bundles, w.store, eid, fragOk)
    case None => (w, None)
    case Some(id) => (Dispose(Remove(w, id), id), w.bundles[id].adu)
  }

  /** `BundleStore::GetBundles`: every stored bundle of one ADU, in store order. */
  function WithKey<Id(==)>(bundles: map<Id, Bundle>, s: seq<Id>, key: Key): (r: seq<Id>)
    requires forall x :: x in s ==> x in bundles
    ensures forall x :: x in r ==> x in s && KeyOf(bundles[x].header) == key
    ensures forall x :: x in s && KeyOf(bundles[x].header) == key ==> x in r
  {
    if s == [] then []
    else if KeyOf(bundles[s[0]].header) == key then [s[0]] + WithKey(bundles, s[1..], key)
    else WithKey(bundles, s[1..], key)
  }

  // ---------------------------------------------------- what every run keeps

  predicate Distinct<Id(==)>(s: seq<Id>)
  {
    forall i, j :: 0 <= i < j < |s| ==> s[i] != s[j]
  }

  /** The store holds each bundle once and with its ADU; every pending event is
      the one its bundle holds; exactly the stored bundles with a lifetime have
      an expiry event pending; none waits for an adapter and a timer at once. */
  ghost predicate Sound<Id>(w: World<Id>)
  {
    && StoreKnown(w) && Distinct(w.store)
    && (forall x :: x in w.store ==> w.bundles[x].adu.Some?)
    && (forall e :: e in w.pending ==> e < w.nextEvent && EventHeld(w, e))
    && (forall x :: x in w.bundles ==> HandlesFit(w, x))
    && (forall x :: x in w.store && w.bundles[x].header.lifetime != 0 ==> IsRunning(w, w.bundles[x].expireEvent))
  }

  ghost predicate EventHeld<Id>(w: World<Id>, e: nat)
    requires e in w.pending
  {
    var x := w.pending[e].bundle;
    x in w.bundles && w.bundles[x].adu.Some? &&
    match w.pending[e]
    case Expiry(_) => x in w.store && w.bundles[x].header.lifetime != 0 && w.bundles[x].expireEvent == Some(e)
    case Retransmission(_) => w.bundles[x].header.custody && w.bundles[x].nextRetrans == Some(e)
  }

  ghost predicate HandlesFit<Id>(w: World<Id>, x: Id)
    requires x in w.bundles
  {
    var b := w.bundles[x];
    && (b.expireEvent.Some? ==> b.expireEvent.value < w.nextEvent)
    && (b.nextRetrans.Some? ==> b.nextRetrans.value < w.nextEvent)
    && (IsRunning(w, b.expireEvent) ==> w.pending[b.expireEvent.value] == Expiry(x))
    && (IsRunning(w, b.nextRetrans) ==> w.pending[b.nextRetrans.value] == Retransmission(x))
    && (ForwardPending in b.retention ==> !IsRunning(w, b.nextRetrans))
  }
}
