/**
 The order of the bundle store and of deliveries: the comparator is a strict
 total order as long as sequence numbers lie within half their range, the store
 stays sorted by it, and repeated calls of `Receive` hand out what is there for
 an endpoint in that order, each bundle once.
 */
module Delivery {
  import opened Bytes
  import opened Bundles
  import opened Agent
  import opened Soundness

  // --------------------------------------------------------------- the order

  /** The comparison of sequence numbers is that of numbers exactly for those no
      more than half the range apart. */
  lemma SequenceOrder(a: nat, b: nat)
    requires a != b
    ensures (SequenceBefore(a, b) <==> a < b) <==> (-(HALF_RANGE as int) <= a - b <= HALF_RANGE)
  {
  }

  /** Further apart it goes in circles. */
  lemma SequenceCycle()
    ensures SequenceBefore(0, 0x7fff_ffff) && SequenceBefore(0x7fff_ffff, 0xffff_fffe) && SequenceBefore(0xffff_fffe, 0)
  {
  }

  /** The sequence numbers are no more than half their range apart. */
  predicate NearBy(g: Header, h: Header)
  {
    -(HALF_RANGE as int) <= g.sequence - h.sequence <= HALF_RANGE
  }

  predicate Near(x: Bundle, y: Bundle)
  {
    NearBy(x.header, y.header)
  }

  lemma {:induction false} UriTotal(a: Eid, b: Eid)
    ensures a != b ==> UriBefore(a, b) || UriBefore(b, a)
    ensures !(UriBefore(a, b) && UriBefore(b, a)) && !UriBefore(a, a)
    decreases |a|
  {
    if a != [] {
      if b != [] {
        UriTotal(a[1..], b[1..]);
        assert a == [a[0]] + a[1..] && b == [b[0]] + b[1..];
      }
      UriTotal(a[1..], a[1..]);
    }
  }

  lemma {:induction false} UriTransitive(a: Eid, b: Eid, c: Eid)
    requires UriBefore(a, b) && UriBefore(b, c)
    ensures UriBefore(a, c)
    decreases |a|
  {
    if a != [] && a[0] == b[0] == c[0] {
      UriTransitive(a[1..], b[1..], c[1..]);
    }
  }

  /** `BundlePriorityCompare` never holds both ways, and holds one way between
      any two bundle objects. */
  lemma BeforeTotal(x: Bundle, y: Bundle)
    requires Near(x, y)
    ensures !(Before(x, y) && Before(y, x)) && !Before(x, x)
    ensures x.address != y.address ==> Before(x, y) || Before(y, x)
  {
    UriTotal(x.header.src, y.header.src);
  }

  lemma BeforeTransitive(x: Bundle, y: Bundle, z: Bundle)
    requires Near(x, y) && Near(y, z) && Near(x, z) && Before(x, y) && Before(y, z)
    ensures Before(x, z)
  {
    if x.header.src != y.header.src && y.header.src != z.header.src && UriBefore(x.header.src, y.header.src)
       && UriBefore(y.header.src, z.header.src) {
      UriTransitive(x.header.src, y.header.src, z.header.src);
    }
    UriTotal(x.header.src, z.header.src);
    UriTotal(x.header.src, y.header.src);
  }

  // ---------------------------------------------------------- the sorted store

  ghost predicate Sorted<Id>(bundles: map<Id, Bundle>, s: seq<Id>)
    requires forall x :: x in s ==> x in bundles
  {
    forall i, j :: 0 <= i < j < |s| ==> Before(bundles[s[i]], bundles[s[j]])
  }

  /** Bundle objects at different addresses with sequence numbers near each other. */
  ghost predicate Comparable<Id>(bundles: map<Id, Bundle>, s: seq<Id>)
    requires forall x :: x in s ==> x in bundles
  {
    forall x, y :: x in s && y in s ==>
      Near(bundles[x], bundles[y]) && (x != y ==> bundles[x].address != bundles[y].address)
  }

  /** What the set takes for the same element is the same bundle object: looking a
      bundle up by the comparator finds no other. */
  lemma FoundIsItself<Id>(bundles: map<Id, Bundle>, s: seq<Id>, x: Id, y: Id)
    requires (forall z :: z in s ==> z in bundles) && Comparable(bundles, s) && x in s && y in s
    ensures !Before(bundles[x], bundles[y]) && !Before(bundles[y], bundles[x]) <==> x == y
  {
    BeforeTotal(bundles[x], bundles[y]);
  }

  lemma ConsSorted<Id>(bundles: map<Id, Bundle>, x: Id, s: seq<Id>)
    requires x in bundles && forall y :: y in s ==> y in bundles
    ensures Sorted(bundles, [x] + s) <==> Sorted(bundles, s) && forall y :: y in s ==> Before(bundles[x], bundles[y])
  {
    var t := [x] + s;
    if Sorted(bundles, t) {
      forall i, j | 0 <= i < j < |s| ensures Before(bundles[s[i]], bundles[s[j]]) {
        assert t[i + 1] == s[i] && t[j + 1] == s[j];
      }
      forall y | y in s ensures Before(bundles[x], bundles[y]) {
        var i :| 0 <= i < |s| && s[i] == y;
        assert t[0] == x && t[i + 1] == y;
      }
    }
  }

  /** Taking a bundle out keeps the store sorted. */
  lemma {:induction false} WithoutSorted<Id>(bundles: map<Id, Bundle>, s: seq<Id>, id: Id)
    requires (forall x :: x in s ==> x in bundles) && Sorted(bundles, s)
    ensures Sorted(bundles, Without(s, id))
  {
    if s != [] {
      assert s == [s[0]] + s[1..];
      ConsSorted(bundles, s[0], s[1..]);
      WithoutSorted(bundles, s[1..], id);
      ConsSorted(bundles, s[0], Without(s[1..], id));
    }
  }

  /** So does putting one in: the place found is the one the order demands. */
  lemma {:induction false} InsertSorted<Id>(bundles: map<Id, Bundle>, s: seq<Id>, id: Id)
    requires id in bundles && (forall x :: x in s ==> x in bundles) && id !in s
    requires Sorted(bundles, s) && Comparable(bundles, s + [id])
    ensures Sorted(bundles, Insert(bundles, s, id))
  {
    ConsSorted(bundles, id, s);
    if s != [] {
      var h, t := s[0], s[1..];
      assert s == [h] + t && h in s + [id] && id in s + [id];
      ConsSorted(bundles, h, t);
      BeforeTotal(bundles[id], bundles[h]);
      if Before(bundles[id], bundles[h]) {
        forall y | y in s ensures Before(bundles[id], bundles[y]) {
          if y != h {
            assert y in s + [id];
            BeforeTransitive(bundles[id], bundles[h], bundles[y]);
          }
        }
      } else {
        assert forall y :: y in t + [id] ==> y in s + [id];
        InsertSorted(bundles, t, id);
        ConsSorted(bundles, h, Insert(bundles, t, id));
      }
    }
  }

  /** What `GetAndRemoveBundle` takes is the least of those that qualify. */
  lemma {:induction false} FirstIsLeast<Id>(bundles: map<Id, Bundle>, s: seq<Id>, eid: Eid, fragOk: bool)
    requires (forall x :: x in s ==> x in bundles) && Sorted(bundles, s)
    ensures var r := FirstFor(bundles, s, eid, fragOk);
            r.Some? ==> forall x :: x in s && Wanted(bundles[x], eid, fragOk) ==>
                          x == r.value || Before(bundles[r.value], bundles[x])
  {
    if s != [] {
      assert s == [s[0]] + s[1..];
      ConsSorted(bundles, s[0], s[1..]);
      FirstIsLeast(bundles, s[1..], eid, fragOk);
    }
  }

  // ------------------------------------------------------- repeated deliveries

  /** The stored whole bundles for `eid`, in store order. */
  function For<Id(==)>(bundles: map<Id, Bundle>, s: seq<Id>, eid: Eid): (r: seq<Id>)
    requires forall x :: x in s ==> x in bundles
    ensures forall x :: x in r ==> x in s && Wanted(bundles[x], eid, false)
    ensures forall x :: x in s && Wanted(bundles[x], eid, false) ==> x in r
  {
    if s == [] then []
    else if Wanted(bundles[s[0]], eid, false) then [s[0]] + For(bundles, s[1..], eid)
    else For(bundles, s[1..], eid)
  }

  lemma {:induction false} ForDistinct<Id>(bundles: map<Id, Bundle>, s: seq<Id>, eid: Eid)
    requires (forall x :: x in s ==> x in bundles) && Distinct(s)
    ensures Distinct(For(bundles, s, eid))
  {
    if s != [] {
      assert s == [s[0]] + s[1..];
      ConsDistinct(s[0], s[1..]);
      ForDistinct(bundles, s[1..], eid);
      ConsDistinct(s[0], For(bundles, s[1..], eid));
    }
  }

  lemma {:induction false} FirstOfFor<Id>(bundles: map<Id, Bundle>, s: seq<Id>, eid: Eid)
    requires forall x :: x in s ==> x in bundles
    ensures var l := For(bundles, s, eid);
            FirstFor(bundles, s, eid, false) == if l == [] then None else Some(l[0])
  {
    if s != [] && !Wanted(bundles[s[0]], eid, false) {
      FirstOfFor(bundles, s[1..], eid);
    }
  }

  lemma {:induction false} ForSame<Id>(bundles: map<Id, Bundle>, bundles': map<Id, Bundle>, s: seq<Id>, eid: Eid)
    requires forall x :: x in s ==> x in bundles && x in bundles' && bundles'[x] == bundles[x]
    ensures For(bundles', s, eid) == For(bundles, s, eid)
  {
    if s != [] {
      ForSame(bundles, bundles', s[1..], eid);
    }
  }

  lemma {:induction false} NothingWithout<Id>(s: seq<Id>, id: Id)
    requires id !in s
    ensures Without(s, id) == s
  {
    if s != [] {
      NothingWithout(s[1..], id);
    }
  }

  lemma {:induction false} ForWithoutFirst<Id>(bundles: map<Id, Bundle>, s: seq<Id>, eid: Eid)
    requires (forall x :: x in s ==> x in bundles) && Distinct(s) && For(bundles, s, eid) != []
    ensures For(bundles, Without(s, For(bundles, s, eid)[0]), eid) == For(bundles, s, eid)[1..]
  {
    assert s == [s[0]] + s[1..];
    ConsDistinct(s[0], s[1..]);
    if Wanted(bundles[s[0]], eid, false) {
      NothingWithout(s[1..], s[0]);
    } else {
      ForWithoutFirst(bundles, s[1..], eid);
      var id := For(bundles, s[1..], eid)[0];
      assert Without(s, id) == [s[0]] + Without(s[1..], id);
      assert Without(s, id)[1..] == Without(s[1..], id);
    }
  }

  /** Bundle `id` was handed out; everything else is as before. */
  ghost predicate HandedOut<Id>(w: World<Id>, w': World<Id>, ids: seq<Id>)
  {
    StoreKnown(w) && StoreKnown(w') && w'.bundles.Keys == w.bundles.Keys &&
    (forall x :: x in w.bundles && x !in ids ==> w'.bundles[x] == w.bundles[x]) &&
    (forall x :: x in w'.store ==> x in w.store && x !in ids) &&
    (forall x :: x in w.store && x !in ids ==> x in w'.store)
  }

  lemma ReceiveNext<Id>(n: Node<Id>, eid: Eid)
    requires Sound(n.world) && For(n.world.bundles, n.world.store, eid) != []
    ensures var l, n' := For(n.world.bundles, n.world.store, eid), Receive(n, eid).0;
            Receive(n, eid).1 == n.world.bundles[l[0]].adu && Receive(n, eid).1.Some? && Sound(n'.world)
            && HandedOut(n.world, n'.world, [l[0]])
            && For(n'.world.bundles, n'.world.store, eid) == l[1..]
  {
    var w := n.world;
    var id := For(w.bundles, w.store, eid)[0];
    FirstOfFor(w.bundles, w.store, eid);
    DropSound(w, id);
    ForWithoutFirst(w.bundles, w.store, eid);
    var w' := Receive(n, eid).0.world;
    assert w'.store == Without(w.store, id);
    ForSame(w.bundles, w'.bundles, w'.store, eid);
  }

  lemma ReceiveNothing<Id>(n: Node<Id>, eid: Eid)
    requires StoreKnown(n.world) && For(n.world.bundles, n.world.store, eid) == []
    ensures Receive(n, eid) == (n, None)
  {
    FirstOfFor(n.world.bundles, n.world.store, eid);
  }

  /** `k` calls of `Receive` in a row and what they return. */
  function ReceiveTimes<Id(==)>(n: Node<Id>, eid: Eid, k: nat): (Node<Id>, seq<Option<seq<byte>>>)
    requires StoreKnown(n.world)
    decreases k
  {
    if k == 0 then (n, [])
    else
      var (n1, adu) := Receive(n, eid);
      ReceivedKnown(n, eid);
      var (n2, adus) := ReceiveTimes(n1, eid, k - 1);
      (n2, [adu] + adus)
  }

  lemma ReceivedKnown<Id>(n: Node<Id>, eid: Eid)
    requires StoreKnown(n.world)
    ensures StoreKnown(Receive(n, eid).0.world)
  {
  }

  /** The first `k` of `ids`, as they were. */
  ghost predicate Returned<Id>(bundles: map<Id, Bundle>, ids: seq<Id>, adus: seq<Option<seq<byte>>>)
    requires forall x :: x in ids ==> x in bundles
  {
    |adus| == |ids| && forall i :: 0 <= i < |ids| ==> adus[i] == bundles[ids[i]].adu && adus[i].Some?
  }

  lemma HandedOutTwice<Id>(w: World<Id>, w1: World<Id>, w2: World<Id>, id: Id, ids: seq<Id>)
    requires HandedOut(w, w1, [id]) && HandedOut(w1, w2, ids)
    ensures HandedOut(w, w2, [id] + ids)
  {
  }

  lemma ReturnedCons<Id>(w: World<Id>, w1: World<Id>, id: Id, ids: seq<Id>, adu: Option<seq<byte>>,
                         adus: seq<Option<seq<byte>>>)
    requires HandedOut(w, w1, [id]) && id in w.bundles && adu == w.bundles[id].adu && adu.Some?
    requires (forall x :: x in ids ==> x in w1.store) && Returned(w1.bundles, ids, adus)
    ensures (forall x :: x in [id] + ids ==> x in w.bundles) && Returned(w.bundles, [id] + ids, [adu] + adus)
  {
    forall i | 0 <= i < |ids| ensures adus[i] == w.bundles[ids[i]].adu {
      assert ids[i] in ids;
    }
  }

  /** What `k` calls return of the bundles `ids` that were there for `eid`. */
  ghost predicate InTurn<Id>(n: Node<Id>, eid: Eid, k: nat, ids: seq<Id>)
    requires StoreKnown(n.world) && k <= |ids| && forall x :: x in ids ==> x in n.world.bundles
  {
    var (n', adus) := ReceiveTimes(n, eid, k);
    Sound(n'.world) && HandedOut(n.world, n'.world, ids[..k]) && Returned(n.world.bundles, ids[..k], adus) &&
    For(n'.world.bundles, n'.world.store, eid) == ids[k..]
  }

  lemma HeadAndRest<T>(l: seq<T>, k: nat)
    requires k < |l|
    ensures l[..k + 1] == [l[0]] + l[1..][..k] && l[1..][k..] == l[k + 1..]
  {
  }

  lemma TimesIs<Id>(n: Node<Id>, eid: Eid, k: nat)
    requires StoreKnown(n.world)
    ensures StoreKnown(Receive(n, eid).0.world)
    ensures var rest := ReceiveTimes(Receive(n, eid).0, eid, k);
            ReceiveTimes(n, eid, k + 1) == (rest.0, [Receive(n, eid).1] + rest.1)
  {
    ReceivedKnown(n, eid);
  }

  /** One call, then `k` more. */
  lemma OneMoreTurn<Id>(n: Node<Id>, eid: Eid, k: nat, l: seq<Id>)
    requires Sound(n.world) && l == For(n.world.bundles, n.world.store, eid) && k < |l|
    requires Sound(Receive(n, eid).0.world) && For(Receive(n, eid).0.world.bundles, Receive(n, eid).0.world.store, eid) == l[1..]
    requires InTurn(Receive(n, eid).0, eid, k, l[1..])
    requires HandedOut(n.world, Receive(n, eid).0.world, [l[0]])
    requires Receive(n, eid).1 == n.world.bundles[l[0]].adu && Receive(n, eid).1.Some?
    ensures InTurn(n, eid, k + 1, l)
  {
    var n1, rest := Receive(n, eid).0, l[1..][..k];
    var (n2, adus) := ReceiveTimes(n1, eid, k);
    HeadAndRest(l, k);
    TimesIs(n, eid, k);
    HandedOutTwice(n.world, n1.world, n2.world, l[0], rest);
    ReturnedCons(n.world, n1.world, l[0], rest, Receive(n, eid).1, adus);
  }

  lemma NoTurn<Id>(n: Node<Id>, eid: Eid)
    requires Sound(n.world)
    ensures InTurn(n, eid, 0, For(n.world.bundles, n.world.store, eid))
  {
  }

  lemma TurnBefore<Id>(n: Node<Id>, eid: Eid, k: nat)
    requires Sound(n.world) && k < |For(n.world.bundles, n.world.store, eid)|
    requires Sound(Receive(n, eid).0.world)
    requires var n1 := Receive(n, eid).0;
             var l := For(n1.world.bundles, n1.world.store, eid); k <= |l| && InTurn(n1, eid, k, l)
    ensures InTurn(n, eid, k + 1, For(n.world.bundles, n.world.store, eid))
  {
    ReceiveNext(n, eid);
    OneMoreTurn(n, eid, k, For(n.world.bundles, n.world.store, eid));
  }

  lemma OneFewer<Id>(n: Node<Id>, eid: Eid)
    requires Sound(n.world) && For(n.world.bundles, n.world.store, eid) != []
    ensures var n1 := Receive(n, eid).0;
            Sound(n1.world) && |For(n1.world.bundles, n1.world.store, eid)| == |For(n.world.bundles, n.world.store, eid)| - 1
  {
    ReceiveNext(n, eid);
  }

  lemma {:induction false} ReceiveInTurn<Id>(n: Node<Id>, eid: Eid, k: nat)
    requires Sound(n.world) && k <= |For(n.world.bundles, n.world.store, eid)|
    ensures InTurn(n, eid, k, For(n.world.bundles, n.world.store, eid))
    decreases k
  {
    if k == 0 {
      NoTurn(n, eid);
    } else {
      OneFewer(n, eid);
      ReceiveInTurn(Receive(n, eid).0, eid, k - 1);
      TurnBefore(n, eid, k - 1);
    }
  }

  /** Deliveries: with no arrivals in between, as many calls of `Receive` as there
      are whole bundles stored for the endpoint return their ADUs, each once and
      in store order, take out those bundles and no other, and the next call
      returns nothing. */
  lemma ReceivedInStoreOrder<Id>(n: Node<Id>, eid: Eid)
    requires Sound(n.world)
    ensures var b, l := n.world.bundles, For(n.world.bundles, n.world.store, eid);
            var (n', adus) := ReceiveTimes(n, eid, |l|);
            Distinct(l) && Returned(b, l, adus) && HandedOut(n.world, n'.world, l) && Receive(n', eid) == (n', None)
  {
    var l := For(n.world.bundles, n.world.store, eid);
    ForDistinct(n.world.bundles, n.world.store, eid);
    ReceiveInTurn(n, eid, |l|);
    assert l[..|l|] == l && l[|l|..] == [];
    ReceiveNothing(ReceiveTimes(n, eid, |l|).0, eid);
  }
}
