/**
 Which orders of arrival reassemble. The fragments of an ADU, each arriving once
 at a destination with a sorted store, end as the whole ADU exactly when each of
 them after the first extends the run stored so far: one that leaves a gap makes
 a second run, and the one that later closes the gap loses the run behind it.
 */
module Gaps {
  import opened Bytes
  import opened Bundles
  import opened Agent
  import opened Soundness
  import opened Custodial
  import opened Integrity
  import opened EndToEnd
  import opened Delivery
  import opened Reassembly
  import Accounting
  import opened CustodyTimers

  // --------------------------------------------------------------- stored runs

  function Lo(b: Bundle): nat
  {
    b.header.offset
  }

  function Hi(b: Bundle): nat
  {
    b.header.offset + Size(b)
  }

  /** The stored bundles of the ADU. */
  ghost function Mine<T>(w: World<T>, a: Adu): set<T>
  {
    set y | y in w.store && y in w.bundles && KeyOf(w.bundles[y].header) == a.key
  }

  /** The bundle holds the run of octets it says. */
  predicate RunOf(b: Bundle, a: Adu, priority: nat)
  {
    Lo(b) < Hi(b) <= |a.octets| && HoldsRun(b, a, Lo(b), Hi(b)) && b.header.priority == priority
  }

  /** There is a gap between the runs. */
  predicate Separate(b: Bundle, c: Bundle)
  {
    Hi(b) < Lo(c) || Hi(c) < Lo(b)
  }

  /** The runs have no octet in common. */
  predicate Beside(b: Bundle, c: Bundle)
  {
    Hi(b) <= Lo(c) || Hi(c) <= Lo(b)
  }

  /** The stored bundles of the ADU are runs with gaps between them. */
  ghost predicate Parts<T>(w: World<T>, a: Adu, priority: nat)
  {
    StoreKnown(w) && (forall y :: y in Mine(w, a) ==> RunOf(w.bundles[y], a, priority)) &&
    forall x, y :: x in Mine(w, a) && y in Mine(w, a) && x != y ==> Separate(w.bundles[x], w.bundles[y])
  }

  // ------------------------------------------------------- the loop, in general

  /** Neither run begins where the other ends. */
  predicate Misses(b: Bundle, c: Bundle)
  {
    b.adu.Some? && c.adu.Some? && Lo(b) != Hi(c) && Lo(c) != Hi(b)
  }

  lemma MissStays<T>(w: World<T>, id: T, it: T)
    requires id in w.bundles && it in w.bundles && Misses(w.bundles[id], w.bundles[it])
    ensures CoalesceOne(w, id, it) == w
  {
    CoalesceOneIs(w, id, it);
  }

  lemma {:induction false} Idle<T>(w: World<T>, id: T, its: seq<T>)
    requires id in w.bundles && forall y :: y in its ==> y in w.bundles && Misses(w.bundles[id], w.bundles[y])
    ensures Coalesce(w, id, its) == w
  {
    if its != [] {
      MissStays(w, id, its[0]);
      assert forall y :: y in its[1..] ==> y in its;
      Idle(w, id, its[1..]);
    }
  }

  /** Bundle `x` is the only one of `its` that a turn changes anything for. */
  ghost predicate OnlyTurn<T>(w: World<T>, id: T, its: seq<T>, x: T)
  {
    id in w.bundles && x in its && Distinct(its) && (forall y :: y in its ==> y in w.bundles) &&
    forall y :: y in its && y != x ==>
      Misses(w.bundles[id], w.bundles[y]) &&
      Misses(CoalesceOne(w, id, x).bundles[id], CoalesceOne(w, id, x).bundles[y])
  }

  lemma {:induction false} OneTurn<T>(w: World<T>, id: T, its: seq<T>, x: T)
    requires OnlyTurn(w, id, its, x)
    ensures Coalesce(w, id, its) == CoalesceOne(w, id, x)
  {
    assert its == [its[0]] + its[1..];
    ConsDistinct(its[0], its[1..]);
    assert forall y :: y in its[1..] ==> y in its;
    if its[0] == x {
      Idle(CoalesceOne(w, id, x), id, its[1..]);
    } else {
      MissStays(w, id, its[0]);
      OneTurn(w, id, its[1..], x);
    }
  }

  lemma {:induction false} CoalesceAppend<T>(w: World<T>, id: T, s: seq<T>, t: seq<T>)
    requires id in w.bundles && (forall y :: y in s ==> y in w.bundles) && forall y :: y in t ==> y in w.bundles
    ensures Coalesce(w, id, s + t) == Coalesce(Coalesce(w, id, s), id, t)
    decreases |s|
  {
    if s == [] {
      assert s + t == t;
    } else {
      assert forall y :: y in s[1..] ==> y in s;
      assert (s + t)[0] == s[0] && (s + t)[1..] == s[1..] + t;
      assert forall y :: y in s + t ==> y in s || y in t;
      CoalesceAppend(CoalesceOne(w, id, s[0]), id, s[1..], t);
    }
  }

  // --------------------------------------------------------- one bundle swallowed

  /** What `Swallow` changes. */
  lemma SwallowIs<T>(w: World<T>, front: T, back: T)
    requires front in w.bundles && back in w.bundles && front != back
    requires w.bundles[front].adu.Some? && w.bundles[back].adu.Some?
    ensures var w', f := Swallow(w, front, back), w.bundles[front];
            w'.bundles.Keys == w.bundles.Keys && w'.store == (if back in w.store then Without(w.store, back) else w.store)
            && (forall y :: y in w.bundles && y != front ==> w'.bundles[y] == w.bundles[y])
            && w'.bundles[front] == f.(adu := Some(f.adu.value + w.bundles[back].adu.value),
                                       header := f.header.(fragment := f.header.fragment
                                                   && Size(f) + Size(w.bundles[back]) != f.header.aduLength))
  {
  }

  lemma SwallowRun<T>(w: World<T>, front: T, back: T, a: Adu, priority: nat)
    requires front in w.bundles && back in w.bundles && front != back
    requires RunOf(w.bundles[front], a, priority) && RunOf(w.bundles[back], a, priority)
    requires Hi(w.bundles[front]) == Lo(w.bundles[back])
    ensures var b := Swallow(w, front, back).bundles[front];
            RunOf(b, a, priority) && Lo(b) == Lo(w.bundles[front]) && Hi(b) == Hi(w.bundles[back])
  {
    var f, b := w.bundles[front], w.bundles[back];
    SwallowIs(w, front, back);
    assert a.octets[Lo(f)..Hi(f)] + a.octets[Lo(b)..Hi(b)] == a.octets[Lo(f)..Hi(b)];
  }

  // ------------------------------------------------------------ the new fragment

  /** Bundle `id` is new among runs with gaps between them, and shares no octet
      with any. */
  ghost predicate Joins<T>(w: World<T>, id: T, a: Adu, priority: nat)
  {
    StoreKnown(w) && Distinct(w.store) && id in Mine(w, a) &&
    (forall y :: y in Mine(w, a) ==> RunOf(w.bundles[y], a, priority)) &&
    (forall y :: y in Mine(w, a) && y != id ==> Beside(w.bundles[y], w.bundles[id])) &&
    forall x, y :: x in Mine(w, a) && y in Mine(w, a) && x != y && x != id && y != id ==>
      Separate(w.bundles[x], w.bundles[y])
  }

  /** The run that ends where that of `id` begins, if there is one. */
  ghost predicate IsFront<T>(w: World<T>, id: T, a: Adu, front: Option<T>)
    requires id in w.bundles
  {
    match front
    case None => forall y :: y in Mine(w, a) ==> Hi(w.bundles[y]) != Lo(w.bundles[id])
    case Some(x) => x in Mine(w, a) && x != id && Hi(w.bundles[x]) == Lo(w.bundles[id])
  }

  /** The run that begins where that of `id` ends, if there is one. */
  ghost predicate IsBack<T>(w: World<T>, id: T, a: Adu, back: Option<T>)
    requires id in w.bundles
  {
    match back
    case None => forall y :: y in Mine(w, a) ==> Lo(w.bundles[y]) != Hi(w.bundles[id])
    case Some(z) => z in Mine(w, a) && z != id && Lo(w.bundles[z]) == Hi(w.bundles[id])
  }

  /** The bundles of `its` are of the ADU and in front of bundle `id`, or `id` itself. */
  ghost predicate InFront<T>(w: World<T>, id: T, a: Adu, its: seq<T>)
    requires id in w.bundles
  {
    Distinct(its) &&
    forall y :: y in its ==> y in Mine(w, a) && (y != id ==> Hi(w.bundles[y]) <= Lo(w.bundles[id]))
  }

  ghost predicate Behind<T>(w: World<T>, id: T, a: Adu, its: seq<T>)
    requires id in w.bundles
  {
    Distinct(its) && forall y :: y in its ==> y in Mine(w, a) && y != id && Hi(w.bundles[id]) <= Lo(w.bundles[y])
  }

  lemma FrontTurn<T>(w: World<T>, id: T, a: Adu, priority: nat, its: seq<T>, x: T)
    requires Joins(w, id, a, priority) && InFront(w, id, a, its) && IsFront(w, id, a, Some(x)) && x in its
    ensures Coalesce(w, id, its) == Swallow(w, x, id)
  {
    CoalesceOneIs(w, id, x);
    SwallowIs(w, x, id);
    OneTurn(w, id, its, x);
  }

  lemma FrontIdle<T>(w: World<T>, id: T, a: Adu, priority: nat, its: seq<T>)
    requires Joins(w, id, a, priority) && InFront(w, id, a, its) && IsFront(w, id, a, None)
    ensures Coalesce(w, id, its) == w
  {
    Idle(w, id, its);
  }

  /** As the loop finds the bundles behind: `w` may have given the octets of `id`
      to the run in front already, but the bundle objects are as they were. */
  ghost predicate SameBehind<T>(w: World<T>, w2: World<T>, id: T, its: seq<T>)
  {
    id in w.bundles && id in w2.bundles && w2.bundles[id] == w.bundles[id] &&
    forall y :: y in its ==> y in w.bundles && y in w2.bundles && w2.bundles[y] == w.bundles[y]
  }

  lemma BackTurn<T>(w: World<T>, w2: World<T>, id: T, a: Adu, priority: nat, its: seq<T>, z: T)
    requires Joins(w, id, a, priority) && Behind(w, id, a, its) && IsBack(w, id, a, Some(z)) && z in its
    requires SameBehind(w, w2, id, its)
    ensures Coalesce(w2, id, its) == Swallow(w2, id, z)
  {
    CoalesceOneIs(w2, id, z);
    SwallowIs(w2, id, z);
    SwallowRun(w2, id, z, a, priority);
    OneTurn(w2, id, its, z);
  }

  lemma BackIdle<T>(w: World<T>, w2: World<T>, id: T, a: Adu, priority: nat, its: seq<T>)
    requires Joins(w, id, a, priority) && Behind(w, id, a, its) && IsBack(w, id, a, None)
    requires SameBehind(w, w2, id, its)
    ensures Coalesce(w2, id, its) == w2
  {
    Idle(w2, id, its);
  }

  // --------------------------------------------------------------- the snapshot

  lemma {:induction false} WithKeySorted<T>(b: map<T, Bundle>, s: seq<T>, key: Key)
    requires (forall x :: x in s ==> x in b) && Sorted(b, s)
    ensures Sorted(b, WithKey(b, s, key))
  {
    if s != [] {
      assert s == [s[0]] + s[1..];
      ConsSorted(b, s[0], s[1..]);
      WithKeySorted(b, s[1..], key);
      ConsSorted(b, s[0], WithKey(b, s[1..], key));
    }
  }

  ghost function Snapshot<T>(w: World<T>, a: Adu): seq<T>
    requires StoreKnown(w)
  {
    WithKey(w.bundles, w.store, a.key)
  }

  /** Fragments of one ADU stand in the store in the order of their offsets. */
  lemma SnapshotAscends<T>(w: World<T>, id: T, a: Adu, priority: nat)
    requires Joins(w, id, a, priority) && Sorted(w.bundles, w.store)
    ensures Ascends(w, a, Snapshot(w, a))
  {
    var its := Snapshot(w, a);
    WithKeyDistinct(w.bundles, w.store, a.key);
    WithKeySorted(w.bundles, w.store, a.key);
    forall i, j | 0 <= i < j < |its| ensures Hi(w.bundles[its[i]]) <= Lo(w.bundles[its[j]]) {
      assert its[i] in Mine(w, a) && its[j] in Mine(w, a);
      InOffsetOrder(w, id, a, priority, its[i], its[j]);
    }
  }

  lemma InOffsetOrder<T>(w: World<T>, id: T, a: Adu, priority: nat, x: T, y: T)
    requires Joins(w, id, a, priority) && x in Mine(w, a) && y in Mine(w, a) && x != y
    requires Before(w.bundles[x], w.bundles[y])
    ensures Hi(w.bundles[x]) <= Lo(w.bundles[y])
  {
    assert RunOf(w.bundles[x], a, priority) && RunOf(w.bundles[y], a, priority);
  }

  /** Where the new bundle stands in the snapshot. */
  ghost predicate Splits<T>(w: World<T>, id: T, a: Adu, m: nat)
    requires StoreKnown(w) && id in w.bundles
  {
    var its := Snapshot(w, a);
    m < |its| && InFront(w, id, a, its[..m + 1]) && Behind(w, id, a, its[m + 1..]) &&
    forall y :: y in Mine(w, a) ==> y in its[..m + 1] || y in its[m + 1..]
  }

  lemma {:induction false} SubDistinct<T>(s: seq<T>, m: nat)
    requires Distinct(s) && m <= |s|
    ensures Distinct(s[..m]) && Distinct(s[m..])
  {
  }

  ghost predicate Ascends<T>(w: World<T>, a: Adu, its: seq<T>)
  {
    Distinct(its) && (forall y :: y in its ==> y in Mine(w, a)) && (forall y :: y in Mine(w, a) ==> y in its) &&
    forall i, j :: 0 <= i < j < |its| ==>
      its[i] in w.bundles && its[j] in w.bundles && Hi(w.bundles[its[i]]) <= Lo(w.bundles[its[j]])
  }

  lemma FrontPart<T>(w: World<T>, id: T, a: Adu, its: seq<T>, m: nat)
    requires Ascends(w, a, its) && m < |its| && its[m] == id && id in w.bundles
    ensures InFront(w, id, a, its[..m + 1])
  {
    SubDistinct(its, m + 1);
    forall y | y in its[..m + 1] ensures y in Mine(w, a) && (y != id ==> Hi(w.bundles[y]) <= Lo(w.bundles[id])) {
      var i :| 0 <= i < m + 1 && its[i] == y;
    }
  }

  lemma BackPart<T>(w: World<T>, id: T, a: Adu, its: seq<T>, m: nat)
    requires Ascends(w, a, its) && m < |its| && its[m] == id && id in w.bundles
    ensures Behind(w, id, a, its[m + 1..])
  {
    SubDistinct(its, m + 1);
    forall y | y in its[m + 1..] ensures y in Mine(w, a) && y != id && Hi(w.bundles[id]) <= Lo(w.bundles[y]) {
      var i :| m + 1 <= i < |its| && its[i] == y;
    }
  }

  lemma SnapshotSplits<T>(w: World<T>, id: T, a: Adu, priority: nat) returns (m: nat)
    requires Joins(w, id, a, priority) && Sorted(w.bundles, w.store)
    ensures Splits(w, id, a, m)
  {
    var its := Snapshot(w, a);
    SnapshotAscends(w, id, a, priority);
    m :| m < |its| && its[m] == id;
    FrontPart(w, id, a, its, m);
    BackPart(w, id, a, its, m);
    forall y | y in Mine(w, a) ensures y in its[..m + 1] || y in its[m + 1..] {
      InOnePart(its, m + 1, y);
    }
  }

  lemma InOnePart<T>(s: seq<T>, m: nat, y: T)
    requires y in s && m <= |s|
    ensures y in s[..m] || y in s[m..]
  {
    var i :| 0 <= i < |s| && s[i] == y;
    assert if i < m then s[..m][i] == y else s[m..][i - m] == y;
  }

  // ---------------------------------------------------------------- the outcome

  /** The front run takes the new octets if there is one, then the new bundle
      takes the run behind if there is one. */
  ghost function Outcome<T>(w: World<T>, id: T, front: Option<T>, back: Option<T>): World<T>
    requires id in w.bundles && w.bundles[id].adu.Some?
    requires front.Some? ==> front.value in w.bundles && front.value != id && w.bundles[front.value].adu.Some?
    requires back.Some? ==> back.value in w.bundles && back.value != id && w.bundles[back.value].adu.Some?
  {
    var w2 := if front.Some? then Swallow(w, front.value, id) else w;
    if back.Some? then Swallow(w2, id, back.value) else w2
  }

  ghost predicate Neighbours<T>(w: World<T>, id: T, a: Adu, priority: nat, front: Option<T>, back: Option<T>)
  {
    Joins(w, id, a, priority) && IsFront(w, id, a, front) && IsBack(w, id, a, back)
  }

  lemma FrontHalf<T>(w: World<T>, id: T, a: Adu, priority: nat, front: Option<T>, back: Option<T>, m: nat)
    requires Neighbours(w, id, a, priority, front, back) && Splits(w, id, a, m)
    ensures Coalesce(w, id, Snapshot(w, a)[..m + 1]) == if front.Some? then Swallow(w, front.value, id) else w
  {
    var its := Snapshot(w, a)[..m + 1];
    if front.Some? {
      assert front.value in its;
      FrontTurn(w, id, a, priority, its, front.value);
    } else {
      FrontIdle(w, id, a, priority, its);
    }
  }

  lemma BackHalf<T>(w: World<T>, id: T, a: Adu, priority: nat, front: Option<T>, back: Option<T>, m: nat)
    requires Neighbours(w, id, a, priority, front, back) && Splits(w, id, a, m)
    ensures var w2 := if front.Some? then Swallow(w, front.value, id) else w;
            w2.bundles.Keys == w.bundles.Keys
            && Coalesce(w2, id, Snapshot(w, a)[m + 1..]) == if back.Some? then Swallow(w2, id, back.value) else w2
  {
    var its := Snapshot(w, a)[m + 1..];
    var w2 := if front.Some? then Swallow(w, front.value, id) else w;
    if front.Some? {
      SwallowIs(w, front.value, id);
    }
    assert SameBehind(w, w2, id, its);
    if back.Some? {
      assert back.value in its;
      BackTurn(w, w2, id, a, priority, its, back.value);
    } else {
      BackIdle(w, w2, id, a, priority, its);
    }
  }

  /** In a sorted store the whole loop does just that. */
  lemma LoopOutcome<T>(w: World<T>, id: T, a: Adu, priority: nat, front: Option<T>, back: Option<T>)
    requires Neighbours(w, id, a, priority, front, back) && Sorted(w.bundles, w.store)
    ensures Coalesce(w, id, Snapshot(w, a)) == Outcome(w, id, front, back)
  {
    var m := SnapshotSplits(w, id, a, priority);
    var its := Snapshot(w, a);
    assert its == its[..m + 1] + its[m + 1..];
    CoalesceAppend(w, id, its[..m + 1], its[m + 1..]);
    FrontHalf(w, id, a, priority, front, back, m);
    BackHalf(w, id, a, priority, front, back, m);
  }

  // ------------------------------------------------- which runs are stored after

  /** From the runs in `w`, the new bundle apart, to those in `w'`. */
  ghost predicate Grown<T>(w: World<T>, w': World<T>, id: T, a: Adu, priority: nat, lo: nat, hi: nat,
                           front: Option<T>, back: Option<T>)
  {
    StoreKnown(w') &&
    Mine(w', a) == Mine(w, a) - {id} + (if front.None? then {id} else {}) - (if back.Some? then {back.value} else {}) &&
    (forall y :: y in Mine(w', a) && y != id && front != Some(y) ==> w'.bundles[y] == w.bundles[y]) &&
    (front.Some? ==>
       front.value in Mine(w, a) && front.value in Mine(w', a) && RunOf(w'.bundles[front.value], a, priority) &&
       Lo(w'.bundles[front.value]) == Lo(w.bundles[front.value]) && Hi(w.bundles[front.value]) == lo &&
       Hi(w'.bundles[front.value]) == hi) &&
    (back.Some? ==> back.value in Mine(w, a) && back.value != id && Lo(w.bundles[back.value]) == hi) &&
    (front.None? ==>
       id in Mine(w', a) && RunOf(w'.bundles[id], a, priority) && Lo(w'.bundles[id]) == lo &&
       Hi(w'.bundles[id]) == if back.Some? then Hi(w.bundles[back.value]) else hi)
  }

  lemma SwallowMine<T>(w: World<T>, front: T, back: T, a: Adu)
    requires StoreKnown(w) && front in w.bundles && back in w.bundles && front != back
    requires w.bundles[front].adu.Some? && w.bundles[back].adu.Some?
    ensures StoreKnown(Swallow(w, front, back)) && Mine(Swallow(w, front, back), a) == Mine(w, a) - {back}
  {
    SwallowIs(w, front, back);
  }

  lemma FrontGrown<T>(w: World<T>, id: T, a: Adu, priority: nat, x: T)
    requires Neighbours(w, id, a, priority, Some(x), None)
    ensures Grown(w, Swallow(w, x, id), id, a, priority, Lo(w.bundles[id]), Hi(w.bundles[id]), Some(x), None)
  {
    SwallowIs(w, x, id);
    SwallowMine(w, x, id, a);
    SwallowRun(w, x, id, a, priority);
  }

  lemma BackGrown<T>(w: World<T>, id: T, a: Adu, priority: nat, z: T)
    requires Neighbours(w, id, a, priority, None, Some(z))
    ensures Grown(w, Swallow(w, id, z), id, a, priority, Lo(w.bundles[id]), Hi(w.bundles[id]), None, Some(z))
  {
    SwallowIs(w, id, z);
    SwallowMine(w, id, z, a);
    SwallowRun(w, id, z, a, priority);
  }

  lemma BothMine<T>(w: World<T>, id: T, a: Adu, x: T, z: T)
    requires StoreKnown(w) && x in w.bundles && id in w.bundles && z in w.bundles && x != id && z != id && x != z
    requires w.bundles[x].adu.Some? && w.bundles[id].adu.Some? && w.bundles[z].adu.Some?
    requires Swallow(w, x, id).bundles.Keys == w.bundles.Keys && Swallow(w, x, id).bundles[z] == w.bundles[z]
    requires Swallow(w, x, id).bundles[id] == w.bundles[id]
    ensures var w3 := Swallow(Swallow(w, x, id), id, z);
            StoreKnown(w3) && Mine(w3, a) == Mine(w, a) - {id} - {z} && w3.bundles.Keys == w.bundles.Keys
            && w3.bundles[x] == Swallow(w, x, id).bundles[x]
            && forall y :: y in w.bundles && y != id && y != x ==> w3.bundles[y] == w.bundles[y]
  {
    SwallowIs(w, x, id);
    SwallowMine(w, x, id, a);
    SwallowIs(Swallow(w, x, id), id, z);
    SwallowMine(Swallow(w, x, id), id, z, a);
  }

  lemma BothGrown<T>(w: World<T>, id: T, a: Adu, priority: nat, x: T, z: T)
    requires Neighbours(w, id, a, priority, Some(x), Some(z))
    requires Swallow(w, x, id).bundles.Keys == w.bundles.Keys && Swallow(w, x, id).bundles[z] == w.bundles[z]
    requires Swallow(w, x, id).bundles[id] == w.bundles[id]
    ensures Grown(w, Swallow(Swallow(w, x, id), id, z), id, a, priority, Lo(w.bundles[id]), Hi(w.bundles[id]),
                  Some(x), Some(z))
  {
    assert x != z;
    SwallowRun(w, x, id, a, priority);
    BothMine(w, id, a, x, z);
  }

  lemma OutcomeGrown<T>(w: World<T>, id: T, a: Adu, priority: nat, front: Option<T>, back: Option<T>)
    requires Neighbours(w, id, a, priority, front, back)
    ensures Grown(w, Outcome(w, id, front, back), id, a, priority, Lo(w.bundles[id]), Hi(w.bundles[id]), front, back)
  {
    match (front, back)
    case (None, None) =>
      assert RunOf(w.bundles[id], a, priority);
    case (Some(x), None) => FrontGrown(w, id, a, priority, x);
    case (None, Some(z)) => BackGrown(w, id, a, priority, z);
    case (Some(x), Some(z)) =>
      SwallowIs(w, x, id);
      BothGrown(w, id, a, priority, x, z);
  }

  // -------------------------------------------------- how the stored runs develop

  /** A fragment with octets `lo` to `hi` shares none with the stored runs, and
      `front` and `back` are the runs it touches. */
  ghost predicate Meets<T>(w: World<T>, a: Adu, lo: nat, hi: nat, front: Option<T>, back: Option<T>)
  {
    lo < hi &&
    (forall y :: y in Mine(w, a) ==> Hi(w.bundles[y]) <= lo || hi <= Lo(w.bundles[y])) &&
    (forall y :: y in Mine(w, a) ==> (Hi(w.bundles[y]) == lo <==> front == Some(y))) &&
    (forall y :: y in Mine(w, a) ==> (Lo(w.bundles[y]) == hi <==> back == Some(y))) &&
    (front.Some? ==> front.value in Mine(w, a)) && (back.Some? ==> back.value in Mine(w, a))
  }

  lemma FindNeighbours<T>(w: World<T>, a: Adu, priority: nat, lo: nat, hi: nat) returns (front: Option<T>, back: Option<T>)
    requires Parts(w, a, priority) && lo < hi
    requires forall y :: y in Mine(w, a) ==> Hi(w.bundles[y]) <= lo || hi <= Lo(w.bundles[y])
    ensures Meets(w, a, lo, hi, front, back)
  {
    front, back := None, None;
    if x :| x in Mine(w, a) && Hi(w.bundles[x]) == lo {
      front := Some(x);
    }
    if z :| z in Mine(w, a) && Lo(w.bundles[z]) == hi {
      back := Some(z);
    }
  }

  ghost predicate Stored<T>(w: World<T>, a: Adu, q: nat)
  {
    exists y :: y in Mine(w, a) && Lo(w.bundles[y]) <= q < Hi(w.bundles[y])
  }

  /** From the stored runs `w` to `w'`, by a new fragment. */
  ghost predicate Lands<T>(w: World<T>, w': World<T>, id: T, a: Adu, priority: nat, lo: nat, hi: nat,
                           front: Option<T>, back: Option<T>)
  {
    Parts(w, a, priority) && id !in Mine(w, a) && Meets(w, a, lo, hi, front, back) &&
    Grown(w, w', id, a, priority, lo, hi, front, back)
  }

  /** The bundle that holds the new octets. */
  function Taker<T>(id: T, front: Option<T>): T
  {
    if front.Some? then front.value else id
  }

  lemma TakerIs<T>(w: World<T>, w': World<T>, id: T, a: Adu, priority: nat, lo: nat, hi: nat,
                   front: Option<T>, back: Option<T>)
    requires Lands(w, w', id, a, priority, lo, hi, front, back)
    ensures var t := Taker(id, front);
            t in Mine(w', a) && RunOf(w'.bundles[t], a, priority)
            && Lo(w'.bundles[t]) == (if front.Some? then Lo(w.bundles[t]) else lo)
            && Hi(w'.bundles[t]) == if front.None? && back.Some? then Hi(w.bundles[back.value]) else hi
  {
  }

  lemma OthersAre<T>(w: World<T>, w': World<T>, id: T, a: Adu, priority: nat, lo: nat, hi: nat,
                     front: Option<T>, back: Option<T>, y: T)
    requires Lands(w, w', id, a, priority, lo, hi, front, back) && y in Mine(w', a) && y != Taker(id, front)
    ensures y in Mine(w, a) && front != Some(y) && back != Some(y) && w'.bundles[y] == w.bundles[y]
  {
  }

  lemma OthersApart<T>(w: World<T>, w': World<T>, id: T, a: Adu, priority: nat, lo: nat, hi: nat,
                       front: Option<T>, back: Option<T>, y: T)
    requires Lands(w, w', id, a, priority, lo, hi, front, back) && y in Mine(w', a) && y != Taker(id, front)
    ensures Taker(id, front) in w'.bundles && Separate(w'.bundles[y], w'.bundles[Taker(id, front)])
  {
    TakerIs(w, w', id, a, priority, lo, hi, front, back);
    OthersAre(w, w', id, a, priority, lo, hi, front, back, y);
    if front.Some? {
      assert Separate(w.bundles[y], w.bundles[front.value]);
    }
    if back.Some? {
      assert Separate(w.bundles[y], w.bundles[back.value]);
    }
  }

  lemma PartsKept<T>(w: World<T>, w': World<T>, id: T, a: Adu, priority: nat, lo: nat, hi: nat,
                     front: Option<T>, back: Option<T>)
    requires Lands(w, w', id, a, priority, lo, hi, front, back)
    ensures Parts(w', a, priority)
  {
    var t := Taker(id, front);
    TakerIs(w, w', id, a, priority, lo, hi, front, back);
    forall y | y in Mine(w', a) && y != t ensures RunOf(w'.bundles[y], a, priority) {
      OthersAre(w, w', id, a, priority, lo, hi, front, back, y);
    }
    forall x, y | x in Mine(w', a) && y in Mine(w', a) && x != y
      ensures Separate(w'.bundles[x], w'.bundles[y])
    {
      if x == t {
        OthersApart(w, w', id, a, priority, lo, hi, front, back, y);
      } else if y == t {
        OthersApart(w, w', id, a, priority, lo, hi, front, back, x);
      } else {
        OthersAre(w, w', id, a, priority, lo, hi, front, back, x);
        OthersAre(w, w', id, a, priority, lo, hi, front, back, y);
      }
    }
  }

  /** No octet is stored that was neither stored before nor in the fragment. */
  lemma StoredBefore<T>(w: World<T>, w': World<T>, id: T, a: Adu, priority: nat, lo: nat, hi: nat,
                        front: Option<T>, back: Option<T>, q: nat)
    requires Lands(w, w', id, a, priority, lo, hi, front, back) && Stored(w', a, q)
    ensures Stored(w, a, q) || lo <= q < hi
  {
    var y :| y in Mine(w', a) && Lo(w'.bundles[y]) <= q < Hi(w'.bundles[y]);
    TakerIs(w, w', id, a, priority, lo, hi, front, back);
    if y != Taker(id, front) {
      OthersAre(w, w', id, a, priority, lo, hi, front, back, y);
    } else if !(lo <= q < hi) {
      if front.Some? {
        assert front.value in Mine(w, a);
      } else {
        assert back.value in Mine(w, a);
      }
    }
  }

  ghost predicate Two<T>(w: World<T>, a: Adu)
  {
    exists x, y :: x in Mine(w, a) && y in Mine(w, a) && x != y
  }

  /** Two runs stay two, unless the fragment closes the gap between them: then
      the octets of the run behind are stored no more. */
  lemma TwoStayOrLose<T>(w: World<T>, w': World<T>, id: T, a: Adu, priority: nat, lo: nat, hi: nat,
                         front: Option<T>, back: Option<T>)
    requires Lands(w, w', id, a, priority, lo, hi, front, back) && Two(w, a)
    ensures Two(w', a) || (back.Some? && Stored(w, a, hi) && !Stored(w', a, hi))
  {
    if front.Some? && back.Some? {
      BridgeLoses(w, w', id, a, priority, lo, hi, front.value, back.value);
    } else {
      TwoStay(w, w', id, a, priority, lo, hi, front, back);
    }
  }

  lemma TwoStay<T>(w: World<T>, w': World<T>, id: T, a: Adu, priority: nat, lo: nat, hi: nat,
                   front: Option<T>, back: Option<T>)
    requires Lands(w, w', id, a, priority, lo, hi, front, back) && Two(w, a) && (front.None? || back.None?)
    ensures Two(w', a)
  {
    var x, y :| x in Mine(w, a) && y in Mine(w, a) && x != y;
    if back.Some? {
      var o := if x == back.value then y else x;
      TakerIs(w, w', id, a, priority, lo, hi, front, back);
      Stays(w, w', id, a, priority, lo, hi, front, back, o);
    } else {
      Stays(w, w', id, a, priority, lo, hi, front, back, x);
      Stays(w, w', id, a, priority, lo, hi, front, back, y);
    }
  }

  lemma Stays<T>(w: World<T>, w': World<T>, id: T, a: Adu, priority: nat, lo: nat, hi: nat,
                 front: Option<T>, back: Option<T>, y: T)
    requires Lands(w, w', id, a, priority, lo, hi, front, back) && y in Mine(w, a) && back != Some(y)
    ensures y in Mine(w', a) && y != id
  {
  }

  lemma BridgeLoses<T>(w: World<T>, w': World<T>, id: T, a: Adu, priority: nat, lo: nat, hi: nat, x: T, z: T)
    requires Lands(w, w', id, a, priority, lo, hi, Some(x), Some(z))
    ensures Stored(w, a, hi) && !Stored(w', a, hi)
  {
    assert z in Mine(w, a) && RunOf(w.bundles[z], a, priority);
    TakerIs(w, w', id, a, priority, lo, hi, Some(x), Some(z));
    forall y | y in Mine(w', a) ensures !(Lo(w'.bundles[y]) <= hi < Hi(w'.bundles[y])) {
      if y != x {
        OthersAre(w, w', id, a, priority, lo, hi, Some(x), Some(z), y);
        assert Separate(w.bundles[y], w.bundles[z]);
      }
    }
  }

  // ------------------------------------------------------------ an agent's landing

  ghost predicate SameParts<T>(w: World<T>, w': World<T>, a: Adu)
  {
    StoreKnown(w') && Mine(w', a) == Mine(w, a) && forall y :: y in Mine(w, a) ==> w'.bundles[y] == w.bundles[y]
  }

  lemma ForwardParts<T>(n: Node<T>, id: T, a: Adu)
    requires Sound(n.world) && Sendable(n, id) && !IsRunning(n.world, n.world.bundles[id].nextRetrans)
    requires KeyOf(n.world.bundles[id].header) != a.key
    ensures SameParts(n.world, Forward(n, id).0.world, a)
  {
    ForwardSound(n, id);
    ForwardKey(n, id);
  }

  lemma AcceptedParts<T>(n: Node<T>, id: T, address: nat, now: nat, h: Header, adu: seq<byte>, a: Adu)
    requires Sound(n.world) && id !in n.world.bundles && KeyOf(h) != a.key
    ensures SameParts(n.world, Accepted(n, id, address, now, h, adu).world, a)
  {
  }

  /** A bundle of another ADU changes nothing. */
  lemma SendParts<T>(n: Node<T>, id: T, address: nat, now: nat, adu: seq<byte>, src: Eid, dst: Eid,
                     lifetime: nat, custody: bool, priority: nat, a: Adu)
    requires Sound(n.world) && n.bundleSize > 0 && id !in n.world.bundles && src != a.key.src
    ensures SameParts(n.world, Send(n, id, address, now, adu, src, dst, lifetime, custody, priority).0.world, a)
  {
    if MaySend(n, src) {
      var h := OutboundHeader(n.eid, n.sequence, now, |adu|, src, dst, lifetime, custody, priority);
      var n1 := Accepted(n, id, address, now, h, adu);
      AcceptedSteady(n, id, address, now, h, adu, false);
      AcceptedParts(n, id, address, now, h, adu, a);
      ForwardParts(n1, id, a);
    }
  }

  lemma SignalParts<T>(n: Node<T>, id: T, signalId: T, address: nat, now: nat, a: Adu)
    requires Awaits(n, a) && id in n.world.bundles && n.world.bundles[id].header.dst == a.dst
    requires signalId !in n.world.bundles
    ensures SameParts(Enqueued(n, id).world, Deliver(n, id, signalId, address, now).0.world, a)
  {
    var n1 := Enqueued(n, id);
    var b := n1.world.bundles[id];
    DeliverIs(n, id, signalId, address, now);
    EnqueueSteady(n.eid, n.world, id, false);
    if b.header.custody {
      SendParts(n1, signalId, address, now, RecordFor(b, now), n1.eid, b.header.cust, b.header.lifetime, false, 0, a);
    }
  }

  lemma EnqueuedCoalesces<T>(n: Node<T>, id: T, a: Adu)
    requires Awaits(n, a) && id in Mine(n.world, a) && n.world.bundles[id].header.dst == a.dst
    requires n.world.bundles[id].header.fragment
    ensures Enqueued(n, id).world == Coalesce(n.world, id, Snapshot(n.world, a))
  {
    EnqueueIs(n.eid, n.world, id);
  }

  /** A piece that lands among the runs: its object is new, its octets are too. */
  ghost predicate Fresh<T>(n: Node<T>, l: Landing<T>, a: Adu, priority: nat)
  {
    Awaits(n, a) && PieceOf(l.packet, a) && l.packet.header.priority == priority && MayLandOn(n, l) &&
    Parts(n.world, a, priority) &&
    forall y :: y in Mine(n.world, a) ==>
      Hi(n.world.bundles[y]) <= l.packet.header.offset || End(l.packet) <= Lo(n.world.bundles[y])
  }

  function End(p: Packet): nat
  {
    p.header.offset + |p.payload|
  }

  ghost predicate SortedWorld<T>(w: World<T>)
  {
    StoreKnown(w) && Sorted(w.bundles, w.store)
  }

  lemma AddedMine<T>(w: World<T>, w1: World<T>, id: T, p: Packet, address: nat, a: Adu)
    requires Added(w, w1, id, Arrival(p, address)) && StoreKnown(w) && id !in w.bundles && KeyOf(p.header) == a.key
    ensures Mine(w1, a) == Mine(w, a) + {id} && id !in Mine(w, a)
    ensures forall y :: y in Mine(w, a) ==> y in w1.bundles && w1.bundles[y] == w.bundles[y]
  {
  }

  lemma AddedJoins<T>(w: World<T>, w1: World<T>, id: T, p: Packet, address: nat, a: Adu, priority: nat,
                      front: Option<T>, back: Option<T>)
    requires Added(w, w1, id, Arrival(p, address)) && Parts(w, a, priority) && id !in w.bundles
    requires PieceOf(p, a) && p.header.priority == priority && Meets(w, a, p.header.offset, End(p), front, back)
    ensures id in w1.bundles && Lo(w1.bundles[id]) == p.header.offset && Hi(w1.bundles[id]) == End(p)
    ensures Neighbours(w1, id, a, priority, front, back)
  {
    AddedMine(w, w1, id, p, address, a);
    assert RunOf(w1.bundles[id], a, priority);
  }

  lemma TakenJoins<T>(n: Node<T>, l: Landing<T>, a: Adu, priority: nat, front: Option<T>, back: Option<T>)
    requires Fresh(n, l, a, priority) && Meets(n.world, a, l.packet.header.offset, End(l.packet), front, back)
    ensures var w1 := Taken(n, l.packet, l.id, l.address, l.now).world;
            Mine(w1, a) == Mine(n.world, a) + {l.id} && l.id !in Mine(n.world, a)
            && (forall y :: y in Mine(n.world, a) ==> y in w1.bundles && w1.bundles[y] == n.world.bundles[y])
            && Neighbours(w1, l.id, a, priority, front, back)
            && Lo(w1.bundles[l.id]) == l.packet.header.offset && Hi(w1.bundles[l.id]) == End(l.packet)
  {
    var w1 := Taken(n, l.packet, l.id, l.address, l.now).world;
    TakenAdds(n, l.packet, l.id, l.address, l.now);
    AddedMine(n.world, w1, l.id, l.packet, l.address, a);
    AddedJoins(n.world, w1, l.id, l.packet, l.address, a, priority, front, back);
  }

  lemma GrownOver<T>(w: World<T>, w1: World<T>, w': World<T>, w'': World<T>, id: T, a: Adu, priority: nat,
                     lo: nat, hi: nat, front: Option<T>, back: Option<T>)
    requires Mine(w1, a) == Mine(w, a) + {id} && id !in Mine(w, a)
    requires forall y :: y in Mine(w, a) ==> y in w1.bundles && w1.bundles[y] == w.bundles[y]
    requires Grown(w1, w', id, a, priority, lo, hi, front, back) && SameParts(w', w'', a) && front != Some(id)
    ensures Grown(w, w'', id, a, priority, lo, hi, front, back)
  {
    assert Mine(w1, a) - {id} == Mine(w, a) - {id};
  }

  /** The world once the landed bundle is enqueued. */
  lemma EnqueuedOutcome<T>(n: Node<T>, l: Landing<T>, a: Adu, priority: nat, front: Option<T>, back: Option<T>)
    requires Fresh(n, l, a, priority) && Meets(n.world, a, l.packet.header.offset, End(l.packet), front, back)
    requires SortedWorld(Taken(n, l.packet, l.id, l.address, l.now).world)
    ensures var n1 := Taken(n, l.packet, l.id, l.address, l.now);
            Neighbours(n1.world, l.id, a, priority, front, back)
            && Enqueued(n1, l.id).world == Outcome(n1.world, l.id, front, back)
  {
    var n1 := Taken(n, l.packet, l.id, l.address, l.now);
    TakenAdds(n, l.packet, l.id, l.address, l.now);
    TakenJoins(n, l, a, priority, front, back);
    EnqueuedCoalesces(n1, l.id, a);
    LoopOutcome(n1.world, l.id, a, priority, front, back);
  }

  lemma LandGrows<T>(n: Node<T>, l: Landing<T>, a: Adu, priority: nat, front: Option<T>, back: Option<T>)
    requires Fresh(n, l, a, priority) && Meets(n.world, a, l.packet.header.offset, End(l.packet), front, back)
    requires SortedWorld(Taken(n, l.packet, l.id, l.address, l.now).world)
    ensures Lands(n.world, Land(n, l).world, l.id, a, priority, l.packet.header.offset, End(l.packet), front, back)
  {
    var n1 := Taken(n, l.packet, l.id, l.address, l.now);
    TakenAdds(n, l.packet, l.id, l.address, l.now);
    TakenJoins(n, l, a, priority, front, back);
    EnqueuedOutcome(n, l, a, priority, front, back);
    OutcomeGrown(n1.world, l.id, a, priority, front, back);
    SignalParts(n1, l.id, l.signalId, l.address + 1, l.now, a);
    LandIs(n, l, a);
    GrownOver(n.world, n1.world, Enqueued(n1, l.id).world, Land(n, l).world, l.id, a, priority,
              l.packet.header.offset, End(l.packet), front, back);
  }

  lemma BridgeIs<T>(w: World<T>, w': World<T>, id: T, a: Adu, priority: nat, lo: nat, hi: nat, x: T, z: T)
    requires Lands(w, w', id, a, priority, lo, hi, Some(x), Some(z))
    ensures Mine(w', a) == Mine(w, a) - {z} && x in Mine(w', a)
    ensures Lo(w'.bundles[x]) == Lo(w.bundles[x]) && Hi(w'.bundles[x]) == hi
    ensures Stored(w, a, hi) && !Stored(w', a, hi)
  {
    BridgeLoses(w, w', id, a, priority, lo, hi, x, z);
    assert Mine(w, a) - {id} + {} - {z} == Mine(w, a) - {z};
  }

  /** An arrival that closes the gap between two stored runs loses octets: the run
      in front grows by what arrived, and the run behind is stored no more. */
  lemma BridgingLoses<T>(n: Node<T>, l: Landing<T>, a: Adu, priority: nat, x: T, z: T)
    requires Fresh(n, l, a, priority) && Meets(n.world, a, l.packet.header.offset, End(l.packet), Some(x), Some(z))
    requires SortedWorld(Taken(n, l.packet, l.id, l.address, l.now).world)
    ensures var w, w' := n.world, Land(n, l).world;
            Mine(w', a) == Mine(w, a) - {z} && x in Mine(w', a)
            && Lo(w'.bundles[x]) == Lo(w.bundles[x]) && Hi(w'.bundles[x]) == End(l.packet)
            && Stored(w, a, End(l.packet)) && !Stored(w', a, End(l.packet))
  {
    LandGrows(n, l, a, priority, Some(x), Some(z));
    BridgeIs(n.world, Land(n, l).world, l.id, a, priority, l.packet.header.offset, End(l.packet), x, z);
  }

  // ---------------------------------------------------------- the store's order

  /** What the comparator looks at is the same. */
  predicate SameOrder(b: Bundle, b': Bundle)
  {
    SameButFlag(b.header, b'.header) && b'.address == b.address
  }

  lemma FlagSorted<T>(b: map<T, Bundle>, b': map<T, Bundle>, s: seq<T>)
    requires (forall x :: x in s ==> x in b && x in b' && SameOrder(b[x], b'[x])) && Sorted(b, s)
    ensures Sorted(b', s)
  {
    assert forall i :: 0 <= i < |s| ==> SameOrder(b[s[i]], b'[s[i]]);
  }

  lemma SwallowSorted<T>(w: World<T>, front: T, back: T)
    requires SortedWorld(w) && front in w.bundles && back in w.bundles && front != back
    requires w.bundles[front].adu.Some? && w.bundles[back].adu.Some?
    ensures SortedWorld(Swallow(w, front, back))
  {
    var w' := Swallow(w, front, back);
    SwallowIs(w, front, back);
    WithoutSorted(w.bundles, w.store, back);
    FlagSorted(w.bundles, w'.bundles, w'.store);
  }

  lemma OutcomeSorted<T>(w: World<T>, id: T, a: Adu, priority: nat, front: Option<T>, back: Option<T>)
    requires Neighbours(w, id, a, priority, front, back) && SortedWorld(w)
    ensures SortedWorld(Outcome(w, id, front, back))
  {
    if front.Some? {
      SwallowIs(w, front.value, id);
      SwallowSorted(w, front.value, id);
    }
    if back.Some? {
      SwallowSorted(if front.Some? then Swallow(w, front.value, id) else w, id, back.value);
    }
  }

  lemma {:induction false} WithoutInsert<T>(b: map<T, Bundle>, s: seq<T>, id: T)
    requires id in b && (forall x :: x in s ==> x in b) && id !in s
    ensures Without(Insert(b, s, id), id) == s
  {
    if s == [] {
    } else if Before(b[id], b[s[0]]) {
      NothingWithout(s, id);
      assert ([id] + s)[1..] == s;
    } else {
      WithoutInsert(b, s[1..], id);
      assert Insert(b, s, id) == [s[0]] + Insert(b, s[1..], id);
      assert Insert(b, s, id)[1..] == Insert(b, s[1..], id);
    }
  }

  /** A signal in the store that waits for an adapter. */
  lemma WaitingSorted<T>(n: Node<T>, id: T)
    requires Sound(n.world) && SortedWorld(n.world) && Sendable(n, id) && !CanForward(n, n.world.bundles[id].header.dst)
    ensures SortedWorld(Forward(n, id).0.world)
  {
    FlagSorted(n.world.bundles, Forward(n, id).0.world.bundles, n.world.store);
  }

  /** A signal that was sent is gone. */
  lemma PassedStore<T>(n: Node<T>, id: T)
    requires Sound(n.world) && Sendable(n, id) && !IsRunning(n.world, n.world.bundles[id].nextRetrans)
    requires n.world.bundles[id].retention == {DispatchPending} && CanForward(n, n.world.bundles[id].header.dst)
    ensures Forward(n, id).0.world.store == if id in n.world.store then Without(n.world.store, id) else n.world.store
  {
    var w := MarkForward(n.world, id);
    ForwardIs(n, id);
    MarkSound(n.world, id);
    TransmitSound(w, id, n.bundleSize);
    SentSound(w, id, n.bundleSize);
    assert w.bundles[id].retention - {ForwardPending} == {};
  }

  lemma PassedSorted<T>(w: World<T>, n1: Node<T>, id: T)
    requires SortedWorld(w) && id !in w.bundles && Sound(n1.world) && Sendable(n1, id)
    requires !IsRunning(n1.world, n1.world.bundles[id].nextRetrans)
    requires n1.world.bundles[id].retention == {DispatchPending} && CanForward(n1, n1.world.bundles[id].header.dst)
    requires forall y :: y in w.store ==> y in n1.world.bundles && n1.world.bundles[y] == w.bundles[y]
    requires n1.world.store == w.store || n1.world.store == Insert(n1.world.bundles, w.store, id)
    ensures SortedWorld(Forward(n1, id).0.world)
  {
    PassedStore(n1, id);
    if n1.world.store == w.store {
      NothingWithout(w.store, id);
    } else {
      WithoutInsert(n1.world.bundles, w.store, id);
    }
    ForwardSound(n1, id);
    Accounting.SortedSame(w.bundles, Forward(n1, id).0.world.bundles, w.store);
  }

  lemma AcceptedStore<T>(n: Node<T>, id: T, address: nat, now: nat, h: Header, adu: seq<byte>)
    requires Sound(n.world) && id !in n.world.bundles
    ensures var w := Accepted(n, id, address, now, h, adu).world;
            w.store == (if Expired(h, now) then n.world.store else Insert(w.bundles, n.world.store, id))
            && forall y :: y in n.world.store ==> y in w.bundles && w.bundles[y] == n.world.bundles[y]
  {
  }

  /** `Send` without custody keeps the store sorted: its bundle either goes out at
      once and is gone, or it waits as it was stored. */
  lemma SendSorted<T>(n: Node<T>, id: T, address: nat, now: nat, adu: seq<byte>, src: Eid, dst: Eid,
                      lifetime: nat, priority: nat)
    requires Sound(n.world) && SortedWorld(n.world) && n.bundleSize > 0 && id !in n.world.bundles
    requires var w' := Send(n, id, address, now, adu, src, dst, lifetime, false, priority).0.world;
             StoreKnown(w') && Comparable(w'.bundles, w'.store)
    ensures SortedWorld(Send(n, id, address, now, adu, src, dst, lifetime, false, priority).0.world)
  {
    if MaySend(n, src) {
      var h := OutboundHeader(n.eid, n.sequence, now, |adu|, src, dst, lifetime, false, priority);
      var n1 := Accepted(n, id, address, now, h, adu);
      SendIs(n, id, address, now, adu, src, dst, lifetime, false, priority);
      AcceptedSteady(n, id, address, now, h, adu, false);
      AcceptedStore(n, id, address, now, h, adu);
      if CanForward(n1, dst) {
        PassedSorted(n.world, n1, id);
      } else {
        WaitingComparable(n1, id);
        AcceptedSorted(n, id, address, now, h, adu);
        WaitingSorted(n1, id);
      }
    }
  }

  lemma AcceptedSorted<T>(n: Node<T>, id: T, address: nat, now: nat, h: Header, adu: seq<byte>)
    requires Sound(n.world) && SortedWorld(n.world) && id !in n.world.bundles
    requires var w := Accepted(n, id, address, now, h, adu).world; Comparable(w.bundles, w.store)
    ensures SortedWorld(Accepted(n, id, address, now, h, adu).world)
  {
    Accounting.StoreSorted(n.world, id, NewBundle(h, adu, OutboundRetention(h.custody), address), now);
  }

  lemma WaitingComparable<T>(n: Node<T>, id: T)
    requires Sound(n.world) && Sendable(n, id) && !CanForward(n, n.world.bundles[id].header.dst)
    requires Comparable(Forward(n, id).0.world.bundles, Forward(n, id).0.world.store)
    ensures Comparable(n.world.bundles, n.world.store)
  {
  }

  lemma SignalSorted<T>(n: Node<T>, id: T, signalId: T, address: nat, now: nat, a: Adu)
    requires Awaits(n, a) && id in n.world.bundles && n.world.bundles[id].header.dst == a.dst
    requires signalId !in n.world.bundles && SortedWorld(Enqueued(n, id).world)
    requires var w' := Deliver(n, id, signalId, address, now).0.world;
             StoreKnown(w') && Comparable(w'.bundles, w'.store)
    ensures SortedWorld(Deliver(n, id, signalId, address, now).0.world)
  {
    var n1 := Enqueued(n, id);
    var b := n1.world.bundles[id];
    DeliverIs(n, id, signalId, address, now);
    EnqueueSteady(n.eid, n.world, id, false);
    if b.header.custody {
      SendSorted(n1, signalId, address, now, RecordFor(b, now), n1.eid, b.header.cust, b.header.lifetime, 0);
    }
  }

  /** The bundles met in the landing have addresses of their own and sequence
      numbers near each other. */
  ghost predicate StaysComparable<T>(n: Node<T>, l: Landing<T>)
    requires StoreKnown(n.world) && n.bundleSize > 0 && l.packet.header.dst != n.eid
  {
    var w1, w' := Taken(n, l.packet, l.id, l.address, l.now).world, Land(n, l).world;
    Comparable(w1.bundles, w1.store) && StoreKnown(w') && Comparable(w'.bundles, w'.store)
  }

  lemma TakenSorted<T>(n: Node<T>, l: Landing<T>, a: Adu, priority: nat)
    requires Fresh(n, l, a, priority) && SortedWorld(n.world) && StaysComparable(n, l)
    ensures SortedWorld(Taken(n, l.packet, l.id, l.address, l.now).world)
  {
    Accounting.StoreSorted(n.world, l.id, Arrival(l.packet, l.address), l.now);
  }

  lemma LandSorted<T>(n: Node<T>, l: Landing<T>, a: Adu, priority: nat, front: Option<T>, back: Option<T>)
    requires Fresh(n, l, a, priority) && Meets(n.world, a, l.packet.header.offset, End(l.packet), front, back)
    requires SortedWorld(n.world) && StaysComparable(n, l)
    ensures SortedWorld(Land(n, l).world)
  {
    var n1 := Taken(n, l.packet, l.id, l.address, l.now);
    TakenSorted(n, l, a, priority);
    TakenAdds(n, l.packet, l.id, l.address, l.now);
    EnqueuedOutcome(n, l, a, priority, front, back);
    OutcomeSorted(n1.world, l.id, a, priority, front, back);
    LandIs(n, l, a);
    SignalSorted(n1, l.id, l.signalId, l.address + 1, l.now, a);
  }
}
