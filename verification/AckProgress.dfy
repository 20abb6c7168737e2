/**
 Progress of custody on the stream of signals: how many rounds of per-fragment
 signals, each round in order, it takes until a bundle's recorded range is its
 whole ADU and the custodian drops it.
 */
module AckProgress {
  import opened Arithmetic
  import opened Bytes
  import opened Bundles
  import opened Agent
  import opened Tiling

  /** The recorded ranges; `None` once the bundle was dropped. */
  type Record = Option<seq<(nat, nat)>>

  function Hear(r: Record, ack: (nat, nat), aduLength: nat): Record
  {
    match r
    case None => None
    case Some(acks) =>
      var acks' := Acknowledge(acks, ack);
      if FullyAcked(acks', aduLength) then None else Some(acks')
  }

  /** `Hear` is what a signal does to a stored bundle. */
  lemma HearIsSettled<T>(w: World<T>, id: T, ack: (nat, nat))
    requires id in w.bundles && StoreKnown(w) && w.bundles[id].adu.Some?
    ensures var b, b' := w.bundles[id], Settled(w, id, ack).bundles[id];
            match Hear(Some(b.acks), ack, b.header.aduLength)
            case None => b'.adu.None?
            case Some(acks) => b' == b.(acks := acks)
  {
  }

  /** The list never holds more than one range. */
  lemma OneRange(acks: seq<(nat, nat)>, ack: (nat, nat))
    requires |acks| <= 1
    ensures |Acknowledge(acks, ack)| == 1
  {
  }

  /** Where the fragments of an ADU meet, its ends included. */
  predicate Cuts(cuts: seq<nat>)
  {
    |cuts| >= 2 && cuts[0] == 0 && forall i, j :: 0 <= i < j < |cuts| ==> cuts[i] < cuts[j]
  }

  /** The signals of one round from fragment `k` on, in order. */
  function Round(r: Record, cuts: seq<nat>, k: nat): Record
    requires Cuts(cuts) && k < |cuts|
    decreases |cuts| - k
  {
    if k == |cuts| - 1 then r
    else Round(Hear(r, (cuts[k], cuts[k + 1]), cuts[|cuts| - 1]), cuts, k + 1)
  }

  function Rounds(r: Record, cuts: seq<nat>, n: nat): Record
    requires Cuts(cuts)
    decreases n
  {
    if n == 0 then r else Rounds(Round(r, cuts, 0), cuts, n - 1)
  }

  lemma {:induction false} Dropped(cuts: seq<nat>, k: nat)
    requires Cuts(cuts) && k < |cuts|
    ensures Round(None, cuts, k) == None
    decreases |cuts| - k
  {
    if k < |cuts| - 1 {
      Dropped(cuts, k + 1);
    }
  }

  lemma {:induction false} StaysDropped(cuts: seq<nat>, n: nat)
    requires Cuts(cuts)
    ensures Rounds(None, cuts, n) == None
  {
    Dropped(cuts, 0);
    if n > 0 {
      StaysDropped(cuts, n - 1);
    }
  }

  /** The single range from cut `i` to cut `j`. */
  function Aligned(cuts: seq<nat>, i: nat, j: nat): Record
    requires i < |cuts| && j < |cuts|
  {
    Some([(cuts[i], cuts[j])])
  }

  lemma CutsDiffer(cuts: seq<nat>, a: nat, b: nat)
    requires Cuts(cuts) && a < |cuts| && b < |cuts|
    ensures cuts[a] == cuts[b] <==> a == b
  {
  }

  /** One signal: the range grows to the right if fragment `k` begins where it
      ends, to the left if fragment `k` ends where it begins. */
  lemma HearOne(cuts: seq<nat>, i: nat, j: nat, k: nat)
    requires Cuts(cuts) && i < j < |cuts| && k < |cuts| - 1
    ensures var i', j' := if k + 1 == i then k else i, if k == j then k + 1 else j;
            Hear(Aligned(cuts, i, j), (cuts[k], cuts[k + 1]), cuts[|cuts| - 1])
            == if i' == 0 && j' == |cuts| - 1 then None else Aligned(cuts, i', j')
  {
    var i', j' := if k + 1 == i then k else i, if k == j then k + 1 else j;
    CutsDiffer(cuts, k + 1, i);
    CutsDiffer(cuts, j, k);
    CutsDiffer(cuts, i', 0);
    CutsDiffer(cuts, j', |cuts| - 1);
    assert Acknowledge([(cuts[i], cuts[j])], (cuts[k], cuts[k + 1])) == [(cuts[i'], cuts[j'])];
  }

  /** The rest of a round: one step to the left if fragment i - 1 is still to
      come, and all the way to the right. */
  lemma {:induction false} RoundFrom(cuts: seq<nat>, i: nat, j: nat, k: nat)
    requires Cuts(cuts) && i < j < |cuts| && k <= j && !(i == 0 && j == |cuts| - 1)
    ensures var i' := if k < i then i - 1 else i;
            Round(Aligned(cuts, i, j), cuts, k) == if i' == 0 then None else Aligned(cuts, i', |cuts| - 1)
    decreases |cuts| - k
  {
    if k < |cuts| - 1 {
      HearOne(cuts, i, j, k);
      var i', j' := if k + 1 == i then k else i, if k == j then k + 1 else j;
      if i' == 0 && j' == |cuts| - 1 {
        Dropped(cuts, k + 1);
      } else {
        RoundFrom(cuts, i', j', k + 1);
      }
    }
  }

  /** From an empty list one round is enough. */
  lemma FirstRound(cuts: seq<nat>)
    requires Cuts(cuts)
    ensures Round(Some([]), cuts, 0) == None
  {
    var m := |cuts| - 1;
    if m == 1 {
      assert Hear(Some([]), (cuts[0], cuts[1]), cuts[m]) == None;
      Dropped(cuts, 1);
    } else {
      assert Hear(Some([]), (cuts[0], cuts[1]), cuts[m]) == Aligned(cuts, 0, 1);
      RoundFrom(cuts, 0, 1, 1);
    }
  }

  /** From a range that begins at fragment `i`, custody is released after exactly
      max(1, i) rounds: each round moves the left end one fragment to the left. */
  lemma {:induction false} RoundsToRelease(cuts: seq<nat>, i: nat, j: nat, n: nat)
    requires Cuts(cuts) && i < j < |cuts| && !(i == 0 && j == |cuts| - 1)
    ensures Rounds(Aligned(cuts, i, j), cuts, n) == None <==> n >= (if i == 0 then 1 else i)
    decreases n
  {
    if n > 0 {
      RoundFrom(cuts, i, j, 0);
      if i <= 1 {
        StaysDropped(cuts, n - 1);
      } else {
        RoundsToRelease(cuts, i - 1, |cuts| - 1, n - 1);
      }
    }
  }

  /** The signal for a fragment as it was sent acknowledges that tile. */
  lemma TileSignal(p: Packet, h: Header, adu: seq<byte>, size: nat, from: nat, address: nat, now: nat)
    requires size > 0 && IsTile(p, h, adu, size, from) && size < |adu| < TWO32
    ensures AckOf(SignalFor(Arrival(p, address), now)) == (from, from + |p.payload|)
  {
  }

  function HearTimes(r: Record, ack: (nat, nat), aduLength: nat, n: nat): Record
    decreases n
  {
    if n == 0 then r else HearTimes(Hear(r, ack, aduLength), ack, aduLength, n - 1)
  }

  lemma {:induction false} EmptyRangeStays(acks: seq<(nat, nat)>, aduLength: nat, n: nat)
    requires acks == [] || acks == [(0, 0)]
    ensures aduLength > 0 ==> HearTimes(Some(acks), (0, 0), aduLength, n).Some?
    decreases n
  {
    if n > 0 && aduLength > 0 {
      assert Acknowledge(acks, (0, 0)) == [(0, 0)];
      EmptyRangeStays([(0, 0)], aduLength, n - 1);
    }
  }

  /** The signal for a bundle that is not a fragment acknowledges no octet, so
      however often it is repeated it never releases a non-empty ADU. */
  lemma WholeIsNeverReleased(b: Bundle, now: nat, n: nat)
    requires !b.header.fragment && b.header.offset == 0 && b.header.aduLength > 0
    ensures AckOf(SignalFor(b, now)) == (0, 0)
    ensures HearTimes(Some([]), AckOf(SignalFor(b, now)), b.header.aduLength, n).Some?
  {
    EmptyRangeStays([], b.header.aduLength, n);
  }

  // ------------------------------------------------ the round of what was sent

  /** Signals with these ranges, one after the other. */
  function HearAll(r: Record, acks: seq<(nat, nat)>, aduLength: nat): Record
    decreases |acks|
  {
    if acks == [] then r else HearAll(Hear(r, acks[0], aduLength), acks[1..], aduLength)
  }

  /** What the signals for the packets acknowledge, each packet as it arrives. */
  function AcksOf(packets: seq<Packet>, address: nat, now: nat): (r: seq<(nat, nat)>)
    ensures |r| == |packets|
    ensures forall i :: 0 <= i < |packets| ==> r[i] == AckOf(SignalFor(Arrival(packets[i], address), now))
  {
    seq(|packets|, i requires 0 <= i < |packets| => AckOf(SignalFor(Arrival(packets[i], address), now)))
  }

  /** Where packets of `size` octets meet in an ADU of `n`. */
  function CutsOf(n: nat, size: nat, tiles: nat): (r: seq<nat>)
    ensures |r| == tiles + 1 && forall i :: 0 <= i <= tiles ==> r[i] == Min(i * size, n)
  {
    seq(tiles + 1, i requires 0 <= i <= tiles => Min(i * size, n))
  }

  /** The ranges are those between the cuts. */
  predicate BetweenCuts(acks: seq<(nat, nat)>, cuts: seq<nat>)
  {
    |cuts| == |acks| + 1 && forall i :: 0 <= i < |acks| ==> acks[i] == (cuts[i], cuts[i + 1])
  }

  lemma {:induction false} HearAllIsRound(r: Record, acks: seq<(nat, nat)>, cuts: seq<nat>, k: nat)
    requires Cuts(cuts) && BetweenCuts(acks, cuts) && k < |cuts|
    ensures HearAll(r, acks[k..], cuts[|cuts| - 1]) == Round(r, cuts, k)
    decreases |cuts| - k
  {
    if k < |cuts| - 1 {
      assert acks[k..][0] == acks[k] && acks[k..][1..] == acks[k + 1..];
      HearAllIsRound(Hear(r, acks[k], cuts[|cuts| - 1]), acks, cuts, k + 1);
    }
  }

  lemma CutsAscend(n: nat, size: nat, tiles: nat)
    requires 0 < size && tiles > 0 && (tiles - 1) * size < n <= tiles * size
    ensures Cuts(CutsOf(n, size, tiles)) && CutsOf(n, size, tiles)[tiles] == n
  {
    var cuts := CutsOf(n, size, tiles);
    forall i, j | 0 <= i < j <= tiles ensures cuts[i] < cuts[j] {
      MoreTimes(i, j, size);
      if i < tiles - 1 {
        MoreTimes(i, tiles - 1, size);
      }
    }
  }

  lemma TilesCut(n: nat, size: nat)
    requires 0 < size && 0 < n
    ensures Tiles(n, size) > 0 && (Tiles(n, size) - 1) * size < n <= Tiles(n, size) * size
  {
    TilesIsLeast(n, size);
    var t := Tiles(n, size);
    assert (t - 1) * size == t * size - size;
  }

  lemma TileIsCut(p: Packet, i: nat, h: Header, adu: seq<byte>, size: nat, address: nat, now: nat)
    requires 0 < size < |adu| < TWO32 && InItsPlace(p, i, h, adu, size)
    ensures AckOf(SignalFor(Arrival(p, address), now)) == (Min(i * size, |adu|), Min((i + 1) * size, |adu|))
  {
    TileSignal(p, h, adu, size, i * size, address, now);
    assert (i + 1) * size == i * size + size;
  }

  lemma SentBetweenCuts(h: Header, adu: seq<byte>, size: nat, address: nat, now: nat)
    requires 0 < size < |adu| < TWO32
    ensures BetweenCuts(AcksOf(SendSlices(h, adu, size, |adu|).1, address, now), CutsOf(|adu|, size, Tiles(|adu|, size)))
  {
    var packets := SendSlices(h, adu, size, |adu|).1;
    var acks, cuts := AcksOf(packets, address, now), CutsOf(|adu|, size, Tiles(|adu|, size));
    ForwardTiles(h, adu, size);
    forall i | 0 <= i < |acks| ensures acks[i] == (cuts[i], cuts[i + 1]) {
      assert InItsPlace(packets[i], i, h, adu, size);
      TileIsCut(packets[i], i, h, adu, size, address, now);
    }
  }

  lemma FragmentsRelease(h: Header, adu: seq<byte>, size: nat, address: nat, now: nat)
    requires 0 < size < |adu| < TWO32
    ensures HearAll(Some([]), AcksOf(SendSlices(h, adu, size, |adu|).1, address, now), |adu|) == None
  {
    var acks := AcksOf(SendSlices(h, adu, size, |adu|).1, address, now);
    var cuts := CutsOf(|adu|, size, Tiles(|adu|, size));
    TilesCut(|adu|, size);
    CutsAscend(|adu|, size, Tiles(|adu|, size));
    SentBetweenCuts(h, adu, size, address, now);
    HearAllIsRound(Some([]), acks, cuts, 0);
    assert acks[0..] == acks;
    FirstRound(cuts);
  }

  lemma WholeDoesNot(h: Header, adu: seq<byte>, size: nat, acks: seq<(nat, nat)>, address: nat, now: nat)
    requires 0 < |adu| <= size && |adu| < TWO32 && (acks == [] || acks == [(0, 0)])
    ensures HearAll(Some(acks), AcksOf(SendSlices(h, adu, size, |adu|).1, address, now), |adu|) == Some([(0, 0)])
  {
    var packets := SendSlices(h, adu, size, |adu|).1;
    OneTile(|adu|, size);
    ForwardTiles(h, adu, size);
    assert InItsPlace(packets[0], 0, h, adu, size);
    assert AcksOf(packets, address, now) == [(0, 0)];
    assert Acknowledge(acks, (0, 0)) == [(0, 0)];
    assert HearAll(Some([(0, 0)]), [], |adu|) == Some([(0, 0)]);
  }

  /** The same round over and over. */
  function HearRounds(r: Record, acks: seq<(nat, nat)>, aduLength: nat, rounds: nat): Record
    decreases rounds
  {
    if rounds == 0 then r else HearRounds(HearAll(r, acks, aduLength), acks, aduLength, rounds - 1)
  }

  lemma {:induction false} HearNothing(acks: seq<(nat, nat)>, aduLength: nat)
    ensures HearAll(None, acks, aduLength) == None
  {
    if acks != [] {
      HearNothing(acks[1..], aduLength);
    }
  }

  lemma {:induction false} RoundsOfNothing(acks: seq<(nat, nat)>, aduLength: nat, rounds: nat)
    ensures HearRounds(None, acks, aduLength, rounds) == None
    decreases rounds
  {
    if rounds > 0 {
      HearNothing(acks, aduLength);
      RoundsOfNothing(acks, aduLength, rounds - 1);
    }
  }

  lemma {:induction false} RoundsOfWhole(h: Header, adu: seq<byte>, size: nat, address: nat, now: nat, rounds: nat)
    requires 0 < |adu| <= size && |adu| < TWO32
    ensures HearRounds(Some([(0, 0)]), AcksOf(SendSlices(h, adu, size, |adu|).1, address, now), |adu|, rounds).Some?
    decreases rounds
  {
    if rounds > 0 {
      WholeDoesNot(h, adu, size, [(0, 0)], address, now);
      RoundsOfWhole(h, adu, size, address, now, rounds - 1);
    }
  }

  /** Custody of an ADU is released by in-order rounds of the signals for the
      packets it goes out in, one round or any number, if and only if it goes out
      in fragments. */
  lemma RoundsRelease(h: Header, adu: seq<byte>, size: nat, address: nat, now: nat, rounds: nat)
    requires 0 < size && 0 < |adu| < TWO32 && rounds > 0
    ensures HearRounds(Some([]), AcksOf(SendSlices(h, adu, size, |adu|).1, address, now), |adu|, rounds) == None
       <==> |adu| > size
  {
    var acks := AcksOf(SendSlices(h, adu, size, |adu|).1, address, now);
    if |adu| > size {
      FragmentsRelease(h, adu, size, address, now);
      RoundsOfNothing(acks, |adu|, rounds - 1);
    } else {
      WholeDoesNot(h, adu, size, [], address, now);
      RoundsOfWhole(h, adu, size, address, now, rounds - 1);
    }
  }
}
