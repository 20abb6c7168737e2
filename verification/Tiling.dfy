/**
 Fragmentation: the sending loop of `Forward` cuts an ADU into tiles, and what
 becomes of the tiles of a bundle that is itself a fragment.
 */
module Tiling {
  import opened Arithmetic
  import opened Bytes
  import opened Bundles
  import opened Agent
  import opened Soundness
  import opened Integrity

  function Min(a: nat, b: nat): nat
  {
    if a < b then a else b
  }

  /** The least number of tiles of `size` octets that cover `n`. */
  function Tiles(n: nat, size: nat): nat
    requires size > 0
  {
    (n + size - 1) / size
  }

  lemma OneMoreTile(n: nat, size: nat)
    requires 0 < size < n
    ensures Tiles(n, size) == 1 + Tiles(n - size, size)
  {
    var q, r := (n - 1) / size, (n - 1) % size;
    var q', r' := (n + size - 1) / size, (n + size - 1) % size;
    assert q' * size + r' == n + size - 1 == (q + 1) * size + r;
    DivUnique(q', q + 1, size, r', r);
  }

  lemma OneTile(n: nat, size: nat)
    requires 0 < n <= size
    ensures Tiles(n, size) == 1
  {
  }

  lemma TilesIsLeast(n: nat, size: nat)
    requires size > 0
    ensures n <= Tiles(n, size) * size < n + size
  {
  }

  /** Packet `i` of the loop entered with `left` octets to send. */
  ghost predicate IsTile(p: Packet, h: Header, adu: seq<byte>, size: nat, from: nat)
    requires size > 0
  {
    0 < |p.payload| <= size && from + |p.payload| <= |adu| && p.payload == adu[from..from + |p.payload|] &&
    p.header == h.(blockLength := |p.payload|, fragment := |adu| > size, offset := if |adu| > size then from else 0)
  }

  lemma FirstTile(h: Header, adu: seq<byte>, size: nat, left: nat)
    requires 0 < left <= |adu| && size > 0 && (|adu| <= size ==> left == |adu|)
    ensures IsTile(SlicePacket(h, adu, size, left), h, adu, size, |adu| - left)
    ensures |SlicePacket(h, adu, size, left).payload| == Min(left, size)
  {
  }

  lemma TileOf(p: Packet, h: Header, h': Header, adu: seq<byte>, size: nat, from: nat)
    requires size > 0 && SameButSlice(h, h') && IsTile(p, h', adu, size, from)
    ensures IsTile(p, h, adu, size, from)
  {
  }

  lemma {:induction false} LoopCount(h: Header, adu: seq<byte>, size: nat, left: nat)
    requires left <= |adu| && size > 0
    ensures |SendSlices(h, adu, size, left).1| == Tiles(left, size)
    decreases left
  {
    if left != 0 {
      LoopCount(SliceHeader(h, |adu|, size, left), adu, size, left - SliceSize(size, left));
      if left <= size {
        OneTile(left, size);
      } else {
        OneMoreTile(left, size);
      }
    }
  }

  /** The tile from `from` on, of `size` octets or all that is left. */
  ghost predicate FullTile(p: Packet, h: Header, adu: seq<byte>, size: nat, from: nat)
    requires size > 0
  {
    from < |adu| && IsTile(p, h, adu, size, from) && |p.payload| == Min(|adu| - from, size)
  }

  /** Tiles one behind the other from `from` to the end. */
  ghost predicate Chain(packets: seq<Packet>, h: Header, adu: seq<byte>, size: nat, from: nat)
    requires size > 0
    decreases |packets|
  {
    if packets == [] then from == |adu|
    else FullTile(packets[0], h, adu, size, from) && Chain(packets[1..], h, adu, size, from + |packets[0].payload|)
  }

  lemma {:induction false} ChainOf(packets: seq<Packet>, h: Header, h': Header, adu: seq<byte>, size: nat, from: nat)
    requires size > 0 && SameButSlice(h, h') && Chain(packets, h', adu, size, from)
    ensures Chain(packets, h, adu, size, from)
    decreases |packets|
  {
    if packets != [] {
      TileOf(packets[0], h, h', adu, size, from);
      ChainOf(packets[1..], h, h', adu, size, from + |packets[0].payload|);
    }
  }

  lemma ChainCons(p: Packet, rest: seq<Packet>, h: Header, adu: seq<byte>, size: nat, from: nat)
    requires size > 0 && FullTile(p, h, adu, size, from) && Chain(rest, h, adu, size, from + |p.payload|)
    ensures Chain([p] + rest, h, adu, size, from)
  {
    assert ([p] + rest)[1..] == rest;
  }

  /** The packets of the loop entered with `left` octets to send are such a chain. */
  ghost predicate Chained(h: Header, adu: seq<byte>, size: nat, left: nat)
  {
    left <= |adu| && size > 0 && Chain(SendSlices(h, adu, size, left).1, h, adu, size, |adu| - left)
  }

  lemma NothingChained(h: Header, adu: seq<byte>, size: nat)
    requires size > 0
    ensures Chained(h, adu, size, 0)
  {
  }

  lemma ChainLonger(p: Packet, rest: seq<Packet>, h: Header, adu: seq<byte>, size: nat, left: nat)
    requires 0 < left <= |adu| && size > 0 && (|adu| <= size ==> left == |adu|) && p == SlicePacket(h, adu, size, left)
    requires Chain(rest, SliceHeader(h, |adu|, size, left), adu, size, |adu| - (left - SliceSize(size, left)))
    ensures Chain([p] + rest, h, adu, size, |adu| - left)
  {
    FirstTile(h, adu, size, left);
    ChainOf(rest, h, SliceHeader(h, |adu|, size, left), adu, size, |adu| - (left - SliceSize(size, left)));
    ChainCons(p, rest, h, adu, size, |adu| - left);
  }

  lemma SlicesAre(h: Header, adu: seq<byte>, size: nat, left: nat)
    requires 0 < left <= |adu| && size > 0
    ensures SendSlices(h, adu, size, left).1
         == [SlicePacket(h, adu, size, left)]
            + SendSlices(SliceHeader(h, |adu|, size, left), adu, size, left - SliceSize(size, left)).1
  {
  }

  lemma ChainGrows(h: Header, adu: seq<byte>, size: nat, left: nat)
    requires 0 < left <= |adu| && size > 0 && (|adu| <= size ==> left == |adu|)
    requires Chained(SliceHeader(h, |adu|, size, left), adu, size, left - SliceSize(size, left))
    ensures Chained(h, adu, size, left)
  {
    var h1, k := SliceHeader(h, |adu|, size, left), SliceSize(size, left);
    ChainLonger(SlicePacket(h, adu, size, left), SendSlices(h1, adu, size, left - k).1, h, adu, size, left);
    SlicesAre(h, adu, size, left);
  }

  lemma {:induction false} LoopChains(h: Header, adu: seq<byte>, size: nat, left: nat)
    requires left <= |adu| && size > 0 && (|adu| <= size ==> left == |adu| || left == 0)
    ensures Chained(h, adu, size, left)
    decreases left
  {
    if left == 0 {
      NothingChained(h, adu, size);
    } else {
      LoopChains(SliceHeader(h, |adu|, size, left), adu, size, left - SliceSize(size, left));
      ChainGrows(h, adu, size, left);
    }
  }

  /** Only the last one is shorter. */
  lemma ChainGoesOn(packets: seq<Packet>, h: Header, adu: seq<byte>, size: nat, from: nat)
    requires size > 0 && Chain(packets, h, adu, size, from) && |packets| > 1
    ensures Chain(packets[1..], h, adu, size, from + size)
  {
    assert packets[1..] != [];
  }

  lemma {:induction false} ChainAt(packets: seq<Packet>, h: Header, adu: seq<byte>, size: nat, from: nat, i: nat)
    requires size > 0 && Chain(packets, h, adu, size, from) && i < |packets|
    ensures FullTile(packets[i], h, adu, size, from + i * size)
    decreases i
  {
    if i > 0 {
      ChainGoesOn(packets, h, adu, size, from);
      ChainAt(packets[1..], h, adu, size, from + size, i - 1);
      OneTileOn(from, i, size);
    }
  }

  lemma OneTileOn(from: nat, i: nat, size: nat)
    requires i > 0
    ensures from + size + (i - 1) * size == from + i * size
  {
  }

  function Joined(packets: seq<Packet>): seq<byte>
  {
    if packets == [] then [] else packets[0].payload + Joined(packets[1..])
  }

  lemma {:induction false} LoopJoins(h: Header, adu: seq<byte>, size: nat, left: nat)
    requires left <= |adu| && size > 0 && (|adu| <= size ==> left == |adu| || left == 0)
    ensures Joined(SendSlices(h, adu, size, left).1) == adu[|adu| - left..]
    decreases left
  {
    if left != 0 {
      var h1, k := SliceHeader(h, |adu|, size, left), SliceSize(size, left);
      LoopJoins(h1, adu, size, left - k);
      FirstTile(h, adu, size, left);
      JoinedOnce(SlicePacket(h, adu, size, left), SendSlices(h1, adu, size, left - k).1);
      TwoParts(adu, |adu| - left, k);
    }
  }

  lemma JoinedOnce(first: Packet, rest: seq<Packet>)
    ensures Joined([first] + rest) == first.payload + Joined(rest)
  {
    assert ([first] + rest)[1..] == rest;
  }

  lemma TwoParts(s: seq<byte>, from: nat, k: nat)
    requires from + k <= |s|
    ensures s[from..from + k] + s[from + k..] == s[from..]
  {
  }

  /** The packet carries the octets from `i * size` on, `size` of them but for
      the last. */
  ghost predicate InItsPlace(p: Packet, i: nat, h: Header, adu: seq<byte>, size: nat)
    requires size > 0
  {
    FullTile(p, h, adu, size, i * size)
  }

  /** Forwarding an ADU of `n` octets with bundles of at most `size` emits
      ceil(n / size) non-empty packets. Packet `i` carries the octets from
      `i * size` on, `size` of them but for the last, and says so; it says
      fragment exactly when n > size; nothing else in the header changes; and
      the payloads in a row are the ADU. */
  lemma ForwardTiles(h: Header, adu: seq<byte>, size: nat)
    requires size > 0
    ensures var packets := SendSlices(h, adu, size, |adu|).1;
            |packets| == Tiles(|adu|, size) && Joined(packets) == adu
            && forall i :: 0 <= i < |packets| ==> InItsPlace(packets[i], i, h, adu, size)
  {
    var packets := SendSlices(h, adu, size, |adu|).1;
    LoopCount(h, adu, size, |adu|);
    LoopJoins(h, adu, size, |adu|);
    assert adu[0..] == adu;
    ChainPlaces(h, adu, size);
  }

  lemma ChainPlaces(h: Header, adu: seq<byte>, size: nat)
    requires size > 0
    ensures var packets := SendSlices(h, adu, size, |adu|).1;
            forall i :: 0 <= i < |packets| ==> InItsPlace(packets[i], i, h, adu, size)
  {
    var packets := SendSlices(h, adu, size, |adu|).1;
    LoopChains(h, adu, size, |adu|);
    AllInPlace(packets, h, adu, size);
  }

  lemma AllInPlace(packets: seq<Packet>, h: Header, adu: seq<byte>, size: nat)
    requires size > 0 && Chain(packets, h, adu, size, 0)
    ensures forall i :: 0 <= i < |packets| ==> InItsPlace(packets[i], i, h, adu, size)
  {
    forall i | 0 <= i < |packets| ensures InItsPlace(packets[i], i, h, adu, size) {
      ChainAt(packets, h, adu, size, 0, i);
    }
  }

  // ----------------------------------------------------------------- relaying

  /** Whatever the original is that the bundle is a slice of, its packets say
      rightly where in it they belong. */
  ghost predicate KeepsPlaces(h: Header, adu: seq<byte>, size: nat)
    requires size > 0
  {
    forall full: seq<byte>, i :: |full| == h.aduLength && Slice(h, adu, full) && 0 <= i < Tiles(|adu|, size) ==>
      RightlyPlaced(h, adu, size, full, i)
  }

  ghost predicate RightlyPlaced(h: Header, adu: seq<byte>, size: nat, full: seq<byte>, i: nat)
    requires size > 0
  {
    var packets := SendSlices(h, adu, size, |adu|).1;
    i < |packets| && Slice(packets[i].header, packets[i].payload, full)
  }

  lemma TileOfFront(p: Packet, h: Header, adu: seq<byte>, size: nat, full: seq<byte>, from: nat)
    requires size > 0 && IsTile(p, h, adu, size, from) && |full| == h.aduLength && Slice(h, adu, full)
    requires h.offset == 0 && (|adu| <= size ==> from == 0 && p.payload == adu && |adu| == h.aduLength)
    ensures Slice(p.header, p.payload, full)
  {
    assert adu == full[..|adu|];
    SliceOfFront(full, |adu|, from, from + |p.payload|);
  }

  lemma SliceOfFront(s: seq<byte>, n: nat, from: nat, to: nat)
    requires from <= to <= n <= |s|
    ensures s[..n][from..to] == s[from..to]
  {
  }

  lemma AtTheFront(h: Header, adu: seq<byte>, size: nat, full: seq<byte>, i: nat)
    requires size > 0 && |full| == h.aduLength && Slice(h, adu, full) && i < Tiles(|adu|, size)
    requires h.offset == 0 && (|adu| > size || |adu| == h.aduLength)
    ensures RightlyPlaced(h, adu, size, full, i)
  {
    ForwardTiles(h, adu, size);
    var p := SendSlices(h, adu, size, |adu|).1[i];
    assert InItsPlace(p, i, h, adu, size);
    if |adu| <= size {
      OnlyTile(p, i, h, adu, size);
    }
    TileOfFront(p, h, adu, size, full, i * size);
  }

  lemma OnlyTile(p: Packet, i: nat, h: Header, adu: seq<byte>, size: nat)
    requires size > 0 && |adu| <= size && InItsPlace(p, i, h, adu, size)
    ensures i * size == 0 && p.payload == adu
  {
    if i > 0 {
      MoreTimes(0, i, size);
    }
  }

  /** An original whose octet in front of the slice is not the slice's first. */
  lemma NotAtTheFront(h: Header, adu: seq<byte>, size: nat)
    requires size > 0 && 0 < |adu| && h.offset + |adu| <= h.aduLength && (!h.fragment ==> |adu| == h.aduLength)
    requires h.offset > 0
    ensures !KeepsPlaces(h, adu, size)
  {
    var other: byte := if adu[0] == 0 then 1 else 0;
    var front, back := seq(h.offset, i => other), seq(h.aduLength - h.offset - |adu|, i => other);
    var full := front + adu + back;
    assert adu == full[h.offset..h.offset + |adu|];
    assert Slice(h, adu, full);
    ForwardTiles(h, adu, size);
    TilesIsLeast(|adu|, size);
    var p := SendSlices(h, adu, size, |adu|).1[0];
    assert IsTile(p, h, adu, size, 0);
    assert p.payload[0] == adu[0] && full[0] == other;
    assert !RightlyPlaced(h, adu, size, full, 0);
  }

  lemma CutShort(h: Header, adu: seq<byte>, size: nat)
    requires size > 0 && 0 < |adu| && h.offset + |adu| <= h.aduLength && (!h.fragment ==> |adu| == h.aduLength)
    requires h.offset == 0 && |adu| <= size && |adu| < h.aduLength
    ensures !KeepsPlaces(h, adu, size)
  {
    var full := adu + seq(h.aduLength - |adu|, i => 0);
    assert adu == full[0..|adu|];
    assert Slice(h, adu, full);
    ForwardTiles(h, adu, size);
    TilesIsLeast(|adu|, size);
    var p := SendSlices(h, adu, size, |adu|).1[0];
    assert IsTile(p, h, adu, size, 0);
    assert !RightlyPlaced(h, adu, size, full, 0);
  }

  /** The loop numbers tiles from the start of what the agent holds, not of the
      original. So a bundle passed on keeps its place exactly when it starts at
      the front and is either cut again or whole; every other fragment that is
      relayed arrives mislabelled. */
  lemma RelayKeepsPlaces(h: Header, adu: seq<byte>, size: nat)
    requires size > 0 && 0 < |adu| && h.offset + |adu| <= h.aduLength && (!h.fragment ==> |adu| == h.aduLength)
    ensures KeepsPlaces(h, adu, size) <==> h.offset == 0 && (|adu| > size || |adu| == h.aduLength)
  {
    if h.offset > 0 {
      NotAtTheFront(h, adu, size);
    } else if |adu| <= size && |adu| < h.aduLength {
      CutShort(h, adu, size);
    } else {
      forall full: seq<byte>, i | |full| == h.aduLength && Slice(h, adu, full) && 0 <= i < Tiles(|adu|, size)
        ensures RightlyPlaced(h, adu, size, full, i)
      {
        AtTheFront(h, adu, size, full, i);
      }
    }
  }
}
