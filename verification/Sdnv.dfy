/**
 Self-delimiting numeric values (bp/model/sdnv.cc): seven bits an octet, most
 significant first, every octet but the last with its high bit set
 (section 4.1 of RFC 5050, section 3 of RFC 6256).
 */
module Sdnv {
  import opened Arithmetic
  import opened Bytes
  import opened Buffers

  // ---------------------------------------------------------------- meaning

  /** The octets before the last one. */
  function EncodeHigh(v: nat): seq<byte>
  {
    if v == 0 then [] else EncodeHigh(v / 128) + [128 + v % 128]
  }

  function Encoding(v: nat): (s: seq<byte>)
  {
    EncodeHigh(v / 128) + [v % 128]
  }

  /** Reads one number off the front of `s`, continuing from `acc`, in 64-bit
      arithmetic. `None` when `s` ends before an octet with the high bit clear. */
  function ParseFrom(acc: nat, s: seq<byte>): Option<(nat, seq<byte>)>
    decreases |s|
  {
    if s == [] then None
    else
      var v := (acc * 128 + s[0] % 128) % TWO64;
      if s[0] < 128 then Some((v, s[1..])) else ParseFrom(v, s[1..])
  }

  function Parse(s: seq<byte>): (r: Option<(nat, seq<byte>)>)
  {
    ParseFrom(0, s)
  }

  /** A word that is exactly one number: only the last octet ends it. */
  predicate OneNumber(w: seq<byte>)
  {
    |w| > 0 && w[|w| - 1] < 128 && forall i :: 0 <= i < |w| - 1 ==> w[i] >= 128
  }

  /** The number a word stands for, in unbounded arithmetic. */
  function Value(w: seq<byte>): nat
  {
    if w == [] then 0 else Value(w[..|w| - 1]) * 128 + w[|w| - 1] % 128
  }

  function Pow128(n: nat): (p: nat)
    ensures p >= 1
  {
    if n == 0 then 1 else 128 * Pow128(n - 1)
  }

  // ----------------------------------------------------------- the inverse

  lemma ParseOne(acc: nat, b: byte, rest: seq<byte>)
    ensures ParseFrom(acc, [b] + rest) ==
            var v := (acc * 128 + b % 128) % TWO64;
            if b < 128 then Some((v, rest)) else ParseFrom(v, rest)
  {
    assert ([b] + rest)[0] == b && ([b] + rest)[1..] == rest;
  }

  /** One octet at a time, while nothing is shifted out at the top. */
  lemma ParseStep(acc: nat, b: byte, rest: seq<byte>)
    requires acc * 128 + b % 128 < TWO64
    ensures ParseFrom(acc, [b] + rest) ==
            if b < 128 then Some((acc * 128 + b % 128, rest)) else ParseFrom(acc * 128 + b % 128, rest)
  {
    ParseOne(acc, b, rest);
  }

  lemma {:induction false} ParseHigh(v: nat, rest: seq<byte>)
    requires v < TWO64
    ensures ParseFrom(0, EncodeHigh(v) + rest) == ParseFrom(v, rest)
  {
    if v == 0 {
      assert EncodeHigh(v) + rest == rest;
    } else {
      var last := 128 + v % 128;
      AppendAssoc(EncodeHigh(v / 128), [last], rest);
      ParseHigh(v / 128, [last] + rest);
      LowSeven(v);
      ParseStep(v / 128, last, rest);
    }
  }

  lemma LowSeven(v: nat)
    ensures (128 + v % 128) % 128 == v % 128 && v / 128 * 128 + v % 128 == v
  {
  }

  /** Inverse and self-delimiting: whatever follows, decoding an encoding gives
      the number back and consumes exactly the encoding. */
  lemma RoundTrip(v: nat, suffix: seq<byte>)
    requires v < TWO64
    ensures Parse(Encoding(v) + suffix) == Some((v, suffix))
  {
    var last := v % 128;
    assert Encoding(v) + suffix == EncodeHigh(v / 128) + ([last] + suffix);
    ParseHigh(v / 128, [last] + suffix);
    ParseStep(v / 128, last, suffix);
  }

  // -------------------------------------------------------------- minimality

  lemma {:induction false} HighLength(v: nat, n: nat)
    ensures |EncodeHigh(v)| <= n <==> v < Pow128(n)
  {
    if v != 0 && n != 0 {
      HighLength(v / 128, n - 1);
    } else if v != 0 {
      assert |EncodeHigh(v)| > 0;
    }
  }

  /** The length is the least one that can hold the number: `n` octets suffice
      exactly when the number has at most 7n bits. */
  lemma LengthIsMinimal(v: nat, n: nat)
    requires n > 0
    ensures |Encoding(v)| <= n <==> v < Pow128(n)
  {
    HighLength(v / 128, n - 1);
  }

  /** A 64-bit number never takes more than ten octets. */
  lemma AtMostTen(v: nat)
    requires v < TWO64
    ensures 1 <= |Encoding(v)| <= 10
  {
    assert Pow128(10) == 128 * Pow128(9) == 128 * 128 * Pow128(8);
    assert Pow128(8) == 128 * 128 * 128 * 128 * Pow128(4);
    assert Pow128(4) == 128 * 128 * 128 * 128;
    LengthIsMinimal(v, 10);
  }

  /** A 32-bit number takes at most five. */
  lemma AtMostFive(v: nat)
    requires v < TWO32
    ensures 1 <= |Encoding(v)| <= 5
  {
    assert Pow128(5) == 128 * 128 * 128 * Pow128(2);
    assert Pow128(2) == 128 * 128;
    LengthIsMinimal(v, 5);
  }

  lemma ValueSplits(w: seq<byte>)
    requires w != []
    ensures Value(w) / 128 == Value(w[..|w| - 1]) && Value(w) % 128 == w[|w| - 1] % 128
  {
  }

  lemma {:induction false} HighOfValue(w: seq<byte>)
    requires forall i :: 0 <= i < |w| ==> w[i] >= 128
    ensures EncodeHigh(Value(w)) == w <==> w == [] || w[0] != 128
    ensures w != [] && w[0] != 128 ==> Value(w) > 0
  {
    if w != [] {
      var init, last := w[..|w| - 1], w[|w| - 1];
      HighOfValue(init);
      ValueSplits(w);
      assert w == init + [last];
      SameInit(EncodeHigh(Value(init)), init, last);
      if Value(w) > 0 {
        HighSplits(w);
      }
    }
  }

  lemma SameInit(a: seq<byte>, b: seq<byte>, x: byte)
    ensures a + [x] == b + [x] <==> a == b
  {
    assert (a + [x])[..|a|] == a && (b + [x])[..|b|] == b;
  }

  lemma HighSplits(w: seq<byte>)
    requires w != [] && w[|w| - 1] >= 128 && Value(w) > 0
    ensures EncodeHigh(Value(w)) == EncodeHigh(Value(w[..|w| - 1])) + [w[|w| - 1]]
  {
    ValueSplits(w);
    HighStep(Value(w), Value(w[..|w| - 1]), w[|w| - 1]);
  }

  lemma HighStep(v: nat, q: nat, last: byte)
    requires v > 0 && v / 128 == q && v % 128 == last % 128 && last >= 128
    ensures EncodeHigh(v) == EncodeHigh(q) + [last]
  {
    LowBits(last);
  }

  lemma LowBits(b: byte)
    requires b >= 128
    ensures 128 + b % 128 == b
  {
  }

  lemma EncodingSplits(w: seq<byte>)
    requires w != [] && w[|w| - 1] < 128
    ensures Encoding(Value(w)) == EncodeHigh(Value(w[..|w| - 1])) + [w[|w| - 1]]
  {
    ValueSplits(w);
    LastStep(Value(w), Value(w[..|w| - 1]), w[|w| - 1]);
  }

  lemma LastStep(v: nat, q: nat, last: byte)
    requires v / 128 == q && v % 128 == last % 128 && last < 128
    ensures Encoding(v) == EncodeHigh(q) + [last]
  {
  }

  /** Re-encoding what a word stands for gives the word back exactly when the
      word has no leading 0x80 octet, so each number has one canonical word. */
  lemma CanonicalWords(w: seq<byte>)
    requires OneNumber(w)
    ensures Encoding(Value(w)) == w <==> w[0] != 128
  {
    var init, last := w[..|w| - 1], w[|w| - 1];
    HighOfValue(init);
    assert w == init + [last];
    EncodingSplits(w);
    SameInit(EncodeHigh(Value(init)), init, last);
  }

  lemma ShiftMod(x: nat, d: nat)
    ensures ((x % TWO64) * 128 + d) % TWO64 == (x * 128 + d) % TWO64
  {
    var q, r := x / TWO64, x % TWO64;
    assert x * 128 + d == (128 * q) * TWO64 + (r * 128 + d);
    AddMultiple(128 * q, TWO64, r * 128 + d);
  }

  lemma {:induction false} ParseValueFrom(pre: seq<byte>, w: seq<byte>, suffix: seq<byte>)
    requires OneNumber(w)
    ensures ParseFrom(Value(pre) % TWO64, w + suffix) == Some((Value(pre + w) % TWO64, suffix))
    decreases |w|
  {
    var step := pre + [w[0]];
    assert step[..|step| - 1] == pre;
    ShiftMod(Value(pre), w[0] % 128);
    assert (w + suffix)[1..] == w[1..] + suffix;
    if |w| == 1 {
      assert w[1..] + suffix == suffix;
      assert pre + w == step;
    } else {
      ParseValueFrom(step, w[1..], suffix);
      assert step + w[1..] == pre + w;
    }
  }

  /** On any one-number word, canonical or not, decoding gives the value modulo
      2^64 and stops right behind the word. */
  lemma ParseIsValue(w: seq<byte>, suffix: seq<byte>)
    requires OneNumber(w)
    ensures Parse(w + suffix) == Some((Value(w) % TWO64, suffix))
  {
    ParseValueFrom([], w, suffix);
    assert [] + w == w;
  }

  lemma EncodingIsOneNumber(v: nat)
    ensures OneNumber(Encoding(v))
  {
    HighOctets(v / 128);
  }

  lemma {:induction false} HighOctets(v: nat)
    ensures forall i :: 0 <= i < |EncodeHigh(v)| ==> EncodeHigh(v)[i] >= 128
  {
    if v != 0 {
      HighOctets(v / 128);
    }
  }

  // ---------------------------------------------------- several in a row

  function Series(vs: seq<nat>): seq<byte>
  {
    if vs == [] then [] else Encoding(vs[0]) + Series(vs[1..])
  }

  function ParseSeries(n: nat, s: seq<byte>): Option<(seq<nat>, seq<byte>)>
  {
    if n == 0 then Some(([], s))
    else
      match Parse(s)
      case None => None
      case Some((v, rest)) =>
        match ParseSeries(n - 1, rest)
        case None => None
        case Some((vs, rest')) => Some(([v] + vs, rest'))
  }

  lemma {:induction false} SeriesRoundTrip(vs: seq<nat>, suffix: seq<byte>)
    requires forall i :: 0 <= i < |vs| ==> vs[i] < TWO64
    ensures ParseSeries(|vs|, Series(vs) + suffix) == Some((vs, suffix))
  {
    if vs == [] {
      assert Series(vs) + suffix == suffix;
    } else {
      assert Series(vs) + suffix == Encoding(vs[0]) + (Series(vs[1..]) + suffix);
      RoundTrip(vs[0], Series(vs[1..]) + suffix);
      SeriesRoundTrip(vs[1..], suffix);
      assert [vs[0]] + vs[1..] == vs;
    }
  }

  lemma {:induction false} ParsedBelow(acc: nat, s: seq<byte>)
    requires ParseFrom(acc, s).Some?
    ensures ParseFrom(acc, s).value.0 < TWO64
    decreases |s|
  {
    if s[0] >= 128 {
      ParsedBelow((acc * 128 + s[0] % 128) % TWO64, s[1..]);
    }
  }

  lemma {:induction false} ParsedRange(n: nat, s: seq<byte>)
    requires ParseSeries(n, s).Some?
    ensures forall v :: v in ParseSeries(n, s).value.0 ==> v < TWO64
  {
    if n > 0 {
      ParsedBelow(0, s);
      ParsedRange(n - 1, Parse(s).value.1);
    }
  }

  lemma {:induction false} ParsedLength(n: nat, s: seq<byte>)
    requires ParseSeries(n, s).Some?
    ensures |ParseSeries(n, s).value.0| == n
  {
    if n > 0 {
      ParsedLength(n - 1, Parse(s).value.1);
    }
  }

  lemma SeriesOfSix(a: nat, b: nat, c: nat, d: nat, e: nat, f: nat)
    ensures Series([a, b, c, d, e, f])
         == Encoding(a) + Encoding(b) + Encoding(c) + Encoding(d) + Encoding(e) + Encoding(f)
  {
    SeriesAppend([a, b, c, d, e], f);
    SeriesAppend([a, b, c, d], e);
    SeriesAppend([a, b, c], d);
    SeriesAppend([a, b], c);
    SeriesAppend([a], b);
    SeriesAppend([], a);
    assert [] + [a] == [a] && [a] + [b] == [a, b] && [a, b] + [c] == [a, b, c];
    assert [a, b, c] + [d] == [a, b, c, d] && [a, b, c, d] + [e] == [a, b, c, d, e];
    assert [a, b, c, d, e] + [f] == [a, b, c, d, e, f];
  }

  lemma {:induction false} SeriesAppend(vs: seq<nat>, v: nat)
    ensures Series(vs + [v]) == Series(vs) + Encoding(v)
  {
    if vs == [] {
      assert vs + [v] == [v];
    } else {
      assert (vs + [v])[1..] == vs[1..] + [v];
      SeriesAppend(vs[1..], v);
    }
  }

  // ------------------------------------------------------------ the program

  function Reversed<T>(s: seq<T>): (r: seq<T>)
    ensures |r| == |s|
    ensures forall i :: 0 <= i < |s| ==> r[i] == s[|s| - 1 - i]
  {
    if s == [] then [] else Reversed(s[1..]) + [s[0]]
  }

  lemma {:induction false} ReversedPrepend<T>(s: seq<T>, t: seq<T>)
    ensures Reversed(s + t) == Reversed(t) + Reversed(s)
  {
    if s == [] {
      assert s + t == t;
    } else {
      assert (s + t)[1..] == s[1..] + t;
      ReversedPrepend(s[1..], t);
    }
  }

  /** `Sdnv::Encode`: the octets are pushed least significant first and the
      vector is reversed at the end. */
  method Encode(val: nat) returns (data: seq<byte>)
    requires val < TWO64
    ensures data == Encoding(val)
  {
    data := [];
    if val == 0 {
      data := data + [0];
      assert data == Encoding(0);
      return;
    }
    var v := val;
    data := data + [v % 128];
    v := v / 128;
    while v != 0
      invariant EncodeHigh(v) + Reversed(data) == Encoding(val)
    {
      var encoded := 128 + v % 128;
      ReversedPrepend(data, [encoded]);
      data := data + [encoded];
      v := v / 128;
    }
    data := Reversed(data);
  }

  /** The octets `Decode` looks at: up to the first that ends a number, or all. */
  function Word(s: seq<byte>): seq<byte>
  {
    if s == [] then [] else if s[0] < 128 then [s[0]] else [s[0]] + Word(s[1..])
  }

  lemma {:induction false} WordIs(s: seq<byte>, i: nat)
    requires i <= |s| && (forall k :: 0 <= k < i ==> s[k] >= 128) && (i < |s| ==> s[i] < 128)
    ensures Word(s) == if i < |s| then s[..i + 1] else s
  {
    if i > 0 {
      WordIs(s[1..], i - 1);
      assert s == [s[0]] + s[1..];
    }
  }

  lemma ValueNext(s: seq<byte>, i: nat)
    requires i < |s|
    ensures (Value(s[..i]) % TWO64 * 128 + s[i] % 128) % TWO64 == Value(s[..i + 1]) % TWO64
  {
    assert s[..i + 1][..i] == s[..i];
    ShiftMod(Value(s[..i]), s[i] % 128);
  }

  lemma {:induction false} FirstEnd(s: seq<byte>, j: nat) returns (i: nat)
    requires j < |s| && s[j] < 128
    ensures i <= j && s[i] < 128 && forall k :: 0 <= k < i ==> s[k] >= 128
    decreases j
  {
    i := j;
    if k :| 0 <= k < j && s[k] < 128 {
      i := FirstEnd(s, k);
    }
  }

  lemma {:induction false} NothingEnds(acc: nat, s: seq<byte>)
    requires forall i :: 0 <= i < |s| ==> s[i] >= 128
    ensures ParseFrom(acc, s).None?
    decreases |s|
  {
    if s != [] {
      NothingEnds((acc * 128 + s[0] % 128) % TWO64, s[1..]);
    }
  }

  /** Where a number can be read off the front, it is what the word stands for. */
  lemma WordValue(s: seq<byte>)
    ensures Parse(s).Some? ==> Parse(s).value.0 == Value(Word(s)) % TWO64
    ensures OneNumber(s) ==> Word(s) == s
  {
    if j :| 0 <= j < |s| && s[j] < 128 {
      var i := FirstEnd(s, j);
      WordIs(s, i);
      assert OneNumber(s[..i + 1]) && s == s[..i + 1] + s[i + 1..];
      ParseIsValue(s[..i + 1], s[i + 1..]);
    } else {
      NothingEnds(0, s);
    }
  }

  /** `Sdnv::Decode` on a vector: stops at the first octet whose high bit is
      clear, or at the end of the vector. */
  method DecodeVector(val: seq<byte>) returns (decoded: nat)
    ensures decoded == Value(Word(val)) % TWO64
  {
    decoded := 0;
    var i := 0;
    while i < |val|
      invariant 0 <= i <= |val| && forall k :: 0 <= k < i ==> val[k] >= 128
      invariant decoded == Value(val[..i]) % TWO64
    {
      ValueNext(val, i);
      decoded := (decoded * 128 + val[i] % 128) % TWO64;
      if val[i] < 128 {
        WordIs(val, i);
        return;
      }
      i := i + 1;
    }
    WordIs(val, i);
    assert val[..i] == val;
  }

  predicate IsLast(val: byte)
  {
    val < 128
  }

  /** The number read so far takes one more octet. */
  lemma OneMoreOctet(vec: seq<byte>, val: byte, rest: seq<byte>)
    ensures ParseFrom(Value(vec) % TWO64, [val] + rest) ==
            if val < 128 then Some((Value(vec + [val]) % TWO64, rest))
            else ParseFrom(Value(vec + [val]) % TWO64, rest)
  {
    ParseOne(Value(vec) % TWO64, val, rest);
    ShiftMod(Value(vec), val % 128);
    assert (vec + [val])[..|vec|] == vec;
  }

  /** `Sdnv::Decode` on a buffer iterator: collects octets up to and including
      the first with its high bit clear, then decodes the collected vector. */
  method DecodeIterator(start: Iterator) returns (decoded: nat)
    requires start.Valid() && Parse(start.Rest()).Some?
    modifies start`pos
    ensures start.Valid() && start.pos >= old(start.pos)
    ensures Parse(old(start.Rest())) == Some((decoded, start.Rest()))
  {
    var vec: seq<byte> := [];
    ghost var all := start.Rest();
    while true
      invariant start.Valid() && start.pos >= old(start.pos)
      invariant forall k :: 0 <= k < |vec| ==> vec[k] >= 128
      invariant ParseFrom(0, all) == ParseFrom(Value(vec) % TWO64, start.Rest())
      decreases |start.Rest()|
    {
      ghost var rest := start.Rest();
      var val := start.ReadU8();
      assert rest == [val] + start.Rest();
      OneMoreOctet(vec, val, start.Rest());
      vec := vec + [val];
      if IsLast(val) {
        break;
      }
    }
    decoded := DecodeVector(vec);
    assert OneNumber(vec);
    WordValue(vec);
  }

  /** `n` decoding calls in a row. */
  method DecodeSeries(start: Iterator, n: nat) returns (vs: seq<nat>)
    requires start.Valid() && ParseSeries(n, start.Rest()).Some?
    modifies start`pos
    ensures start.Valid() && start.pos >= old(start.pos)
    ensures ParseSeries(n, old(start.Rest())) == Some((vs, start.Rest()))
    ensures |vs| == n
  {
    vs := [];
    ghost var all := start.Rest();
    ghost var todo := ParseSeries(n, all).value.0;
    ParsedLength(n, all);
    while |vs| < n
      invariant start.Valid() && start.pos >= old(start.pos) && |vs| <= n == |todo|
      invariant ParseSeries(n - |vs|, start.Rest()).Some?
      invariant vs + ParseSeries(n - |vs|, start.Rest()).value.0 == todo
      invariant ParseSeries(n - |vs|, start.Rest()).value.1 == ParseSeries(n, all).value.1
    {
      var v := DecodeIterator(start);
      vs := vs + [v];
    }
    assert vs + [] == vs;
  }

  /** `temp = Encode (v); length += temp.size (); if (forReal) write temp`, for each
      number in turn. */
  method WriteSeries(start: Iterator, vs: seq<nat>, forReal: bool) returns (length: nat)
    requires start.Valid() && forall i :: 0 <= i < |vs| ==> vs[i] < TWO64
    requires forReal ==> start.pos + |Series(vs)| <= start.data.Length
    modifies start`pos, start.data
    ensures start.Valid() && length == |Series(vs)|
    ensures forReal ==> Wrote(old(start.data[..]), old(start.pos), start.data[..], start.pos, Series(vs))
    ensures !forReal ==> start.pos == old(start.pos) && start.data[..] == old(start.data[..])
  {
    length := 0;
    var i := 0;
    while i < |vs|
      invariant 0 <= i <= |vs| && start.Valid() && length == |Series(vs[..i])|
      invariant length + |Series(vs[i..])| == |Series(vs)|
      invariant forReal ==> Wrote(old(start.data[..]), old(start.pos), start.data[..], start.pos, Series(vs[..i]))
      invariant !forReal ==> start.pos == old(start.pos) && start.data[..] == old(start.data[..])
    {
      var temp := Encode(vs[i]);
      SeriesAppend(vs[..i], vs[i]);
      assert vs[..i + 1] == vs[..i] + [vs[i]];
      assert vs[i..][0] == vs[i] && vs[i..][1..] == vs[i + 1..];
      length := length + |temp|;
      if forReal {
        ghost var d, p := start.data[..], start.pos;
        start.WriteAll(temp);
        WroteMore(old(start.data[..]), old(start.pos), d, p, start.data[..], start.pos, Series(vs[..i]), temp);
      }
      i := i + 1;
    }
    assert vs[..i] == vs;
  }
}
