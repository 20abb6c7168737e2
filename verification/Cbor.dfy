/**
 CBOR heads and the items built from them (bp/model/codec.h; section 3 of RFC
 8949): a major type and a number, the number in the head octet itself if it is
 below 24 and otherwise in 1, 2, 4 or 8 octets behind it, most significant first.

 An exception of the program is `None`. So is a decoding into a type narrower
 than 64 bits that would shift an octet past the type, which C++ does not define.
 */
module Cbor {
  import opened Arithmetic
  import opened Bytes

  // ------------------------------------------------------------------ numbers

  /** The low `n` octets of `v`, most significant first. */
  function BigEndian(v: nat, n: nat): (s: seq<byte>)
    ensures |s| == n
  {
    if n == 0 then [] else BigEndian(v / 256, n - 1) + [v % 256]
  }

  function Number(s: seq<byte>): nat
  {
    if s == [] then 0 else Number(s[..|s| - 1]) * 256 + s[|s| - 1]
  }

  function Pow256(n: nat): (p: nat)
    ensures p >= 1
  {
    if n == 0 then 1 else 256 * Pow256(n - 1)
  }

  lemma {:induction false} NumberOfBigEndian(v: nat, n: nat)
    requires v < Pow256(n)
    ensures Number(BigEndian(v, n)) == v
  {
    if n > 0 {
      NumberOfBigEndian(v / 256, n - 1);
    }
  }

  lemma {:induction false} BigEndianOfNumber(s: seq<byte>)
    ensures Number(s) < Pow256(|s|)
    ensures BigEndian(Number(s), |s|) == s
  {
    if s != [] {
      var init, last := s[..|s| - 1], s[|s| - 1];
      BigEndianOfNumber(init);
      var v := Number(s);
      assert v / 256 == Number(init) && v % 256 == last;
      assert s == init + [last];
    }
  }

  lemma Powers()
    ensures Pow256(1) == TWO8 && Pow256(2) == TWO16 && Pow256(4) == TWO32 && Pow256(8) == TWO64
  {
    assert Pow256(2) == 256 * Pow256(1) && Pow256(3) == 256 * Pow256(2) && Pow256(4) == 256 * Pow256(3);
    assert Pow256(5) == 256 * Pow256(4) && Pow256(6) == 256 * Pow256(5) && Pow256(7) == 256 * Pow256(6);
  }

  // -------------------------------------------------------------------- heads

  const UNSIGNED: byte := 0
  const NEGATIVE: byte := 32
  const BYTE_STRING: byte := 64
  const ARRAY: byte := 128

  predicate IsMajor(tag: byte)
  {
    tag % 32 == 0
  }

  /** How many octets a number takes behind its head. */
  function LengthOf(v: nat): (n: nat)
    ensures n == 0 || n == 1 || n == 2 || n == 4 || n == 8
  {
    if v < 24 then 0 else if v < TWO8 then 1 else if v < TWO16 then 2 else if v < TWO32 then 4 else 8
  }

  function Additional(n: nat): byte
    requires n == 1 || n == 2 || n == 4 || n == 8
  {
    if n == 1 then 24 else if n == 2 then 25 else if n == 4 then 26 else 27
  }

  function Head(tag: byte, v: nat): (s: seq<byte>)
    requires IsMajor(tag) && v < TWO64
    ensures |s| == 1 + LengthOf(v)
  {
    var n := LengthOf(v);
    if n == 0 then [tag + v] else [tag + Additional(n)] + BigEndian(v, n)
  }

  datatype Item = Item(tag: byte, value: nat, rest: seq<byte>)

  /** The octets behind a head octet with these low five bits; 0 if the number is
      in the head octet, `None` for the reserved values. */
  function Follow(additional: nat): Option<nat>
  {
    if additional < 24 then Some(0)
    else if additional == 24 then Some(1) else if additional == 25 then Some(2)
    else if additional == 26 then Some(4) else if additional == 27 then Some(8) else None
  }

  /** The least number that needs `n` octets. */
  function Least(n: nat): nat
    requires n == 1 || n == 2 || n == 4 || n == 8
  {
    if n == 1 then 24 else if n == 2 then TWO8 else if n == 4 then TWO16 else TWO32
  }

  predicate Width(width: nat)
  {
    width == 1 || width == 2 || width == 4 || width == 8
  }

  /** `decodeTagAndValue` into an unsigned type of `width` octets. */
  function ParseHead(s: seq<byte>, width: nat, strict: bool): (r: Option<Item>)
    requires Width(width) && (strict ==> width == 8)
    ensures r.Some? ==> IsMajor(r.value.tag) && |r.value.rest| < |s|
  {
    if s == [] then None
    else
      var additional := s[0] % 32;
      var tag := s[0] - additional;
      match Follow(additional)
      case None => None
      case Some(n) =>
        if n == 0 then Some(Item(tag, additional, s[1..]))
        else if |s| - 1 < n || (n == 8 && width < 8) then None
        else
          var v := Number(s[1..1 + n]);
          if strict && v < Least(n) then None
          else Some(Item(tag, v % Pow256(width), s[1 + n..]))
  }

  lemma LengthFits(v: nat)
    requires 24 <= v < TWO64
    ensures v < Pow256(LengthOf(v)) && v >= Least(LengthOf(v))
    ensures Follow(Additional(LengthOf(v))) == Some(LengthOf(v))
  {
    Powers();
  }

  /** Reading a head octet, the octets it announces, and more behind them. */
  lemma LongHeadParses(tag: byte, n: nat, digits: seq<byte>, suffix: seq<byte>, width: nat, strict: bool)
    requires IsMajor(tag) && Width(width) && (strict ==> width == 8) && |digits| == n && Width(n) && n <= width
    ensures ParseHead([tag + Additional(n)] + digits + suffix, width, strict) ==
              if strict && Number(digits) < Least(n) then None
              else Some(Item(tag, Number(digits) % Pow256(width), suffix))
  {
    var s := [tag + Additional(n)] + digits + suffix;
    TagOf(tag, Additional(n));
    assert s[0] == tag + Additional(n);
    assert s[1..1 + n] == digits && s[1 + n..] == suffix;
  }

  lemma LongHeadRoundTrip(tag: byte, v: nat, width: nat, strict: bool, suffix: seq<byte>)
    requires IsMajor(tag) && Width(width) && (strict ==> width == 8) && 24 <= v < Pow256(width) && v < TWO64
    ensures ParseHead(Head(tag, v) + suffix, width, strict) == Some(Item(tag, v, suffix))
  {
    var n := LengthOf(v);
    LengthFits(v);
    NarrowLength(v, width);
    NumberOfBigEndian(v, n);
    Small(v, Pow256(width));
    LongHeadParses(tag, n, BigEndian(v, n), suffix, width, strict);
  }

  lemma TagOf(tag: byte, additional: nat)
    requires IsMajor(tag) && additional < 32
    ensures (tag + additional) % 32 == additional
  {
  }

  /** The decoder, strict or not and into any type that holds the number, undoes
      the encoder whatever follows, and stops right behind the head. */
  lemma HeadRoundTrip(tag: byte, v: nat, width: nat, strict: bool, suffix: seq<byte>)
    requires IsMajor(tag) && Width(width) && (strict ==> width == 8) && v < Pow256(width) && v < TWO64
    ensures ParseHead(Head(tag, v) + suffix, width, strict) == Some(Item(tag, v, suffix))
  {
    if v < 24 {
      TagOf(tag, v);
      assert (Head(tag, v) + suffix)[1..] == suffix;
    } else {
      LongHeadRoundTrip(tag, v, width, strict, suffix);
    }
  }

  lemma NarrowLength(v: nat, width: nat)
    requires Width(width) && v < Pow256(width)
    ensures LengthOf(v) <= width
  {
    Powers();
  }

  lemma LengthIsLeast(v: nat, n: nat)
    requires n == 1 || n == 2 || n == 4 || n == 8
    requires Least(n) <= v < Pow256(n)
    ensures LengthOf(v) == n
  {
    Powers();
  }

  /** The strict 64-bit decoder accepts exactly the encoder's image: it takes `s`
      apart into a head and a rest if and only if `s` is the encoding of that head
      followed by that rest. */
  lemma StrictIsImage(s: seq<byte>, tag: byte, v: nat, rest: seq<byte>)
    ensures ParseHead(s, 8, true) == Some(Item(tag, v, rest))
       <==> IsMajor(tag) && v < TWO64 && s == Head(tag, v) + rest
  {
    Powers();
    if IsMajor(tag) && v < TWO64 && s == Head(tag, v) + rest {
      HeadRoundTrip(tag, v, 8, true, rest);
    }
    if ParseHead(s, 8, true) == Some(Item(tag, v, rest)) {
      StrictIsHead(s, tag, v, rest);
    }
  }

  lemma CutHead(s: seq<byte>, n: nat)
    requires n < |s|
    ensures s == [s[0]] + s[1..1 + n] + s[1 + n..]
  {
  }

  lemma StrictIsHead(s: seq<byte>, tag: byte, v: nat, rest: seq<byte>)
    requires ParseHead(s, 8, true) == Some(Item(tag, v, rest))
    ensures IsMajor(tag) && v < TWO64 && s == Head(tag, v) + rest
  {
    var additional := s[0] % 32;
    var n := Follow(additional).value;
    CutHead(s, n);
    if n == 0 {
      assert s[1..1] == [];
    } else {
      var digits := s[1..1 + n];
      BigEndianOfNumber(digits);
      Powers();
      assert Number(digits) < Pow256(n) <= Pow256(8);
      Small(Number(digits), Pow256(8));
      LengthIsLeast(v, n);
      assert additional == Additional(n);
    }
  }

  /** What the strict decoder accepts the lenient one reads the same way. */
  lemma LenientAgrees(s: seq<byte>)
    ensures ParseHead(s, 8, true).Some? ==> ParseHead(s, 8, false) == ParseHead(s, 8, true)
  {
  }

  // ------------------------------------------------------------------- items

  function ParseTagged(s: seq<byte>, tag: byte, width: nat): Option<(nat, seq<byte>)>
    requires Width(width)
  {
    match ParseHead(s, width, false)
    case None => None
    case Some(item) => if item.tag == tag then Some((item.value, item.rest)) else None
  }

  /** `decodeUnsigned` into a type of `width` octets. */
  function ParseUnsigned(s: seq<byte>, width: nat): Option<(nat, seq<byte>)>
    requires Width(width)
  {
    ParseTagged(s, UNSIGNED, width)
  }

  function ParseArraySize(s: seq<byte>): Option<(nat, seq<byte>)>
  {
    ParseTagged(s, ARRAY, 8)
  }

  function ByteString(b: seq<byte>): seq<byte>
    requires |b| < TWO64
  {
    Head(BYTE_STRING, |b|) + b
  }

  function ParseBytes(s: seq<byte>): Option<(seq<byte>, seq<byte>)>
  {
    match ParseTagged(s, BYTE_STRING, 8)
    case None => None
    case Some((n, rest)) => if n > |rest| then None else Some((rest[..n], rest[n..]))
  }

  /** `encodeInteger`: negative numbers count down from -1. */
  function Integer(i: int): seq<byte>
    requires -(TWO64 as int) <= i < TWO64
  {
    if i >= 0 then Head(UNSIGNED, i) else Head(NEGATIVE, -i - 1)
  }

  /** `v` converted to a signed type of `width` octets. */
  function Signed(v: int, width: nat): int
    requires Width(width)
  {
    var m := Pow256(width);
    if v % m < m / 2 then v % m else v % m - m
  }

  /** The signed type of `width` octets can hold `i`. */
  predicate FitsSigned(i: int, width: nat)
    requires Width(width)
  {
    -(Pow256(width) / 2) <= i < Pow256(width) / 2
  }

  /** `decodeInteger` into a signed type of `width` octets. A number read is
      converted to that type, a negative one to 64 bits first. */
  function ParseInteger(s: seq<byte>, width: nat): Option<(int, seq<byte>)>
    requires Width(width)
  {
    match ParseHead(s, 8, false)
    case None => None
    case Some(item) =>
      if item.tag == UNSIGNED then Some((Signed(item.value, width), item.rest))
      else if item.tag == NEGATIVE then Some((Signed(-1 - Signed(item.value, 8), width), item.rest))
      else None
  }

  lemma UnsignedRoundTrip(v: nat, width: nat, suffix: seq<byte>)
    requires Width(width) && v < Pow256(width) && v < TWO64
    ensures ParseUnsigned(Head(UNSIGNED, v) + suffix, width) == Some((v, suffix))
  {
    HeadRoundTrip(UNSIGNED, v, width, false, suffix);
  }

  lemma ArraySizeRoundTrip(v: nat, suffix: seq<byte>)
    requires v < TWO64
    ensures ParseArraySize(Head(ARRAY, v) + suffix) == Some((v, suffix))
  {
    Powers();
    HeadRoundTrip(ARRAY, v, 8, false, suffix);
  }

  lemma BytesRoundTrip(b: seq<byte>, suffix: seq<byte>)
    requires |b| < TWO64
    ensures ParseBytes(ByteString(b) + suffix) == Some((b, suffix))
  {
    Powers();
    HeadRoundTrip(BYTE_STRING, |b|, 8, false, b + suffix);
    assert ByteString(b) + suffix == Head(BYTE_STRING, |b|) + (b + suffix);
  }

  /** What `decodeInteger` makes of an encoded number; below -2^63 the two
      conversions give a number that is not negative. */
  lemma IntegerDecodes(i: int, width: nat, suffix: seq<byte>)
    requires Width(width) && -(TWO64 as int) <= i < TWO64
    ensures ParseInteger(Integer(i) + suffix, width)
         == Some((Signed(if i < -(TWO64 / 2) then TWO64 + i else i, width), suffix))
  {
    Powers();
    HeadRoundTrip(if i >= 0 then UNSIGNED else NEGATIVE, if i >= 0 then i else -i - 1, 8, false, suffix);
  }

  lemma SignedRange(v: int, width: nat)
    requires Width(width)
    ensures FitsSigned(Signed(v, width), width) && (FitsSigned(v, width) ==> Signed(v, width) == v)
  {
    Powers();
    if width == 1 {} else if width == 2 {} else if width == 4 {} else {}
  }

  /** `decodeInteger` undoes `encodeInteger` exactly for the numbers the type it
      decodes into can hold. */
  lemma IntegerRoundTrip(i: int, width: nat, suffix: seq<byte>)
    requires Width(width) && -(TWO64 as int) <= i < TWO64
    ensures ParseInteger(Integer(i) + suffix, width) == Some((i, suffix)) <==> FitsSigned(i, width)
  {
    Powers();
    IntegerDecodes(i, width, suffix);
    SignedRange(if i < -(TWO64 / 2) then TWO64 + i else i, width);
  }

  // ---------------------------------------------------- several numbers in a row

  function Unsigneds(vs: seq<nat>): seq<byte>
    requires forall i :: 0 <= i < |vs| ==> vs[i] < TWO64
  {
    if vs == [] then [] else Head(UNSIGNED, vs[0]) + Unsigneds(vs[1..])
  }

  predicate Widths(widths: seq<nat>)
  {
    forall w :: w in widths ==> Width(w)
  }

  function ParseUnsigneds(widths: seq<nat>, s: seq<byte>): (r: Option<(seq<nat>, seq<byte>)>)
    requires Widths(widths)
    ensures r.Some? ==> |r.value.0| == |widths|
  {
    if widths == [] then Some(([], s))
    else
      match ParseUnsigned(s, widths[0])
      case None => None
      case Some((v, rest)) =>
        match ParseUnsigneds(widths[1..], rest)
        case None => None
        case Some((vs, rest')) => Some(([v] + vs, rest'))
  }

  predicate Fit(vs: seq<nat>, widths: seq<nat>)
  {
    |vs| == |widths| && Widths(widths) && forall i :: 0 <= i < |vs| ==> vs[i] < Pow256(widths[i]) && vs[i] < TWO64
  }

  lemma {:induction false} UnsignedsRoundTrip(vs: seq<nat>, widths: seq<nat>, suffix: seq<byte>)
    requires Fit(vs, widths)
    ensures ParseUnsigneds(widths, Unsigneds(vs) + suffix) == Some((vs, suffix))
  {
    if vs == [] {
      assert Unsigneds(vs) + suffix == suffix;
    } else {
      var v, rest := vs[0], vs[1..];
      assert Fit(rest, widths[1..]);
      UnsignedsRoundTrip(rest, widths[1..], suffix);
      assert Unsigneds(vs) + suffix == Head(UNSIGNED, v) + (Unsigneds(rest) + suffix);
      UnsignedRoundTrip(v, widths[0], Unsigneds(rest) + suffix);
      assert vs == [v] + rest;
    }
  }

  // ---------------------------------------------------------------- consumption

  /** `rest` is what is left of `s` after some octets at its front. */
  predicate LeftOf(rest: seq<byte>, s: seq<byte>)
  {
    |rest| <= |s| && rest == s[|s| - |rest|..]
  }

  lemma LeftTwice(c: seq<byte>, b: seq<byte>, a: seq<byte>)
    requires LeftOf(c, b) && LeftOf(b, a)
    ensures LeftOf(c, a)
  {
  }

  lemma HeadLeaves(s: seq<byte>, width: nat)
    requires Width(width) && ParseHead(s, width, false).Some?
    ensures LeftOf(ParseHead(s, width, false).value.rest, s)
  {
  }

  lemma BytesLeave(s: seq<byte>)
    requires ParseBytes(s).Some?
    ensures LeftOf(ParseBytes(s).value.1, s)
  {
    var rest := ParseTagged(s, BYTE_STRING, 8).value.1;
    HeadLeaves(s, 8);
    assert LeftOf(ParseBytes(s).value.1, rest);
    LeftTwice(ParseBytes(s).value.1, rest, s);
  }

  lemma {:induction false} UnsignedsLeave(widths: seq<nat>, s: seq<byte>)
    requires Widths(widths) && ParseUnsigneds(widths, s).Some?
    ensures LeftOf(ParseUnsigneds(widths, s).value.1, s)
    decreases |widths|
  {
    if widths != [] {
      assert widths[0] in widths && forall w :: w in widths[1..] ==> w in widths;
      var rest := ParseUnsigned(s, widths[0]).value.1;
      HeadLeaves(s, widths[0]);
      UnsignedsLeave(widths[1..], rest);
      LeftTwice(ParseUnsigneds(widths[1..], rest).value.1, rest, s);
    }
  }

  // --------------------------------------------------------------- the program

  /** The vector the encoders push octets onto. */
  class ByteVector {
    var bytes: seq<byte>

    constructor ()
      ensures bytes == []
    {
      bytes := [];
    }

    method PushBack(b: byte)
      modifies this
      ensures bytes == old(bytes) + [b]
    {
      bytes := bytes + [b];
    }

    method Insert(s: seq<byte>)
      modifies this
      ensures bytes == old(bytes) + s
    {
      bytes := bytes + s;
    }
  }

  /** The pair of iterators the decoders advance: what lies between them. */
  class Cursor {
    var rest: seq<byte>

    constructor (all: seq<byte>)
      ensures rest == all
    {
      rest := all;
    }

    method Next() returns (b: byte)
      requires rest != []
      modifies this
      ensures b == old(rest)[0] && rest == old(rest)[1..]
    {
      b := rest[0];
      rest := rest[1..];
    }
  }

  /** `length`: widths 1, 2, 4 below the type's own are tried in turn. */
  method Length(val: nat, width: nat) returns (len: nat)
    requires Width(width) && val < Pow256(width)
    ensures len == LengthOf(val)
  {
    if val < 24 {
      return 0;
    }
    Powers();
    var i := 1;
    while i <= width / 2
      invariant i == 1 || i == 2 || i == 4 || i == 8
      invariant i <= width && (i > 1 ==> val >= Pow256(i / 2))
    {
      if val / Pow256(i) == 0 {
        return i;
      }
      i := i * 2;
    }
    return width;
  }

  lemma BigEndianStep(v: nat, n: nat)
    requires n > 0
    ensures BigEndian(v, n) == BigEndian(v / 256, n - 1) + [v % 256]
  {
  }

  lemma OneOctet(v: nat)
    ensures BigEndian(v, 1) == [v % 256]
  {
    assert BigEndian(v / 256, 0) == [];
  }

  lemma TwoOctets(v: nat)
    ensures BigEndian(v, 2) == [v / 256 % 256, v % 256]
  {
    OneOctet(v / 256);
  }

  lemma FourOctets(v: nat)
    ensures BigEndian(v, 4) == [v / 0x100_0000 % 256, v / TWO16 % 256, v / 256 % 256, v % 256]
  {
    BigEndianStep(v, 4);
    BigEndianStep(v / 256, 3);
    TwoOctets(v / TWO16);
    assert v / 256 / 256 == v / TWO16 && v / TWO16 / 256 == v / 0x100_0000;
  }

  lemma EightOctets(v: nat)
    ensures BigEndian(v, 8) == BigEndian(v / TWO32, 4) + BigEndian(v, 4)
  {
    BigEndianStep(v, 8);
    BigEndianStep(v / 256, 7);
    BigEndianStep(v / 256 / 256, 6);
    BigEndianStep(v / 256 / 256 / 256, 5);
    FourOctets(v);
    assert v / 256 / 256 == v / TWO16 && v / TWO16 / 256 == v / 0x100_0000 && v / 0x100_0000 / 256 == v / TWO32;
  }

  /** What the cases of the second switch push, from the case of `len` on. */
  lemma Fallthrough(t: nat, len: nat)
    requires Width(len)
    ensures BigEndian(t, len) ==
              (if len == 8 then BigEndian(t / TWO32, 4) else [])
              + (if len >= 4 then [t / 0x100_0000 % 256, t / TWO16 % 256] else [])
              + (if len >= 2 then [t / 256 % 256] else [])
              + [t % 256]
  {
    OneOctet(t);
    TwoOctets(t);
    if len >= 4 {
      FourOctets(t);
    }
    if len == 8 {
      EightOctets(t);
    }
  }

  /** The second switch of `encodeTagAndValue`: its cases fall through from the
      widest length to the narrowest. */
  method PushNumber(buffer: ByteVector, t: nat, len: nat)
    requires Width(len)
    modifies buffer
    ensures buffer.bytes == old(buffer.bytes) + BigEndian(t, len)
  {
    Fallthrough(t, len);
    if len == 8 {
      var high := t / TWO32;
      FourOctets(high);
      buffer.PushBack(high / 0x100_0000 % 256);
      buffer.PushBack(high / TWO16 % 256);
      buffer.PushBack(high / 256 % 256);
      buffer.PushBack(high % 256);
    }
    ghost var front := if len == 8 then BigEndian(t / TWO32, 4) else [];
    assert buffer.bytes == old(buffer.bytes) + front;
    if len >= 4 {
      buffer.PushBack(t / 0x100_0000 % 256);
      buffer.PushBack(t / TWO16 % 256);
    }
    ghost var middle := front + if len >= 4 then [t / 0x100_0000 % 256, t / TWO16 % 256] else [];
    assert buffer.bytes == old(buffer.bytes) + middle;
    if len >= 2 {
      buffer.PushBack(t / 256 % 256);
    }
    assert buffer.bytes == old(buffer.bytes) + (middle + if len >= 2 then [t / 256 % 256] else []);
    buffer.PushBack(t % 256);
  }

  /** `encodeTagAndValue`. */
  method EncodeTagAndValue(buffer: ByteVector, tag: byte, t: nat, width: nat) returns (size: nat)
    requires IsMajor(tag) && Width(width) && t < Pow256(width) && t < TWO64
    modifies buffer
    ensures buffer.bytes == old(buffer.bytes) + Head(tag, t) && size == |Head(tag, t)|
  {
    var len := Length(t, width);
    if len == 0 {
      buffer.PushBack(tag + t);
      return 1;
    }
    buffer.PushBack(tag + if len == 8 then 27 else if len == 4 then 26 else if len == 2 then 25 else 24);
    PushNumber(buffer, t, len);
    return 1 + len;
  }

  // ---------------------------------------------------------------- decoding

  lemma {:induction false} NumberSplit(a: seq<byte>, b: seq<byte>)
    ensures Number(a + b) == Number(a) * Pow256(|b|) + Number(b)
  {
    if b == [] {
      assert a + b == a;
    } else {
      var init, last := b[..|b| - 1], b[|b| - 1];
      NumberSplit(a, init);
      assert (a + b)[..|a + b| - 1] == a + init;
      assert Number(a) * Pow256(|b|) == Number(a) * Pow256(|init|) * 256;
    }
  }

  /** The octets before the last `left` are `taken`; `t` holds them in place. */
  predicate Holds(t: nat, taken: seq<byte>, left: nat, width: nat)
  {
    t == Number(taken) * Pow256(left) % Pow256(width)
  }

  lemma OctetInPlace(t: nat, taken: seq<byte>, b: byte, left: nat, width: nat)
    requires left > 0 && Holds(t, taken, left, width)
    ensures Holds((t + b * Pow256(left - 1)) % Pow256(width), taken + [b], left - 1, width)
  {
    NumberSplit(taken, [b]);
    assert [b][..0] == [];
    assert Number([b]) == b && Pow256(1) == 256;
    var p := Pow256(left - 1);
    assert Number(taken + [b]) * p == Number(taken) * (256 * p) + b * p;
    AddMod(Number(taken) * Pow256(left), b * p, Pow256(width));
  }

  /** One line of the switch: `t |= static_cast<Type> (*(pos++)) << 8 * (left - 1)`;
      the bits joined do not overlap. */
  method TakeOctet(c: Cursor, t: nat, left: nat, width: nat, ghost taken: seq<byte>) returns (t': nat)
    requires c.rest != [] && left > 0 && Holds(t, taken, left, width)
    modifies c
    ensures c.rest == old(c.rest)[1..]
    ensures Holds(t', taken + [old(c.rest)[0]], left - 1, width)
  {
    var b := c.Next();
    OctetInPlace(t, taken, b, left, width);
    t' := (t + b * Pow256(left - 1)) % Pow256(width);
  }

  /** What the cases from that of `n` octets on make of what is left to read. */
  predicate Falls(r: Option<(nat, nat)>, taken: seq<byte>, rest: seq<byte>, n: nat, width: nat, strict: bool, len: nat)
    requires Width(n)
  {
    if |rest| < n then r.None?
    else
      var v := Number(taken + rest[..n]);
      r == if strict && v < Least(n) then None else Some((v % Pow256(width), len + n))
  }

  predicate InRange(taken: seq<byte>, n: nat, width: nat, strict: bool)
  {
    Width(width) && (strict ==> width == 8 && |taken| + n <= 8)
  }

  lemma {:induction false} PowGrows(a: nat, b: nat)
    requires a <= b
    ensures Pow256(a) <= Pow256(b)
  {
    if a < b {
      PowGrows(a, b - 1);
    }
  }

  lemma {:induction false} PowSum(a: nat, b: nat)
    ensures Pow256(a + b) == Pow256(a) * Pow256(b)
  {
    if a > 0 {
      PowSum(a - 1, b);
      assert 256 * (Pow256(a - 1) * Pow256(b)) == (256 * Pow256(a - 1)) * Pow256(b);
    }
  }

  /** In 64 bits nothing is shifted out, so the accumulator is zero exactly when
      the octets taken are, that is when the number needs no more than `left`. */
  lemma ZeroSoFar(t: nat, taken: seq<byte>, left: seq<byte>)
    requires Holds(t, taken, |left|, 8) && |taken| + |left| <= 8
    ensures t == 0 <==> Number(taken + left) < Pow256(|left|)
  {
    NumberSplit(taken, left);
    BigEndianOfNumber(left);
    NotShiftedOut(taken, |left|);
    FirstDigit(Number(taken), Number(left), Pow256(|left|));
  }

  lemma NotShiftedOut(taken: seq<byte>, left: nat)
    requires |taken| + left <= 8
    ensures Number(taken) * Pow256(left) % Pow256(8) == Number(taken) * Pow256(left)
  {
    BigEndianOfNumber(taken);
    InPlace(Number(taken), Pow256(|taken|), Pow256(left));
    PowSum(|taken|, left);
    PowGrows(|taken| + left, 8);
    Small(Number(taken) * Pow256(left), Pow256(8));
  }

  /** The last octet has been taken: `t` is the number, and too small for its case
      below 24. */
  lemma LastOctet(t: nat, taken: seq<byte>, rest: seq<byte>, width: nat, strict: bool, len: nat)
    requires rest != [] && InRange(taken, 1, width, strict) && Holds(t, taken + [rest[0]], 0, width)
    ensures Falls(if strict && t < 24 then None else Some((t, len + 1)), taken, rest, 1, width, strict, len)
  {
    assert rest[..1] == [rest[0]];
    var v := Number(taken + rest[..1]);
    assert t == v % Pow256(width);
    if strict {
      NumberBelow(taken + rest[..1], 8);
      Small(v, Pow256(8));
    }
  }

  lemma NumberBelow(s: seq<byte>, n: nat)
    requires |s| <= n
    ensures Number(s) < Pow256(n)
  {
    BigEndianOfNumber(s);
    PowGrows(|s|, n);
  }

  method CaseLength1(c: Cursor, t: nat, width: nat, strict: bool, len: nat, ghost taken: seq<byte>)
    returns (r: Option<(nat, nat)>)
    requires InRange(taken, 1, width, strict) && Holds(t, taken, 1, width)
    modifies c
    ensures Falls(r, taken, old(c.rest), 1, width, strict, len)
    ensures r.Some? ==> c.rest == old(c.rest)[1..]
  {
    if c.rest == [] {
      return None;
    }
    ghost var rest := c.rest;
    var t1 := TakeOctet(c, t, 1, width, taken);
    LastOctet(t1, taken, rest, width, strict, len);
    r := if strict && t1 < 24 then None else Some((t1, len + 1));
  }

  /** Half of the `n` octets have been taken, and `t` holds them. */
  predicate Halfway(t: nat, taken: seq<byte>, rest: seq<byte>, n: nat, width: nat, strict: bool)
  {
    (n == 2 || n == 4 || n == 8) && |rest| >= n && InRange(taken, n, width, strict) &&
    Holds(t, taken + rest[..n / 2], n / 2, width)
  }

  lemma HalvesJoin(taken: seq<byte>, rest: seq<byte>, k: nat)
    requires 2 * k <= |rest|
    ensures taken + rest[..k] + rest[k..][..k] == taken + rest[..2 * k]
  {
  }

  /** The accumulator is zero exactly when the number is too small for its case. */
  lemma ZeroIsShort(t: nat, taken: seq<byte>, rest: seq<byte>, n: nat, width: nat)
    requires Halfway(t, taken, rest, n, width, true)
    ensures t == 0 <==> Number(taken + rest[..n]) < Least(n)
  {
    Powers();
    HalvesJoin(taken, rest, n / 2);
    ZeroSoFar(t, taken + rest[..n / 2], rest[n / 2..][..n / 2]);
  }

  /** A strict decoder stops there when nothing was needed so far. */
  lemma FallsShort(taken: seq<byte>, rest: seq<byte>, n: nat, width: nat, len: nat)
    requires Halfway(0, taken, rest, n, width, true)
    ensures Falls(None, taken, rest, n, width, true, len)
  {
    ZeroIsShort(0, taken, rest, n, width);
  }

  /** Otherwise the case falls through, to that of half as many octets. */
  lemma FallsOn(r: Option<(nat, nat)>, t: nat, taken: seq<byte>, rest: seq<byte>, n: nat, width: nat, strict: bool, len: nat)
    requires Halfway(t, taken, rest, n, width, strict) && (strict ==> t != 0)
    requires Falls(r, taken + rest[..n / 2], rest[n / 2..], n / 2, width, strict, len + n / 2)
    ensures Falls(r, taken, rest, n, width, strict, len)
  {
    HalvesJoin(taken, rest, n / 2);
    if strict {
      ZeroIsShort(t, taken, rest, n, width);
    }
  }

  lemma OneTaken(taken: seq<byte>, rest: seq<byte>, k: nat)
    requires k < |rest|
    ensures taken + rest[..k] + [rest[k..][0]] == taken + rest[..k + 1] && rest[k..][1..] == rest[k + 1..]
  {
  }

  /** The line of the case for two octets. */
  method TakeOne(c: Cursor, t: nat, width: nat, ghost taken: seq<byte>) returns (t': nat)
    requires |c.rest| >= 2 && Holds(t, taken, 2, width)
    modifies c
    ensures c.rest == old(c.rest)[1..] && Holds(t', taken + old(c.rest)[..1], 1, width)
  {
    ghost var rest := c.rest;
    t' := TakeOctet(c, t, 2, width, taken);
    assert taken + [rest[0]] == taken + rest[..1];
  }

  method CaseLength2(c: Cursor, t: nat, width: nat, strict: bool, len: nat, ghost taken: seq<byte>)
    returns (r: Option<(nat, nat)>)
    requires InRange(taken, 2, width, strict) && Holds(t, taken, 2, width)
    modifies c
    ensures Falls(r, taken, old(c.rest), 2, width, strict, len)
    ensures r.Some? ==> c.rest == old(c.rest)[2..]
  {
    if |c.rest| < 2 {
      return None;
    }
    ghost var rest := c.rest;
    var t1 := TakeOne(c, t, width, taken);
    if strict && t1 == 0 {
      FallsShort(taken, rest, 2, width, len);
      return None;
    }
    r := CaseLength1(c, t1, width, strict, len + 1, taken + rest[..1]);
    FallsOn(r, t1, taken, rest, 2, width, strict, len);
  }

  /** The two lines of the case for four octets. */
  method TakeTwo(c: Cursor, t: nat, width: nat, ghost taken: seq<byte>) returns (t': nat)
    requires |c.rest| >= 2 && Holds(t, taken, 4, width)
    modifies c
    ensures c.rest == old(c.rest)[2..] && Holds(t', taken + old(c.rest)[..2], 2, width)
  {
    ghost var rest := c.rest;
    t' := TakeOctet(c, t, 4, width, taken);
    assert taken + [rest[0]] == taken + rest[..1];
    t' := TakeOctet(c, t', 3, width, taken + rest[..1]);
    OneTaken(taken, rest, 1);
  }

  method CaseLength4(c: Cursor, t: nat, width: nat, strict: bool, len: nat, ghost taken: seq<byte>)
    returns (r: Option<(nat, nat)>)
    requires InRange(taken, 4, width, strict) && Holds(t, taken, 4, width)
    modifies c
    ensures Falls(r, taken, old(c.rest), 4, width, strict, len)
    ensures r.Some? ==> c.rest == old(c.rest)[4..]
  {
    if |c.rest| < 4 {
      return None;
    }
    ghost var rest := c.rest;
    var t2 := TakeTwo(c, t, width, taken);
    if strict && t2 == 0 {
      FallsShort(taken, rest, 4, width, len);
      return None;
    }
    r := CaseLength2(c, t2, width, strict, len + 2, taken + rest[..2]);
    FallsOn(r, t2, taken, rest, 4, width, strict, len);
  }

  /** The four lines of the case for eight octets. */
  method TakeFour(c: Cursor) returns (t: nat)
    requires |c.rest| >= 4
    modifies c
    ensures c.rest == old(c.rest)[4..] && Holds(t, old(c.rest)[..4], 4, 8)
  {
    ghost var rest := c.rest;
    t := TakeOctet(c, 0, 8, 8, []);
    assert [] + [rest[0]] == rest[..1] && c.rest[0] == rest[1];
    t := TakeOctet(c, t, 7, 8, rest[..1]);
    assert rest[..1] + [rest[1]] == rest[..2] && c.rest[0] == rest[2];
    t := TakeOctet(c, t, 6, 8, rest[..2]);
    assert rest[..2] + [rest[2]] == rest[..3] && c.rest[0] == rest[3];
    t := TakeOctet(c, t, 5, 8, rest[..3]);
    assert rest[..3] + [rest[3]] == rest[..4];
  }

  method CaseLength8(c: Cursor, strict: bool, len: nat) returns (r: Option<(nat, nat)>)
    modifies c
    ensures Falls(r, [], old(c.rest), 8, 8, strict, len)
    ensures r.Some? ==> c.rest == old(c.rest)[8..]
  {
    if |c.rest| < 8 {
      return None;
    }
    ghost var rest := c.rest;
    var t := TakeFour(c);
    assert [] + rest[..4] == rest[..4];
    if strict && t == 0 {
      FallsShort([], rest, 8, 8, len);
      return None;
    }
    r := CaseLength4(c, t, 8, strict, len + 4, rest[..4]);
    FallsOn(r, t, [], rest, 8, 8, strict, len);
  }

  /** The case for the head octet is what the meaning of the head says. */
  lemma FallsIsParse(s: seq<byte>, r: Option<(nat, nat)>, width: nat, strict: bool)
    requires s != [] && Width(width) && (strict ==> width == 8) && s[0] % 32 >= 24 && Follow(s[0] % 32).Some?
    requires var n := Follow(s[0] % 32).value;
             if n == 8 && width < 8 then r.None? else Falls(r, [], s[1..], n, width, strict, 1)
    ensures match ParseHead(s, width, strict)
            case None => r.None?
            case Some(item) => r == Some((item.value, |s| - |item.rest|)) && item.tag == s[0] - s[0] % 32
                               && item.rest == s[1..][Follow(s[0] % 32).value..]
  {
    var n := Follow(s[0] % 32).value;
    if n <= |s| - 1 {
      assert [] + s[1..][..n] == s[1..1 + n];
      assert s[1..][n..] == s[1 + n..];
    }
  }

  /** The switch of `decodeTagAndValue`. */
  method SwitchOn(c: Cursor, additional: nat, width: nat, strict: bool) returns (r: Option<(nat, nat)>)
    requires Width(width) && (strict ==> width == 8) && 24 <= additional
    modifies c
    ensures match Follow(additional)
            case None => r.None?
            case Some(n) =>
              (if n == 8 && width < 8 then r.None? else Falls(r, [], old(c.rest), n, width, strict, 1))
              && (r.Some? ==> n <= |old(c.rest)| && c.rest == old(c.rest)[n..])
  {
    r := None;
    if additional == 27 && width == 8 {
      r := CaseLength8(c, strict, 1);
    } else if additional == 26 {
      r := CaseLength4(c, 0, width, strict, 1, []);
    } else if additional == 25 {
      r := CaseLength2(c, 0, width, strict, 1, []);
    } else if additional == 24 {
      r := CaseLength1(c, 0, width, strict, 1, []);
    }
  }

  /** `decodeTagAndValue`: tag, number and the length it reports; `None` where it
      throws. The length is what it has advanced by. */
  method DecodeTagAndValue(c: Cursor, width: nat, strict: bool) returns (r: Option<(byte, nat, nat)>)
    requires Width(width) && (strict ==> width == 8)
    modifies c
    ensures match ParseHead(old(c.rest), width, strict)
            case None => r.None?
            case Some(item) =>
              c.rest == item.rest && r == Some((item.tag, item.value, |old(c.rest)| - |item.rest|))
  {
    if c.rest == [] {
      return None;
    }
    ghost var s := c.rest;
    var octet := c.Next();
    var additional := octet % 32;
    var tag := octet - additional;
    if additional < 24 {
      return Some((tag, additional, 1));
    }
    var n := SwitchOn(c, additional, width, strict);
    if Follow(additional).Some? {
      FallsIsParse(s, n, width, strict);
    }
    r := if n.Some? then Some((tag, n.value.0, n.value.1)) else None;
  }

  // ------------------------------------------------------------ item wrappers

  /** What a decoding call returns and how far it has advanced. */
  ghost predicate Advanced<T>(r: Option<(T, nat)>, parsed: Option<(T, seq<byte>)>, before: seq<byte>, after: seq<byte>)
  {
    match parsed
    case None => r.None?
    case Some((v, rest)) => after == rest && |rest| <= |before| && r == Some((v, |before| - |rest|))
  }

  /** A number of a signed or unsigned type of at most 64 bits, but the least. */
  method EncodeInteger(buffer: ByteVector, t: int) returns (size: nat)
    requires -(TWO64 / 2) < t < TWO64
    modifies buffer
    ensures buffer.bytes == old(buffer.bytes) + Integer(t) && size == |Integer(t)|
  {
    Powers();
    if t >= 0 {
      size := EncodeTagAndValue(buffer, UNSIGNED, t, 8);
    } else {
      size := EncodeTagAndValue(buffer, NEGATIVE, -t - 1, 8);
    }
  }

  method DecodeInteger(c: Cursor, width: nat) returns (r: Option<(int, nat)>)
    requires Width(width)
    modifies c
    ensures Advanced(r, ParseInteger(old(c.rest), width), old(c.rest), c.rest)
  {
    var head := DecodeTagAndValue(c, 8, false);
    if head.None? {
      return None;
    }
    var (tag, val, len) := head.value;
    if tag == UNSIGNED {
      r := Some((Signed(val, width), len));
    } else if tag == NEGATIVE {
      r := Some((Signed(-1 - Signed(val, 8), width), len));
    } else {
      r := None;
    }
  }

  method EncodeArraySize(buffer: ByteVector, t: nat) returns (size: nat)
    requires t < TWO32
    modifies buffer
    ensures buffer.bytes == old(buffer.bytes) + Head(ARRAY, t) && size == |Head(ARRAY, t)|
  {
    Powers();
    size := EncodeTagAndValue(buffer, ARRAY, t, 4);
  }

  method EncodeBytes(buffer: ByteVector, t: seq<byte>) returns (size: nat)
    requires |t| < TWO64
    modifies buffer
    ensures buffer.bytes == old(buffer.bytes) + ByteString(t) && size == |ByteString(t)|
  {
    Powers();
    var len := EncodeTagAndValue(buffer, BYTE_STRING, |t|, 8);
    buffer.Insert(t);
    return len + |t|;
  }

  method DecodeTagged(c: Cursor, tag: byte, width: nat) returns (r: Option<(nat, nat)>)
    requires Width(width)
    modifies c
    ensures Advanced(r, ParseTagged(old(c.rest), tag, width), old(c.rest), c.rest)
  {
    var head := DecodeTagAndValue(c, width, false);
    r := if head.Some? && head.value.0 == tag then Some((head.value.1, head.value.2)) else None;
  }

  method DecodeUnsigned(c: Cursor, width: nat) returns (r: Option<(nat, nat)>)
    requires Width(width)
    modifies c
    ensures Advanced(r, ParseUnsigned(old(c.rest), width), old(c.rest), c.rest)
  {
    r := DecodeTagged(c, UNSIGNED, width);
  }

  method DecodeArraySize(c: Cursor) returns (r: Option<(nat, nat)>)
    modifies c
    ensures Advanced(r, ParseArraySize(old(c.rest)), old(c.rest), c.rest)
  {
    r := DecodeTagged(c, ARRAY, 8);
  }

  /** `decodeBytes` into an empty string. */
  method DecodeBytes(c: Cursor) returns (r: Option<(seq<byte>, nat)>)
    modifies c
    ensures Advanced(r, ParseBytes(old(c.rest)), old(c.rest), c.rest)
  {
    var head := DecodeTagged(c, BYTE_STRING, 8);
    if head.None? || head.value.0 > |c.rest| {
      return None;
    }
    var n := head.value.0;
    r := Some((c.rest[..n], head.value.1 + n));
    c.rest := c.rest[n..];
  }

  lemma {:induction false} UnsignedsAppend(vs: seq<nat>, v: nat)
    requires (forall i :: 0 <= i < |vs| ==> vs[i] < TWO64) && v < TWO64
    ensures Unsigneds(vs + [v]) == Unsigneds(vs) + Head(UNSIGNED, v)
  {
    if vs == [] {
      assert vs + [v] == [v];
    } else {
      assert (vs + [v])[1..] == vs[1..] + [v];
      UnsignedsAppend(vs[1..], v);
    }
  }

  /** A row of `encodeInteger` calls. */
  method EncodeUnsigneds(buffer: ByteVector, vs: seq<nat>) returns (size: nat)
    requires forall i :: 0 <= i < |vs| ==> vs[i] < TWO64
    modifies buffer
    ensures buffer.bytes == old(buffer.bytes) + Unsigneds(vs) && size == |Unsigneds(vs)|
  {
    size := 0;
    for i := 0 to |vs|
      invariant buffer.bytes == old(buffer.bytes) + Unsigneds(vs[..i]) && size == |Unsigneds(vs[..i])|
    {
      UnsignedsAppend(vs[..i], vs[i]);
      assert vs[..i + 1] == vs[..i] + [vs[i]];
      var len := EncodeInteger(buffer, vs[i]);
      size := size + len;
    }
    assert vs[..|vs|] == vs;
  }

  /** A row of `decodeUnsigned` calls. */
  method DecodeUnsigneds(c: Cursor, widths: seq<nat>) returns (r: Option<(seq<nat>, nat)>)
    requires Widths(widths)
    modifies c
    ensures Advanced(r, ParseUnsigneds(widths, old(c.rest)), old(c.rest), c.rest)
    decreases |widths|
  {
    if widths == [] {
      return Some(([], 0));
    }
    assert widths[0] in widths && forall w :: w in widths[1..] ==> w in widths;
    var first := DecodeUnsigned(c, widths[0]);
    if first.None? {
      return None;
    }
    var others := DecodeUnsigneds(c, widths[1..]);
    r := if others.None? then None
         else Some(([first.value.0] + others.value.0, first.value.1 + others.value.1));
  }
}
