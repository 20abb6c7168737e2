/**
 The version 7 primary block (bp/model/bp-header-7.cc; section 4.3.1 of
 draft-ietf-dtn-bpbis-30), without CRC: a CBOR array of numbers and endpoints.
 */
module Header7 {
  import opened Bytes
  import opened Buffers
  import opened Cbor
  import Decimal

  /** An endpoint: the code of its scheme and its scheme-specific part. */
  datatype Eid7 = Eid7(code: nat, ssp: seq<byte>)

  const DTN: nat := 1
  const IPN: nat := 2
  const NoneSsp: seq<byte> := Ascii("none")
  const ZeroSsp: seq<byte> := [48]

  // ---------------------------------------------------------------- endpoints

  /** The scheme-specific part can be encoded: it is not absurdly long, and for
      schemes other than dtn it scans as two numbers. */
  predicate Encodable(e: Eid7)
  {
    if e.code == DTN then |e.ssp| < TWO32 else Decimal.ScanPair(e.ssp).Some?
  }

  function NamePart(ssp: seq<byte>): seq<byte>
    requires |ssp| < TWO32
  {
    if ssp == NoneSsp then Head(UNSIGNED, 0) else ByteString(ssp)
  }

  function EidWire(e: Eid7): seq<byte>
    requires Encodable(e)
  {
    if e.code == DTN then Head(ARRAY, 2) + (Head(UNSIGNED, 1) + NamePart(e.ssp))
    else
      var (node, service) := Decimal.ScanPair(e.ssp).value;
      Head(ARRAY, 2) + (Head(UNSIGNED, 2) + (Head(ARRAY, 2) + Unsigneds([node, service])))
  }

  /** `EncodeEID` reports its length in one octet. */
  function ReportedLength(e: Eid7): nat
    requires Encodable(e)
  {
    |EidWire(e)| % TWO8
  }

  lemma LengthReported(e: Eid7)
    requires Encodable(e)
    ensures ReportedLength(e) == |EidWire(e)| <==> |EidWire(e)| < TWO8
  {
  }

  function ParseName(s: seq<byte>): Option<(seq<byte>, seq<byte>)>
  {
    if s == [] then None
    else if s[0] == 0 then
      match ParseUnsigned(s, 8)
      case None => None
      case Some((v, rest)) => Some((Decimal.Digits(v), rest))
    else ParseBytes(s)
  }

  function ParseNumbers(s: seq<byte>): Option<(seq<byte>, seq<byte>)>
  {
    match ParseArraySize(s)
    case None => None
    case Some((_, rest)) =>
      match ParseUnsigneds([4, 4], rest)
      case None => None
      case Some((v, rest')) => Some((Decimal.PrintPair(v[0], v[1]), rest'))
  }

  /** The code of the scheme, and the part in its form. */
  function ParseCoded(s: seq<byte>): Option<(Eid7, seq<byte>)>
  {
    match ParseUnsigned(s, 2)
    case None => None
    case Some((code, rest)) =>
      match if code == IPN then ParseNumbers(rest) else ParseName(rest)
      case None => None
      case Some((ssp, rest')) => Some((Eid7(code, ssp), rest'))
  }

  /** `DecodeEID` into an empty string. */
  function ParseEid(s: seq<byte>): Option<(Eid7, seq<byte>)>
  {
    match ParseArraySize(s)
    case None => None
    case Some((_, rest)) => ParseCoded(rest)
  }

  lemma NameRoundTrip(ssp: seq<byte>, suffix: seq<byte>)
    requires |ssp| < TWO32
    ensures ParseName(NamePart(ssp) + suffix) == Some((if ssp == NoneSsp then ZeroSsp else ssp, suffix))
  {
    Powers();
    var s := NamePart(ssp) + suffix;
    if ssp == NoneSsp {
      assert s[0] == 0;
      UnsignedRoundTrip(0, 8, suffix);
      assert Decimal.Digits(0) == ZeroSsp;
    } else {
      HeadOfBytes(|ssp|);
      assert s[0] == Head(BYTE_STRING, |ssp|)[0];
      BytesRoundTrip(ssp, suffix);
    }
  }

  lemma HeadOfBytes(n: nat)
    requires n < TWO64
    ensures Head(BYTE_STRING, n)[0] != 0
  {
  }

  lemma NumbersRoundTrip(node: nat, service: nat, suffix: seq<byte>)
    requires node < TWO32 && service < TWO32
    ensures ParseNumbers(Head(ARRAY, 2) + Unsigneds([node, service]) + suffix)
         == Some((Decimal.PrintPair(node, service), suffix))
  {
    Powers();
    var tail := Unsigneds([node, service]) + suffix;
    assert Head(ARRAY, 2) + Unsigneds([node, service]) + suffix == Head(ARRAY, 2) + tail;
    ArraySizeRoundTrip(2, tail);
    UnsignedsRoundTrip([node, service], [4, 4], suffix);
  }

  /** What `DecodeEID` makes of an encoded dtn endpoint. */
  lemma DtnDecodes(ssp: seq<byte>, suffix: seq<byte>)
    requires |ssp| < TWO32
    ensures ParseEid(EidWire(Eid7(DTN, ssp)) + suffix)
         == Some((Eid7(DTN, if ssp == NoneSsp then ZeroSsp else ssp), suffix))
  {
    var coded := Head(UNSIGNED, 1) + (NamePart(ssp) + suffix);
    DtnWire(ssp, suffix);
    ArraySizeRoundTrip(2, coded);
    CodedBehindSize(EidWire(Eid7(DTN, ssp)) + suffix, 2, coded);
    CodedName(ssp, suffix);
  }

  lemma DtnWire(ssp: seq<byte>, suffix: seq<byte>)
    requires |ssp| < TWO32
    ensures EidWire(Eid7(DTN, ssp)) + suffix == Head(ARRAY, 2) + (Head(UNSIGNED, 1) + (NamePart(ssp) + suffix))
  {
  }

  lemma CodedBehindSize(s: seq<byte>, size: nat, rest: seq<byte>)
    requires ParseArraySize(s) == Some((size, rest))
    ensures ParseEid(s) == ParseCoded(rest)
  {
  }

  lemma CodedName(ssp: seq<byte>, suffix: seq<byte>)
    requires |ssp| < TWO32
    ensures ParseCoded(Head(UNSIGNED, 1) + (NamePart(ssp) + suffix))
         == Some((Eid7(DTN, if ssp == NoneSsp then ZeroSsp else ssp), suffix))
  {
    Powers();
    UnsignedRoundTrip(1, 2, NamePart(ssp) + suffix);
    NameRoundTrip(ssp, suffix);
  }

  /** A dtn endpoint comes back, with exactly its octets consumed, if and only if
      it is not "none", which comes back as "0". */
  lemma DtnRoundTrip(ssp: seq<byte>, suffix: seq<byte>)
    requires |ssp| < TWO32
    ensures ParseEid(EidWire(Eid7(DTN, ssp)) + suffix) == Some((Eid7(DTN, ssp), suffix)) <==> ssp != NoneSsp
  {
    DtnDecodes(ssp, suffix);
    assert |NoneSsp| == 4 && |ZeroSsp| == 1;
  }

  lemma IpnDecodes(ssp: seq<byte>, suffix: seq<byte>)
    requires Decimal.ScanPair(ssp).Some?
    ensures var (node, service) := Decimal.ScanPair(ssp).value;
            ParseEid(EidWire(Eid7(IPN, ssp)) + suffix)
            == Some((Eid7(IPN, Decimal.PrintPair(node, service)), suffix))
  {
    Powers();
    var (node, service) := Decimal.ScanPair(ssp).value;
    var numbers := Head(ARRAY, 2) + Unsigneds([node, service]);
    assert EidWire(Eid7(IPN, ssp)) + suffix == Head(ARRAY, 2) + (Head(UNSIGNED, 2) + (numbers + suffix));
    ArraySizeRoundTrip(2, Head(UNSIGNED, 2) + (numbers + suffix));
    UnsignedRoundTrip(2, 2, numbers + suffix);
    NumbersRoundTrip(node, service, suffix);
  }

  /** An ipn endpoint in canonical decimal comes back through parsing, two
      numbers and printing. */
  lemma IpnRoundTrip(ssp: seq<byte>, suffix: seq<byte>)
    requires Decimal.Canonical(ssp)
    ensures Decimal.ScanPair(ssp).Some?
    ensures ParseEid(EidWire(Eid7(IPN, ssp)) + suffix) == Some((Eid7(IPN, ssp), suffix))
  {
    Decimal.PrintScanned(ssp);
    IpnDecodes(ssp, suffix);
  }

  // -------------------------------------------------------------------- block

  /** Lifetimes are in ticks of the simulator; the wire has milliseconds. */
  const MILLISECOND: nat := 1_000_000

  /** A header object's fields; the block length is the simulator's own and not
      on the wire. */
  datatype Primary7 = Primary7(
    version: byte, flags: nat, dst: Eid7, src: Eid7, report: Eid7, timestamp: nat, sequence: nat,
    lifetime: nat, fragOffset: nat, aduLength: nat)

  predicate IsFragment(h: Primary7)
  {
    h.flags % 2 == 1
  }

  /** Every field fits its type, and the lifetime the 32 bits it is read into. */
  predicate Ranges(h: Primary7)
  {
    h.flags < TWO32 && Encodable(h.dst) && Encodable(h.src) && Encodable(h.report) &&
    h.timestamp < TWO32 && h.sequence < TWO32 && h.lifetime / MILLISECOND < TWO32 &&
    h.fragOffset < TWO32 && h.aduLength < TWO32
  }

  function Eids(h: Primary7): seq<byte>
    requires Ranges(h)
  {
    EidWire(h.dst) + (EidWire(h.src) + EidWire(h.report))
  }

  function Times(h: Primary7): seq<nat>
    requires Ranges(h)
  {
    [h.timestamp, h.sequence, h.lifetime / MILLISECOND]
  }

  /** The fields of a fragment, there exactly when the flag is set. */
  function Place(h: Primary7): seq<byte>
    requires Ranges(h)
  {
    if IsFragment(h) then Unsigneds(PlaceNumbers(h)) else []
  }

  function PlaceNumbers(h: Primary7): (r: seq<nat>)
    requires Ranges(h)
    ensures |r| == 2
  {
    [h.fragOffset, h.aduLength]
  }

  function FrontWire(h: Primary7): seq<byte>
    requires Ranges(h)
  {
    Head(ARRAY, if IsFragment(h) then 10 else 8) + Unsigneds(Front(h))
  }

  lemma WireIs(h: Primary7)
    requires Ranges(h)
    ensures Wire(h) == FrontWire(h) + Eids(h) + Tail(h)
    ensures ReportedSize(h) == |FrontWire(h)| + ReportedLength(h.dst) + ReportedLength(h.src)
                               + ReportedLength(h.report) + |Tail(h)|
  {
  }

  function Tail(h: Primary7): seq<byte>
    requires Ranges(h)
  {
    Head(ARRAY, 2) + (Unsigneds(Times(h)) + Place(h))
  }

  function Front(h: Primary7): seq<nat>
    requires Ranges(h)
  {
    [h.version, h.flags, 0]
  }

  function Wire(h: Primary7): seq<byte>
    requires Ranges(h)
  {
    Head(ARRAY, if IsFragment(h) then 10 else 8) + (Unsigneds(Front(h)) + (Eids(h) + Tail(h)))
  }

  /** What `SerializeAndGetSize` returns, on a dry run as well. */
  function ReportedSize(h: Primary7): nat
    requires Ranges(h)
  {
    |Head(ARRAY, if IsFragment(h) then 10 else 8)| + |Unsigneds(Front(h))| +
    ReportedLength(h.dst) + ReportedLength(h.src) + ReportedLength(h.report) + |Tail(h)|
  }

  /** No encoded endpoint is longer than the octet its length is reported in. */
  predicate ShortEids(h: Primary7)
    requires Ranges(h)
  {
    |EidWire(h.dst)| < TWO8 && |EidWire(h.src)| < TWO8 && |EidWire(h.report)| < TWO8
  }

  /** The size of the dry run is the number of octets written exactly when every
      encoded endpoint is shorter than 256 octets. */
  lemma SizeIsReported(h: Primary7)
    requires Ranges(h)
    ensures ReportedSize(h) == |Wire(h)| <==> ShortEids(h)
    ensures ReportedSize(h) <= |Wire(h)|
  {
    LengthReported(h.dst);
    LengthReported(h.src);
    LengthReported(h.report);
  }

  function ParseTwo(s: seq<byte>): Option<((Eid7, Eid7), seq<byte>)>
  {
    match ParseEid(s)
    case None => None
    case Some((src, rest)) =>
      match ParseEid(rest)
      case None => None
      case Some((report, rest')) => Some(((src, report), rest'))
  }

  function ParseEids(s: seq<byte>): Option<((Eid7, Eid7, Eid7), seq<byte>)>
  {
    match ParseEid(s)
    case None => None
    case Some((dst, rest)) =>
      match ParseTwo(rest)
      case None => None
      case Some((two, rest')) => Some(((dst, two.0, two.1), rest'))
  }

  /** The times, and the place of a fragment in an array of more than 8 fields. */
  function ParseTimes(s: seq<byte>, size: nat): (r: Option<((seq<nat>, seq<nat>), seq<byte>)>)
    ensures r.Some? ==> |r.value.0.0| == 3 && |r.value.0.1| == if size > 8 then 2 else 0
  {
    match ParseUnsigneds([4, 4, 4], s)
    case None => None
    case Some((times, rest)) =>
      match if size > 8 then ParseUnsigneds([4, 4], rest) else Some(([], rest))
      case None => None
      case Some((place, rest')) => Some(((times, place), rest'))
  }

  function ParseTail(s: seq<byte>, size: nat): (r: Option<((seq<nat>, seq<nat>), seq<byte>)>)
    ensures r.Some? ==> |r.value.0.0| == 3 && |r.value.0.1| == if size > 8 then 2 else 0
  {
    match ParseArraySize(s)
    case None => None
    case Some((_, rest)) => ParseTimes(rest, size)
  }

  /** From the endpoints on. */
  function ParseBack(front: seq<nat>, s: seq<byte>, size: nat): Option<(Primary7, seq<byte>)>
    requires |front| == 3
  {
    match ParseEids(s)
    case None => None
    case Some((eids, rest)) =>
      match ParseTail(rest, size)
      case None => None
      case Some((tail, rest')) => Some((Build(front, eids, tail.0, tail.1), rest'))
  }

  function ParseFields(s: seq<byte>, size: nat): Option<(Primary7, seq<byte>)>
  {
    match ParseUnsigneds([1, 4, 8], s)
    case None => None
    case Some((front, rest)) => ParseBack(front, rest, size)
  }

  /** `Deserialize` into a fresh header; `None` where it throws. */
  function Parse(s: seq<byte>): Option<(Primary7, seq<byte>)>
  {
    match ParseArraySize(s)
    case None => None
    case Some((size, rest)) => ParseFields(rest, size)
  }

  function Build(front: seq<nat>, eids: (Eid7, Eid7, Eid7), times: seq<nat>, place: seq<nat>): Primary7
    requires |front| == 3 && |times| == 3 && (|place| == 2 || |place| == 0)
  {
    Primary7(front[0] % TWO8, front[1], eids.0, eids.1, eids.2, times[0], times[1], times[2] * MILLISECOND,
             if |place| == 2 then place[0] else 0, if |place| == 2 then place[1] else 0)
  }

  // --------------------------------------------------------------- round trip

  /** The endpoint survives encoding and decoding. */
  ghost predicate Faithful(e: Eid7)
  {
    Encodable(e) &&
    if e.code == DTN then e.ssp != NoneSsp else e.code == IPN && Decimal.Canonical(e.ssp)
  }

  lemma EidRoundTrip(e: Eid7, suffix: seq<byte>)
    requires Faithful(e)
    ensures ParseEid(EidWire(e) + suffix) == Some((e, suffix))
  {
    if e.code == DTN {
      DtnRoundTrip(e.ssp, suffix);
    } else {
      IpnRoundTrip(e.ssp, suffix);
    }
  }

  lemma EidsRoundTrip(h: Primary7, suffix: seq<byte>)
    requires Ranges(h) && Faithful(h.dst) && Faithful(h.src) && Faithful(h.report)
    ensures ParseEids(Eids(h) + suffix) == Some(((h.dst, h.src, h.report), suffix))
  {
    var s2 := EidWire(h.report) + suffix;
    var s1 := EidWire(h.src) + s2;
    assert Eids(h) + suffix == EidWire(h.dst) + s1;
    EidRoundTrip(h.dst, s1);
    EidRoundTrip(h.src, s2);
    EidRoundTrip(h.report, suffix);
    ThreeEids(Eids(h) + suffix, h.dst, s1, h.src, s2, h.report, suffix);
  }

  lemma ThreeEids(s: seq<byte>, a: Eid7, s1: seq<byte>, b: Eid7, s2: seq<byte>, c: Eid7, s3: seq<byte>)
    requires ParseEid(s) == Some((a, s1)) && ParseEid(s1) == Some((b, s2)) && ParseEid(s2) == Some((c, s3))
    ensures ParseEids(s) == Some(((a, b, c), s3))
  {
  }

  lemma PlaceRoundTrip(h: Primary7, suffix: seq<byte>)
    requires Ranges(h) && IsFragment(h)
    ensures ParseUnsigneds([4, 4], Place(h) + suffix) == Some(([h.fragOffset, h.aduLength], suffix))
  {
    Powers();
    UnsignedsRoundTrip([h.fragOffset, h.aduLength], [4, 4], suffix);
  }

  lemma TailRoundTrip(h: Primary7, suffix: seq<byte>)
    requires Ranges(h)
    ensures ParseTail(Tail(h) + suffix, if IsFragment(h) then 10 else 8)
         == Some(((Times(h), if IsFragment(h) then [h.fragOffset, h.aduLength] else []), suffix))
  {
    Powers();
    var s2 := Place(h) + suffix;
    var s1 := Unsigneds(Times(h)) + s2;
    assert Tail(h) + suffix == Head(ARRAY, 2) + s1;
    ArraySizeRoundTrip(2, s1);
    UnsignedsRoundTrip(Times(h), [4, 4, 4], s2);
    if IsFragment(h) {
      PlaceRoundTrip(h, suffix);
    } else {
      assert s2 == suffix;
    }
  }

  /** What comes back: the lifetime in whole milliseconds, and the fields of a
      fragment only for a fragment. */
  function Recovered(h: Primary7): Primary7
  {
    h.(lifetime := h.lifetime / MILLISECOND * MILLISECOND,
       fragOffset := if IsFragment(h) then h.fragOffset else 0,
       aduLength := if IsFragment(h) then h.aduLength else 0)
  }

  lemma BuildBack(h: Primary7)
    requires Ranges(h)
    ensures Build(Front(h), (h.dst, h.src, h.report), Times(h), if IsFragment(h) then [h.fragOffset, h.aduLength] else [])
         == Recovered(h)
  {
  }

  lemma FrontRoundTrip(h: Primary7, suffix: seq<byte>)
    requires Ranges(h)
    ensures ParseUnsigneds([1, 4, 8], Unsigneds(Front(h)) + suffix) == Some((Front(h), suffix))
  {
    Powers();
    UnsignedsRoundTrip(Front(h), [1, 4, 8], suffix);
  }

  lemma BackRoundTrip(h: Primary7, suffix: seq<byte>)
    requires Ranges(h) && Faithful(h.dst) && Faithful(h.src) && Faithful(h.report)
    ensures ParseBack(Front(h), Eids(h) + (Tail(h) + suffix), if IsFragment(h) then 10 else 8)
         == Some((Recovered(h), suffix))
  {
    EidsRoundTrip(h, Tail(h) + suffix);
    TailRoundTrip(h, suffix);
    BuildBack(h);
  }

  lemma HeaderIs(s: seq<byte>, size: Option<(nat, seq<byte>)>)
    requires size == ParseArraySize(s)
    ensures Parse(s) == if size.None? then None else ParseFields(size.value.1, size.value.0)
  {
  }

  lemma FieldsRoundTrip(h: Primary7, suffix: seq<byte>)
    requires Ranges(h) && Faithful(h.dst) && Faithful(h.src) && Faithful(h.report)
    ensures ParseFields(Unsigneds(Front(h)) + (Eids(h) + (Tail(h) + suffix)), if IsFragment(h) then 10 else 8)
         == Some((Recovered(h), suffix))
  {
    FrontRoundTrip(h, Eids(h) + (Tail(h) + suffix));
    BackRoundTrip(h, suffix);
  }

  /** Decoding an encoded primary block, whatever follows, restores its fields and
      consumes exactly what the encoder wrote. */
  lemma WireRoundTrip(h: Primary7, suffix: seq<byte>)
    requires Ranges(h) && Faithful(h.dst) && Faithful(h.src) && Faithful(h.report)
    ensures Parse(Wire(h) + suffix) == Some((Recovered(h), suffix))
  {
    var size := if IsFragment(h) then 10 else 8;
    var s1 := Unsigneds(Front(h)) + (Eids(h) + (Tail(h) + suffix));
    WireBefore(h, suffix);
    ArraySizeRoundTrip(size, s1);
    FieldsRoundTrip(h, suffix);
    HeaderIs(Head(ARRAY, size) + s1, Some((size, s1)));
  }

  lemma WireBefore(h: Primary7, suffix: seq<byte>)
    requires Ranges(h)
    ensures Wire(h) + suffix ==
            Head(ARRAY, if IsFragment(h) then 10 else 8) + (Unsigneds(Front(h)) + (Eids(h) + (Tail(h) + suffix)))
  {
    var a, b, c, d := Head(ARRAY, if IsFragment(h) then 10 else 8), Unsigneds(Front(h)), Eids(h), Tail(h);
    FiveInARow(a, b, c, d, suffix);
  }

  lemma FiveInARow(a: seq<byte>, b: seq<byte>, c: seq<byte>, d: seq<byte>, e: seq<byte>)
    ensures a + (b + (c + d)) + e == a + (b + (c + (d + e)))
  {
  }

  // -------------------------------------------------------------- consumption

  lemma CodedLeaves(s: seq<byte>)
    requires ParseCoded(s).Some?
    ensures LeftOf(ParseCoded(s).value.1, s)
  {
    var (code, rest) := ParseUnsigned(s, 2).value;
    HeadLeaves(s, 2);
    if code == IPN {
      NumbersLeave(rest);
    } else if rest[0] == 0 {
      HeadLeaves(rest, 8);
    } else {
      BytesLeave(rest);
    }
    LeftTwice(ParseCoded(s).value.1, rest, s);
  }

  lemma NumbersLeave(s: seq<byte>)
    requires ParseNumbers(s).Some?
    ensures LeftOf(ParseNumbers(s).value.1, s)
  {
    var rest := ParseArraySize(s).value.1;
    HeadLeaves(s, 8);
    UnsignedsLeave([4, 4], rest);
    LeftTwice(ParseNumbers(s).value.1, rest, s);
  }

  lemma EidLeaves(s: seq<byte>)
    requires ParseEid(s).Some?
    ensures LeftOf(ParseEid(s).value.1, s)
  {
    var rest := ParseArraySize(s).value.1;
    HeadLeaves(s, 8);
    CodedLeaves(rest);
    LeftTwice(ParseCoded(rest).value.1, rest, s);
  }

  lemma TwoLeave(s: seq<byte>)
    requires ParseTwo(s).Some?
    ensures LeftOf(ParseTwo(s).value.1, s)
  {
    var rest := ParseEid(s).value.1;
    EidLeaves(s);
    EidLeaves(rest);
    LeftTwice(ParseEid(rest).value.1, rest, s);
  }

  lemma EidsLeave(s: seq<byte>)
    requires ParseEids(s).Some?
    ensures LeftOf(ParseEids(s).value.1, s)
  {
    var rest := ParseEid(s).value.1;
    EidLeaves(s);
    TwoLeave(rest);
    LeftTwice(ParseTwo(rest).value.1, rest, s);
  }

  lemma TimesLeave(s: seq<byte>, size: nat)
    requires ParseTimes(s, size).Some?
    ensures LeftOf(ParseTimes(s, size).value.1, s)
  {
    var rest := ParseUnsigneds([4, 4, 4], s).value.1;
    UnsignedsLeave([4, 4, 4], s);
    if size > 8 {
      UnsignedsLeave([4, 4], rest);
    }
    LeftTwice(ParseTimes(s, size).value.1, rest, s);
  }

  lemma TailLeaves(s: seq<byte>, size: nat)
    requires ParseTail(s, size).Some?
    ensures LeftOf(ParseTail(s, size).value.1, s)
  {
    var rest := ParseArraySize(s).value.1;
    HeadLeaves(s, 8);
    TimesLeave(rest, size);
    LeftTwice(ParseTimes(rest, size).value.1, rest, s);
  }

  lemma BackLeaves(front: seq<nat>, s: seq<byte>, size: nat)
    requires |front| == 3 && ParseBack(front, s, size).Some?
    ensures LeftOf(ParseBack(front, s, size).value.1, s)
  {
    var rest := ParseEids(s).value.1;
    EidsLeave(s);
    TailLeaves(rest, size);
    LeftTwice(ParseTail(rest, size).value.1, rest, s);
  }

  lemma FieldsLeave(s: seq<byte>, size: nat)
    requires ParseFields(s, size).Some?
    ensures LeftOf(ParseFields(s, size).value.1, s)
  {
    var (front, rest) := ParseUnsigneds([1, 4, 8], s).value;
    UnsignedsLeave([1, 4, 8], s);
    BackLeaves(front, rest, size);
    LeftTwice(ParseBack(front, rest, size).value.1, rest, s);
  }

  /** What decoding leaves is a tail of its input, so dropping as many octets as it
      consumed leaves the same. */
  lemma ParseLeaves(s: seq<byte>)
    requires Parse(s).Some?
    ensures LeftOf(Parse(s).value.1, s)
  {
    var (size, rest) := ParseArraySize(s).value;
    HeadLeaves(s, 8);
    FieldsLeave(rest, size);
    LeftTwice(ParseFields(rest, size).value.1, rest, s);
  }

  // ------------------------------------------------------------------ setters

  /** The three `Set*Eid` methods: an ipn endpoint is parsed and printed again,
      every other one is taken for a dtn endpoint. */
  function FromEndpoint(scheme: seq<byte>, ssp: seq<byte>): Eid7
    requires scheme == Ascii("ipn") ==> Decimal.ScanPair(ssp).Some?
  {
    if scheme == Ascii("ipn") then
      var (node, service) := Decimal.ScanPair(ssp).value;
      Eid7(IPN, Decimal.PrintPair(node, service))
    else Eid7(DTN, ssp)
  }

  lemma ScannedAreInts(ssp: seq<byte>)
    requires Decimal.ScanPair(ssp).Some?
    ensures Decimal.ScanPair(ssp).value.0 < Decimal.INT_LIMIT && Decimal.ScanPair(ssp).value.1 < Decimal.INT_LIMIT
  {
  }

  /** The pair a setter keeps survives the wire exactly when it was given an ipn
      endpoint or a scheme-specific part other than "none". */
  lemma SetterFaithful(scheme: seq<byte>, ssp: seq<byte>)
    requires |ssp| < TWO32 && (scheme == Ascii("ipn") ==> Decimal.ScanPair(ssp).Some?)
    ensures Faithful(FromEndpoint(scheme, ssp)) <==> scheme == Ascii("ipn") || ssp != NoneSsp
  {
    if scheme == Ascii("ipn") {
      var (node, service) := Decimal.ScanPair(ssp).value;
      ScannedAreInts(ssp);
      Decimal.ScanPrinted(node, service);
      Decimal.PrintedIsCanonical(node, service);
    }
  }

  /** The scheme the code stands for, and the part, as given. */
  predicate GivenAs(e: Eid7, scheme: seq<byte>, ssp: seq<byte>)
  {
    scheme == (if e.code == IPN then Ascii("ipn") else Ascii("dtn")) && e.ssp == ssp
  }

  lemma IpnSurvives(ssp: seq<byte>, suffix: seq<byte>)
    requires Decimal.ScanPair(ssp).Some?
    ensures var e := FromEndpoint(Ascii("ipn"), ssp);
            Encodable(e) && ParseEid(EidWire(e) + suffix) == Some((e, suffix)) && (e.ssp == ssp <==> Decimal.Canonical(ssp))
  {
    var (node, service) := Decimal.ScanPair(ssp).value;
    ScannedAreInts(ssp);
    Decimal.PrintedIsCanonical(node, service);
    IpnRoundTrip(Decimal.PrintPair(node, service), suffix);
    if Decimal.Canonical(ssp) {
      Decimal.PrintScanned(ssp);
    }
  }

  /** An endpoint given to a setter comes back from the wire as it was given
      exactly when it is an ipn endpoint in canonical decimal or a dtn endpoint
      other than "dtn:none". */
  lemma SetterSurvives(scheme: seq<byte>, ssp: seq<byte>, suffix: seq<byte>)
    requires |ssp| < TWO32 && (scheme == Ascii("ipn") ==> Decimal.ScanPair(ssp).Some?)
    ensures Encodable(FromEndpoint(scheme, ssp))
    ensures var back := ParseEid(EidWire(FromEndpoint(scheme, ssp)) + suffix);
            back.Some? && back.value.1 == suffix
            && (GivenAs(back.value.0, scheme, ssp) <==>
                  if scheme == Ascii("ipn") then Decimal.Canonical(ssp) else scheme == Ascii("dtn") && ssp != NoneSsp)
  {
    if scheme == Ascii("ipn") {
      IpnSurvives(ssp, suffix);
    } else {
      DtnDecodes(ssp, suffix);
      assert |NoneSsp| == 4 && |ZeroSsp| == 1;
    }
  }

  // --------------------------------------------------------------- the program

  /** `EncodeEID`: the length is kept in one octet throughout. */
  method EncodeEID(buffer: ByteVector, e: Eid7) returns (length: nat)
    requires Encodable(e)
    modifies buffer
    ensures buffer.bytes == old(buffer.bytes) + EidWire(e) && length == ReportedLength(e)
  {
    ghost var before := buffer.bytes;
    var len := EncodeArraySize(buffer, 2);
    length := len % TWO8;
    ghost var two := Head(ARRAY, 2);
    if e.code == DTN {
      len := EncodeInteger(buffer, 1);
      length := (length + len) % TWO8;
      OneMorePart(before, two, Head(UNSIGNED, 1));
      if e.ssp == NoneSsp {
        len := EncodeInteger(buffer, 0);
      } else {
        len := EncodeBytes(buffer, e.ssp);
      }
      length := (length + len) % TWO8;
      OneMorePart(before, two + Head(UNSIGNED, 1), NamePart(e.ssp));
      assert two + Head(UNSIGNED, 1) + NamePart(e.ssp) == EidWire(e);
    } else {
      var (node, service) := Decimal.ScanPair(e.ssp).value;
      len := EncodeInteger(buffer, 2);
      length := (length + len) % TWO8;
      OneMorePart(before, two, Head(UNSIGNED, 2));
      len := EncodeArraySize(buffer, 2);
      length := (length + len) % TWO8;
      OneMorePart(before, two + Head(UNSIGNED, 2), two);
      len := EncodeUnsigneds(buffer, [node, service]);
      length := (length + len) % TWO8;
      OneMorePart(before, two + Head(UNSIGNED, 2) + two, Unsigneds([node, service]));
      assert two + Head(UNSIGNED, 2) + two + Unsigneds([node, service]) == EidWire(e);
    }
  }

  /** Another part behind what is written, and in the octet the length is kept in. */
  lemma OneMorePart(before: seq<byte>, a: seq<byte>, b: seq<byte>)
    ensures before + a + b == before + (a + b)
    ensures (|a| % TWO8 + |b|) % TWO8 == |a + b| % TWO8
  {
  }

  method EncodeEids(temp: ByteVector, dst: Eid7, src: Eid7, report: Eid7) returns (length: nat)
    requires Encodable(dst) && Encodable(src) && Encodable(report)
    modifies temp
    ensures temp.bytes == old(temp.bytes) + (EidWire(dst) + (EidWire(src) + EidWire(report)))
    ensures length == ReportedLength(dst) + ReportedLength(src) + ReportedLength(report)
  {
    ghost var before := temp.bytes;
    length := EncodeEID(temp, dst);
    var len := EncodeEID(temp, src);
    length := length + len;
    len := EncodeEID(temp, report);
    length := length + len;
    ThreeInARow(before, EidWire(dst), EidWire(src), EidWire(report));
  }

  lemma ThreeInARow(s: seq<byte>, a: seq<byte>, b: seq<byte>, c: seq<byte>)
    ensures s + a + b + c == s + (a + (b + c))
  {
  }

  predicate Numbers64(vs: seq<nat>)
  {
    forall i :: 0 <= i < |vs| ==> vs[i] < TWO64
  }

  method EncodeTail(temp: ByteVector, times: seq<nat>, fragment: bool, place: seq<nat>) returns (length: nat)
    requires Numbers64(times) && Numbers64(place)
    modifies temp
    ensures temp.bytes ==
              old(temp.bytes) + (Head(ARRAY, 2) + (Unsigneds(times) + if fragment then Unsigneds(place) else []))
    ensures length == |Head(ARRAY, 2)| + |Unsigneds(times)| + if fragment then |Unsigneds(place)| else 0
  {
    ghost var before := temp.bytes;
    length := EncodeArraySize(temp, 2);
    var len := EncodeUnsigneds(temp, times);
    length := length + len;
    if fragment {
      len := EncodeUnsigneds(temp, place);
      length := length + len;
    }
    ThreeInARow(before, Head(ARRAY, 2), Unsigneds(times), if fragment then Unsigneds(place) else []);
  }

  method DecodeName(c: Cursor) returns (r: Option<(seq<byte>, nat)>)
    modifies c
    ensures Advanced(r, ParseName(old(c.rest)), old(c.rest), c.rest)
  {
    if c.rest == [] {
      return None;
    }
    if c.rest[0] == 0 {
      var v := DecodeUnsigned(c, 8);
      r := if v.None? then None else Some((Decimal.Digits(v.value.0), v.value.1));
    } else {
      r := DecodeBytes(c);
    }
  }

  method DecodeNumbers(c: Cursor) returns (r: Option<(seq<byte>, nat)>)
    modifies c
    ensures Advanced(r, ParseNumbers(old(c.rest)), old(c.rest), c.rest)
  {
    var size := DecodeArraySize(c);
    if size.None? {
      return None;
    }
    var v := DecodeUnsigneds(c, [4, 4]);
    r := if v.None? then None
         else Some((Decimal.PrintPair(v.value.0[0], v.value.0[1]), size.value.1 + v.value.1));
  }

  method DecodeCoded(c: Cursor) returns (r: Option<(Eid7, nat)>)
    modifies c
    ensures Advanced(r, ParseCoded(old(c.rest)), old(c.rest), c.rest)
  {
    var code := DecodeUnsigned(c, 2);
    if code.None? {
      return None;
    }
    var ssp;
    if code.value.0 == IPN {
      ssp := DecodeNumbers(c);
    } else {
      ssp := DecodeName(c);
    }
    r := if ssp.None? then None else Some((Eid7(code.value.0, ssp.value.0), code.value.1 + ssp.value.1));
  }

  /** Two calls in a row, the second made unless the first fails. */
  function Sum<A, B>(first: Option<(A, nat)>, second: Option<(B, nat)>): Option<(B, nat)>
  {
    if first.None? || second.None? then None else Some((second.value.0, first.value.1 + second.value.1))
  }

  lemma InARow<A, B>(first: Option<(A, nat)>, parsed: Option<(A, seq<byte>)>, second: Option<(B, nat)>,
                     next: Option<(B, seq<byte>)>, s: seq<byte>, middle: seq<byte>, end: seq<byte>)
    requires Advanced(first, parsed, s, middle) && (first.Some? ==> Advanced(second, next, middle, end))
    ensures Advanced(Sum(first, second), if parsed.None? then None else next, s, end)
  {
  }

  lemma EidIs(s: seq<byte>, size: Option<(nat, seq<byte>)>)
    requires size == ParseArraySize(s)
    ensures ParseEid(s) == if size.None? then None else ParseCoded(size.value.1)
  {
  }

  lemma EidAdvances(s: seq<byte>, size: Option<(nat, nat)>, rest: seq<byte>, coded: Option<(Eid7, nat)>, end: seq<byte>)
    requires Advanced(size, ParseArraySize(s), s, rest) && (size.Some? ==> Advanced(coded, ParseCoded(rest), rest, end))
    ensures Advanced(Sum(size, coded), ParseEid(s), s, end)
  {
    var parsed := ParseArraySize(s);
    EidIs(s, parsed);
    InARow(size, parsed, coded, if parsed.Some? then ParseCoded(rest) else None, s, rest, end);
  }

  /** `DecodeEID`. */
  method DecodeEID(c: Cursor) returns (r: Option<(Eid7, nat)>)
    modifies c
    ensures Advanced(r, ParseEid(old(c.rest)), old(c.rest), c.rest)
  {
    ghost var s := c.rest;
    var size := DecodeArraySize(c);
    ghost var rest := c.rest;
    var coded := None;
    if size.Some? {
      coded := DecodeCoded(c);
    }
    EidAdvances(s, size, rest, coded, c.rest);
    r := Sum(size, coded);
  }

  method DecodeTwo(c: Cursor) returns (r: Option<((Eid7, Eid7), nat)>)
    modifies c
    ensures Advanced(r, ParseTwo(old(c.rest)), old(c.rest), c.rest)
  {
    ghost var s := c.rest;
    var src := DecodeEID(c);
    ghost var rest := c.rest;
    var report := None;
    if src.Some? {
      report := DecodeEID(c);
    }
    TwoAdvance(s, src, rest, report, c.rest);
    r := Paired(src, report);
  }

  function Paired(src: Option<(Eid7, nat)>, report: Option<(Eid7, nat)>): Option<((Eid7, Eid7), nat)>
  {
    if src.None? || report.None? then None
    else Some(((src.value.0, report.value.0), src.value.1 + report.value.1))
  }

  lemma TwoAdvance(s: seq<byte>, src: Option<(Eid7, nat)>, rest: seq<byte>, report: Option<(Eid7, nat)>, end: seq<byte>)
    requires Advanced(src, ParseEid(s), s, rest) && (src.Some? ==> Advanced(report, ParseEid(rest), rest, end))
    ensures Advanced(Paired(src, report), ParseTwo(s), s, end)
  {
    TwoAre(s, ParseEid(s));
    InARow(src, ParseEid(s), report, if src.Some? then ParseEid(rest) else None, s, rest, end);
  }

  lemma TwoAre(s: seq<byte>, src: Option<(Eid7, seq<byte>)>)
    requires src == ParseEid(s)
    ensures ParseTwo(s) ==
              if src.None? || ParseEid(src.value.1).None? then None
              else Some(((src.value.0, ParseEid(src.value.1).value.0), ParseEid(src.value.1).value.1))
  {
  }

  function WithTwo(dst: Option<(Eid7, nat)>, two: Option<((Eid7, Eid7), nat)>): Option<((Eid7, Eid7, Eid7), nat)>
  {
    if dst.None? || two.None? then None
    else Some(((dst.value.0, two.value.0.0, two.value.0.1), dst.value.1 + two.value.1))
  }

  lemma EidsAdvance(s: seq<byte>, dst: Option<(Eid7, nat)>, rest: seq<byte>, two: Option<((Eid7, Eid7), nat)>,
                    end: seq<byte>)
    requires Advanced(dst, ParseEid(s), s, rest) && (dst.Some? ==> Advanced(two, ParseTwo(rest), rest, end))
    ensures Advanced(WithTwo(dst, two), ParseEids(s), s, end)
  {
    EidsAre(s, ParseEid(s));
    InARow(dst, ParseEid(s), two, if dst.Some? then ParseTwo(rest) else None, s, rest, end);
  }

  lemma EidsAre(s: seq<byte>, dst: Option<(Eid7, seq<byte>)>)
    requires dst == ParseEid(s)
    ensures ParseEids(s) ==
              if dst.None? || ParseTwo(dst.value.1).None? then None
              else var (two, end) := ParseTwo(dst.value.1).value; Some(((dst.value.0, two.0, two.1), end))
  {
  }

  method DecodeEids(c: Cursor) returns (r: Option<((Eid7, Eid7, Eid7), nat)>)
    modifies c
    ensures Advanced(r, ParseEids(old(c.rest)), old(c.rest), c.rest)
  {
    ghost var s := c.rest;
    var dst := DecodeEID(c);
    ghost var rest := c.rest;
    var two := None;
    if dst.Some? {
      two := DecodeTwo(c);
    }
    EidsAdvance(s, dst, rest, two, c.rest);
    r := WithTwo(dst, two);
  }

  method DecodeTimes(c: Cursor, size: nat) returns (r: Option<((seq<nat>, seq<nat>), nat)>)
    modifies c
    ensures Advanced(r, ParseTimes(old(c.rest), size), old(c.rest), c.rest)
  {
    var times := DecodeUnsigneds(c, [4, 4, 4]);
    if times.None? {
      return None;
    }
    var place := Some(([], 0));
    if size > 8 {
      place := DecodeUnsigneds(c, [4, 4]);
    }
    r := if place.None? then None else Some(((times.value.0, place.value.0), times.value.1 + place.value.1));
  }

  method DecodeTail(c: Cursor, size: nat) returns (r: Option<((seq<nat>, seq<nat>), nat)>)
    modifies c
    ensures Advanced(r, ParseTail(old(c.rest), size), old(c.rest), c.rest)
  {
    var two := DecodeArraySize(c);
    if two.None? {
      return None;
    }
    var times := DecodeTimes(c, size);
    r := if times.None? then None else Some((times.value.0, two.value.1 + times.value.1));
  }

  function Joined(front: seq<nat>, eids: Option<((Eid7, Eid7, Eid7), nat)>, tail: Option<((seq<nat>, seq<nat>), nat)>)
    : Option<(Primary7, nat)>
    requires |front| == 3
    requires tail.Some? ==> |tail.value.0.0| == 3 && (|tail.value.0.1| == 2 || |tail.value.0.1| == 0)
  {
    if eids.None? || tail.None? then None
    else Some((Build(front, eids.value.0, tail.value.0.0, tail.value.0.1), eids.value.1 + tail.value.1))
  }

  lemma TailLengths(s: seq<byte>, size: nat, tail: Option<((seq<nat>, seq<nat>), nat)>, end: seq<byte>)
    requires Advanced(tail, ParseTail(s, size), s, end)
    ensures tail.Some? ==> |tail.value.0.0| == 3 && (|tail.value.0.1| == 2 || |tail.value.0.1| == 0)
  {
  }

  lemma BackAdvances(front: seq<nat>, s: seq<byte>, size: nat, eids: Option<((Eid7, Eid7, Eid7), nat)>,
                     rest: seq<byte>, tail: Option<((seq<nat>, seq<nat>), nat)>, end: seq<byte>)
    requires |front| == 3 && Advanced(eids, ParseEids(s), s, rest)
    requires if eids.Some? then Advanced(tail, ParseTail(rest, size), rest, end) else tail.None?
    requires tail.Some? ==> |tail.value.0.0| == 3 && (|tail.value.0.1| == 2 || |tail.value.0.1| == 0)
    ensures Advanced(Joined(front, eids, tail), ParseBack(front, s, size), s, end)
  {
    if eids.Some? && tail.Some? {
      BackMade(front, s, size, eids, rest, tail, end);
    } else {
      BackFails(front, s, size, eids, rest, tail, end);
    }
  }

  lemma BackMade(front: seq<nat>, s: seq<byte>, size: nat, eids: Option<((Eid7, Eid7, Eid7), nat)>, rest: seq<byte>,
                 tail: Option<((seq<nat>, seq<nat>), nat)>, end: seq<byte>)
    requires |front| == 3 && eids.Some? && tail.Some?
    requires |tail.value.0.0| == 3 && (|tail.value.0.1| == 2 || |tail.value.0.1| == 0)
    requires Advanced(eids, ParseEids(s), s, rest) && Advanced(tail, ParseTail(rest, size), rest, end)
    ensures Advanced(Joined(front, eids, tail), ParseBack(front, s, size), s, end)
  {
    Both(eids, ParseEids(s), tail, ParseTail(rest, size), s, rest, end);
    BackFrom(front, s, size, eids.value.0, rest, tail.value.0, end);
    Exactly(Joined(front, eids, tail).value, ParseBack(front, s, size), s, end);
  }

  lemma Both<A, B>(first: Option<(A, nat)>, parsed: Option<(A, seq<byte>)>, second: Option<(B, nat)>,
                   next: Option<(B, seq<byte>)>, s: seq<byte>, middle: seq<byte>, end: seq<byte>)
    requires first.Some? && second.Some? && Advanced(first, parsed, s, middle) && Advanced(second, next, middle, end)
    ensures parsed == Some((first.value.0, middle)) && next == Some((second.value.0, end))
    ensures |end| <= |s| && first.value.1 + second.value.1 == |s| - |end|
  {
  }

  lemma Exactly<A>(r: (A, nat), parsed: Option<(A, seq<byte>)>, s: seq<byte>, end: seq<byte>)
    requires |end| <= |s| && parsed == Some((r.0, end)) && r.1 == |s| - |end|
    ensures Advanced(Some(r), parsed, s, end)
  {
  }

  lemma BackFrom(front: seq<nat>, s: seq<byte>, size: nat, eids: (Eid7, Eid7, Eid7), rest: seq<byte>,
                 tail: (seq<nat>, seq<nat>), end: seq<byte>)
    requires |front| == 3
    requires ParseEids(s) == Some((eids, rest)) && ParseTail(rest, size) == Some((tail, end))
    ensures ParseBack(front, s, size) == Some((Build(front, eids, tail.0, tail.1), end))
  {
  }

  lemma BackFails(front: seq<nat>, s: seq<byte>, size: nat, eids: Option<((Eid7, Eid7, Eid7), nat)>,
                  rest: seq<byte>, tail: Option<((seq<nat>, seq<nat>), nat)>, end: seq<byte>)
    requires |front| == 3 && Advanced(eids, ParseEids(s), s, rest) && (eids.None? || tail.None?)
    requires eids.Some? ==> Advanced(tail, ParseTail(rest, size), rest, end)
    ensures ParseBack(front, s, size).None?
  {
  }

  method DecodeBack(c: Cursor, front: seq<nat>, size: nat) returns (r: Option<(Primary7, nat)>)
    requires |front| == 3
    modifies c
    ensures Advanced(r, ParseBack(front, old(c.rest), size), old(c.rest), c.rest)
  {
    ghost var s := c.rest;
    var eids := DecodeEids(c);
    ghost var rest := c.rest;
    var tail := None;
    if eids.Some? {
      tail := DecodeTail(c, size);
      TailLengths(rest, size, tail, c.rest);
    }
    BackAdvances(front, s, size, eids, rest, tail, c.rest);
    r := Joined(front, eids, tail);
  }

  method DecodeFields(c: Cursor, size: nat) returns (r: Option<(Primary7, nat)>)
    modifies c
    ensures Advanced(r, ParseFields(old(c.rest), size), old(c.rest), c.rest)
  {
    ghost var s := c.rest;
    var front := DecodeUnsigneds(c, [1, 4, 8]);
    if front.None? {
      return None;
    }
    ghost var rest := c.rest;
    var back := DecodeBack(c, front.value.0, size);
    InARow(front, ParseUnsigneds([1, 4, 8], s), back, ParseBack(front.value.0, rest, size), s, rest, c.rest);
    r := Sum(front, back);
  }

  lemma HeaderAdvances(s: seq<byte>, size: Option<(nat, nat)>, rest: seq<byte>, fields: Option<(Primary7, nat)>,
                       end: seq<byte>)
    requires Advanced(size, ParseArraySize(s), s, rest)
    requires size.Some? ==> Advanced(fields, ParseFields(rest, size.value.0), rest, end)
    ensures Advanced(Sum(size, fields), Parse(s), s, end)
  {
    var parsed := ParseArraySize(s);
    HeaderIs(s, parsed);
    InARow(size, parsed, fields, if parsed.Some? then ParseFields(rest, parsed.value.0) else None, s, rest, end);
  }

  method DecodeHeader(c: Cursor) returns (r: Option<(Primary7, nat)>)
    modifies c
    ensures Advanced(r, Parse(old(c.rest)), old(c.rest), c.rest)
  {
    ghost var s := c.rest;
    var size := DecodeArraySize(c);
    ghost var rest := c.rest;
    var fields := None;
    if size.Some? {
      fields := DecodeFields(c, size.value.0);
    }
    HeaderAdvances(s, size, rest, fields, c.rest);
    r := Sum(size, fields);
  }

  class BpHeader7 {
    var version: byte
    var processingFlags: nat
    var dst: Eid7
    var src: Eid7
    var report: Eid7
    var createTimestamp: nat
    var timestampSeqNum: nat
    var lifeTime: nat
    var fragOffset: nat
    var aduLength: nat
    var blockLength: nat

    /** The endpoints are set by the bundle's constructor. */
    constructor (dst: Eid7, src: Eid7, report: Eid7)
      ensures View() == Primary7(7, 0, dst, src, report, 0, 0, 0, 0, 0)
    {
      version, processingFlags, this.dst, this.src, this.report := 7, 0, dst, src, report;
      createTimestamp, timestampSeqNum, lifeTime, fragOffset, aduLength, blockLength := 0, 0, 0, 0, 0, 0;
    }

    function View(): Primary7
      reads this
    {
      Primary7(version, processingFlags, dst, src, report, createTimestamp, timestampSeqNum, lifeTime, fragOffset,
               aduLength)
    }

    method EncodeFront(temp: ByteVector) returns (length: nat)
      requires Ranges(View())
      modifies temp
      ensures temp.bytes == old(temp.bytes) + FrontWire(View()) && length == |FrontWire(View())|
    {
      length := EncodeArraySize(temp, if IsFragment(View()) then 10 else 8);
      var len := EncodeUnsigneds(temp, Front(View()));
      length := length + len;
    }

    /** The octets go into a vector first. */
    method Encoded() returns (temp: ByteVector, length: nat)
      requires Ranges(View())
      ensures fresh(temp) && temp.bytes == Wire(View()) && length == ReportedSize(View())
    {
      WireIs(View());
      temp := new ByteVector();
      length := EncodeFront(temp);
      assert temp.bytes == FrontWire(View());
      var len := EncodeEids(temp, dst, src, report);
      length := length + len;
      len := EncodeTail(temp, Times(View()), IsFragment(View()), PlaceNumbers(View()));
      length := length + len;
    }

    /** `SerializeAndGetSize`: a dry run writes nothing and returns the same. */
    method SerializeAndGetSize(start: Iterator, forReal: bool) returns (length: nat)
      requires Ranges(View()) && start.Valid()
      requires forReal ==> start.pos + |Wire(View())| <= start.data.Length
      modifies start`pos, start.data
      ensures start.Valid() && length == ReportedSize(View())
      ensures forReal ==> Wrote(old(start.data[..]), old(start.pos), start.data[..], start.pos, Wire(View()))
      ensures !forReal ==> start.pos == old(start.pos) && start.data[..] == old(start.data[..])
    {
      var temp;
      temp, length := Encoded();
      if forReal {
        start.WriteAll(temp.bytes);
      }
    }

    method Assign(h: Primary7)
      modifies this
      ensures View() == h
    {
      version, processingFlags, dst, src, report := h.version, h.flags, h.dst, h.src, h.report;
      createTimestamp, timestampSeqNum, lifeTime := h.timestamp, h.sequence, h.lifetime;
      fragOffset, aduLength := h.fragOffset, h.aduLength;
    }

    /** `Deserialize` into a fresh header: all that is left in the packet is copied
        into a vector and decoded from there; `None` where it throws. */
    method Deserialize(remaining: seq<byte>) returns (r: Option<nat>)
      modifies this
      ensures match Parse(remaining)
              case None => r.None?
              case Some((h, rest)) => View() == h && r == Some(|remaining| - |rest|)
    {
      var c := new Cursor(remaining);
      var h := DecodeHeader(c);
      if h.None? {
        return None;
      }
      Assign(h.value.0);
      r := Some(h.value.1);
    }
  }
}
