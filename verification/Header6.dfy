/**
 The version 6 primary block (bp/model/bp-header-6.cc, bp/model/bp-header.cc;
 section 4.5.1 of RFC 5050): processing flags, the string dictionary with its
 eight offsets, and the octets on the wire.

 `Primary` is the value of a header object; class `BpHeader6` at the end is the
 object itself, its methods proved against the functions on `Primary`.
 */
module Header6 {
  import opened Arithmetic
  import opened Buffers
  import opened Bytes
  import opened Endpoint
  import Decimal
  import Sdnv

  datatype Role = Destination | Source | Report | Custodian

  /** A pair of offsets into the dictionary or, under CBHE, node and service. */
  datatype Ref = Ref(scheme: nat, ssp: nat)

  datatype Primary = Primary(
    version: byte, flags: bv32, blockLength: nat,
    dst: Ref, src: Ref, report: Ref, cust: Ref,
    timestamp: nat, sequence: nat, lifetime: nat, dictionary: seq<byte>,
    fragOffset: nat, aduLength: nat, cbhe: bool)

  function New(cbhe: bool): Primary
  {
    Primary(6, 0, 0, Ref(0, 0), Ref(0, 0), Ref(0, 0), Ref(0, 0), 0, 0, 0, [], 0, 0, cbhe)
  }

  // ------------------------------------------------------ processing flags

  const IS_FRAGMENT: bv32 := 0x1
  const CUSTODY_XFER: bv32 := 0x8
  const RECEPTION_REPORT: bv32 := 0x4000
  const PRIORITY: bv32 := 0x7780 // 0x00EF << 7

  function IsFragment(h: Primary): bool { h.flags & IS_FRAGMENT != 0 }

  function CustTxReq(h: Primary): bool { h.flags & CUSTODY_XFER != 0 }

  function ReceptionReport(h: Primary): bool { h.flags & RECEPTION_REPORT != 0 }

  function Priority(h: Primary): bv32 { ((h.flags & PRIORITY) >> 7) & 0xff }

  function WithFlag(h: Primary, flag: bv32, value: bool): Primary
  {
    h.(flags := SetBits(h.flags, flag, value))
  }

  function SetBits(f: bv32, flag: bv32, value: bool): bv32
  {
    if value then f | flag else f & !flag
  }

  function WithPriority(h: Primary, pri: bv32): Primary
  {
    h.(flags := OrPriority(h.flags, pri))
  }

  function OrPriority(f: bv32, pri: bv32): bv32
  {
    f | (f & !PRIORITY) | (pri << 7)
  }

  /** From `f` to `f'` the bits of `g` have become `value`; every other bit is
      as it was. */
  predicate BitsBecome(f: bv32, f': bv32, g: bv32, value: bool)
  {
    f' & g == (if value then g else 0) && f' & !g == f & !g
  }

  lemma JoinedBits(f: bv32, g: bv32)
    ensures (f | g) & g == g
  {
  }

  lemma OtherBits(f: bv32, g: bv32)
    ensures (f | g) & !g == f & !g
  {
  }

  lemma BitsSet(f: bv32, g: bv32)
    ensures BitsBecome(f, f | g, g, true)
  {
    JoinedBits(f, g);
    OtherBits(f, g);
  }

  lemma BitsCleared(f: bv32, g: bv32)
    ensures BitsBecome(f, f & !g, g, false)
  {
  }

  lemma FlagBecomes(f: bv32, flag: bv32, value: bool)
    ensures BitsBecome(f, SetBits(f, flag, value), flag, value)
  {
    if value {
      BitsSet(f, flag);
    } else {
      BitsCleared(f, flag);
    }
  }

  lemma Absorbs(f: bv32, g: bv32)
    ensures f | (f & !PRIORITY) | g == f | g
  {
  }

  lemma FragmentBit(f: bv32)
    ensures (f | 0x1) & 0x1 != 0 && (f & !0x1) & 0x1 == 0
    ensures (f | 0x1) & 0x8 == f & 0x8 && (f & !0x1) & 0x8 == f & 0x8
    ensures (f | 0x1) & 0x7780 == f & 0x7780 && (f & !0x1) & 0x7780 == f & 0x7780
  {
  }

  lemma CustodyBit(f: bv32)
    ensures (f | 0x8) & 0x8 != 0 && (f & !0x8) & 0x8 == 0
    ensures (f | 0x8) & 0x1 == f & 0x1 && (f & !0x8) & 0x1 == f & 0x1
    ensures (f | 0x8) & 0x7780 == f & 0x7780 && (f & !0x8) & 0x7780 == f & 0x7780
  {
  }

  /** Raising or clearing the fragment flag leaves the custody flag and the
      priority alone. */
  lemma FragmentFlag(h: Primary, v: bool)
    ensures IsFragment(WithFlag(h, IS_FRAGMENT, v)) == v
    ensures CustTxReq(WithFlag(h, IS_FRAGMENT, v)) == CustTxReq(h)
    ensures Priority(WithFlag(h, IS_FRAGMENT, v)) == Priority(h)
  {
    FragmentBit(h.flags);
  }

  lemma CustodyFlag(h: Primary, v: bool)
    ensures CustTxReq(WithFlag(h, CUSTODY_XFER, v)) == v
    ensures IsFragment(WithFlag(h, CUSTODY_XFER, v)) == IsFragment(h)
    ensures Priority(WithFlag(h, CUSTODY_XFER, v)) == Priority(h)
  {
    CustodyBit(h.flags);
  }

  /** The setter never clears a bit and the mask is wider than two bits with a
      hole in it: an octet reads back exactly when it avoids the hole (0x10) and
      already covers the priority bits that are set. */
  lemma PriorityReadsBack(h: Primary, pri: bv32)
    requires pri < 0x100
    ensures Priority(WithPriority(h, pri)) == pri <==> pri & 0x10 == 0 && Priority(h) & !pri == 0
  {
  }

  /** Setting a priority leaves the fragment and custody flags alone. */
  lemma PriorityKeepsFlags(h: Primary, pri: bv32)
    ensures IsFragment(WithPriority(h, pri)) == IsFragment(h) && CustTxReq(WithPriority(h, pri)) == CustTxReq(h)
  {
  }

  /** A request for a reception report is bit 7 of the priority mask: it reads
      back as priority 128, and setting that priority makes the request. */
  lemma ReceptionReportIsAPriority(h: Primary)
    ensures ReceptionReport(h) <==> Priority(h) & 0x80 != 0
    ensures ReceptionReport(WithPriority(h, 0x80))
  {
  }

  // ------------------------------------------------------------ dictionary

  function RefOf(h: Primary, role: Role): Ref
  {
    match role
    case Destination => h.dst
    case Source => h.src
    case Report => h.report
    case Custodian => h.cust
  }

  function WithRef(h: Primary, role: Role, r: Ref): Primary
  {
    match role
    case Destination => h.(dst := r)
    case Source => h.(src := r)
    case Report => h.(report := r)
    case Custodian => h.(cust := r)
  }

  /** The four `Set*Eid` methods without CBHE: both parts are appended with a
      terminating NUL and their places kept in 16 bits. */
  function WithEid(h: Primary, role: Role, scheme: seq<byte>, ssp: seq<byte>): Primary
  {
    var at := |h.dictionary|;
    WithRef(h, role, Ref(at % TWO16, (at + |scheme| + 1) % TWO16))
    .(dictionary := h.dictionary + scheme + [0] + ssp + [0])
  }

  /** The text up to the first NUL (`c_str`). */
  function CString(s: seq<byte>): seq<byte>
  {
    if s == [] || s[0] == 0 then [] else [s[0]] + CString(s[1..])
  }

  function TextAt(dictionary: seq<byte>, at: nat): Option<seq<byte>>
  {
    if at <= |dictionary| then Some(CString(dictionary[at..])) else None
  }

  /** The four `Get*Eid` methods; `None` where an offset is past the end of the
      dictionary and `substr` throws. */
  function GetEid(h: Primary, role: Role): Option<EndpointId>
  {
    var r := RefOf(h, role);
    if h.cbhe then Some(FromParts(Ascii("ipn"), Decimal.PrintPair(r.scheme, r.ssp)))
    else
      match (TextAt(h.dictionary, r.scheme), TextAt(h.dictionary, r.ssp))
      case (Some(scheme), Some(ssp)) => Some(FromParts(scheme, ssp))
      case _ => None
  }

  /** `text`, NUL-terminated, stands in the dictionary at `at`. */
  predicate Entry(dictionary: seq<byte>, at: nat, text: seq<byte>)
  {
    at + |text| < |dictionary| && dictionary[at..at + |text|] == text && dictionary[at + |text|] == 0
  }

  lemma {:induction false} CStringReads(s: seq<byte>, text: seq<byte>)
    requires |text| < |s| && s[..|text|] == text && s[|text|] == 0 && 0 !in text
    ensures CString(s) == text
  {
    if text != [] {
      assert s[0] == text[0];
      assert s[1..][..|text| - 1] == text[1..];
      CStringReads(s[1..], text[1..]);
    }
  }

  lemma EntryReads(dictionary: seq<byte>, at: nat, text: seq<byte>)
    requires Entry(dictionary, at, text) && 0 !in text
    ensures TextAt(dictionary, at) == Some(text)
  {
    assert dictionary[at..][..|text|] == text;
    CStringReads(dictionary[at..], text);
  }

  lemma EntrySurvives(dictionary: seq<byte>, more: seq<byte>, at: nat, text: seq<byte>)
    requires Entry(dictionary, at, text)
    ensures Entry(dictionary + more, at, text)
  {
    assert (dictionary + more)[at..at + |text|] == dictionary[at..at + |text|];
  }

  /** One `Set*Eid` call; `Custodian` stands for `SetCustEid` and so on. */
  datatype SetEid = SetEid(role: Role, scheme: seq<byte>, ssp: seq<byte>)

  function Apply(h: Primary, calls: seq<SetEid>): Primary
  {
    if calls == [] then h
    else
      var c := calls[|calls| - 1];
      WithEid(Apply(h, calls[..|calls| - 1]), c.role, c.scheme, c.ssp)
  }

  /** The last call for a role, if any. */
  function LastFor(calls: seq<SetEid>, role: Role): (r: Option<SetEid>)
    ensures r.Some? ==> r.value in calls && r.value.role == role
  {
    if calls == [] then None
    else if calls[|calls| - 1].role == role then Some(calls[|calls| - 1])
    else LastFor(calls[..|calls| - 1], role)
  }

  ghost predicate Live(h: Primary, c: SetEid)
  {
    Entry(h.dictionary, RefOf(h, c.role).scheme, c.scheme) && Entry(h.dictionary, RefOf(h, c.role).ssp, c.ssp)
  }

  lemma LiveReads(h: Primary, c: SetEid)
    requires !h.cbhe && Live(h, c) && 0 !in c.scheme && 0 !in c.ssp
    ensures GetEid(h, c.role) == Some(FromParts(c.scheme, c.ssp))
  {
    EntryReads(h.dictionary, RefOf(h, c.role).scheme, c.scheme);
    EntryReads(h.dictionary, RefOf(h, c.role).ssp, c.ssp);
  }

  lemma WithEidKeeps(h: Primary, c: SetEid, old_c: SetEid)
    requires Live(h, old_c) && old_c.role != c.role
    ensures Live(WithEid(h, c.role, c.scheme, c.ssp), old_c)
  {
    var more := c.scheme + [0] + c.ssp + [0];
    assert h.dictionary + more == WithEid(h, c.role, c.scheme, c.ssp).dictionary;
    EntrySurvives(h.dictionary, more, RefOf(h, old_c.role).scheme, old_c.scheme);
    EntrySurvives(h.dictionary, more, RefOf(h, old_c.role).ssp, old_c.ssp);
  }

  lemma WithEidIsLive(h: Primary, c: SetEid)
    requires |h.dictionary| + |c.scheme| + 1 < TWO16
    ensures Live(WithEid(h, c.role, c.scheme, c.ssp), c)
  {
    RefSet(h, c);
    SchemeEntry(h.dictionary, c.scheme, c.ssp);
    SspEntry(h.dictionary, c.scheme, c.ssp);
  }

  lemma RefSet(h: Primary, c: SetEid)
    requires |h.dictionary| + |c.scheme| + 1 < TWO16
    ensures var h' := WithEid(h, c.role, c.scheme, c.ssp);
            RefOf(h', c.role) == Ref(|h.dictionary|, |h.dictionary| + |c.scheme| + 1)
            && h'.dictionary == h.dictionary + c.scheme + [0] + c.ssp + [0]
  {
    Small(|h.dictionary|, TWO16);
    Small(|h.dictionary| + |c.scheme| + 1, TWO16);
  }

  lemma SchemeEntry(d: seq<byte>, scheme: seq<byte>, ssp: seq<byte>)
    ensures Entry(d + scheme + [0] + ssp + [0], |d|, scheme)
  {
  }

  lemma SspEntry(d: seq<byte>, scheme: seq<byte>, ssp: seq<byte>)
    ensures Entry(d + scheme + [0] + ssp + [0], |d| + |scheme| + 1, ssp)
  {
  }

  lemma {:induction false} ApplyKeepsLive(h: Primary, calls: seq<SetEid>, role: Role)
    requires |Apply(h, calls).dictionary| < TWO16 && LastFor(calls, role).Some?
    ensures Live(Apply(h, calls), LastFor(calls, role).value)
    ensures |h.dictionary| <= |Apply(h, calls).dictionary|
    ensures Apply(h, calls).cbhe == h.cbhe
  {
    var init, c := calls[..|calls| - 1], calls[|calls| - 1];
    ApplyGrows(h, init);
    if c.role == role {
      WithEidIsLive(Apply(h, init), c);
    } else {
      ApplyKeepsLive(h, init, role);
      WithEidKeeps(Apply(h, init), c, LastFor(init, role).value);
    }
  }

  lemma {:induction false} ApplyGrows(h: Primary, calls: seq<SetEid>)
    ensures |h.dictionary| <= |Apply(h, calls).dictionary| && Apply(h, calls).cbhe == h.cbhe
  {
    if calls != [] {
      ApplyGrows(h, calls[..|calls| - 1]);
    }
  }

  /** Dictionary invariant: after any sequence of the four setters every getter
      gives the endpoint last set for that role. */
  lemma GetterGivesLastSet(h: Primary, calls: seq<SetEid>, role: Role)
    requires !h.cbhe && |Apply(h, calls).dictionary| < TWO16
    requires LastFor(calls, role).Some?
    requires 0 !in LastFor(calls, role).value.scheme && 0 !in LastFor(calls, role).value.ssp
    ensures GetEid(Apply(h, calls), role)
         == Some(FromParts(LastFor(calls, role).value.scheme, LastFor(calls, role).value.ssp))
  {
    ApplyKeepsLive(h, calls, role);
    LiveReads(Apply(h, calls), LastFor(calls, role).value);
  }

  /** The setters under CBHE: node and service number in 16 bits. */
  function WithIpnEid(h: Primary, role: Role, ssp: seq<byte>): Primary
    requires Decimal.ScanPair(ssp).Some?
  {
    var (node, service) := Decimal.ScanPair(ssp).value;
    WithRef(h, role, Ref(node % TWO16, service % TWO16))
  }

  /** Under CBHE the getter gives back canonical text exactly when both numbers
      fit the 16 bits of an offset field. */
  lemma CbheReadsBack(h: Primary, role: Role, ssp: seq<byte>)
    requires h.cbhe && Decimal.Canonical(ssp)
    ensures Decimal.ScanPair(ssp).Some?
    ensures GetEid(WithIpnEid(h, role, ssp), role) == Some(FromParts(Ascii("ipn"), ssp))
       <==> Decimal.ScanPair(ssp).value.0 < TWO16 && Decimal.ScanPair(ssp).value.1 < TWO16
  {
    Decimal.PrintScanned(ssp);
    var (node, service) := Decimal.ScanPair(ssp).value;
    var n, s := node % TWO16, service % TWO16;
    var back := Decimal.PrintPair(n, s);
    assert GetEid(WithIpnEid(h, role, ssp), role) == Some(FromParts(Ascii("ipn"), back));
    Decimal.ScanPrinted(n, s);
    if FromParts(Ascii("ipn"), back) == FromParts(Ascii("ipn"), ssp) {
      var u, v := Ascii("ipn") + [COLON] + back, Ascii("ipn") + [COLON] + ssp;
      assert u[4..] == back && v[4..] == ssp;
    }
  }

  // ------------------------------------------------------------- the wire

  /** The numbers before the dictionary, in wire order. */
  function Front(h: Primary): seq<nat>
  {
    [h.flags as nat, h.blockLength, h.dst.scheme, h.dst.ssp, h.src.scheme, h.src.ssp,
     h.report.scheme, h.report.ssp, h.cust.scheme, h.cust.ssp,
     h.timestamp, h.sequence, h.lifetime / SECOND, |h.dictionary|]
  }

  function Wire(h: Primary): seq<byte>
  {
    [h.version] + Sdnv.Series(Front(h)) + h.dictionary + Sdnv.Series([h.fragOffset, h.aduLength])
  }

  function Narrow(v: nat): bv32
  {
    (v % TWO32) as bv32
  }

  function Rebuild(version: byte, v: seq<nat>, dictionary: seq<byte>, w: seq<nat>, cbhe: bool): Primary
    requires |v| == 14 && |w| == 2
  {
    Primary(version, Narrow(v[0]), v[1] % TWO32,
            Ref(v[2] % TWO16, v[3] % TWO16), Ref(v[4] % TWO16, v[5] % TWO16),
            Ref(v[6] % TWO16, v[7] % TWO16), Ref(v[8] % TWO16, v[9] % TWO16),
            v[10] % TWO32, v[11] % TWO32, v[12] * SECOND, dictionary,
            w[0] % TWO32, w[1] % TWO32, cbhe)
  }

  /** `Deserialize`: the header and what follows it; `None` where the program
      reads past the end of the buffer. */
  function Parse(s: seq<byte>, cbhe: bool): Option<(Primary, seq<byte>)>
  {
    if s == [] then None
    else
      match Sdnv.ParseSeries(14, s[1..])
      case None => None
      case Some((v, rest)) =>
        Sdnv.ParsedLength(14, s[1..]);
        var n := v[13] % TWO32;
        if n > |rest| then None
        else
          match Sdnv.ParseSeries(2, rest[n..])
          case None => None
          case Some((w, rest')) =>
            Sdnv.ParsedLength(2, rest[n..]);
            Some((Rebuild(s[0], v, rest[..n], w, cbhe), rest'))
  }

  /** Every field fits its C++ type. */
  predicate Ranges(h: Primary)
  {
    h.blockLength < TWO32 && h.timestamp < TWO32 && h.sequence < TWO32 &&
    h.fragOffset < TWO32 && h.aduLength < TWO32 && |h.dictionary| < TWO32 &&
    h.lifetime / SECOND < TWO64 && OffsetsFit(h)
  }

  predicate OffsetsFit(h: Primary)
  {
    RefFits(h.dst) && RefFits(h.src) && RefFits(h.report) && RefFits(h.cust)
  }

  predicate RefFits(r: Ref)
  {
    r.scheme < TWO16 && r.ssp < TWO16
  }

  /** The wire carries the lifetime in whole seconds. */
  function WholeSeconds(h: Primary): Primary
  {
    h.(lifetime := h.lifetime / SECOND * SECOND)
  }

  lemma FlagsFit(f: bv32)
    ensures f as nat < TWO32
  {
  }

  lemma FlagsBack(f: bv32)
    ensures (f as nat) as bv32 == f
  {
  }

  lemma NarrowSmall(n: nat)
    requires n < TWO32
    ensures Narrow(n) == n as bv32
  {
    Small(n, TWO32);
  }

  lemma FlagsRoundTrip(f: bv32)
    ensures Narrow(f as nat) == f
  {
    FlagsFit(f);
    FlagsBack(f);
    NarrowSmall(f as nat);
  }

  lemma RefBack(r: Ref)
    requires RefFits(r)
    ensures Ref(r.scheme % TWO16, r.ssp % TWO16) == r
  {
  }

  lemma RebuildFront(h: Primary)
    requires Ranges(h)
    ensures Rebuild(h.version, Front(h), h.dictionary, [h.fragOffset, h.aduLength], h.cbhe) == WholeSeconds(h)
  {
    FlagsRoundTrip(h.flags);
    RefBack(h.dst);
    RefBack(h.src);
    RefBack(h.report);
    RefBack(h.cust);
    Small(h.blockLength, TWO32);
    Small(h.timestamp, TWO32);
    Small(h.sequence, TWO32);
    Small(h.fragOffset, TWO32);
    Small(h.aduLength, TWO32);
  }

  /** Wire round trip: decoding an encoded header, whatever follows, restores
      every field (the lifetime in whole seconds) and stops right behind it. */
  lemma WireRoundTrip(h: Primary, suffix: seq<byte>)
    requires Ranges(h)
    ensures Parse(Wire(h) + suffix, h.cbhe) == Some((WholeSeconds(h), suffix))
  {
    var d, back := h.dictionary, Sdnv.Series([h.fragOffset, h.aduLength]);
    FourParts(h.version, Sdnv.Series(Front(h)), d, back, suffix);
    FrontFits(h);
    Sdnv.SeriesRoundTrip(Front(h), d + back + suffix);
    Small(|d|, TWO32);
    Sdnv.SeriesRoundTrip([h.fragOffset, h.aduLength], suffix);
    ParseIs(Wire(h) + suffix, Front(h), d, back, [h.fragOffset, h.aduLength], suffix, h.cbhe);
    RebuildFront(h);
  }

  lemma FourParts(version: byte, front: seq<byte>, d: seq<byte>, back: seq<byte>, suffix: seq<byte>)
    ensures var s := [version] + front + d + back + suffix; s != [] && s[0] == version && s[1..] == front + (d + back + suffix)
  {
  }

  lemma ParseIs(s: seq<byte>, v: seq<nat>, d: seq<byte>, back: seq<byte>, w: seq<nat>, suffix: seq<byte>, cbhe: bool)
    requires s != [] && Sdnv.ParseSeries(14, s[1..]) == Some((v, d + back + suffix)) && |v| == 14 && v[13] % TWO32 == |d|
    requires Sdnv.ParseSeries(2, back + suffix) == Some((w, suffix)) && |w| == 2
    ensures Parse(s, cbhe) == Some((Rebuild(s[0], v, d, w, cbhe), suffix))
  {
    var rest := d + back + suffix;
    assert rest[..|d|] == d && rest[|d|..] == back + suffix;
  }

  /** What the getters answer survives the trip. */
  lemma EidsSurviveTheWire(h: Primary, suffix: seq<byte>, role: Role)
    requires Ranges(h)
    ensures Parse(Wire(h) + suffix, h.cbhe).Some?
    ensures GetEid(Parse(Wire(h) + suffix, h.cbhe).value.0, role) == GetEid(h, role)
  {
    WireRoundTrip(h, suffix);
  }

  // --------------------------------------------------------------- the object

  class BpHeader6 {
    const cbhe: bool
    var version: byte
    var processingFlags: bv32
    var blockLength: nat
    var dst: Ref
    var src: Ref
    var report: Ref
    var cust: Ref
    var createTimestamp: nat
    var timestampSeqNum: nat
    var lifeTime: nat
    var dictionary: seq<byte>
    var fragOffset: nat
    var aduLength: nat

    constructor (useCbhe: bool)
      ensures View() == New(useCbhe)
    {
      cbhe, version, processingFlags, blockLength := useCbhe, 6, 0, 0;
      dst, src, report, cust := Ref(0, 0), Ref(0, 0), Ref(0, 0), Ref(0, 0);
      createTimestamp, timestampSeqNum, lifeTime, dictionary, fragOffset, aduLength := 0, 0, 0, [], 0, 0;
    }

    function View(): Primary
      reads this
    {
      Primary(version, processingFlags, blockLength, dst, src, report, cust, createTimestamp, timestampSeqNum,
              lifeTime, dictionary, fragOffset, aduLength, cbhe)
    }

    /** `SetIsFragment`, `SetCustTxReq` and the other flag setters: the flag has
        the value and every other bit is as it was. */
    method SetFlag(flag: bv32, value: bool)
      modifies this`processingFlags
      ensures BitsBecome(old(processingFlags), processingFlags, flag, value)
    {
      FlagBecomes(processingFlags, flag, value);
      if value {
        processingFlags := processingFlags | flag;
      } else {
        processingFlags := processingFlags & !flag;
      }
    }

    /** The mask clears nothing: the priority's bits join those already set. */
    method SetPriority(pri: bv32)
      modifies this`processingFlags
      ensures processingFlags == old(processingFlags) | (pri << 7)
    {
      Absorbs(processingFlags, pri << 7);
      processingFlags := processingFlags | (processingFlags & !PRIORITY) | (pri << 7);
    }

    method SetRef(role: Role, r: Ref)
      modifies this
      ensures View() == WithRef(old(View()), role, r)
    {
      match role
      case Destination => dst := r;
      case Source => src := r;
      case Report => report := r;
      case Custodian => cust := r;
    }

    /** `SetDestinationEid`, `SetSourceEid`, `SetReportEid` and `SetCustEid`. */
    method SetEidFor(role: Role, scheme: seq<byte>, ssp: seq<byte>)
      requires cbhe ==> Decimal.ScanPair(ssp).Some?
      modifies this
      ensures View() == if cbhe then WithIpnEid(old(View()), role, ssp) else WithEid(old(View()), role, scheme, ssp)
    {
      if cbhe {
        var (node, service) := Decimal.ScanPair(ssp).value;
        SetRef(role, Ref(node % TWO16, service % TWO16));
      } else {
        var schemeOffset := |dictionary| % TWO16;
        dictionary := dictionary + scheme;
        dictionary := dictionary + [0];
        var sspOffset := |dictionary| % TWO16;
        dictionary := dictionary + ssp;
        dictionary := dictionary + [0];
        SetRef(role, Ref(schemeOffset, sspOffset));
      }
    }

    /** `SerializeAndGetSize`: a dry run writes nothing and returns the same. */
    method SerializeAndGetSize(start: Iterator, forReal: bool) returns (length: nat)
      requires start.Valid() && Ranges(View())
      requires forReal ==> start.pos + |Wire(View())| <= start.data.Length
      modifies start`pos, start.data
      ensures start.Valid() && length == |Wire(View())|
      ensures forReal ==> Wrote(old(start.data[..]), old(start.pos), start.data[..], start.pos, Wire(View()))
      ensures !forReal ==> start.pos == old(start.pos) && start.data[..] == old(start.data[..])
    {
      var front, back := Front(View()), [fragOffset, aduLength];
      FrontFits(View());
      WireLength(View());
      length := WriteParts(start, version, front, dictionary, back, forReal);
    }

    /** `Deserialize`; the size it returns is the distance it has read. */
    method Deserialize(start: Iterator) returns (size: nat)
      requires start.Valid() && Parse(start.Rest(), cbhe).Some?
      modifies this, start`pos
      ensures start.Valid() && (View(), start.Rest()) == Parse(old(start.Rest()), cbhe).value
      ensures size == start.pos - old(start.pos) && start.pos >= old(start.pos)
    {
      var begin := start.pos;
      var first, v, dict, w := ReadParts(start, cbhe);
      Assign(Rebuild(first, v, dict, w, cbhe));
      size := start.pos - begin;
    }

    method Assign(h: Primary)
      requires h.cbhe == cbhe
      modifies this
      ensures View() == h
    {
      version, processingFlags, blockLength := h.version, h.flags, h.blockLength;
      dst, src, report, cust := h.dst, h.src, h.report, h.cust;
      createTimestamp, timestampSeqNum, lifeTime := h.timestamp, h.sequence, h.lifetime;
      dictionary, fragOffset, aduLength := h.dictionary, h.fragOffset, h.aduLength;
    }
  }

  lemma FrontFits(h: Primary)
    requires Ranges(h)
    ensures forall i :: 0 <= i < |Front(h)| ==> Front(h)[i] < TWO64
  {
    FlagsFit(h.flags);
  }

  lemma WireLength(h: Primary)
    ensures Wire(h) == Laid(h.version, Front(h), h.dictionary, [h.fragOffset, h.aduLength])
  {
  }

  function Laid(version: byte, front: seq<nat>, dictionary: seq<byte>, back: seq<nat>): seq<byte>
  {
    [version] + Sdnv.Series(front) + dictionary + Sdnv.Series(back)
  }

  /** The parts of the block in wire order. */
  method WriteParts(start: Iterator, version: byte, front: seq<nat>, dictionary: seq<byte>, back: seq<nat>, forReal: bool)
    returns (length: nat)
    requires start.Valid() && (forall i :: 0 <= i < |front| ==> front[i] < TWO64)
    requires forall i :: 0 <= i < |back| ==> back[i] < TWO64
    requires forReal ==> start.pos + |Laid(version, front, dictionary, back)| <= start.data.Length
    modifies start`pos, start.data
    ensures start.Valid() && length == |Laid(version, front, dictionary, back)|
    ensures forReal ==> Wrote(old(start.data[..]), old(start.pos), start.data[..], start.pos,
                              Laid(version, front, dictionary, back))
    ensures !forReal ==> start.pos == old(start.pos) && start.data[..] == old(start.data[..])
  {
    ghost var d0, p0 := start.data[..], start.pos;
    length := 1;
    if forReal {
      start.WriteU8(version);
    }
    ghost var d1, p1 := start.data[..], start.pos;
    var len := Sdnv.WriteSeries(start, front, forReal);
    length := length + len;
    ghost var d2, p2 := start.data[..], start.pos;
    if forReal {
      start.WriteAll(dictionary);
    }
    length := length + |dictionary|;
    ghost var d3, p3 := start.data[..], start.pos;
    len := Sdnv.WriteSeries(start, back, forReal);
    length := length + len;
    if forReal {
      WroteMore(d0, p0, d1, p1, d2, p2, [version], Sdnv.Series(front));
      WroteMore(d0, p0, d2, p2, d3, p3, [version] + Sdnv.Series(front), dictionary);
      WroteMore(d0, p0, d3, p3, start.data[..], start.pos, [version] + Sdnv.Series(front) + dictionary, Sdnv.Series(back));
    }
  }

  method ReadParts(start: Iterator, cbhe: bool)
    returns (version: byte, v: seq<nat>, dictionary: seq<byte>, w: seq<nat>)
    requires start.Valid() && Parse(start.Rest(), cbhe).Some?
    modifies start`pos
    ensures start.Valid() && start.pos >= old(start.pos) && |v| == 14 && |w| == 2
    ensures Parse(old(start.Rest()), cbhe) == Some((Rebuild(version, v, dictionary, w, cbhe), start.Rest()))
  {
    version := start.ReadU8();
    v := Sdnv.DecodeSeries(start, 14);
    var dictLength := v[13] % TWO32;
    dictionary := start.ReadBytes(dictLength);
    w := Sdnv.DecodeSeries(start, 2);
  }
}
