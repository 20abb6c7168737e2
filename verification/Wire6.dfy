/**
 One packet per bundle: what `BpCla::SendBundle` puts on the wire and what
 `BpCla::DataRecv` makes of it (bp/model/bp-cla.cc), for headers as the agent
 builds them.
 */
module Wire6 {
  import opened Bytes
  import opened Bundles
  import opened Endpoint
  import opened Agent
  import H = Header6
  import B = BlockHeader6

  const PAYLOAD_BLOCK: byte := 1
  const PAYLOAD_LIMIT: nat := 0x1000_0000

  function Call(role: H.Role, uri: seq<byte>): H.SetEid
    requires ValidUri(uri)
  {
    H.SetEid(role, SchemeOf(uri), SspOf(uri))
  }

  /** The endpoint setters run by the bundle's constructor. */
  function Defaults(): seq<H.SetEid>
  {
    DtnNoneIsValid();
    [Call(H.Source, DtnNone), Call(H.Destination, DtnNone), Call(H.Report, DtnNone), Call(H.Custodian, DtnNone)]
  }

  /** The endpoint setters run on an outgoing header: the constructor's, then
      two or three by `Send`. */
  function EidCalls(h: Header): seq<H.SetEid>
    requires Endpoints(h)
  {
    var named := Defaults() + [Call(H.Source, h.src)] + [Call(H.Destination, h.dst)];
    if h.custody then named + [Call(H.Custodian, h.cust)] else named
  }

  predicate Endpoints(h: Header)
  {
    ValidUri(h.src) && ValidUri(h.dst) && ValidUri(h.cust) && (!h.custody ==> h.cust == DtnNone)
  }

  function Flags(h: Header): H.Primary
    requires h.priority < 4
  {
    H.WithFlag(H.WithPriority(H.WithFlag(H.New(false), H.CUSTODY_XFER, h.custody), h.priority as bv32),
               H.IS_FRAGMENT, h.fragment)
  }

  function Build(h: Header): H.Primary
    requires Endpoints(h) && h.priority < 4
  {
    Number(H.Apply(Flags(h), EidCalls(h)), h)
  }

  function Number(p: H.Primary, h: Header): H.Primary
  {
    p.(blockLength := h.blockLength, timestamp := h.timestamp, sequence := h.sequence,
       lifetime := h.lifetime, fragOffset := h.offset, aduLength := h.aduLength)
  }

  /** What the agent's getters answer. */
  function ViewOf(p: H.Primary): Option<Header>
  {
    match (H.GetEid(p, H.Source), H.GetEid(p, H.Destination), H.GetEid(p, H.Custodian))
    case (Some(src), Some(dst), Some(cust)) =>
      Some(Header(src.uri, dst.uri, cust.uri, p.timestamp, p.sequence, p.lifetime,
                  H.CustTxReq(p), H.IsFragment(p), p.fragOffset, p.aduLength, p.blockLength,
                  H.Priority(p) as nat))
    case _ => None
  }

  predicate Fields(h: Header)
  {
    h.timestamp < TWO32 && h.sequence < TWO32 && h.lifetime / SECOND < TWO64 && h.priority < 4 &&
    h.offset < TWO32 && h.aduLength < TWO32 && h.blockLength < PAYLOAD_LIMIT
  }

  predicate Sendable6(p: Packet)
  {
    Endpoints(p.header) && Fields(p.header) && p.header.blockLength == |p.payload|
  }

  const Frame: seq<byte> := [0, 0, 0, 0, 0, 0]

  function PayloadHeader(p: Packet): B.Block
  {
    B.Block(PAYLOAD_BLOCK, 0, p.header.blockLength)
  }

  lemma HeaderFits(p: Packet)
    requires Sendable6(p)
    ensures B.Fits(PayloadHeader(p))
  {
    B.ShortFieldsFit(PayloadHeader(p));
  }

  /** The octets of a packet: primary block, payload block header, payload. */
  function Encode(p: Packet): seq<byte>
    requires Sendable6(p)
  {
    HeaderFits(p);
    H.Wire(Build(p.header)) + B.AddTo(PayloadHeader(p), Frame, p.payload)
  }

  function Decode(s: seq<byte>): Option<Packet>
  {
    match H.Parse(s, false)
    case None => None
    case Some((primary, rest)) =>
      match B.RemoveFrom(rest)
      case None => None
      case Some((_, payload)) =>
        match ViewOf(primary)
        case None => None
        case Some(h) => Some(Packet(h, payload))
  }

  function WholeSeconds(h: Header): Header
  {
    h.(lifetime := h.lifetime / SECOND * SECOND)
  }

  // ------------------------------------------------------------ round trip

  lemma PriorityBits(p: nat, custody: bool, fragment: bool)
    requires p < 4
    ensures var f0: bv32 := if custody then 0 | 0x8 else 0 & !0x8;
            var f1 := f0 | (f0 & !0x7780) | ((p as bv32) << 7);
            var f := if fragment then f1 | 0x1 else f1 & !0x1;
            (((f & 0x7780) >> 7) & 0xff) as nat == p && (f & 0x8 != 0) == custody && (f & 0x1 != 0) == fragment
  {
    if p == 0 {} else if p == 1 {} else if p == 2 {} else {}
  }

  lemma FlagsRead(h: Header)
    requires h.priority < 4
    ensures H.CustTxReq(Flags(h)) == h.custody && H.IsFragment(Flags(h)) == h.fragment
    ensures H.Priority(Flags(h)) as nat == h.priority
    ensures !Flags(h).cbhe && Flags(h).dictionary == [] && H.OffsetsFit(Flags(h))
  {
    PriorityBits(h.priority, h.custody, h.fragment);
  }

  lemma {:induction false} ApplyKeepsFields(h: H.Primary, calls: seq<H.SetEid>)
    ensures var h' := H.Apply(h, calls);
            h'.flags == h.flags && h'.cbhe == h.cbhe && h'.version == h.version &&
            |h'.dictionary| == |h.dictionary| + TextLength(calls)
  {
    if calls != [] {
      ApplyKeepsFields(h, calls[..|calls| - 1]);
    }
  }

  lemma {:induction false} ApplyKeepsOffsets(h: H.Primary, calls: seq<H.SetEid>)
    requires H.OffsetsFit(h)
    ensures H.OffsetsFit(H.Apply(h, calls))
  {
    if calls != [] {
      ApplyKeepsOffsets(h, calls[..|calls| - 1]);
    }
  }

  function TextLength(calls: seq<H.SetEid>): nat
  {
    if calls == [] then 0
    else TextLength(calls[..|calls| - 1]) + |calls[|calls| - 1].scheme| + |calls[|calls| - 1].ssp| + 2
  }

  predicate ShortParts(calls: seq<H.SetEid>)
  {
    forall c :: c in calls ==> |c.scheme| <= MAX_PART && |c.ssp| <= MAX_PART
  }

  lemma {:induction false} TextBound(calls: seq<H.SetEid>)
    requires ShortParts(calls)
    ensures TextLength(calls) <= 2048 * |calls|
  {
    if calls != [] {
      assert calls[|calls| - 1] in calls;
      TextBound(calls[..|calls| - 1]);
    }
  }

  lemma {:induction false} LastForAppend(calls: seq<H.SetEid>, c: H.SetEid, role: H.Role)
    ensures H.LastFor(calls + [c], role) == if c.role == role then Some(c) else H.LastFor(calls, role)
  {
    assert (calls + [c])[..|calls|] == calls;
  }

  predicate LastIs(calls: seq<H.SetEid>, role: H.Role, uri: seq<byte>)
  {
    ValidUri(uri) && H.LastFor(calls, role) == Some(Call(role, uri))
  }

  lemma LastCalls(h: Header)
    requires Endpoints(h)
    ensures LastIs(EidCalls(h), H.Source, h.src)
    ensures LastIs(EidCalls(h), H.Destination, h.dst)
    ensures LastIs(EidCalls(h), H.Custodian, h.cust)
  {
    DtnNoneIsValid();
    var a := [Call(H.Source, DtnNone), Call(H.Destination, DtnNone), Call(H.Report, DtnNone)];
    var b := a + [Call(H.Custodian, DtnNone)];
    assert b == Defaults();
    var c := b + [Call(H.Source, h.src)];
    var d := c + [Call(H.Destination, h.dst)];
    LastForAppend(a, Call(H.Custodian, DtnNone), H.Custodian);
    LastForAppend(b, Call(H.Source, h.src), H.Source);
    LastForAppend(b, Call(H.Source, h.src), H.Custodian);
    LastForAppend(c, Call(H.Destination, h.dst), H.Source);
    LastForAppend(c, Call(H.Destination, h.dst), H.Destination);
    LastForAppend(c, Call(H.Destination, h.dst), H.Custodian);
    if h.custody {
      LastForAppend(d, Call(H.Custodian, h.cust), H.Source);
      LastForAppend(d, Call(H.Custodian, h.cust), H.Destination);
      LastForAppend(d, Call(H.Custodian, h.cust), H.Custodian);
    }
  }

  /** After setters on a fresh header, the endpoint last set reads back, also
      through the number fields set later. */
  lemma EidReads(p: H.Primary, calls: seq<H.SetEid>, h: Header, role: H.Role, uri: seq<byte>)
    requires !p.cbhe && |H.Apply(p, calls).dictionary| < TWO16 && LastIs(calls, role, uri)
    ensures H.GetEid(Number(H.Apply(p, calls), h), role).Some?
    ensures H.GetEid(Number(H.Apply(p, calls), h), role).value.uri == uri
  {
    H.GetterGivesLastSet(p, calls, role);
    NumberKeepsEid(H.Apply(p, calls), h, role);
    PartsAndUri(uri);
  }

  lemma NumberKeepsEid(p: H.Primary, h: Header, role: H.Role)
    ensures H.GetEid(Number(p, h), role) == H.GetEid(p, role)
  {
    assert H.RefOf(Number(p, h), role) == H.RefOf(p, role);
  }

  lemma BuiltFrom(p: H.Primary, calls: seq<H.SetEid>, h: Header)
    requires !p.cbhe && p.dictionary == [] && H.OffsetsFit(p) && ShortParts(calls) && |calls| <= 7
    requires LastIs(calls, H.Source, h.src) && LastIs(calls, H.Destination, h.dst)
    requires LastIs(calls, H.Custodian, h.cust) && Fields(h)
    requires H.CustTxReq(p) == h.custody && H.IsFragment(p) == h.fragment && H.Priority(p) as nat == h.priority
    ensures var q := Number(H.Apply(p, calls), h); H.Ranges(q) && !q.cbhe && ViewOf(q) == Some(h)
  {
    TextBound(calls);
    ApplyKeepsFields(p, calls);
    ApplyKeepsOffsets(p, calls);
    EidReads(p, calls, h, H.Source, h.src);
    EidReads(p, calls, h, H.Destination, h.dst);
    EidReads(p, calls, h, H.Custodian, h.cust);
  }

  lemma CallIsShort(role: H.Role, uri: seq<byte>)
    requires ValidUri(uri)
    ensures ShortParts([Call(role, uri)])
  {
  }

  lemma ShortTogether(a: seq<H.SetEid>, b: seq<H.SetEid>)
    requires ShortParts(a) && ShortParts(b)
    ensures ShortParts(a + b)
  {
  }

  lemma DefaultsAreShort()
    ensures ShortParts(Defaults())
  {
    DtnNoneIsValid();
  }

  lemma CallsAreShort(h: Header)
    requires Endpoints(h)
    ensures ShortParts(EidCalls(h)) && |EidCalls(h)| <= 7
  {
    DefaultsAreShort();
    CallIsShort(H.Source, h.src);
    CallIsShort(H.Destination, h.dst);
    CallIsShort(H.Custodian, h.cust);
    ShortTogether(Defaults(), [Call(H.Source, h.src)]);
    ShortTogether(Defaults() + [Call(H.Source, h.src)], [Call(H.Destination, h.dst)]);
    if h.custody {
      ShortTogether(Defaults() + [Call(H.Source, h.src)] + [Call(H.Destination, h.dst)], [Call(H.Custodian, h.cust)]);
    }
  }

  lemma BuildReads(h: Header)
    requires Endpoints(h) && Fields(h)
    ensures H.Ranges(Build(h)) && !Build(h).cbhe && ViewOf(Build(h)) == Some(h)
  {
    FlagsRead(h);
    LastCalls(h);
    CallsAreShort(h);
    BuiltFrom(Flags(h), EidCalls(h), h);
  }

  lemma ViewInSeconds(p: H.Primary)
    requires ViewOf(p).Some?
    ensures ViewOf(H.WholeSeconds(p)) == Some(WholeSeconds(ViewOf(p).value))
  {
    SecondsKeepEid(p, H.Source);
    SecondsKeepEid(p, H.Destination);
    SecondsKeepEid(p, H.Custodian);
  }

  lemma SecondsKeepEid(p: H.Primary, role: H.Role)
    ensures H.GetEid(H.WholeSeconds(p), role) == H.GetEid(p, role)
  {
    assert H.RefOf(H.WholeSeconds(p), role) == H.RefOf(p, role);
  }

  /** Whatever the agent sends, the receiving adapter hands back: the same
      header fields, the lifetime in whole seconds, and exactly the slice. */
  lemma RoundTrip(p: Packet)
    requires Sendable6(p)
    ensures Decode(Encode(p)) == Some(Packet(WholeSeconds(p.header), p.payload))
  {
    var primary, block := Build(p.header), PayloadHeader(p);
    BuildReads(p.header);
    HeaderFits(p);
    var rest := B.AddTo(block, Frame, p.payload);
    H.WireRoundTrip(primary, rest);
    B.PayloadSurvives(block, Frame);
    assert B.Survives(block, Frame, p.payload);
    ViewInSeconds(primary);
  }
}
