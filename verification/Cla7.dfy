/**
 Version 7 bundles on the wire (`BpCla::SerializeBundle` and
 `BpCla::DeserializeBundle`, bp/model/bp-cla.cc): an indefinite array of the
 primary block, the payload block's header and the payload, without CRC.
 */
module Cla7 {
  import opened Bytes
  import opened Buffers
  import opened Cbor
  import H = Header7
  import B = BlockHeader7

  const BEGIN: byte := 0x9f
  const END: byte := 0xff

  /** What a bundle object holds; `length` is the block length the simulator keeps
      beside the header, and says how much of the ADU is sent. */
  datatype Bundle7 = Bundle7(header: H.Primary7, block: B.Block, length: nat, adu: seq<byte>)

  /** The header can be written into the room its dry run asks for, and the slice
      to send is there. */
  predicate Sendable(b: Bundle7)
  {
    H.Ranges(b.header) && H.ShortEids(b.header) && b.header.fragOffset + b.length <= |b.adu| && b.length < TWO32
  }

  function Payload(b: Bundle7): seq<byte>
    requires Sendable(b)
  {
    b.adu[b.header.fragOffset..b.header.fragOffset + b.length]
  }

  function Wire(b: Bundle7): seq<byte>
    requires Sendable(b)
  {
    [BEGIN] + H.Wire(b.header) + B.Wire(b.block) + ByteString(Payload(b)) + [END]
  }

  function ParseBlocks(s: seq<byte>): Option<((H.Primary7, B.Block), seq<byte>)>
  {
    match H.Parse(s)
    case None => None
    case Some((h, rest)) =>
      match B.Parse(rest)
      case None => None
      case Some((block, rest')) => Some(((h, block), rest'))
  }

  /** Header, block header and ADU; `None` where decoding throws. The first and
      the last octet are dropped unseen. */
  function Parse(s: seq<byte>): Option<(H.Primary7, B.Block, seq<byte>)>
    requires |s| >= 2
  {
    match ParseBlocks(s[1..|s| - 1])
    case None => None
    case Some((blocks, rest)) =>
      match ParseBytes(rest)
      case None => None
      case Some((adu, _)) => Some((blocks.0, blocks.1, adu))
  }

  ghost predicate Faithful(b: Bundle7)
  {
    H.Faithful(b.header.dst) && H.Faithful(b.header.src) && H.Faithful(b.header.report)
  }

  lemma BlocksRoundTrip(b: Bundle7, suffix: seq<byte>)
    requires Sendable(b) && Faithful(b)
    ensures ParseBlocks(H.Wire(b.header) + (B.Wire(b.block) + suffix))
         == Some(((H.Recovered(b.header), b.block), suffix))
  {
    H.WireRoundTrip(b.header, B.Wire(b.block) + suffix);
    B.WireRoundTrip(b.block, suffix);
  }

  lemma Inside(first: byte, a: seq<byte>, b: seq<byte>, c: seq<byte>, last: byte)
    ensures var s := [first] + a + b + c + [last]; |s| >= 2 && s[1..|s| - 1] == a + (b + c)
  {
  }

  lemma ParseIs(s: seq<byte>, inner: seq<byte>)
    requires |s| >= 2 && s[1..|s| - 1] == inner && ParseBlocks(inner).Some?
    requires ParseBytes(ParseBlocks(inner).value.1).Some?
    ensures var (blocks, rest) := ParseBlocks(inner).value;
            Parse(s) == Some((blocks.0, blocks.1, ParseBytes(rest).value.0))
  {
  }

  lemma PayloadRoundTrip(b: Bundle7)
    requires Sendable(b)
    ensures ParseBytes(ByteString(Payload(b))) == Some((Payload(b), []))
  {
    BytesRoundTrip(Payload(b), []);
    assert ByteString(Payload(b)) + [] == ByteString(Payload(b));
  }

  /** A bundle sent and received has every field of both headers back (the
      lifetime in whole milliseconds, the place of a fragment only for one), and
      exactly the slice of the ADU its header names. */
  lemma BundleRoundTrip(b: Bundle7)
    requires Sendable(b) && Faithful(b)
    ensures Parse(Wire(b)) == Some((H.Recovered(b.header), b.block, Payload(b)))
  {
    var a, m, z := H.Wire(b.header), B.Wire(b.block), ByteString(Payload(b));
    Inside(BEGIN, a, m, z, END);
    BlocksRoundTrip(b, z);
    PayloadRoundTrip(b);
    ParseIs(Wire(b), a + (m + z));
  }

  // --------------------------------------------------------------- the program

  /** `i` has just written `wire` behind `before`. */
  lemma WrittenTo(data: seq<byte>, pos: nat, before: seq<byte>, wire: seq<byte>)
    requires pos == |data| == |before| + |wire| && data[..pos] == before + wire
    ensures data == before + wire
  {
  }

  /** The front of a packet: room for the opening octet and both headers is made
      from their dry-run sizes, then they are written. */
  method WriteHeaders(bph: H.BpHeader7, bpph: B.BpBlockHeader7) returns (data: array<byte>)
    requires H.Ranges(bph.View()) && H.ShortEids(bph.View())
    ensures fresh(data) && data[..] == [BEGIN] + H.Wire(bph.View()) + B.Wire(bpph.View())
  {
    ghost var header, block := H.Wire(bph.View()), B.Wire(bpph.View());
    H.SizeIsReported(bph.View());
    var none := new byte[0];
    var dry := new Iterator(none);
    var first := bph.SerializeAndGetSize(dry, false);
    var second := bpph.SerializeAndGetSize(dry, false);
    assert first == |header| && second == |block|;
    data := new byte[1 + first + second];
    var i := new Iterator(data);
    i.WriteU8(BEGIN);
    assert data[..1] == [BEGIN];
    var size := bph.SerializeAndGetSize(i, true);
    assert i.pos == 1 + |header| && data[..i.pos] == [BEGIN] + header;
    size := bpph.SerializeAndGetSize(i, true);
    WrittenTo(data[..], i.pos, [BEGIN] + header, block);
  }

  /** `SerializeBundle`: the payload is appended to the headers. */
  method SerializeBundle(bph: H.BpHeader7, bpph: B.BpBlockHeader7, adu: seq<byte>) returns (packet: seq<byte>)
    requires Sendable(Bundle7(bph.View(), bpph.View(), bph.blockLength, adu))
    ensures packet == Wire(Bundle7(bph.View(), bpph.View(), bph.blockLength, adu))
  {
    ghost var b := Bundle7(bph.View(), bpph.View(), bph.blockLength, adu);
    var data := WriteHeaders(bph, bpph);
    var temp := new ByteVector();
    var p := adu[bph.fragOffset..bph.fragOffset + bph.blockLength];
    assert p == Payload(b);
    var length := EncodeBytes(temp, p);
    assert temp.bytes == ByteString(p);
    packet := data[..] + temp.bytes + [END];
  }

  /** The part of `DeserializeBundle` that strips the headers: each is removed
      with the size it reports. */
  method RemoveHeaders(inner: seq<byte>, bpHeader: H.BpHeader7, bppHeader: B.BpBlockHeader7)
    returns (remaining: Option<seq<byte>>)
    modifies bpHeader, bppHeader
    ensures match ParseBlocks(inner)
            case None => remaining.None?
            case Some((blocks, rest)) =>
              bpHeader.View() == blocks.0 && bppHeader.View() == blocks.1 && remaining == Some(rest)
  {
    var size := bpHeader.Deserialize(inner);
    if size.None? {
      return None;
    }
    H.ParseLeaves(inner);
    var rest := inner[size.value..];
    size := bppHeader.Deserialize(rest);
    if size.None? {
      return None;
    }
    B.ParseLeaves(rest);
    remaining := Some(rest[size.value..]);
  }

  /** `DeserializeBundle`: what is left when the headers are off is the ADU's
      byte string. */
  method DeserializeBundle(packet: seq<byte>, bpHeader: H.BpHeader7, bppHeader: B.BpBlockHeader7)
    returns (adu: Option<seq<byte>>)
    requires |packet| >= 2
    modifies bpHeader, bppHeader
    ensures match Parse(packet)
            case None => adu.None?
            case Some((h, b, payload)) => bpHeader.View() == h && bppHeader.View() == b && adu == Some(payload)
  {
    var remaining := RemoveHeaders(packet[1..|packet| - 1], bpHeader, bppHeader);
    if remaining.None? {
      return None;
    }
    var c := new Cursor(remaining.value);
    var bytes := DecodeBytes(c);
    adu := if bytes.None? then None else Some(bytes.value.0);
  }
}
