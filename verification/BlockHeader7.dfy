/**
 The version 7 canonical block header (bp/model/bp-block-header-7.cc; section
 4.3.2 of draft-ietf-dtn-bpbis-30): an array of the block's type, number, flags
 and CRC type, the block's data following as further elements.
 */
module BlockHeader7 {
  import opened Bytes
  import opened Buffers
  import opened Cbor

  datatype Block = Block(blockType: byte, number: byte, flags: byte, crcType: byte)

  function Fields(b: Block): seq<nat>
  {
    [b.blockType, b.number, b.flags, b.crcType]
  }

  function Size(b: Block): nat
  {
    if b.crcType != 0 then 6 else 5
  }

  function Wire(b: Block): seq<byte>
  {
    Head(ARRAY, Size(b)) + Unsigneds(Fields(b))
  }

  function Parse(s: seq<byte>): Option<(Block, seq<byte>)>
  {
    match ParseArraySize(s)
    case None => None
    case Some((_, rest)) =>
      match ParseUnsigneds([1, 1, 1, 1], rest)
      case None => None
      case Some((v, rest')) => Some((Block(v[0] % TWO8, v[1] % TWO8, v[2] % TWO8, v[3] % TWO8), rest'))
  }

  lemma ParseLeaves(s: seq<byte>)
    requires Parse(s).Some?
    ensures LeftOf(Parse(s).value.1, s)
  {
    var rest := ParseArraySize(s).value.1;
    HeadLeaves(s, 8);
    UnsignedsLeave([1, 1, 1, 1], rest);
    LeftTwice(ParseUnsigneds([1, 1, 1, 1], rest).value.1, rest, s);
  }

  lemma FieldsRoundTrip(b: Block, suffix: seq<byte>)
    ensures ParseUnsigneds([1, 1, 1, 1], Unsigneds(Fields(b)) + suffix) == Some((Fields(b), suffix))
  {
    Powers();
    UnsignedsRoundTrip(Fields(b), [1, 1, 1, 1], suffix);
  }

  lemma WireRoundTrip(b: Block, suffix: seq<byte>)
    ensures Parse(Wire(b) + suffix) == Some((b, suffix))
  {
    WireParts(b, suffix);
    ArraySizeRoundTrip(Size(b), Unsigneds(Fields(b)) + suffix);
    FieldsRoundTrip(b, suffix);
    ParseIs(Wire(b) + suffix, Size(b), Unsigneds(Fields(b)) + suffix, b, suffix);
  }

  lemma WireParts(b: Block, suffix: seq<byte>)
    ensures Wire(b) + suffix == Head(ARRAY, Size(b)) + (Unsigneds(Fields(b)) + suffix)
  {
  }

  lemma ParseIs(s: seq<byte>, size: nat, rest: seq<byte>, b: Block, end: seq<byte>)
    requires ParseArraySize(s) == Some((size, rest)) && ParseUnsigneds([1, 1, 1, 1], rest) == Some((Fields(b), end))
    ensures Parse(s) == Some((b, end))
  {
    FieldsBack(b, Fields(b));
  }

  lemma FieldsBack(b: Block, v: seq<nat>)
    requires v == Fields(b)
    ensures |v| == 4 && v[0] % TWO8 == v[0] == b.blockType && v[1] % TWO8 == v[1] == b.number
    ensures v[2] % TWO8 == v[2] == b.flags && v[3] % TWO8 == v[3] == b.crcType
  {
  }

  class BpBlockHeader7 {
    var blockType: byte
    var blockNumber: byte
    var processingControlFlags: byte
    var crcType: byte

    constructor (blockType: byte)
      ensures View() == Block(blockType, 0, 0, 0)
    {
      this.blockType, blockNumber, processingControlFlags, crcType := blockType, 0, 0, 0;
    }

    function View(): Block
      reads this
    {
      Block(blockType, blockNumber, processingControlFlags, crcType)
    }

    method Encoded() returns (temp: ByteVector, length: nat)
      ensures fresh(temp) && temp.bytes == Wire(View()) && length == |Wire(View())|
    {
      temp := new ByteVector();
      length := EncodeArraySize(temp, Size(View()));
      var len := EncodeUnsigneds(temp, Fields(View()));
      length := length + len;
    }

    /** The size of a dry run is the number of octets written otherwise. */
    method SerializeAndGetSize(start: Iterator, forReal: bool) returns (length: nat)
      requires start.Valid()
      requires forReal ==> start.pos + |Wire(View())| <= start.data.Length
      modifies start`pos, start.data
      ensures start.Valid() && length == |Wire(View())|
      ensures forReal ==> Wrote(old(start.data[..]), old(start.pos), start.data[..], start.pos, Wire(View()))
      ensures !forReal ==> start.pos == old(start.pos) && start.data[..] == old(start.data[..])
    {
      var temp;
      temp, length := Encoded();
      if forReal {
        start.WriteAll(temp.bytes);
      }
    }

    /** `None` where it throws. */
    method Deserialize(remaining: seq<byte>) returns (r: Option<nat>)
      modifies this
      ensures match Parse(remaining)
              case None => r.None?
              case Some((b, rest)) => View() == b && r == Some(|remaining| - |rest|)
    {
      var c := new Cursor(remaining);
      var size := DecodeArraySize(c);
      if size.None? {
        return None;
      }
      var v := DecodeUnsigneds(c, [1, 1, 1, 1]);
      if v.None? {
        return None;
      }
      var fields := v.value.0;
      blockType, blockNumber := fields[0] % TWO8, fields[1] % TWO8;
      processingControlFlags, crcType := fields[2] % TWO8, fields[3] % TWO8;
      r := Some(size.value.1 + v.value.1);
    }
  }
}
