/**
 The version 6 payload block header (bp/model/bp-block-header-6.cc). It claims
 six octets of the packet whatever its two numbers take, and writes as many as
 they take.
 */
module BlockHeader6 {
  import opened Bytes
  import opened Buffers
  import Sdnv

  const FRAME: nat := 6

  datatype Block = Block(blockType: byte, flags: byte, length: nat)

  function Written(b: Block): (s: seq<byte>)
    ensures |s| == 1 + |Sdnv.Encoding(b.flags)| + |Sdnv.Encoding(b.length)|
  {
    [b.blockType] + Sdnv.Encoding(b.flags) + Sdnv.Encoding(b.length)
  }

  /** Both numbers fit behind the block type in the six octets. */
  predicate Fits(b: Block)
  {
    |Written(b)| <= FRAME
  }

  /** Adding the header in front of `payload`: six octets holding whatever was
      there (`pad`) are put in front, then the header is written from the first
      of them on, over the payload if it is longer than that. */
  function AddTo(b: Block, pad: seq<byte>, payload: seq<byte>): seq<byte>
    requires |pad| == FRAME && |Written(b)| <= FRAME + |payload|
  {
    Written(b) + (pad + payload)[|Written(b)|..]
  }

  /** Removing it: the two numbers are read, then six octets are dropped. */
  function RemoveFrom(s: seq<byte>): Option<(Block, seq<byte>)>
  {
    if |s| < FRAME then None
    else
      match Sdnv.Parse(s[1..])
      case None => None
      case Some((flags, rest)) =>
        match Sdnv.Parse(rest)
        case None => None
        case Some((length, _)) => Some((Block(s[0], flags % TWO8, length % TWO32), s[FRAME..]))
  }

  lemma ReadsBack(b: Block, pad: seq<byte>, payload: seq<byte>)
    requires |pad| == FRAME && |Written(b)| <= FRAME + |payload| && b.length < TWO32
    ensures RemoveFrom(AddTo(b, pad, payload)).Some?
    ensures RemoveFrom(AddTo(b, pad, payload)).value == (b, AddTo(b, pad, payload)[FRAME..])
  {
    var s := AddTo(b, pad, payload);
    var tail := (pad + payload)[|Written(b)|..];
    assert s[1..] == Sdnv.Encoding(b.flags) + (Sdnv.Encoding(b.length) + tail);
    Sdnv.RoundTrip(b.flags, Sdnv.Encoding(b.length) + tail);
    Sdnv.RoundTrip(b.length, tail);
  }

  /** The fields always come back. The payload behind them comes back for every
      payload exactly when the header fits its six octets. */
  lemma PayloadSurvives(b: Block, pad: seq<byte>)
    requires |pad| == FRAME && b.length < TWO32
    ensures Fits(b) <==> forall payload: seq<byte> :: Survives(b, pad, payload)
  {
    if Fits(b) {
      forall payload: seq<byte> ensures Survives(b, pad, payload) {
        ReadsBack(b, pad, payload);
        assert (pad + payload)[|Written(b)|..] == pad[|Written(b)|..] + payload;
        assert AddTo(b, pad, payload)[FRAME..] == payload;
      }
    } else {
      var k := |Written(b)| - FRAME;
      var other: byte := if Written(b)[FRAME] == 0 then 1 else 0;
      var payload := seq(k, i => other);
      ReadsBack(b, pad, payload);
      assert AddTo(b, pad, payload)[FRAME..][0] == Written(b)[FRAME] != payload[0];
      assert !Survives(b, pad, payload);
    }
  }

  predicate Survives(b: Block, pad: seq<byte>, payload: seq<byte>)
    requires |pad| == FRAME
  {
    |Written(b)| <= FRAME + |payload| ==> RemoveFrom(AddTo(b, pad, payload)) == Some((b, payload))
  }

  /** One-octet flags and a length below 2^28 fit; the constructor's flags are 0. */
  lemma ShortFieldsFit(b: Block)
    requires b.flags < 128 && b.length < 0x1000_0000
    ensures Fits(b)
  {
    assert Sdnv.Pow128(1) == 128 * Sdnv.Pow128(0) == 128;
    assert Sdnv.Pow128(4) == 128 * 128 * Sdnv.Pow128(2) == 128 * 128 * 128 * Sdnv.Pow128(1);
    Sdnv.LengthIsMinimal(b.flags, 1);
    Sdnv.LengthIsMinimal(b.length, 4);
  }

  // ------------------------------------------------------------ the object

  class BpBlockHeader6 {
    var blockType: byte
    var processingControlFlags: byte
    var blockLength: nat

    constructor (blockType: byte)
      ensures View() == Block(blockType, 0, 0)
    {
      this.blockType := blockType;
      processingControlFlags := 0;
      blockLength := 0;
    }

    ghost function View(): Block
      reads this
    {
      Block(blockType, processingControlFlags, blockLength)
    }

    method SetBlockLength(len: nat)
      modifies this
      ensures View() == old(View()).(length := len)
    {
      blockLength := len;
    }

    method Serialize(start: Iterator)
      requires start.Valid() && blockLength < TWO64
      requires start.pos + |Written(View())| <= start.data.Length
      modifies start`pos, start.data
      ensures start.Valid()
      ensures Wrote(old(start.data[..]), old(start.pos), start.data[..], start.pos, Written(View()))
    {
      var flags := Sdnv.Encode(processingControlFlags);
      var length := Sdnv.Encode(blockLength);
      var result := flags + length;
      start.WriteU8(blockType);
      ghost var d, p := start.data[..], start.pos;
      start.WriteAll(result);
      WroteMore(old(start.data[..]), old(start.pos), d, p, start.data[..], start.pos, [blockType], result);
      assert Written(View()) == [blockType] + result;
    }

    /** Reads the two numbers and reports six octets, whatever they took. */
    method Deserialize(start: Iterator) returns (size: nat)
      requires start.Valid() && RemoveFrom(start.Rest()).Some?
      modifies this, start`pos
      ensures size == FRAME
      ensures View() == RemoveFrom(old(start.Rest())).value.0
    {
      blockType := start.ReadU8();
      var flags := Sdnv.DecodeIterator(start);
      processingControlFlags := flags % TWO8;
      var length := Sdnv.DecodeIterator(start);
      blockLength := length % TWO32;
      size := FRAME;
    }
  }
}
