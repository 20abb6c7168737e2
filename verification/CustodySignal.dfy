/**
 Administrative records and custody signals (bp/model/bp-admin-record.h,
 bp/model/bp-custody-signal.h).
 */
module CustodySignal {
  import opened Bytes
  import opened Buffers
  import Sdnv

  const AR_CS: nat := 2
  const AR_FRAG: nat := 1
  const SUCCESS: byte := 0x80

  /** `time` is the second of the signal as it is encoded. */
  datatype Signal = Signal(status: byte, offset: nat, length: nat, time: nat,
                           timestamp: nat, sequence: nat, source: seq<byte>)

  predicate Ranges(c: Signal)
  {
    c.offset < TWO32 && c.length < TWO32 && c.time < TWO64 &&
    c.timestamp < TWO32 && c.sequence < TWO32 && |c.source| < TWO32
  }

  function Numbers(c: Signal): seq<nat>
  {
    [c.offset, c.length, c.time, c.timestamp, c.sequence, |c.source|]
  }

  function Encoding(c: Signal): seq<byte>
  {
    [c.status] + Sdnv.Series(Numbers(c)) + c.source
  }

  /** `Deserialize`; `None` where it reads past the end of the packet. */
  function Parse(s: seq<byte>): Option<Signal>
  {
    if s == [] then None
    else
      match Sdnv.ParseSeries(6, s[1..])
      case None => None
      case Some((v, rest)) =>
        Sdnv.ParsedLength(6, s[1..]);
        var n := v[5] % TWO32;
        if n > |rest| then None else Some(Rebuild(s[0], v, rest[..n]))
  }

  function Rebuild(status: byte, v: seq<nat>, source: seq<byte>): Signal
    requires |v| == 6
  {
    Signal(status, v[0] % TWO32, v[1] % TWO32, v[2], v[3] % TWO32, v[4] % TWO32, source)
  }

  lemma RebuildNumbers(c: Signal)
    requires Ranges(c)
    ensures Rebuild(c.status, Numbers(c), c.source) == c
  {
  }

  /** All seven fields come back, whatever follows the signal. */
  lemma RoundTrip(c: Signal, suffix: seq<byte>)
    requires Ranges(c)
    ensures Parse(Encoding(c) + suffix) == Some(c)
  {
    BehindStatus(c, suffix);
    Sdnv.SeriesRoundTrip(Numbers(c), c.source + suffix);
    ParseIs(Encoding(c) + suffix, c, suffix);
  }

  lemma BehindStatus(c: Signal, suffix: seq<byte>)
    ensures (Encoding(c) + suffix)[0] == c.status
    ensures (Encoding(c) + suffix)[1..] == Sdnv.Series(Numbers(c)) + (c.source + suffix)
  {
  }

  lemma ParseIs(s: seq<byte>, c: Signal, suffix: seq<byte>)
    requires Ranges(c) && s != [] && s[0] == c.status
    requires Sdnv.ParseSeries(6, s[1..]) == Some((Numbers(c), c.source + suffix))
    ensures Parse(s) == Some(c)
  {
    assert (c.source + suffix)[..|c.source|] == c.source;
    RebuildNumbers(c);
  }

  // -------------------------------------------------- administrative record

  /** A signal as the ADU of a bundle: the record's type and flags, then it. */
  function Record(c: Signal, fragment: bool): seq<byte>
  {
    [AR_CS * 16 + if fragment then AR_FRAG else 0] + Encoding(c)
  }

  datatype Admin = Custody(signal: Signal) | Other

  /** `typeFlags & (_BP_AR_CS << 4)`. */
  predicate IsCustodySignal(typeFlags: byte)
  {
    typeFlags / 32 % 2 == 1
  }

  /** What the agent makes of an ADU addressed to itself; `None` where it reads
      past the end. */
  function ParseAdmin(adu: seq<byte>): Option<Admin>
  {
    if adu == [] then None
    else if IsCustodySignal(adu[0]) then
      match Parse(adu[1..])
      case None => None
      case Some(c) => Some(Custody(c))
    else Some(Other)
  }

  lemma RecordRoundTrip(c: Signal, fragment: bool)
    requires Ranges(c)
    ensures ParseAdmin(Record(c, fragment)) == Some(Custody(c))
  {
    RoundTrip(c, []);
    assert Record(c, fragment)[1..] == Encoding(c) == Encoding(c) + [];
  }

  /** The seven fields one after the other. */
  lemma EncodingIs(c: Signal)
    ensures Encoding(c) == [c.status] + Sdnv.Encoding(c.offset) + Sdnv.Encoding(c.length) + Sdnv.Encoding(c.time)
                           + Sdnv.Encoding(c.timestamp) + Sdnv.Encoding(c.sequence) + Sdnv.Encoding(|c.source|) + c.source
  {
    Sdnv.SeriesOfSix(c.offset, c.length, c.time, c.timestamp, c.sequence, |c.source|);
    SevenParts([c.status], Sdnv.Encoding(c.offset), Sdnv.Encoding(c.length), Sdnv.Encoding(c.time),
               Sdnv.Encoding(c.timestamp), Sdnv.Encoding(c.sequence), Sdnv.Encoding(|c.source|));
  }

  lemma SevenParts(s: seq<byte>, a: seq<byte>, b: seq<byte>, c: seq<byte>, d: seq<byte>, e: seq<byte>, f: seq<byte>)
    ensures s + (a + b + c + d + e + f) == s + a + b + c + d + e + f
  {
  }

  // -------------------------------------------------------------- its size

  /** The signal with the time a header has after reading it. */
  function Reread(c: Signal): Signal
  {
    c.(time := c.time / 1000)
  }

  lemma ShorterTime(time: nat)
    ensures |Sdnv.Encoding(time / 1000)| <= |Sdnv.Encoding(time)|
    ensures |Sdnv.Encoding(time / 1000)| == |Sdnv.Encoding(time)| <==> time < 128
  {
    var n := |Sdnv.Encoding(time)|;
    if time < 128 {
      Sdnv.LengthIsMinimal(time, 1);
      Sdnv.LengthIsMinimal(time / 1000, 1);
    } else {
      Sdnv.LengthIsMinimal(time, 1);
      Sdnv.LengthIsMinimal(time, n);
      Sdnv.LengthIsMinimal(time / 1000, n - 1);
    }
  }

  lemma EncodingLength(c: Signal)
    ensures |Encoding(c)| == 1 + |Sdnv.Encoding(c.offset)| + |Sdnv.Encoding(c.length)| + |Sdnv.Encoding(c.time)|
                             + |Sdnv.Encoding(c.timestamp)| + |Sdnv.Encoding(c.sequence)|
                             + |Sdnv.Encoding(|c.source|)| + |c.source|
  {
    EncodingIs(c);
  }

  /** The size `Deserialize` returns is what the sender wrote exactly for signals of
      the first 128 seconds, and less for all later ones. */
  lemma SizeReturned(c: Signal)
    ensures |Encoding(Reread(c))| <= |Encoding(c)|
    ensures |Encoding(Reread(c))| == |Encoding(c)| <==> c.time < 128
  {
    ShorterTime(c.time);
    EncodingLength(c);
    EncodingLength(Reread(c));
  }

  // ------------------------------------------------------------ the object

  class CustodySignalHeader {
    var status: byte
    var fragmentOffset: nat
    var fragmentLength: nat
    var timeOfSignal: nat
    var creationTimestamp: nat
    var seqNo: nat
    var srcEidLen: nat
    var srcEid: seq<byte>

    constructor (c: Signal)
      ensures View() == c && srcEidLen == |srcEid|
    {
      status, fragmentOffset, fragmentLength, timeOfSignal := c.status, c.offset, c.length, c.time;
      creationTimestamp, seqNo, srcEidLen, srcEid := c.timestamp, c.sequence, |c.source|, c.source;
    }

    ghost function View(): Signal
      reads this
    {
      Signal(status, fragmentOffset, fragmentLength, timeOfSignal, creationTimestamp, seqNo, srcEid)
    }

    /** `Encode`: seven fields are appended to one vector. */
    method Encode() returns (result: seq<byte>)
      requires Ranges(View()) && srcEidLen == |srcEid|
      ensures result == Encoding(View())
    {
      EncodingIs(View());
      result := [status];
      var sdnvBytes := Sdnv.Encode(fragmentOffset);
      result := result + sdnvBytes;
      sdnvBytes := Sdnv.Encode(fragmentLength);
      result := result + sdnvBytes;
      sdnvBytes := Sdnv.Encode(timeOfSignal);
      result := result + sdnvBytes;
      sdnvBytes := Sdnv.Encode(creationTimestamp);
      result := result + sdnvBytes;
      sdnvBytes := Sdnv.Encode(seqNo);
      result := result + sdnvBytes;
      sdnvBytes := Sdnv.Encode(srcEidLen);
      result := result + sdnvBytes;
      result := result + srcEid;
    }

    /** `Deserialize`: the time read is taken for milliseconds, and the size returned
        is that of the header with the time it is left with. */
    method Deserialize(start: Iterator) returns (size: nat)
      requires start.Valid() && Parse(start.Rest()).Some?
      modifies this, start`pos
      ensures start.Valid() && srcEidLen == |srcEid|
      ensures View() == Reread(Parse(old(start.Rest())).value) && size == |Encoding(View())|
    {
      status := start.ReadU8();
      Sdnv.ParsedRange(6, start.Rest());
      var v := Sdnv.DecodeSeries(start, 6);
      assert v[2] in v;
      fragmentOffset, fragmentLength, timeOfSignal := v[0] % TWO32, v[1] % TWO32, v[2] / 1000;
      creationTimestamp, seqNo, srcEidLen := v[3] % TWO32, v[4] % TWO32, v[5] % TWO32;
      srcEid := start.ReadBytes(srcEidLen);
      var encoded := Encode();
      size := |encoded|;
    }
  }
}
