/**
 The adapter's framing of version 6 bundles (`BpCla::SendBundle` and
 `BpCla::DataRecv`, bp/model/bp-cla.cc, without the sockets), on header objects.
 `Wire6` says what it means for the headers the agent builds.
 */
module Cla6 {
  import opened Bytes
  import opened Buffers
  import H = Header6
  import B = BlockHeader6
  import Wire6

  /** Adding the payload block's header: six octets in front, then written over. */
  method AddBlockHeader(bpph: B.BpBlockHeader6, p: seq<byte>) returns (data: array<byte>)
    requires bpph.blockLength < TWO64 && |B.Written(bpph.View())| <= B.FRAME + |p|
    ensures fresh(data) && data[..] == B.AddTo(bpph.View(), Wire6.Frame, p)
  {
    var framed := Wire6.Frame + p;
    data := new byte[|framed|](i requires 0 <= i < |framed| => framed[i]);
    assert data[..] == framed;
    var i := new Iterator(data);
    bpph.Serialize(i);
    assert data[..] == data[..i.pos] + data[i.pos..];
  }

  /** `SendBundle`: the slice the header names, behind both headers. */
  method SendBundle(bph: H.BpHeader6, bpph: B.BpBlockHeader6, adu: seq<byte>) returns (packet: seq<byte>)
    requires H.Ranges(bph.View()) && bph.fragOffset + bph.blockLength <= |adu|
    requires bpph.blockLength < TWO64 && |B.Written(bpph.View())| <= B.FRAME + bph.blockLength
    ensures packet == H.Wire(bph.View())
                      + B.AddTo(bpph.View(), Wire6.Frame, adu[bph.fragOffset..bph.fragOffset + bph.blockLength])
  {
    ghost var wire := H.Wire(bph.View());
    var p := adu[bph.fragOffset..bph.fragOffset + bph.blockLength];
    var behind := AddBlockHeader(bpph, p);
    var none := new byte[0];
    var dry := new Iterator(none);
    var size := bph.SerializeAndGetSize(dry, false);
    var front := new byte[size];
    var i := new Iterator(front);
    size := bph.SerializeAndGetSize(i, true);
    assert front[..] == front[..i.pos] == wire;
    packet := front[..] + behind[..];
  }

  /** `DataRecv`: both headers are taken off with the sizes they report. */
  method DataRecv(packet: array<byte>, bpHeader: H.BpHeader6, bppHeader: B.BpBlockHeader6) returns (payload: seq<byte>)
    requires H.Parse(packet[..], bpHeader.cbhe).Some?
    requires B.RemoveFrom(H.Parse(packet[..], bpHeader.cbhe).value.1).Some?
    modifies bpHeader, bppHeader
    ensures var (h, rest) := H.Parse(packet[..], bpHeader.cbhe).value;
            bpHeader.View() == h && (bppHeader.View(), payload) == B.RemoveFrom(rest).value
  {
    var i := new Iterator(packet);
    assert i.Rest() == packet[..];
    var size := bpHeader.Deserialize(i);
    ghost var rest := i.Rest();
    var frame := bppHeader.Deserialize(i);
    payload := packet[size + frame..];
    assert payload == rest[frame..];
  }
}
