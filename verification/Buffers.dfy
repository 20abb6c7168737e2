/**
 The simulator's buffer iterator: a cursor over a byte buffer that reads and
 writes one octet at a time.
 */
module Buffers {
  import opened Bytes

  /** Writing `text` at `from` has made `before` into `after` and stopped at `to`. */
  ghost predicate Wrote(before: seq<byte>, from: nat, after: seq<byte>, to: nat, text: seq<byte>)
  {
    |after| == |before| && to == from + |text| <= |before| &&
    after[..to] == before[..from] + text && after[to..] == before[to..]
  }

  lemma WroteMore(d0: seq<byte>, p0: nat, d1: seq<byte>, p1: nat, d2: seq<byte>, p2: nat, a: seq<byte>, b: seq<byte>)
    requires Wrote(d0, p0, d1, p1, a) && Wrote(d1, p1, d2, p2, b)
    ensures Wrote(d0, p0, d2, p2, a + b)
  {
    var k := p2 - p1;
    assert d2[p2..] == d1[p2..] == d1[p1..][k..] == d0[p1..][k..] == d0[p2..];
  }

  class Iterator {
    const data: array<byte>
    var pos: nat

    constructor (data: array<byte>)
      ensures this.data == data && pos == 0
    {
      this.data := data;
      pos := 0;
    }

    ghost predicate Valid()
      reads this
    {
      pos <= data.Length
    }

    /** What is still to be read. */
    ghost function Rest(): seq<byte>
      requires Valid()
      reads this, data
    {
      data[pos..]
    }

    method ReadU8() returns (b: byte)
      requires Valid() && pos < data.Length
      modifies this`pos
      ensures Valid() && pos == old(pos) + 1
      ensures b == old(Rest())[0] && Rest() == old(Rest())[1..]
    {
      b := data[pos];
      pos := pos + 1;
    }

    method WriteU8(b: byte)
      requires Valid() && pos < data.Length
      modifies this`pos, data
      ensures Valid() && Wrote(old(data[..]), old(pos), data[..], pos, [b])
    {
      data[pos] := b;
      pos := pos + 1;
    }

    /** The loop `for (j = 0; j < temp.size(); j++) i.WriteU8(temp.at(j))`. */
    method WriteAll(temp: seq<byte>)
      requires Valid() && pos + |temp| <= data.Length
      modifies this`pos, data
      ensures Valid() && Wrote(old(data[..]), old(pos), data[..], pos, temp)
    {
      var j := 0;
      while j < |temp|
        invariant 0 <= j <= |temp| && Wrote(old(data[..]), old(pos), data[..], pos, temp[..j])
      {
        ghost var d, p := data[..], pos;
        WriteU8(temp[j]);
        WroteMore(old(data[..]), old(pos), d, p, data[..], pos, temp[..j], [temp[j]]);
        assert temp[..j + 1] == temp[..j] + [temp[j]];
        j := j + 1;
      }
      assert temp[..j] == temp;
    }

    /** The loop `for (j = 0; j < n; j++) s.push_back (i.ReadU8 ())`. */
    method ReadBytes(n: nat) returns (s: seq<byte>)
      requires Valid() && n <= |Rest()|
      modifies this`pos
      ensures Valid() && pos == old(pos) + n
      ensures s == old(Rest())[..n] && Rest() == old(Rest())[n..]
    {
      ghost var rest := Rest();
      s := [];
      var j := 0;
      while j < n
        invariant 0 <= j <= n && Valid() && pos == old(pos) + j
        invariant s == rest[..j] && Rest() == rest[j..]
      {
        var b := ReadU8();
        s := s + [b];
        j := j + 1;
      }
    }
  }
}
