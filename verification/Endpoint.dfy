/**
 Endpoint identifiers (bp/model/bp-endpoint-id.cc). The program keeps one URI
 string and the places in it where the scheme and the scheme-specific part are.
 */
module Endpoint {
  import opened Bytes

  const COLON: byte := 58
  const MAX_PART: nat := 1023

  /** `schemeLength` and `sspOffset` are what `ParseComponent` computes; the
      scheme starts at 0 and the scheme-specific part runs to the end. */
  datatype EndpointId = EndpointId(uri: seq<byte>, schemeLength: nat, sspOffset: nat)
  {
    /** `substr` stops at the end of the string. */
    function Scheme(): seq<byte>
    {
      if schemeLength <= |uri| then uri[..schemeLength] else uri
    }

    /** `None` where `substr` throws because the offset is past the end. */
    function Ssp(): Option<seq<byte>>
    {
      if sspOffset <= |uri| then Some(uri[sspOffset..]) else None
    }
  }

  /** `ParseComponent`: the scheme length the offsets are computed from. Empty
      parts are replaced by "dtn" and "none", parts over 1023 octets are cut. */
  function SchemeLength(scheme: seq<byte>, ssp: seq<byte>): nat
  {
    if scheme == [] || ssp == [] then 3
    else if |scheme| > MAX_PART || |ssp| > MAX_PART then
      if |scheme| < MAX_PART then |scheme| else MAX_PART
    else |scheme|
  }

  function FromParts(scheme: seq<byte>, ssp: seq<byte>): EndpointId
  {
    var n := SchemeLength(scheme, ssp);
    EndpointId(scheme + [COLON] + ssp, n, n + 1)
  }

  /** Where the first colon is; the length of `s` if there is none. */
  function FindColon(s: seq<byte>): (i: nat)
    ensures i <= |s|
    ensures i < |s| ==> s[i] == COLON
    ensures forall j :: 0 <= j < i ==> s[j] != COLON
  {
    if s == [] || s[0] == COLON then 0 else 1 + FindColon(s[1..])
  }

  /** A URI without a colon keeps its text but gets the offsets of a string
      whose scheme and scheme-specific part both are "dtn:none". */
  function FromUri(uri: seq<byte>): EndpointId
  {
    var i := FindColon(uri);
    if i == |uri| then EndpointId(uri, 8, 9)
    else
      var n := SchemeLength(uri[..i], uri[i + 1..]);
      EndpointId(uri, n, n + 1)
  }

  predicate Part(s: seq<byte>)
  {
    0 < |s| <= MAX_PART && 0 !in s
  }

  /** A URI "scheme:ssp" whose parts are not empty, not over-long and free of
      the NUL octet. */
  predicate ValidUri(uri: seq<byte>)
  {
    var i := FindColon(uri);
    i < |uri| && Part(uri[..i]) && Part(uri[i + 1..])
  }

  function SchemeOf(uri: seq<byte>): seq<byte>
    requires ValidUri(uri)
  {
    uri[..FindColon(uri)]
  }

  function SspOf(uri: seq<byte>): seq<byte>
    requires ValidUri(uri)
  {
    uri[FindColon(uri) + 1..]
  }

  /** Both constructors agree on a valid URI, and the accessors take it apart
      into what the other constructor would put together again. */
  lemma PartsAndUri(uri: seq<byte>)
    requires ValidUri(uri)
    ensures FromUri(uri).Scheme() == SchemeOf(uri)
    ensures FromUri(uri).Ssp() == Some(SspOf(uri))
    ensures FromParts(SchemeOf(uri), SspOf(uri)) == FromUri(uri)
  {
    var i := FindColon(uri);
    assert uri == uri[..i] + [COLON] + uri[i + 1..];
  }

  /** Building from parts and taking apart again, for parts that are not empty
      and not over-long (the scheme may even hold a colon). */
  lemma TakeApart(scheme: seq<byte>, ssp: seq<byte>)
    requires 0 < |scheme| <= MAX_PART && 0 < |ssp| <= MAX_PART
    ensures FromParts(scheme, ssp).Scheme() == scheme
    ensures FromParts(scheme, ssp).Ssp() == Some(ssp)
  {
    var uri := scheme + [COLON] + ssp;
    assert uri[..|scheme|] == scheme && uri[|scheme| + 1..] == ssp;
  }

  const DtnNone: seq<byte> := Ascii("dtn:none")

  lemma FirstColon(s: seq<byte>, k: nat)
    requires k < |s| && s[k] == COLON && forall j :: 0 <= j < k ==> s[j] != COLON
    ensures FindColon(s) == k
  {
  }

  lemma DtnNoneIsValid()
    ensures ValidUri(DtnNone)
    ensures SchemeOf(DtnNone) == Ascii("dtn") && SspOf(DtnNone) == Ascii("none")
  {
    var u := DtnNone;
    assert u == Ascii("dtn") + [COLON] + Ascii("none");
    assert u[3] == COLON && u[..3] == Ascii("dtn") && u[4..] == Ascii("none");
    NoNul();
    FirstColon(u, 3);
  }

  lemma NoNul()
    ensures 0 !in Ascii("dtn") && 0 !in Ascii("none")
  {
    assert forall c :: c in Ascii("dtn") ==> c > 99;
    assert forall c :: c in Ascii("none") ==> c > 99;
  }
}
