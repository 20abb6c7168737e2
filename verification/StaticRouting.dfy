/**
 The static routing agent (bp/model/bp-static-routing-agent.cc): for each
 destination a list of routes, of which the first that is up counts.
 */
module StaticRouting {
  import opened Bytes
  import opened Bundles
  import opened Agent
  import Endpoint

  /** The first route that is up, and nothing else, is what a look-up finds. */
  lemma {:induction false} FirstUpIs(routes: seq<Route>, i: nat)
    requires i < |routes| && routes[i].up && forall j :: 0 <= j < i ==> !routes[j].up
    ensures FirstUp(routes) == Some(routes[i])
  {
    if i > 0 {
      FirstUpIs(routes[1..], i - 1);
    }
  }

  lemma {:induction false} NoneUpIs(routes: seq<Route>)
    ensures FirstUp(routes).None? <==> forall j :: 0 <= j < |routes| ==> !routes[j].up
  {
    if routes != [] {
      NoneUpIs(routes[1..]);
      if forall j :: 0 <= j < |routes| ==> !routes[j].up {
        assert forall j :: 0 <= j < |routes[1..]| ==> routes[1..][j] == routes[j + 1];
      } else if !routes[0].up {
        var j :| 0 <= j < |routes| && routes[j].up;
        assert routes[1..][j - 1] == routes[j];
      }
    }
  }

  predicate Matches(r: Route, nxt: Eid, note: Option<string>)
  {
    r.nextHop == nxt && (note.None? || r.note == note.value)
  }

  /** The first route over `nxt` (with that note) is set up or down. */
  function Set(routes: seq<Route>, nxt: Eid, note: Option<string>, up: bool): (r: seq<Route>)
    ensures |r| == |routes|
  {
    if routes == [] then []
    else if Matches(routes[0], nxt, note) then [routes[0].(up := up)] + routes[1..]
    else [routes[0]] + Set(routes[1..], nxt, note, up)
  }

  lemma {:induction false} SetAt(routes: seq<Route>, nxt: Eid, note: Option<string>, up: bool, i: nat)
    requires i <= |routes| && forall j :: 0 <= j < i ==> !Matches(routes[j], nxt, note)
    requires i < |routes| ==> Matches(routes[i], nxt, note)
    ensures Set(routes, nxt, note, up) == if i < |routes| then routes[i := routes[i].(up := up)] else routes
  {
    if i > 0 {
      SetAt(routes[1..], nxt, note, up, i - 1);
      assert routes == [routes[0]] + routes[1..];
    }
  }

  /** Setting a route up makes the destination reachable; setting it down again
      gives back the list as it was, if the route was down before. */
  lemma {:induction false} UpThenDown(routes: seq<Route>, nxt: Eid, note: Option<string>, i: nat)
    requires i < |routes| && Matches(routes[i], nxt, note)
    requires forall j :: 0 <= j < i ==> !Matches(routes[j], nxt, note)
    ensures FirstUp(Set(routes, nxt, note, true)).Some?
    ensures !routes[i].up ==> Set(Set(routes, nxt, note, true), nxt, note, false) == routes
  {
    var up := Set(routes, nxt, note, true);
    SetAt(routes, nxt, note, true, i);
    NoneUpIs(up);
    assert up[i].up;
    SetAt(up, nxt, note, false, i);
  }

  class BpStaticRoutingAgent {
    var routes: map<Eid, seq<Route>>

    constructor ()
      ensures routes == map[]
    {
      routes := map[];
    }

    method AddRoute(dst: Eid, nxt: Eid, up: bool, cla: Option<Cla>, note: Option<string>)
      modifies this
      ensures routes == old(routes)[dst := (if dst in old(routes) then old(routes)[dst] else [])
                + [Route(nxt, up, cla, if note.Some? then note.value else "(none)")]]
    {
      var r := Route(nxt, up, cla, if note.Some? then note.value else "(none)");
      if dst !in routes {
        routes := routes[dst := []];
      }
      routes := routes[dst := routes[dst] + [r]];
    }

    method FirstUpRoute(eid: Eid) returns (r: Option<Route>)
      ensures r == LookUp(routes, eid)
    {
      if eid !in routes {
        return None;
      }
      var list := routes[eid];
      var i := 0;
      while i < |list|
        invariant 0 <= i <= |list| && forall j :: 0 <= j < i ==> !list[j].up
      {
        if list[i].up {
          FirstUpIs(list, i);
          return Some(list[i]);
        }
        i := i + 1;
      }
      NoneUpIs(list);
      return None;
    }

    /** "dtn:none" where there is no route. */
    method NextHopEid(dst: Eid) returns (eid: Eid)
      ensures eid == match LookUp(routes, dst) case None => Endpoint.DtnNone case Some(r) => r.nextHop
    {
      var r := FirstUpRoute(dst);
      eid := if r.Some? then r.value.nextHop else Endpoint.DtnNone;
    }

    method NextHopCla(eid: Eid) returns (cla: Option<Cla>)
      ensures cla == match LookUp(routes, eid) case None => None case Some(r) => r.cla
    {
      var r := FirstUpRoute(eid);
      cla := if r.Some? then r.value.cla else None;
    }

    /** `UpRoute` and `DownRoute`. */
    method SetRoute(dst: Eid, nxt: Eid, note: Option<string>, up: bool)
      requires dst in routes
      modifies this
      ensures routes == old(routes)[dst := Set(old(routes)[dst], nxt, note, up)]
    {
      var list := routes[dst];
      var j := 0;
      while j < |list|
        invariant 0 <= j <= |list| && routes == old(routes)
        invariant forall k :: 0 <= k < j ==> !Matches(list[k], nxt, note)
      {
        if list[j].nextHop == nxt && (note.None? || list[j].note == note.value) {
          SetAt(list, nxt, note, up, j);
          routes := routes[dst := list[j := list[j].(up := up)]];
          return;
        }
        j := j + 1;
      }
      SetAt(list, nxt, note, up, j);
      assert routes[dst := list] == routes;
    }
  }
}
