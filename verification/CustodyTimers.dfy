/**
 Custody timers over whole runs: no bundle in custody is stranded or has two
 timers, in any run in which no custody ADU is sent already expired; and what
 exactly such a call of `Send` does to the timers.
 */
module CustodyTimers {
  import opened Bytes
  import opened Bundles
  import opened Agent
  import opened Soundness
  import opened Custodial
  import opened Drain
  import opened Network
  import Endpoint

  /** The header under which a `Submit` step sends. */
  function HeaderOf(n: Node<Id>, e: Step, now: nat): Header
    requires e.Submit?
  {
    OutboundHeader(n.eid, n.sequence, now, |e.adu|, e.src, e.dst, e.lifetime, e.custody, e.priority)
  }

  /** `Send` is not asked to take custody of an expired ADU that it can pass on at
      once. */
  predicate Prompt(n: Node<Id>, e: Step, now: nat)
  {
    e.Submit? ==> !(MaySend(n, e.src) && e.custody && Expired(HeaderOf(n, e, now), now) && CanForward(n, e.dst))
  }

  lemma ArriveSteady(n: Node<Id>, e: Step, now: nat, timed: bool)
    requires Steady(n.world, timed) && e.Arrive? && MayAct(n, e) && Faultless(n, e)
    ensures Steady(Act(n, e, now).0.world, timed)
  {
    ProcessSteady(n, PacketOf(e.octets), e.id, e.signalId, e.address, now, timed);
  }

  lemma TimerSteady(n: Node<Id>, e: Step, now: nat, timed: bool)
    requires Steady(n.world, timed) && e.Timer? && MayAct(n, e) && Faultless(n, e)
    ensures Steady(Act(n, e, now).0.world, timed)
  {
    if n.world.pending[e.event].Expiry? {
      ExpireSteady(n, e.event, timed);
    } else {
      RetransmitSteady(n, e.event, timed);
    }
  }

  lemma ActSteady(n: Node<Id>, e: Step, now: nat, timed: bool)
    requires Steady(n.world, timed) && !e.Clock? && MayAct(n, e) && Faultless(n, e) && (timed ==> Prompt(n, e, now))
    ensures Steady(Act(n, e, now).0.world, timed)
  {
    match e
    case Submit(_, id, address, adu, src, dst, lifetime, custody, priority) =>
      SendSteady(n, id, address, now, adu, src, dst, lifetime, custody, priority, false);
      if timed {
        SendKeepsTimers(n, id, address, now, adu, src, dst, lifetime, custody, priority);
      }
    case Arrive(_, _, _, _, _) => ArriveSteady(n, e, now, timed);
    case Timer(_, _) => TimerSteady(n, e, now, timed);
    case AdapterReady(_, cla) => ClaReadySteady(n, cla, timed);
    case Fetch(_, eid) => ReceiveSteady(n, eid, timed);
    case Configure(_, _, _, _, _) =>
  }

  ghost predicate AllSteady(s: Net, timed: bool)
  {
    forall at :: at in s.nodes ==> Steady(s.nodes[at].world, timed)
  }

  lemma StepSteady(s: Net, e: Step, s': Net, timed: bool)
    requires AllSteady(s, timed) && Goes(s, e, s') && (timed && !e.Clock? ==> Prompt(s.nodes[e.at], e, s.now))
    ensures AllSteady(s', timed)
  {
    if !e.Clock? {
      assert Steady(s.nodes[e.at].world, timed);
      ActSteady(s.nodes[e.at], e, s.now, timed);
    }
  }

  ghost predicate PromptRun(states: seq<Net>, steps: seq<Step>)
  {
    Run(states, steps) && forall i :: 0 <= i < |steps| ==> PromptStep(states[i], steps[i])
  }

  ghost predicate PromptStep(s: Net, e: Step)
  {
    e.Clock? || (e.at in s.nodes && Prompt(s.nodes[e.at], e, s.now))
  }

  lemma BlankSteady(n: Node<Id>)
    requires Blank(n)
    ensures Steady(n.world, true)
  {
  }

  lemma {:induction false} RunSteady(states: seq<Net>, steps: seq<Step>, i: nat, timed: bool)
    requires Run(states, steps) && (timed ==> PromptRun(states, steps)) && i <= |steps|
    ensures AllSteady(states[i], timed)
  {
    if i == 0 {
      forall at | at in states[0].nodes ensures Steady(states[0].nodes[at].world, timed) {
        BlankSteady(states[0].nodes[at]);
      }
    } else {
      RunSteady(states, steps, i - 1, timed);
      assert Goes(states[i - 1], steps[i - 1], states[i]);
      assert timed ==> PromptStep(states[i - 1], steps[i - 1]);
      StepSteady(states[i - 1], steps[i - 1], states[i], timed);
    }
  }

  /** Custody timers: in every state of every run without such calls of `Send`,
      on any channel, each stored bundle in custody either waits for an adapter
      or has a live retransmission timer and not both; its timer is the only one
      it has; and no bundle outside a store has one. */
  lemma TimersAgree(states: seq<Net>, steps: seq<Step>, i: nat, at: NodeId)
    requires PromptRun(states, steps) && i <= |steps| && at in states[i].nodes
    ensures var w := states[i].nodes[at].world;
            StoreKnown(w)
            && (forall x :: x in w.store && CustodyAccepted in w.bundles[x].retention ==>
                  (ForwardPending in w.bundles[x].retention <==> !IsRunning(w, w.bundles[x].nextRetrans)))
            && (forall e :: e in w.pending && w.pending[e].Retransmission? ==>
                  w.pending[e].bundle in w.store && w.bundles[w.pending[e].bundle].nextRetrans == Some(e))
  {
    RunSteady(states, steps, i, true);
    var w := states[i].nodes[at].world;
    assert Steady(w, true);
    forall x | x in w.store ensures InCustody(w, x) {
    }
    forall e | e in w.pending ensures EventHeld(w, e) {
    }
  }

  /** In every run at all, the store, the bundles and the event queue agree: a
      bundle is stored at most once and has a live expiry event exactly when it
      is stored with a lifetime. */
  lemma ExpiryAgrees(states: seq<Net>, steps: seq<Step>, i: nat, at: NodeId)
    requires Run(states, steps) && i <= |steps| && at in states[i].nodes
    ensures var w := states[i].nodes[at].world;
            StoreKnown(w) && Distinct(w.store)
            && forall x :: x in w.bundles ==>
                 ((exists e :: e in w.pending && w.pending[e] == Expiry(x))
                  <==> (x in w.store && w.bundles[x].header.lifetime != 0))
  {
    RunSteady(states, steps, i, false);
    var w := states[i].nodes[at].world;
    assert Steady(w, false);
    ExpiresIfStored(w);
  }

  // --------------------------------------------- custody of what has expired

  /** Sent expired with custody through a ready adapter: not stored, yet timed. */
  lemma ExpiredIsTimed<T>(n: Node<T>, id: T)
    requires Sound(n.world) && Sendable(n, id) && !IsRunning(n.world, n.world.bundles[id].nextRetrans)
    requires id !in n.world.store && CustodyAccepted in n.world.bundles[id].retention
    requires n.world.bundles[id].header.custody && CanForward(n, n.world.bundles[id].header.dst)
    ensures StoreKnown(Forward(n, id).0.world) && !Timed(Forward(n, id).0.world)
  {
    var w := MarkForward(n.world, id);
    MarkSound(n.world, id);
    ForwardIs(n, id);
    TransmitSound(w, id, n.bundleSize);
    SentSound(w, id, n.bundleSize);
    assert CustodyAccepted in w.bundles[id].retention - {ForwardPending};
    var w' := Sent(w, id, n.bundleSize);
    assert HandlesFit(w', id);
    assert w'.pending[w'.bundles[id].nextRetrans.value] == Retransmission(id);
  }

  /** Without an adapter it is not stored either, but waits without a timer. */
  lemma ExpiredWaits<T>(n: Node<T>, id: T)
    requires Sound(n.world) && Sendable(n, id) && !IsRunning(n.world, n.world.bundles[id].nextRetrans)
    requires id !in n.world.store && !CanForward(n, n.world.bundles[id].header.dst)
    requires Timed(n.world)
    ensures StoreKnown(Forward(n, id).0.world) && Timed(Forward(n, id).0.world)
  {
    MarkSound(n.world, id);
    TouchTimed(n.world, MarkForward(n.world, id), id);
    ForwardIs(n, id);
  }

  lemma AcceptedExpired<T>(n: Node<T>, id: T, address: nat, now: nat, h: Header, adu: seq<byte>)
    requires Steady(n.world, true) && id !in n.world.bundles && h.custody && Expired(h, now)
    ensures var w := Accepted(n, id, address, now, h, adu).world;
            Sound(w) && id !in w.store && !IsRunning(w, w.bundles[id].nextRetrans) && Timed(w)
  {
    var b := NewBundle(h, adu, OutboundRetention(h.custody), address);
    AddSound(n.world, id, b);
  }

  lemma SendIs<T>(n: Node<T>, id: T, address: nat, now: nat, adu: seq<byte>, src: Eid, dst: Eid,
                  lifetime: nat, custody: bool, priority: nat)
    requires n.bundleSize > 0 && StoreKnown(n.world) && MaySend(n, src)
    ensures var h := OutboundHeader(n.eid, n.sequence, now, |adu|, src, dst, lifetime, custody, priority);
            Send(n, id, address, now, adu, src, dst, lifetime, custody, priority).0
            == Forward(Accepted(n, id, address, now, h, adu), id).0
  {
  }

  /** The timers stay in order over a call of `Send` exactly when it is not asked
      to take custody of an expired ADU that it can pass on at once. */
  lemma SendKeepsTimers<T>(n: Node<T>, id: T, address: nat, now: nat, adu: seq<byte>, src: Eid, dst: Eid,
                           lifetime: nat, custody: bool, priority: nat)
    requires Sound(n.world) && Timed(n.world) && n.bundleSize > 0 && id !in n.world.bundles
    ensures var h := OutboundHeader(n.eid, n.sequence, now, |adu|, src, dst, lifetime, custody, priority);
            var w' := Send(n, id, address, now, adu, src, dst, lifetime, custody, priority).0.world;
            StoreKnown(w') &&
            (Timed(w') <==> !(MaySend(n, src) && custody && Expired(h, now) && CanForward(n, dst)))
  {
    var h := OutboundHeader(n.eid, n.sequence, now, |adu|, src, dst, lifetime, custody, priority);
    if MaySend(n, src) && custody && Expired(h, now) {
      SendIs(n, id, address, now, adu, src, dst, lifetime, custody, priority);
      AcceptedExpired(n, id, address, now, h, adu);
      if CanForward(n, dst) {
        ExpiredIsTimed(Accepted(n, id, address, now, h, adu), id);
      } else {
        ExpiredWaits(Accepted(n, id, address, now, h, adu), id);
      }
    } else if MaySend(n, src) {
      SendSteady(n, id, address, now, adu, src, dst, lifetime, custody, priority, true);
    }
  }

  /** Such a call: two ticks into a second an agent with one ready adapter takes
      custody of an ADU with a lifetime of one tick, counted from the second. */
  lemma ExpiredCustodyExample(eid: Eid, dst: Eid, adu: seq<byte>, created: nat)
    requires dst != Endpoint.DtnNone && created == SECOND + 2
    ensures var route := Route(dst, true, Some(0), "(none)");
            var n: Node<Id> := Node(eid, map[], map[dst := [route]], {0}, 512, 0,
                                    World(map[], [], 0, 0, map[], 0), 0, 0);
            Sound(n.world) && Timed(n.world)
            && var w' := Send(n, 0, 0, created, adu, Endpoint.DtnNone, dst, 1, true, 0).0.world;
               StoreKnown(w') && !Timed(w')
  {
    var route := Route(dst, true, Some(0), "(none)");
    var n: Node<Id> := Node(eid, map[], map[dst := [route]], {0}, 512, 0, World(map[], [], 0, 0, map[], 0), 0, 0);
    assert LookUp(n.routes, dst) == Some(route);
    assert CanForward(n, dst);
    SendKeepsTimers(n, 0, 0, created, adu, Endpoint.DtnNone, dst, 1, true, 0);
  }
}
