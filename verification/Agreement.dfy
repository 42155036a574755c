/** What a neighbour last announced against what the Loc-RIB holds for it, through the queue between
    the two (src/neighbor/message_handler.rs:261-344, 478-563, src/speaker/manager.rs:158-180). */
module Agreements {
  import opened Basics
  import opened Bytes
  import opened Types
  import opened Nlris
  import opened Routes
  import opened LocRibs
  import opened Sessions
  import opened Messages
  import opened Speakers
  import Updates

  /** The number of copies of a route once the events have been processed. */
  function CountFrom(events: seq<RibEvent>, asn: U16, n: Nlri, r: Route, c: nat): nat
    decreases |events|
  {
    if events == [] then c else CountFrom(events[1..], asn, n, r, CountAfter(events[0], asn, n, r, c))
  }

  lemma {:induction false} CountFromSplit(a: seq<RibEvent>, b: seq<RibEvent>, asn: U16, n: Nlri, r: Route, c: nat)
    ensures CountFrom(a + b, asn, n, r, c) == CountFrom(b, asn, n, r, CountFrom(a, asn, n, r, c))
    decreases |a|
  {
    hide CountAfter;
    if a == [] {
      assert a + b == b;
    } else {
      assert (a + b)[1..] == a[1..] + b;
      CountFromSplit(a[1..], b, asn, n, r, CountAfter(a[0], asn, n, r, c));
    }
  }

  lemma CountFromOne(u: RibEvent, asn: U16, n: Nlri, r: Route, c: nat)
    ensures CountFrom([], asn, n, r, c) == c
    ensures CountFrom([u], asn, n, r, c) == CountAfter(u, asn, n, r, c)
  {
    assert [u][1..] == [];
  }

  /** The number of copies of `r` the table will hold when the queue has been processed. */
  ghost function Pending(cfg: Config, s: Spk, af: AddressFamily, n: Nlri, r: Route): nat
    requires Shaped(cfg, s) && af in cfg.families
  {
    CountFrom(s.queues[af], cfg.localAsn, n, r, Held(s.ribs[af], n)[r])
  }

  /** An empty queue owes nothing. */
  lemma NothingOwed(cfg: Config, s: Spk, af: AddressFamily, n: Nlri, r: Route)
    requires Shaped(cfg, s) && af in cfg.families && s.queues[af] == []
    ensures Pending(cfg, s, af, n, r) == Held(s.ribs[af], n)[r]
  {
  }

  /** Processing the queue pays what is owed. */
  lemma DrainKeepsPending(
    cfg: Config, s: Spk, step: Step, t: Spk, af: AddressFamily, n: Nlri, r: Route)
    requires Next(cfg, s, step, t) && step.Drain? && Shaped(cfg, t) && RibsInv(cfg, s) && af in cfg.families
    ensures Pending(cfg, t, af, n, r) == Pending(cfg, s, af, n, r)
  {
    hide EventStep, Held, CountAfter, RibInv;
    if af == step.af {
      EventRefines(s.ribs[af], step.fib, cfg.localAsn, s.queues[af][0], step.out, n, r);
    }
  }

  lemma PurgeCount(rid: U32, asn: U16, n: Nlri, r: Route, c: nat)
    ensures CountFrom([WithdrawAllEvent(rid)], asn, n, r, c) == if r.peerRid == rid then 0 else c
  {
    CountFromOne(WithdrawAllEvent(rid), asn, n, r, c);
  }

  lemma {:induction false} PurgesCount(
    families: seq<AddressFamily>, af: AddressFamily, rid: U32, asn: U16, n: Nlri, r: Route, c: nat)
    ensures CountFrom(Purges(families, af, rid), asn, n, r, c) ==
            if af in families && r.peerRid == rid then 0 else c
  {
    CountFromOne(WithdrawAllEvent(rid), asn, n, r, c);
    if families != [] {
      hide CountFrom, CountAfter, WithdrawAllEvent;
      var init, last := families[..|families| - 1], families[|families| - 1];
      PurgesCount(init, af, rid, asn, n, r, c);
      var c' := CountFrom(Purges(init, af, rid), asn, n, r, c);
      PurgeCount(rid, asn, n, r, c');
      CountFromOne(WithdrawAllEvent(rid), asn, n, r, c');
      CountFromSplit(Purges(init, af, rid), if last == af then [WithdrawAllEvent(rid)] else [], asn, n, r, c);
      assert families == init + [last];
    }
  }

  /** The number of copies after an UPDATE of its own peer. */
  function CountAfterUpdate(p: Parts, attrs: Route, asn: U16, n: Nlri, r: Route, c: nat): nat {
    if r.peerRid == attrs.peerRid && n in p.withdrawn then 0
    else c + if LoopFree(attrs, asn) && r == attrs then multiset(p.nlris)[n] else 0
  }

  lemma EventCount(p: Parts, attrs: Route, rid: U32, asn: U16, n: Nlri, r: Route, c: nat)
    ensures CountAfter(EventOf(p, attrs, rid), asn, n, r, c) == CountAfterUpdate(p, attrs, asn, n, r, c)
  {
    hide LoopFree;
  }

  /** The number of copies to come after a message. */
  function CountAfterMessage(
    cfg: Config, nb: Nb, i: nat, m: Body, now: nat, af: AddressFamily, n: Nlri, r: Route, c: nat): nat
    requires i < |cfg.peers|
  {
    var s := nb.session;
    if s.state != Established then c
    else match m
      case UpdateBody(u) =>
        if nb.wired && Identified(s) && af == PartsOf(u).af
        then CountAfterUpdate(PartsOf(u), RouteFrom(s, EndsOf(cfg, i), u, now), cfg.localAsn, n, r, c) else c
      case NotificationBody(_, _, _) =>
        if af in FamiliesOf(cfg, i) && r.peerRid == (if s.rid.Some? then s.rid.value else 0) then 0 else c
      case _ => c
  }

  lemma PushedCount(
    cfg: Config, s: Spk, i: nat, m: Body, now: nat, af: AddressFamily, n: Nlri, r: Route, c: nat)
    requires i < |s.nbs| == |cfg.peers|
    ensures CountFrom(Pushed(cfg, s, i, m, now, af), cfg.localAsn, n, r, c) ==
            CountAfterMessage(cfg, s.nbs[i], i, m, now, af, n, r, c)
  {
    hide CountAfter, CountAfterUpdate, Purges, EventOf, PartsOf, RouteFrom;
    var nb, asn := s.nbs[i].session, cfg.localAsn;
    CountFromOne(WithdrawAllEvent(0), asn, n, r, c);
    if nb.state == Established {
      match m {
        case UpdateBody(u) =>
          if Identified(nb) {
            var p, attrs := PartsOf(u), RouteFrom(nb, EndsOf(cfg, i), u, now);
            EventCount(p, attrs, nb.rid.value, asn, n, r, c);
            CountFromOne(EventOf(p, attrs, nb.rid.value), asn, n, r, c);
          }
        case NotificationBody(_, _, _) =>
          PurgesCount(FamiliesOf(cfg, i), af, if nb.rid.Some? then nb.rid.value else 0, asn, n, r, c);
        case _ =>
      }
    }
  }

  lemma HearChangesPending(
    cfg: Config, s: Spk, i: nat, m: Body, now: nat, af: AddressFamily, n: Nlri, r: Route)
    requires Shaped(cfg, s) && i < |s.nbs| && af in cfg.families && Shaped(cfg, Heard(cfg, s, i, m, now))
    ensures Pending(cfg, Heard(cfg, s, i, m, now), af, n, r) ==
            CountAfterMessage(cfg, s.nbs[i], i, m, now, af, n, r, Pending(cfg, s, af, n, r))
  {
    hide Pushed, Held, HeardBy, CountAfterMessage;
    var c := Held(s.ribs[af], n)[r];
    CountFromSplit(s.queues[af], Pushed(cfg, s, i, m, now, af), cfg.localAsn, n, r, c);
    PushedCount(cfg, s, i, m, now, af, n, r, CountFrom(s.queues[af], cfg.localAsn, n, r, c));
  }

  /** Any step, told by its effect on what is owed. */
  lemma NextChangesPending(cfg: Config, s: Spk, step: Step, t: Spk, af: AddressFamily, n: Nlri, r: Route)
    requires Next(cfg, s, step, t) && Shaped(cfg, t) && RibsInv(cfg, s) && af in cfg.families
    ensures Pending(cfg, t, af, n, r) ==
            if step.Hear?
            then CountAfterMessage(cfg, s.nbs[step.i], step.i, step.m, step.now, af, n, r, Pending(cfg, s, af, n, r))
            else Pending(cfg, s, af, n, r)
  {
    hide EventStep, Held, Moved, Allowed, CountAfterMessage, CountFrom, Heard;
    match step {
      case Hear(i, m, now) => HearChangesPending(cfg, s, i, m, now, af, n, r);
      case Drain(_, _, _) => DrainKeepsPending(cfg, s, step, t, af, n, r);
      case _ =>
    }
  }

  /** Every peer uses one router id, and no two the same. */
  ghost predicate StableRids(rids: seq<U32>, run: Speakers.Run) {
    && (forall i, j | 0 <= i < j < |rids| :: rids[i] != rids[j])
    && forall k | 0 <= k < |run.steps| :: StableStep(rids, run.steps[k])
  }

  predicate StableStep(rids: seq<U32>, step: Step) {
    step.Hear? && step.m.OpenBody? ==> step.i < |rids| && step.m.open.routerId == rids[step.i]
  }

  /** What a session knows of its peer, and that it knows it when it counts. */
  predicate KnowsPeer(s: Session, asn: U16, rid: U32) {
    && s.asn == Some(asn)
    && (s.rid == None || s.rid == Some(rid))
    && (s.state == OpenConfirm || s.state == Established ==> s.rid == Some(rid))
  }

  ghost predicate KnowPeers(cfg: Config, rids: seq<U32>, s: Spk) {
    |rids| == |cfg.peers| == |s.nbs|
    && forall i | 0 <= i < |rids| :: KnowsPeer(s.nbs[i].session, cfg.peers[i].asn, rids[i])
  }

  lemma HearKeepsKnown(cfg: Config, s: Spk, i: nat, m: Body, now: nat, rid: U32)
    requires i < |s.nbs| == |cfg.peers| && KnowsPeer(s.nbs[i].session, cfg.peers[i].asn, rid)
    requires m.OpenBody? ==> m.open.routerId == rid
    ensures KnowsPeer(HeardBy(cfg, s, i, m, now).session, cfg.peers[i].asn, rid)
  {
    hide Collides, AdjAfter, FateAt, HeardFrom;
  }

  lemma MoveKeepsKnown(nb: Nb, step: Step, asn: U16, rid: U32)
    requires KnowsPeer(nb.session, asn, rid) && Allowed(nb, step)
    ensures KnowsPeer(Moved(nb, step).session, asn, rid)
  {
  }

  lemma NextKeepsKnown(cfg: Config, rids: seq<U32>, s: Spk, step: Step, t: Spk)
    requires Next(cfg, s, step, t) && KnowPeers(cfg, rids, s) && StableStep(rids, step)
    ensures KnowPeers(cfg, rids, t)
  {
    hide EventStep, HeardBy, Pushed, Moved, Allowed, KnowsPeer;
    match step {
      case Hear(i, m, now) => HearKeepsKnown(cfg, s, i, m, now, rids[i]);
      case Drain(_, _, _) =>
      case _ => MoveKeepsKnown(s.nbs[step.i], step, cfg.peers[step.i].asn, rids[step.i]);
    }
  }

  lemma {:induction false} RunKeepsKnown(cfg: Config, rids: seq<U32>, run: Speakers.Run, k: nat)
    requires IsRun(cfg, run) && StableRids(rids, run) && |rids| == |cfg.peers| && k < |run.states|
    ensures KnowPeers(cfg, rids, run.states[k])
  {
    hide Next;
    if k > 0 {
      RunKeepsKnown(cfg, rids, run, k - 1);
      NextKeepsKnown(cfg, rids, run.states[k - 1], run.steps[k - 1], run.states[k]);
    }
  }

  function AdjOf(s: Spk, i: nat, af: AddressFamily): Rib
    requires i < |s.nbs|
  {
    FamilyRib(s.nbs[i].session.adj, af)
  }

  /** An Adj-RIB entry is one route, and the neighbour's own. */
  ghost predicate OwnEntry(rids: seq<U32>, s: Spk, i: nat, af: AddressFamily, n: Nlri)
    requires i < |s.nbs| == |rids|
  {
    n in AdjOf(s, i, af) ==> |AdjOf(s, i, af)[n]| == 1 && AdjOf(s, i, af)[n][0].peerRid == rids[i]
  }

  /** A loop-free route of the Adj-RIB is, or will be, in the Loc-RIB. */
  ghost predicate HeldAt(cfg: Config, s: Spk, i: nat, af: AddressFamily, n: Nlri)
    requires Shaped(cfg, s) && af in cfg.families && i < |s.nbs|
  {
    n in AdjOf(s, i, af) && |AdjOf(s, i, af)[n]| == 1 && LoopFree(AdjOf(s, i, af)[n][0], cfg.localAsn) ==>
      Pending(cfg, s, af, n, AdjOf(s, i, af)[n][0]) > 0
  }

  /** A route that is, or will be, in the Loc-RIB is for a prefix of its peer's Adj-RIB, unless the
      family is one that a NOTIFICATION does not withdraw. */
  ghost predicate ListedAt(cfg: Config, rids: seq<U32>, s: Spk, i: nat, af: AddressFamily, n: Nlri, r: Route)
    requires Shaped(cfg, s) && af in cfg.families && i < |s.nbs| == |rids|
  {
    r.peerRid == rids[i] && Pending(cfg, s, af, n, r) > 0 ==>
      s.nbs[i].wired && (af in FamiliesOf(cfg, i) ==> n in AdjOf(s, i, af))
  }

  lemma QuietStep(cfg: Config, s: Spk, step: Step, t: Spk, i: nat, af: AddressFamily)
    requires Next(cfg, s, step, t) && !step.Hear? && i < |s.nbs|
    ensures i < |t.nbs| && AdjOf(t, i, af) == AdjOf(s, i, af) && (s.nbs[i].wired ==> t.nbs[i].wired)
  {
    hide EventStep;
  }

  lemma ElsewhereNothing(cfg: Config, s: Spk, j: nat, m: Body, now: nat, i: nat, af: AddressFamily)
    requires i < |s.nbs| == |cfg.peers| && j < |s.nbs|
    ensures var t := Heard(cfg, s, j, m, now);
            t.nbs[i].wired == s.nbs[i].wired && (i != j ==> AdjOf(t, i, af) == AdjOf(s, i, af))
  {
    hide Reached, Pushed;
  }

  /** Another peer's message leaves a peer's routes alone. */
  lemma OthersDoNotCount(
    cfg: Config, rids: seq<U32>, s: Spk, j: nat, m: Body, now: nat, af: AddressFamily, n: Nlri, r: Route, c: nat)
    requires KnowPeers(cfg, rids, s) && j < |s.nbs| && r.peerRid != rids[j]
    ensures CountAfterMessage(cfg, s.nbs[j], j, m, now, af, n, r, c) == c
  {
    hide PartsOf, LoopFree, SayAll;
    assert KnowsPeer(s.nbs[j].session, cfg.peers[j].asn, rids[j]);
  }

  lemma AdjReached(cfg: Config, s: Spk, i: nat, m: Body, now: nat, af: AddressFamily)
    requires i < |s.nbs| == |cfg.peers|
    ensures AdjOf(Heard(cfg, s, i, m, now), i, af) ==
            FamilyRib(Reached(s.nbs[i].session, EndsOf(cfg, i), SessionsOf(s), m, now).adj, af)
  {
    hide Reached, FateAt, Pushed;
  }

  /** The Adj-RIB of the neighbour that was heard. */
  lemma AdjHeard(cfg: Config, s: Spk, i: nat, m: Body, now: nat, af: AddressFamily, n: Nlri)
    requires i < |s.nbs| == |cfg.peers|
    ensures var nb := s.nbs[i].session;
            var before, after := AdjOf(s, i, af), AdjOf(Heard(cfg, s, i, m, now), i, af);
            if nb.state == Established && m.UpdateBody? && Identified(nb) then
              var p, attrs := PartsOf(m.update), RouteFrom(nb, EndsOf(cfg, i), m.update, now);
              && (n in after <==> (af == p.af && n in p.nlris) || (n in before && !(af == p.af && n in p.withdrawn)))
              && (n in after ==> after[n] == if af == p.af && n in p.nlris then [attrs] else before[n])
            else if nb.state == Established && m.NotificationBody? then after == map[]
            else after == before
  {
    AdjReached(cfg, s, i, m, now, af);
    hide Heard, Collides, PartsOf, AdjAfter, HeardFrom;
    var nb := s.nbs[i].session;
    if nb.state == Established && m.UpdateBody? && Identified(nb) {
      AdjAfterAt(nb.adj, PartsOf(m.update), RouteFrom(nb, EndsOf(cfg, i), m.update, now), af, n);
    }
  }

  lemma FromItself(cfg: Config, rids: seq<U32>, s: Spk, i: nat, u: Updates.UpdateMessage, now: nat)
    requires KnowPeers(cfg, rids, s) && i < |s.nbs| && s.nbs[i].session.state == Established
    ensures Identified(s.nbs[i].session) && s.nbs[i].session.rid == Some(rids[i])
    ensures RouteFrom(s.nbs[i].session, EndsOf(cfg, i), u, now).peerRid == rids[i]
  {
    assert KnowsPeer(s.nbs[i].session, cfg.peers[i].asn, rids[i]);
  }

  lemma HearKeepsListed(
    cfg: Config, rids: seq<U32>, s: Spk, j: nat, m: Body, now: nat, t: Spk, i: nat, af: AddressFamily, n: Nlri, r: Route)
    requires Shaped(cfg, s) && Shaped(cfg, t) && KnowPeers(cfg, rids, s) && af in cfg.families && j < |s.nbs|
    requires (forall a, b | 0 <= a < b < |rids| :: rids[a] != rids[b]) && i < |s.nbs|
    requires t == Heard(cfg, s, j, m, now) && ListedAt(cfg, rids, s, i, af, n, r)
    ensures ListedAt(cfg, rids, t, i, af, n, r)
  {
    assert |t.nbs| == |s.nbs| == |rids| == |cfg.peers|;
    hide Heard, Pending, LoopFree, AdjOf, RouteFrom, PartsOf, KnowPeers, Shaped;
    HearChangesPending(cfg, s, j, m, now, af, n, r);
    ElsewhereNothing(cfg, s, j, m, now, i, af);
    if i != j {
      if r.peerRid == rids[i] {
        OthersDoNotCount(cfg, rids, s, j, m, now, af, n, r, Pending(cfg, s, af, n, r));
      }
    } else {
      AdjHeard(cfg, s, i, m, now, af, n);
      if s.nbs[i].session.state == Established {
        FromItself(cfg, rids, s, i, if m.UpdateBody? then m.update else Updates.UpdateMessage([], [], []), now);
      }
    }
  }

  /** The announced and the withdrawn prefixes of an UPDATE have none in common. */
  ghost predicate Disjoint(p: Parts) {
    forall n <- p.nlris :: n !in p.withdrawn
  }

  /** UPDATEs arrive at neighbours that have their channels, and do not contradict themselves. */
  ghost predicate TidyStep(s: Spk, step: Step) {
    step.Hear? && step.m.UpdateBody? && step.i < |s.nbs| ==> s.nbs[step.i].wired && Disjoint(PartsOf(step.m.update))
  }

  lemma HearKeepsOwn(
    cfg: Config, rids: seq<U32>, s: Spk, j: nat, m: Body, now: nat, t: Spk, i: nat, af: AddressFamily, n: Nlri)
    requires KnowPeers(cfg, rids, s) && j < |s.nbs| && i < |s.nbs|
    requires t == Heard(cfg, s, j, m, now) && OwnEntry(rids, s, i, af, n)
    ensures OwnEntry(rids, t, i, af, n)
  {
    assert |t.nbs| == |s.nbs| == |rids| == |cfg.peers|;
    hide Heard, AdjOf, RouteFrom, PartsOf, KnowPeers;
    ElsewhereNothing(cfg, s, j, m, now, i, af);
    if i == j {
      AdjHeard(cfg, s, i, m, now, af, n);
      if s.nbs[i].session.state == Established {
        FromItself(cfg, rids, s, i, if m.UpdateBody? then m.update else Updates.UpdateMessage([], [], []), now);
      }
    }
  }

  lemma HearKeepsHeld(
    cfg: Config, rids: seq<U32>, s: Spk, j: nat, m: Body, now: nat, t: Spk, i: nat, af: AddressFamily, n: Nlri)
    requires Shaped(cfg, s) && Shaped(cfg, t) && KnowPeers(cfg, rids, s) && af in cfg.families && j < |s.nbs|
    requires (forall a, b | 0 <= a < b < |rids| :: rids[a] != rids[b]) && i < |s.nbs|
    requires t == Heard(cfg, s, j, m, now) && OwnEntry(rids, s, i, af, n) && HeldAt(cfg, s, i, af, n)
    requires TidyStep(s, Hear(j, m, now))
    ensures HeldAt(cfg, t, i, af, n)
  {
    assert |t.nbs| == |s.nbs| == |rids| == |cfg.peers|;
    hide Heard, Pending, LoopFree, AdjOf, RouteFrom, PartsOf, KnowPeers, Shaped;
    HearKeepsOwn(cfg, rids, s, j, m, now, t, i, af, n);
    ElsewhereNothing(cfg, s, j, m, now, i, af);
    if n in AdjOf(t, i, af) {
      var r := AdjOf(t, i, af)[n][0];
      HearChangesPending(cfg, s, j, m, now, af, n, r);
      if i != j {
        OthersDoNotCount(cfg, rids, s, j, m, now, af, n, r, Pending(cfg, s, af, n, r));
      } else {
        AdjHeard(cfg, s, i, m, now, af, n);
        if s.nbs[i].session.state == Established {
          FromItself(cfg, rids, s, i, if m.UpdateBody? then m.update else Updates.UpdateMessage([], [], []), now);
        }
      }
    }
  }

  /** The facts about one step that everything below rests on. */
  ghost predicate Settled(cfg: Config, rids: seq<U32>, s: Spk) {
    && Shaped(cfg, s) && RibsInv(cfg, s) && KnowPeers(cfg, rids, s)
    && forall i, j | 0 <= i < j < |rids| :: rids[i] != rids[j]
  }

  lemma RunSettles(cfg: Config, rids: seq<U32>, run: Speakers.Run, k: nat)
    requires IsRun(cfg, run) && StableRids(rids, run) && |rids| == |cfg.peers| && k < |run.states|
    ensures Settled(cfg, rids, run.states[k]) && |run.states| == |run.steps| + 1
    ensures k < |run.steps| ==> Next(cfg, run.states[k], run.steps[k], run.states[k + 1])
  {
    hide Next, Shaped, RibsInv, KnowPeers, StableStep;
    RunKeepsShape(cfg, run, k);
    RunKeepsKnown(cfg, rids, run, k);
  }

  lemma NextKeepsListed(
    cfg: Config, rids: seq<U32>, s: Spk, step: Step, t: Spk, i: nat, af: AddressFamily, n: Nlri, r: Route)
    requires Settled(cfg, rids, s) && Shaped(cfg, t) && Next(cfg, s, step, t)
    requires i < |s.nbs| && af in cfg.families && ListedAt(cfg, rids, s, i, af, n, r)
    ensures ListedAt(cfg, rids, t, i, af, n, r)
  {
    hide Pending, AdjOf, KnowPeers, EventStep, Moved, Allowed, Heard, RibsInv;
    if step.Hear? {
      HearKeepsListed(cfg, rids, s, step.i, step.m, step.now, t, i, af, n, r);
    } else {
      NextChangesPending(cfg, s, step, t, af, n, r);
      QuietStep(cfg, s, step, t, i, af);
    }
  }

  lemma NextKeepsOwn(
    cfg: Config, rids: seq<U32>, s: Spk, step: Step, t: Spk, i: nat, af: AddressFamily, n: Nlri)
    requires Settled(cfg, rids, s) && Shaped(cfg, t) && Next(cfg, s, step, t) && i < |s.nbs| == |rids|
    requires OwnEntry(rids, s, i, af, n)
    ensures OwnEntry(rids, t, i, af, n)
  {
    hide AdjOf, KnowPeers, EventStep, Moved, Allowed, Heard, RibsInv;
    if step.Hear? {
      HearKeepsOwn(cfg, rids, s, step.i, step.m, step.now, t, i, af, n);
    } else {
      QuietStep(cfg, s, step, t, i, af);
    }
  }

  lemma NextKeepsHeld(
    cfg: Config, rids: seq<U32>, s: Spk, step: Step, t: Spk, i: nat, af: AddressFamily, n: Nlri)
    requires Settled(cfg, rids, s) && Shaped(cfg, t) && Next(cfg, s, step, t) && i < |s.nbs| == |rids|
    requires af in cfg.families && OwnEntry(rids, s, i, af, n) && HeldAt(cfg, s, i, af, n) && TidyStep(s, step)
    ensures HeldAt(cfg, t, i, af, n)
  {
    hide Pending, AdjOf, KnowPeers, EventStep, Moved, Allowed, Heard, RibsInv, LoopFree;
    if step.Hear? {
      HearKeepsHeld(cfg, rids, s, step.i, step.m, step.now, t, i, af, n);
    } else {
      QuietStep(cfg, s, step, t, i, af);
      if n in AdjOf(s, i, af) && |AdjOf(s, i, af)[n]| == 1 {
        NextChangesPending(cfg, s, step, t, af, n, AdjOf(s, i, af)[n][0]);
      }
    }
  }

  /** In every reachable state a prefix with a route of a peer, held or to come, is one the peer
      announced last: true of every run in which peers keep their router ids. */
  lemma {:induction false} LocRibIsListed(
    cfg: Config, rids: seq<U32>, run: Speakers.Run, k: nat, i: nat, af: AddressFamily, n: Nlri, r: Route)
    requires IsRun(cfg, run) && StableRids(rids, run) && |rids| == |cfg.peers| && k < |run.states|
    requires i < |cfg.peers| && af in cfg.families
    ensures Settled(cfg, rids, run.states[k]) && ListedAt(cfg, rids, run.states[k], i, af, n, r)
  {
    hide IsRun, Next, Settled, StableRids;
    RunSettles(cfg, rids, run, k);
    if k == 0 {
      NothingAtFirst(cfg, run, i, af, n, r);
    } else {
      RunSettles(cfg, rids, run, k - 1);
      LocRibIsListed(cfg, rids, run, k - 1, i, af, n, r);
      SettledShape(cfg, rids, run.states[k - 1]);
      SettledShape(cfg, rids, run.states[k]);
      NextKeepsListed(cfg, rids, run.states[k - 1], run.steps[k - 1], run.states[k], i, af, n, r);
    }
  }

  lemma SettledShape(cfg: Config, rids: seq<U32>, s: Spk)
    requires Settled(cfg, rids, s)
    ensures Shaped(cfg, s) && |s.nbs| == |cfg.peers| == |rids|
  {
  }

  lemma NothingAtFirst(cfg: Config, run: Speakers.Run, i: nat, af: AddressFamily, n: Nlri, r: Route)
    requires IsRun(cfg, run) && i < |cfg.peers| && af in cfg.families
    ensures var s := run.states[0];
            Shaped(cfg, s) && Pending(cfg, s, af, n, r) == 0 && AdjOf(s, i, af) == map[]
  {
  }

  /** In every reachable state a loop-free route of an Adj-RIB is, or will be, in the Loc-RIB:
      true of every run whose UPDATEs are tidy. */
  lemma {:induction false} AdjRibIsHeld(
    cfg: Config, rids: seq<U32>, run: Speakers.Run, k: nat, i: nat, af: AddressFamily, n: Nlri)
    requires IsRun(cfg, run) && StableRids(rids, run) && |rids| == |cfg.peers| && k < |run.states|
    requires i < |cfg.peers| && af in cfg.families
    requires forall x | 0 <= x < k :: TidyStep(run.states[x], run.steps[x])
    ensures Settled(cfg, rids, run.states[k])
    ensures OwnEntry(rids, run.states[k], i, af, n) && HeldAt(cfg, run.states[k], i, af, n)
  {
    hide IsRun, Next, Settled, StableRids, TidyStep;
    RunSettles(cfg, rids, run, k);
    SettledShape(cfg, rids, run.states[k]);
    if k == 0 {
      NothingAtFirst(cfg, run, i, af, n, WithdrawAllEvent(0).withdrawn.value.attributes);
    } else {
      RunSettles(cfg, rids, run, k - 1);
      AdjRibIsHeld(cfg, rids, run, k - 1, i, af, n);
      SettledShape(cfg, rids, run.states[k - 1]);
      NextKeepsOwn(cfg, rids, run.states[k - 1], run.steps[k - 1], run.states[k], i, af, n);
      NextKeepsHeld(cfg, rids, run.states[k - 1], run.steps[k - 1], run.states[k], i, af, n);
    }
  }

  /** Agreement where it can be seen: once the queue of the family is empty, the Loc-RIB has a
      loop-free route of the Adj-RIB, and its routes of the peer are for prefixes of the Adj-RIB. */
  lemma RibsAgree(
    cfg: Config, rids: seq<U32>, run: Speakers.Run, k: nat, i: nat, af: AddressFamily, n: Nlri, r: Route)
    requires IsRun(cfg, run) && StableRids(rids, run) && |rids| == |cfg.peers| && k < |run.states|
    requires i < |cfg.peers| && af in FamiliesOf(cfg, i) && af in cfg.families
    requires forall x | 0 <= x < k :: TidyStep(run.states[x], run.steps[x])
    requires af in run.states[k].queues && run.states[k].queues[af] == []
    ensures var s := run.states[k];
            && i < |s.nbs| && af in s.ribs
            && (n in AdjOf(s, i, af) ==>
                  exists a :: AdjOf(s, i, af)[n] == [a]
                              && (LoopFree(a, cfg.localAsn) ==> n in s.ribs[af] && a in s.ribs[af][n]))
            && (n in s.ribs[af] && r in s.ribs[af][n] && r.peerRid == rids[i] ==> n in AdjOf(s, i, af))
  {
    hide IsRun, StableRids, TidyStep, AdjOf, LoopFree, KnowPeers, RibsInv, FamiliesOf;
    var s := run.states[k];
    AdjRibIsHeld(cfg, rids, run, k, i, af, n);
    LocRibIsListed(cfg, rids, run, k, i, af, n, r);
    NothingOwed(cfg, s, af, n, r);
    if n in AdjOf(s, i, af) {
      var a := AdjOf(s, i, af)[n][0];
      NothingOwed(cfg, s, af, n, a);
      assert AdjOf(s, i, af)[n] == [a];
    }
  }

  /** One prefix after an UPDATE of an established neighbour. */
  lemma UpdateHoldsAt(
    cfg: Config, rids: seq<U32>, s: Spk, i: nat, u: Updates.UpdateMessage, now: nat, t: Spk, n: Nlri)
    requires Settled(cfg, rids, s) && i < |s.nbs| && s.nbs[i].session.state == Established
    requires t == Heard(cfg, s, i, UpdateBody(u), now) && Shaped(cfg, t)
    requires var af := PartsOf(u).af; af in cfg.families && OwnEntry(rids, s, i, af, n) && HeldAt(cfg, s, i, af, n)
    requires forall r :: ListedAt(cfg, rids, s, i, PartsOf(u).af, n, r)
    ensures Identified(s.nbs[i].session)
    ensures var attrs := RouteFrom(s.nbs[i].session, EndsOf(cfg, i), u, now);
            HeldAt(cfg, t, i, PartsOf(u).af, n) <==>
              (n in PartsOf(u).nlris && LoopFree(attrs, cfg.localAsn) ==>
                 s.nbs[i].wired && n !in PartsOf(u).withdrawn)
  {
    assert |s.nbs| == |rids| == |cfg.peers|;
    hide Heard, Pending, LoopFree, AdjOf, RouteFrom, PartsOf, KnowPeers, RibsInv, FamiliesOf;
    FromItself(cfg, rids, s, i, u, now);
    AdjHeard(cfg, s, i, UpdateBody(u), now, PartsOf(u).af, n);
    var af := PartsOf(u).af;
    if n in AdjOf(t, i, af) {
      var r := AdjOf(t, i, af)[n][0];
      HearChangesPending(cfg, s, i, UpdateBody(u), now, af, n, r);
      assert ListedAt(cfg, rids, s, i, af, n, r);
    }
  }

  /** The Loc-RIB adds and then withdraws, the Adj-RIB withdraws and then adds. So after an UPDATE
      the announced routes are held exactly when nothing loop-free is announced, or the neighbour
      has its channels and the message does not withdraw what it announces. */
  lemma UpdateIsHeldIff(
    cfg: Config, rids: seq<U32>, s: Spk, i: nat, u: Updates.UpdateMessage, now: nat, t: Spk)
    requires Settled(cfg, rids, s) && i < |s.nbs| && s.nbs[i].session.state == Established
    requires t == Heard(cfg, s, i, UpdateBody(u), now) && Shaped(cfg, t) && PartsOf(u).af in cfg.families
    requires forall n :: OwnEntry(rids, s, i, PartsOf(u).af, n) && HeldAt(cfg, s, i, PartsOf(u).af, n)
    requires forall n, r :: ListedAt(cfg, rids, s, i, PartsOf(u).af, n, r)
    ensures Identified(s.nbs[i].session)
    ensures var p, attrs := PartsOf(u), RouteFrom(s.nbs[i].session, EndsOf(cfg, i), u, now);
            (forall n :: HeldAt(cfg, t, i, p.af, n)) <==>
            p.nlris == [] || !LoopFree(attrs, cfg.localAsn) || (s.nbs[i].wired && Disjoint(p))
  {
    hide Heard, LoopFree, RouteFrom, PartsOf, Settled, HeldAt, ListedAt, OwnEntry;
    SettledShape(cfg, rids, s);
    forall n
      ensures Identified(s.nbs[i].session)
      ensures HeldAt(cfg, t, i, PartsOf(u).af, n) <==>
              (n in PartsOf(u).nlris && LoopFree(RouteFrom(s.nbs[i].session, EndsOf(cfg, i), u, now), cfg.localAsn) ==>
                 s.nbs[i].wired && n !in PartsOf(u).withdrawn)
    {
      UpdateHoldsAt(cfg, rids, s, i, u, now, t, n);
    }
    UpdateHoldsAt(cfg, rids, s, i, u, now, t, RawNet(UNSPECIFIED_V4, 0));
    assert PartsOf(u).nlris != [] ==> PartsOf(u).nlris[0] in PartsOf(u).nlris;
  }

  /** What a NOTIFICATION withdraws: in the families advertised everything of its peer, and nothing
      of any other peer anywhere. */
  lemma NotificationPurges(
    cfg: Config, rids: seq<U32>, s: Spk, i: nat, m: Body, now: nat, t: Spk, af: AddressFamily, n: Nlri, r: Route)
    requires Settled(cfg, rids, s) && i < |s.nbs| && s.nbs[i].session.state == Established && m.NotificationBody?
    requires t == Heard(cfg, s, i, m, now) && Shaped(cfg, t) && af in cfg.families
    ensures Pending(cfg, t, af, n, r) ==
            if r.peerRid == rids[i] && af in FamiliesOf(cfg, i) then 0 else Pending(cfg, s, af, n, r)
    ensures t.nbs[i].session.state == Idle && AdjOf(t, i, af) == map[]
  {
    HearChangesPending(cfg, s, i, m, now, af, n, r);
    assert KnowsPeer(s.nbs[i].session, cfg.peers[i].asn, rids[i]);
    AdjHeard(cfg, s, i, m, now, af, n);
  }

  /** The Adj-RIB is forgotten whole, the Loc-RIB is cleared family by family. So of a neighbour's
      route that is held or on its way when a NOTIFICATION comes, the tables agree afterwards exactly
      in the families it was offered. */
  lemma NotificationAgreesIff(
    cfg: Config, rids: seq<U32>, s: Spk, i: nat, m: Body, now: nat, t: Spk, af: AddressFamily, n: Nlri, r: Route)
    requires Settled(cfg, rids, s) && i < |s.nbs| && s.nbs[i].session.state == Established && m.NotificationBody?
    requires t == Heard(cfg, s, i, m, now) && Shaped(cfg, t) && af in cfg.families
    requires r.peerRid == rids[i] && Pending(cfg, s, af, n, r) > 0
    ensures (Pending(cfg, t, af, n, r) > 0 ==> n in AdjOf(t, i, af)) <==> af in FamiliesOf(cfg, i)
  {
    hide Heard, Pending, AdjOf, FamiliesOf, KnowPeers, RibsInv, Shaped;
    NotificationPurges(cfg, rids, s, i, m, now, t, af, n, r);
  }

  lemma SilentStep(
    cfg: Config, rids: seq<U32>, s: Spk, step: Step, t: Spk, i: nat, af: AddressFamily, n: Nlri, r: Route)
    requires Settled(cfg, rids, s) && Shaped(cfg, t) && Next(cfg, s, step, t) && i < |s.nbs| && af in cfg.families
    requires s.nbs[i].session.state != Established && r.peerRid == rids[i]
    ensures Pending(cfg, t, af, n, r) == Pending(cfg, s, af, n, r)
  {
    assert |s.nbs| == |rids|;
    NextChangesPending(cfg, s, step, t, af, n, r);
    if step.Hear? && step.i != i {
      OthersDoNotCount(cfg, rids, s, step.i, step.m, step.now, af, n, r, Pending(cfg, s, af, n, r));
    }
  }
}
