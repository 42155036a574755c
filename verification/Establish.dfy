/** How a session gets to Established and stays there, and why it does so once: the KEEPALIVE that
    establishes it has the tables sent, and what a peer's OPEN left in the record is never cleared
    (src/neighbor/message_handler.rs:192-229, 351-476, src/neighbor/fsm.rs:121-218). */
module Establishments {
  import opened Basics
  import opened Bytes
  import opened Types
  import opened Nlris
  import opened Routes
  import opened LocRibs
  import opened Sessions
  import opened Messages
  import opened Speakers
  import opened Agreements
  import Opens

  /** What the record of a neighbour says while its task is on its way, or at its loop. */
  predicate LinkFits(nb: Nb) {
    match nb.link
    case Down => true
    case Opened => nb.session.state == Active || nb.session.state == Connect
    case Running => nb.session.tx && nb.session.state != Active && nb.session.state != Connect
  }

  ghost predicate LinksFit(s: Spk) {
    forall n <- s.nbs :: LinkFits(n)
  }

  lemma HearKeepsLink(cfg: Config, s: Spk, i: nat, m: Body, now: nat)
    requires i < |s.nbs| == |cfg.peers| && s.nbs[i].link == Running && LinkFits(s.nbs[i])
    ensures LinkFits(HeardBy(cfg, s, i, m, now))
  {
    hide Collides, AdjAfter, FateAt, HeardFrom;
  }

  lemma MoveKeepsLink(nb: Nb, step: Step)
    requires LinkFits(nb) && Allowed(nb, step)
    ensures LinkFits(Moved(nb, step))
  {
  }

  lemma NextKeepsLinks(cfg: Config, s: Spk, step: Step, t: Spk)
    requires Next(cfg, s, step, t) && LinksFit(s)
    ensures LinksFit(t)
  {
    hide EventStep, HeardBy, Pushed, Moved, Allowed, LinkFits;
    match step {
      case Hear(i, m, now) =>
        assert s.nbs[i] in s.nbs;
        HearKeepsLink(cfg, s, i, m, now);
        assert forall n <- t.nbs :: n == HeardBy(cfg, s, i, m, now) || n in s.nbs;
      case Drain(_, _, _) =>
      case _ =>
        assert s.nbs[step.i] in s.nbs;
        MoveKeepsLink(s.nbs[step.i], step);
        assert forall n <- t.nbs :: n == Moved(s.nbs[step.i], step) || n in s.nbs;
    }
  }

  lemma {:induction false} RunKeepsLinks(cfg: Config, run: Speakers.Run, k: nat)
    requires IsRun(cfg, run) && k < |run.states|
    ensures LinksFit(run.states[k])
  {
    hide Next, LinksFit;
    if k == 0 {
      NoLinkAtFirst(cfg);
    } else {
      RunKeepsLinks(cfg, run, k - 1);
      NextKeepsLinks(cfg, run.states[k - 1], run.steps[k - 1], run.states[k]);
    }
  }

  lemma NoLinkAtFirst(cfg: Config)
    ensures LinksFit(Initial(cfg))
  {
  }

  /** What holds of a neighbour in every reachable state. */
  lemma LinkOf(cfg: Config, run: Speakers.Run, k: nat, i: nat)
    requires IsRun(cfg, run) && k < |run.states| && i < |cfg.peers|
    ensures Shaped(cfg, run.states[k]) && RibsInv(cfg, run.states[k]) && i < |run.states[k].nbs|
    ensures LinkFits(run.states[k].nbs[i])
    ensures |run.states| == |run.steps| + 1
    ensures k < |run.steps| ==> Next(cfg, run.states[k], run.steps[k], run.states[k + 1])
  {
    hide Next, LinkFits, RibsInv;
    RunKeepsShape(cfg, run, k);
    RunKeepsLinks(cfg, run, k);
    assert run.states[k].nbs[i] in run.states[k].nbs;
  }

  /** Whether the session an OPEN leads to can be established, told from the configuration and the OPEN:
      families are configured for the neighbour, the OPEN names families, and the speaker has a table
      for every family that both name. */
  predicate Ready(cfg: Config, i: nat, o: Opens.OpenMessage)
    requires i < |cfg.peers|
  {
    var caps := Opens.Understand(o.optParams.params);
    && cfg.peers[i].families.Some? && caps.Ok? && caps.value.multiprotocol.Some?
    && forall af <- cfg.peers[i].families.value :: af in caps.value.multiprotocol.value ==> af in cfg.families
  }

  /** The KEEPALIVE that establishes a session goes through exactly when its OPEN was ready. */
  lemma KeepaliveGoesOnIff(cfg: Config, s: Spk, i: nat, o: Opens.OpenMessage)
    requires Shaped(cfg, s) && RibsInv(cfg, s) && i < |cfg.peers|
    requires s.nbs[i].session.state == OpenConfirm && s.nbs[i].session.tx
    requires Understood(o, s.nbs[i].session.heard)
    ensures FateAt(cfg, s, i, KeepaliveBody) == if Ready(cfg, i, o) then GoesOn else Stops
  {
    hide Opens.Understand, Descending, LoopFree;
    forall af | af in cfg.families
      ensures CanSend(true, s.ribs, af)
    {
      assert RibInv(s.ribs[af], cfg.localAsn);
      forall n <- s.ribs[af]
        ensures s.ribs[af][n] != []
      {
        assert EntryInv(s.ribs[af][n], cfg.localAsn);
      }
    }
  }

  /** Step `j` takes over an OPEN of neighbour `i`. */
  ghost predicate TakesOpen(run: Speakers.Run, j: nat, i: nat, o: Opens.OpenMessage) {
    && j < |run.steps| && j < |run.states| && run.steps[j].Hear? && run.steps[j].i == i && run.steps[j].m == OpenBody(o)
    && i < |run.states[j].nbs|
    && TakesOver(run.states[j].nbs[i].session, SessionsOf(run.states[j]), OpenBody(o))
  }

  predicate InState(nb: Nb, state: BGPState) {
    nb.session.state == state && nb.link == Running
  }

  /** The OPEN was understood to name these families. */
  predicate Understood(o: Opens.OpenMessage, heard: Option<seq<AddressFamily>>) {
    var caps := Opens.Understand(o.optParams.params);
    caps.Ok? && heard == caps.value.multiprotocol
  }

  /** The ways into OpenConfirm and Established with a task at its loop. */
  lemma HearEnters(cfg: Config, s: Spk, i: nat, m: Body, now: nat)
    requires i < |s.nbs| == |cfg.peers| && s.nbs[i].link == Running
    ensures var nb, t := s.nbs[i], HeardBy(cfg, s, i, m, now);
            && (InState(t, OpenConfirm) ==>
                  || (nb.session.state == OpenConfirm && t.session.heard == nb.session.heard)
                  || (m.OpenBody? && TakesOver(nb.session, SessionsOf(s), m) && Understood(m.open, t.session.heard)))
            && (InState(t, Established) ==>
                  nb.session.state == Established || (m == KeepaliveBody && nb.session.state == OpenConfirm))
  {
    hide Collides, AdjAfter, SendsTables, Opens.Understand, ValidOpen;
  }

  lemma MoveEnters(nb: Nb, step: Step)
    requires LinkFits(nb) && Allowed(nb, step)
    ensures var t := Moved(nb, step);
            && (InState(t, OpenConfirm) ==> InState(nb, OpenConfirm) && t.session.heard == nb.session.heard)
            && (InState(t, Established) ==> InState(nb, Established))
  {
  }

  /** A step of neighbour `i`, or one that leaves it as it is. */
  lemma StepOf(cfg: Config, s: Spk, step: Step, t: Spk, i: nat)
    requires Next(cfg, s, step, t) && i < |cfg.peers|
    ensures i < |s.nbs| == |cfg.peers| && i < |t.nbs|
    ensures if step.Drain? || step.i != i then t.nbs[i] == s.nbs[i]
            else if step.Hear? then s.nbs[i].link == Running && t.nbs[i] == HeardBy(cfg, s, i, step.m, step.now)
            else Allowed(s.nbs[i], step) && t.nbs[i] == Moved(s.nbs[i], step)
  {
    hide EventStep, HeardBy, Pushed, Moved, Allowed;
  }

  /** The same of a step. */
  lemma StepEnters(cfg: Config, s: Spk, step: Step, t: Spk, i: nat)
    requires Next(cfg, s, step, t) && i < |cfg.peers| && i < |s.nbs| && LinkFits(s.nbs[i])
    ensures i < |t.nbs| && |s.nbs| == |cfg.peers|
    ensures InState(t.nbs[i], OpenConfirm) ==>
              || (InState(s.nbs[i], OpenConfirm) && t.nbs[i].session.heard == s.nbs[i].session.heard)
              || (step.Hear? && step.i == i && step.m.OpenBody? && TakesOver(s.nbs[i].session, SessionsOf(s), step.m)
                  && Understood(step.m.open, t.nbs[i].session.heard))
    ensures InState(t.nbs[i], Established) ==>
              || InState(s.nbs[i], Established)
              || (step.Hear? && step.i == i && step.m == KeepaliveBody && s.nbs[i].session.state == OpenConfirm)
  {
    hide Next, HeardBy, Moved, Allowed, LinkFits, Opens.Understand, TakesOver, FateAt;
    StepOf(cfg, s, step, t, i);
    if step.Hear? && step.i == i {
      HearEnters(cfg, s, i, step.m, step.now);
    } else if !step.Drain? && step.i == i {
      MoveEnters(s.nbs[i], step);
    }
  }

  lemma NoneRunsAtFirst(cfg: Config, run: Speakers.Run, i: nat)
    requires IsRun(cfg, run) && i < |cfg.peers|
    ensures i < |run.states[0].nbs| && run.states[0].nbs[i].link == Down
  {
  }

  /** What a task in OpenConfirm knows of families is what the OPEN it took over says. */
  lemma {:induction false} OpenConfirmHasOpen(cfg: Config, run: Speakers.Run, k: nat, i: nat)
    returns (j: nat, o: Opens.OpenMessage)
    requires IsRun(cfg, run) && k < |run.states| && i < |cfg.peers| && i < |run.states[k].nbs|
    requires InState(run.states[k].nbs[i], OpenConfirm)
    ensures j < k && TakesOpen(run, j, i, o) && Understood(o, run.states[k].nbs[i].session.heard)
  {
    hide IsRun, Next, TakesOver, LinkFits, Understood, RibsInv;
    NoneRunsAtFirst(cfg, run, i);
    LinkOf(cfg, run, k - 1, i);
    var s, step := run.states[k - 1], run.steps[k - 1];
    StepEnters(cfg, s, step, run.states[k], i);
    if InState(s.nbs[i], OpenConfirm) && run.states[k].nbs[i].session.heard == s.nbs[i].session.heard {
      j, o := OpenConfirmHasOpen(cfg, run, k - 1, i);
    } else {
      j, o := k - 1, step.m.open;
    }
  }

  /** The KEEPALIVE that establishes a session: its task goes on exactly when the OPEN taken over was
      ready, and stops otherwise; the neighbour is Established either way. */
  lemma KeepaliveFate(cfg: Config, run: Speakers.Run, k: nat, i: nat) returns (j: nat, o: Opens.OpenMessage)
    requires IsRun(cfg, run) && k < |run.steps| && i < |cfg.peers|
    requires run.steps[k].Hear? && run.steps[k].i == i && run.steps[k].m == KeepaliveBody
    requires k < |run.states| && i < |run.states[k].nbs| && run.states[k].nbs[i].session.state == OpenConfirm
    ensures j < k && TakesOpen(run, j, i, o)
    ensures k + 1 < |run.states| && i < |run.states[k + 1].nbs|
    ensures var nb := run.states[k + 1].nbs[i];
            nb.session.state == Established && nb.link == if Ready(cfg, i, o) then Running else Down
  {
    hide IsRun, Next, Collides, Ready, SendsTables, RibsInv, TakesOpen, Understood;
    LinkOf(cfg, run, k, i);
    StepOf(cfg, run.states[k], run.steps[k], run.states[k + 1], i);
    j, o := OpenConfirmHasOpen(cfg, run, k, i);
    KeepaliveGoesOnIff(cfg, run.states[k], i, o);
  }

  /** Whoever is heard in an established session has sent an OPEN that was ready. */
  lemma {:induction false} EstablishedHasOpen(cfg: Config, run: Speakers.Run, k: nat, i: nat)
    returns (j: nat, o: Opens.OpenMessage)
    requires IsRun(cfg, run) && k < |run.states| && i < |cfg.peers| && i < |run.states[k].nbs|
    requires InState(run.states[k].nbs[i], Established)
    ensures j < k && TakesOpen(run, j, i, o) && Ready(cfg, i, o)
  {
    hide IsRun, Next, LinkFits, Ready, TakesOpen, TakesOver, Understood, RibsInv;
    NoneRunsAtFirst(cfg, run, i);
    LinkOf(cfg, run, k - 1, i);
    var s, step := run.states[k - 1], run.steps[k - 1];
    StepEnters(cfg, s, step, run.states[k], i);
    if InState(s.nbs[i], Established) {
      j, o := EstablishedHasOpen(cfg, run, k - 1, i);
    } else {
      j, o := KeepaliveFate(cfg, run, k - 1, i);
    }
  }

  /** For a peer that runs this speaker too: it is ready exactly when families are configured for it
      here, some of its own are left readable, and there are tables for the common ones. */
  lemma SpeakerIsReadyIff(cfg: Config, i: nat, asn: U16, rid: U32, hold: U16, theirs: Option<seq<AddressFamily>>)
    requires i < |cfg.peers|
    ensures var r := Opens.ParseOpen(Opens.PrintOpen(Opens.NewOpen(asn, rid, hold, theirs)));
            var heard := Opens.FamiliesHeard(theirs);
            && r.Ok?
            && (Ready(cfg, i, r.value) <==>
                  && cfg.peers[i].families.Some? && heard.Some?
                  && forall af <- cfg.peers[i].families.value :: af in heard.value ==> af in cfg.families)
  {
    hide Opens.Understand, Opens.ParseOpen, Opens.PrintOpen, Opens.NewOpen, Opens.FamiliesHeard;
    Opens.OpenNegotiation(asn, rid, hold, theirs);
  }

  /** In OpenSent a peer's OPEN clashes with the neighbour itself exactly when it brings the router id
      that is known already; so it is taken over exactly when it brings another, which no other
      neighbour has in negotiation either, and the AS number configured. */
  lemma ReopensIff(cfg: Config, run: Speakers.Run, k: nat, i: nat, o: Opens.OpenMessage)
    requires IsRun(cfg, run) && k < |run.states| && i < |cfg.peers| && i < |run.states[k].nbs|
    requires InState(run.states[k].nbs[i], OpenSent)
    ensures var s := run.states[k];
            TakesOver(s.nbs[i].session, SessionsOf(s), OpenBody(o)) <==>
              && s.nbs[i].session.rid != Some(o.routerId)
              && (forall j | 0 <= j < |s.nbs| && j != i :: !Clashes(s.nbs[j].session, o.routerId))
              && ValidOpen(s.nbs[i].session, o)
  {
    hide IsRun, ValidOpen, Next, RibsInv;
    LinkOf(cfg, run, k, i);
    var s := run.states[k];
    hide Collides;
    CollidesIff(SessionsOf(s), o.routerId);
    assert Clashes(s.nbs[i].session, o.routerId) <==> s.nbs[i].session.rid == Some(o.routerId);
    hide Clashes;
    assert forall j | 0 <= j < |s.nbs| :: SessionsOf(s)[j] == s.nbs[j].session;
  }

  lemma CollidesIff(others: seq<Session>, rid: U32)
    ensures Collides(others, rid) <==> exists j :: 0 <= j < |others| && Clashes(others[j], rid)
  {
    hide Clashes;
  }

  /** The router id is known, and the session not up. */
  predicate Spent(nb: Nb, rid: U32) {
    nb.session.rid == Some(rid) && !IsUp(nb.session)
  }

  lemma HearKeepsSpent(cfg: Config, s: Spk, i: nat, m: Body, now: nat, rid: U32)
    requires i < |s.nbs| == |cfg.peers| && s.nbs[i].link == Running && LinkFits(s.nbs[i]) && Spent(s.nbs[i], rid)
    requires m.OpenBody? ==> m.open.routerId == rid
    ensures Spent(HeardBy(cfg, s, i, m, now), rid)
  {
    assert SessionsOf(s)[i] == s.nbs[i].session;
    NoneClashes(SessionsOf(s), rid, i);
    hide Collides, AdjAfter, FateAt, HeardFrom;
  }

  lemma MoveKeepsSpent(nb: Nb, step: Step, rid: U32)
    requires Spent(nb, rid) && Allowed(nb, step)
    ensures Spent(Moved(nb, step), rid)
  {
  }

  /** The OPEN of a peer that keeps its router id clashes with what its last session left behind: once
      its router id is known, a neighbour that is not up never comes up again. */
  lemma {:induction false} NeverUpAgain(cfg: Config, rids: seq<U32>, run: Speakers.Run, k: nat, l: nat, i: nat)
    requires IsRun(cfg, run) && StableRids(rids, run) && |rids| == |cfg.peers| && i < |rids|
    requires k <= l < |run.states| && i < |run.states[k].nbs| && Spent(run.states[k].nbs[i], rids[i])
    ensures i < |run.states[l].nbs| && Spent(run.states[l].nbs[i], rids[i])
    decreases l
  {
    hide IsRun, Next, HeardBy, Moved, Allowed, LinkFits, Spent, RibsInv;
    if k < l {
      NeverUpAgain(cfg, rids, run, k, l - 1, i);
      LinkOf(cfg, run, l - 1, i);
      var s, step := run.states[l - 1], run.steps[l - 1];
      StepOf(cfg, s, step, run.states[l], i);
      if step.Hear? && step.i == i {
        HearKeepsSpent(cfg, s, i, step.m, step.now, rids[i]);
      } else if !step.Drain? && step.i == i {
        MoveKeepsSpent(s.nbs[i], step, rids[i]);
      }
    }
  }

  /** So no session comes up twice. */
  lemma UpOnce(cfg: Config, rids: seq<U32>, run: Speakers.Run, j: nat, k: nat, l: nat, i: nat)
    requires IsRun(cfg, run) && StableRids(rids, run) && |rids| == |cfg.peers| && i < |rids|
    requires j <= k <= l < |run.states| && i < |run.states[j].nbs| && IsUp(run.states[j].nbs[i].session)
    requires i < |run.states[k].nbs| && !IsUp(run.states[k].nbs[i].session)
    ensures i < |run.states[l].nbs| && !IsUp(run.states[l].nbs[i].session)
  {
    hide IsRun, StableRids;
    RidIsKept(cfg, rids, run, j, k, i);
    NeverUpAgain(cfg, rids, run, k, l, i);
  }

  lemma {:induction false} RidIsKept(cfg: Config, rids: seq<U32>, run: Speakers.Run, j: nat, k: nat, i: nat)
    requires IsRun(cfg, run) && StableRids(rids, run) && |rids| == |cfg.peers| && i < |rids|
    requires j <= k < |run.states| && i < |run.states[j].nbs| && IsUp(run.states[j].nbs[i].session)
    ensures i < |run.states[k].nbs| && run.states[k].nbs[i].session.rid == Some(rids[i])
    decreases k
  {
    hide IsRun, Next, HeardBy, Moved, Allowed, LinkFits, RibsInv;
    LinkOf(cfg, run, k, i);
    RunKeepsKnown(cfg, rids, run, k);
    assert KnowsPeer(run.states[k].nbs[i].session, cfg.peers[i].asn, rids[i]);
    if j < k {
      RidIsKept(cfg, rids, run, j, k - 1, i);
      LinkOf(cfg, run, k - 1, i);
      StepOf(cfg, run.states[k - 1], run.steps[k - 1], run.states[k], i);
      StepKeepsRid(cfg, run.states[k - 1], run.steps[k - 1], run.states[k], i);
    }
  }

  lemma HearKeepsRid(cfg: Config, s: Spk, i: nat, m: Body, now: nat)
    requires i < |s.nbs| == |cfg.peers| && s.nbs[i].session.rid.Some?
    ensures HeardBy(cfg, s, i, m, now).session.rid.Some?
  {
    hide Collides, AdjAfter, FateAt, HeardFrom;
  }

  lemma MoveKeepsRid(nb: Nb, step: Step)
    requires nb.session.rid.Some? && Allowed(nb, step)
    ensures Moved(nb, step).session.rid.Some?
  {
  }

  lemma StepKeepsRid(cfg: Config, s: Spk, step: Step, t: Spk, i: nat)
    requires Next(cfg, s, step, t) && i < |cfg.peers| && i < |s.nbs| && s.nbs[i].session.rid.Some?
    ensures i < |t.nbs| && t.nbs[i].session.rid.Some?
  {
    StepOf(cfg, s, step, t, i);
    hide Next, HeardBy, Moved, Allowed;
    if step.Hear? && step.i == i {
      HearKeepsRid(cfg, s, i, step.m, step.now);
    } else if !step.Drain? && step.i == i {
      MoveKeepsRid(s.nbs[i], step);
    }
  }

  /** NOTIFICATION purge: from a NOTIFICATION in an established session on, no route of the neighbour is
      held or to come in the families it was offered. */
  lemma {:induction false} PurgedForGood(
    cfg: Config, rids: seq<U32>, run: Speakers.Run, k: nat, l: nat, i: nat, af: AddressFamily, n: Nlri, r: Route)
    requires IsRun(cfg, run) && StableRids(rids, run) && |rids| == |cfg.peers| && i < |rids|
    requires k < l < |run.states| && run.steps[k].Hear? && run.steps[k].i == i && run.steps[k].m.NotificationBody?
    requires i < |run.states[k].nbs| && run.states[k].nbs[i].session.state == Established
    requires af in FamiliesOf(cfg, i) && af in cfg.families && r.peerRid == rids[i]
    ensures Settled(cfg, rids, run.states[l]) && Pending(cfg, run.states[l], af, n, r) == 0
    decreases l
  {
    hide IsRun, Next, Settled, StableRids, FamiliesOf, Pending, Heard;
    RunSettles(cfg, rids, run, k);
    RunSettles(cfg, rids, run, l - 1);
    RunSettles(cfg, rids, run, l);
    SettledShape(cfg, rids, run.states[l - 1]);
    SettledShape(cfg, rids, run.states[l]);
    if l == k + 1 {
      HearIs(cfg, run.states[k], run.steps[k], run.states[l]);
      NotificationPurges(cfg, rids, run.states[k], i, run.steps[k].m, run.steps[k].now, run.states[l], af, n, r);
    } else {
      PurgedForGood(cfg, rids, run, k, l - 1, i, af, n, r);
      DownAfterNotification(cfg, rids, run, k, l - 1, i);
      SilentStep(cfg, rids, run.states[l - 1], run.steps[l - 1], run.states[l], i, af, n, r);
    }
  }

  lemma DownAfterNotification(cfg: Config, rids: seq<U32>, run: Speakers.Run, k: nat, l: nat, i: nat)
    requires IsRun(cfg, run) && StableRids(rids, run) && |rids| == |cfg.peers| && i < |rids|
    requires k < l < |run.states| && run.steps[k].Hear? && run.steps[k].i == i && run.steps[k].m.NotificationBody?
    requires i < |run.states[k].nbs| && run.states[k].nbs[i].session.state == Established
    ensures i < |run.states[l].nbs| && !IsUp(run.states[l].nbs[i].session)
  {
    hide IsRun, StableRids, Next, HeardBy, RibsInv, LinkFits;
    LinkOf(cfg, run, k, i);
    StepOf(cfg, run.states[k], run.steps[k], run.states[k + 1], i);
    NotificationEnds(cfg, run.states[k], i, run.steps[k].m, run.steps[k].now);
    UpOnce(cfg, rids, run, k, k + 1, l, i);
  }

  lemma HearIs(cfg: Config, s: Spk, step: Step, t: Spk)
    requires Next(cfg, s, step, t) && step.Hear?
    ensures step.i < |s.nbs| == |cfg.peers| && t == Heard(cfg, s, step.i, step.m, step.now)
  {
  }

  lemma NotificationEnds(cfg: Config, s: Spk, i: nat, m: Body, now: nat)
    requires i < |s.nbs| == |cfg.peers| && s.nbs[i].session.state == Established && m.NotificationBody?
    ensures !IsUp(HeardBy(cfg, s, i, m, now).session)
  {
  }

  /** Once the queue is drained, no route of the peer is left in the table. */
  lemma PurgedTable(
    cfg: Config, rids: seq<U32>, run: Speakers.Run, k: nat, l: nat, i: nat, af: AddressFamily, n: Nlri, r: Route)
    requires IsRun(cfg, run) && StableRids(rids, run) && |rids| == |cfg.peers| && i < |rids|
    requires k < l < |run.states| && run.steps[k].Hear? && run.steps[k].i == i && run.steps[k].m.NotificationBody?
    requires i < |run.states[k].nbs| && run.states[k].nbs[i].session.state == Established
    requires af in FamiliesOf(cfg, i) && af in cfg.families
    requires af in run.states[l].queues && run.states[l].queues[af] == []
    requires af in run.states[l].ribs && n in run.states[l].ribs[af] && r in run.states[l].ribs[af][n]
    ensures r.peerRid != rids[i]
  {
    hide IsRun, StableRids, FamiliesOf, KnowPeers, RibsInv;
    if r.peerRid == rids[i] {
      PurgedForGood(cfg, rids, run, k, l, i, af, n, r);
      NothingOwed(cfg, run.states[l], af, n, r);
    }
  }
}
