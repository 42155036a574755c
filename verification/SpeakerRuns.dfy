/** Runs of one speaker that reach the states in which its promises end. Every message in them is one
    that some octets are parsed as. */
module SpeakerRuns {
  import opened Basics
  import opened Bytes
  import opened Types
  import opened Nlris
  import opened MpNlris
  import opened Routes
  import opened Sessions
  import opened Messages
  import opened Speakers
  import opened Agreements
  import opened Establishments
  import Opens
  import Updates

  ghost function Now(run: Speakers.Run): Spk
    requires run.states != []
  {
    run.states[|run.states| - 1]
  }

  /** The peer uses its one router id, and octets that the parser accepts. */
  ghost predicate FairStep(rids: seq<U32>, step: Step) {
    StableStep(rids, step) && (step.Hear? ==> Readable(step.m))
  }

  /** A run as peers can bring it about, up to a state. */
  ghost predicate Reaches(cfg: Config, rids: seq<U32>, run: Speakers.Run, s: Spk) {
    && IsRun(cfg, run) && run.states != [] && Now(run) == s && Shaped(cfg, s)
    && forall step <- run.steps :: FairStep(rids, step)
  }

  lemma Take(cfg: Config, rids: seq<U32>, run: Speakers.Run, s: Spk, step: Step, t: Spk) returns (longer: Speakers.Run)
    requires Reaches(cfg, rids, run, s) && FairStep(rids, step) && Next(cfg, s, step, t)
    ensures Reaches(cfg, rids, longer, t) && |longer.steps| > 0 && longer.steps[|longer.steps| - 1] == step
    ensures |longer.states| > 1 && longer.states[|longer.states| - 2] == s
  {
    hide Next, FairStep, Shaped, RibsInv;
    NextKeepsShape(cfg, s, step, t);
    longer := Speakers.Run.Run(run.states + [t], run.steps + [step]);
  }

  lemma ReachedShape(cfg: Config, rids: seq<U32>, run: Speakers.Run, s: Spk)
    requires Reaches(cfg, rids, run, s)
    ensures Shaped(cfg, s) && RibsInv(cfg, s) && |s.nbs| == |cfg.peers|
  {
    hide IsRun, RibsInv, FairStep;
    RunKeepsShape(cfg, run, |run.states| - 1);
  }

  lemma FairRuns(cfg: Config, rids: seq<U32>, run: Speakers.Run, s: Spk)
    requires Reaches(cfg, rids, run, s) && |rids| == |cfg.peers|
    requires forall i, j | 0 <= i < j < |rids| :: rids[i] != rids[j]
    ensures StableRids(rids, run) && Settled(cfg, rids, s)
  {
    hide IsRun, Settled, StableStep;
    forall k | 0 <= k < |run.steps|
      ensures StableStep(rids, run.steps[k])
    {
      assert FairStep(rids, run.steps[k]);
    }
    assert StableRids(rids, run);
    RunSettles(cfg, rids, run, |run.states| - 1);
  }

  function WithNb(s: Spk, i: nat, nb: Nb): Spk
    requires i < |s.nbs|
  {
    s.(nbs := s.nbs[i := nb])
  }

  /** A neighbour without routes, from which one OPEN was taken over, or none. */
  function Stage(
    cfg: Config, i: nat, state: BGPState, tx: bool, o: Option<Opens.OpenMessage>, link: Link, wired: bool): Nb
    requires i < |cfg.peers|
  {
    Nb(SessionOf(cfg.peers[i].asn, state, tx, o), link, wired)
  }

  /** A neighbour whose session has just been established by an OPEN; its task is there if it was ready. */
  function UpNb(cfg: Config, i: nat, o: Opens.OpenMessage, wired: bool): Nb
    requires i < |cfg.peers|
  {
    Stage(cfg, i, Established, true, Some(o), if Ready(cfg, i, o) then Running else Down, wired)
  }

  /** An OPEN that fits the neighbour. */
  ghost predicate Fits(cfg: Config, rids: seq<U32>, i: nat, o: Opens.OpenMessage)
    requires i < |cfg.peers| == |rids|
  {
    && o.asn == cfg.peers[i].asn && o.routerId == rids[i]
    && Opens.Understand(o.optParams.params).Ok? && Readable(OpenBody(o))
  }

  /** What arrives of the OPEN of a speaker that names these families. */
  function OpenNaming(cfg: Config, rids: seq<U32>, i: nat, fams: seq<AddressFamily>): Opens.OpenMessage
    requires i < |cfg.peers| == |rids|
  {
    var m := Opens.NewOpen(cfg.peers[i].asn, rids[i], 90, Some(fams));
    match Opens.ParseOpen(Opens.PrintOpen(m)) case Ok(o) => o case Err => m
  }

  lemma OpenLength(m: Opens.OpenMessage, fams: seq<AddressFamily>)
    requires m == Opens.NewOpen(m.asn, m.routerId, m.holdTime, Some(fams)) && |fams| <= 42
    ensures |PrintBody(OpenBody(m))| <= 4077
  {
    hide Opens.FamilyCapabilities;
    assert m.optParams.params[1..] == [];
    assert |Opens.PrintParams(m.optParams.params)| == 2 + 6 * |fams|;
  }

  lemma NamingFits(cfg: Config, rids: seq<U32>, i: nat, fams: seq<AddressFamily>)
    requires i < |cfg.peers| == |rids| && |fams| <= 42
    ensures Fits(cfg, rids, i, OpenNaming(cfg, rids, i, fams))
    ensures Opens.Understand(OpenNaming(cfg, rids, i, fams).optParams.params) ==
            Ok(Opens.NO_CAPABILITIES.(multiprotocol := if fams == [] then None else Some(Opens.Unique(fams))))
  {
    hide Opens.Understand, Opens.PrintOpen, Opens.ParseOpen, Opens.Unique, Opens.FamiliesHeard, Readable;
    var m := Opens.NewOpen(cfg.peers[i].asn, rids[i], 90, Some(fams));
    Opens.OpenNegotiation(cfg.peers[i].asn, rids[i], 90, Some(fams));
    Opens.FewFamiliesAreAllHeard(fams);
    OpenLength(m, fams);
    hide Opens.NewOpen;
    ReceivedIsReadable(OpenBody(m));
  }

  lemma UniqueOfOne(af: AddressFamily)
    ensures Opens.Unique([af]) == [af]
  {
    Opens.UniqueMembers([af]);
    assert [af][..0] == [];
  }

  /** An OPEN that names one family of the speaker is ready, if families are configured at all; one that
      names none is not. */
  lemma NamingIsReady(cfg: Config, rids: seq<U32>, i: nat, af: AddressFamily)
    requires i < |cfg.peers| == |rids| && af in cfg.families
    ensures Fits(cfg, rids, i, OpenNaming(cfg, rids, i, [af])) && Fits(cfg, rids, i, OpenNaming(cfg, rids, i, []))
    ensures Ready(cfg, i, OpenNaming(cfg, rids, i, [af])) <==> cfg.peers[i].families.Some?
    ensures !Ready(cfg, i, OpenNaming(cfg, rids, i, []))
  {
    hide Fits, OpenNaming, Opens.Understand, Opens.Unique;
    NamingFits(cfg, rids, i, [af]);
    NamingFits(cfg, rids, i, []);
    UniqueOfOne(af);
  }

  lemma WithNbTwice(s: Spk, i: nat, a: Nb, b: Nb)
    requires i < |s.nbs|
    ensures WithNb(WithNb(s, i, a), i, b) == WithNb(s, i, b)
    ensures WithNb(s, i, s.nbs[i]) == s
  {
  }

  /** Before a session is established messages change no queue. */
  lemma QuietHearing(cfg: Config, s: Spk, i: nat, m: Body, now: nat)
    requires i < |s.nbs| == |cfg.peers| && s.nbs[i].session.state != Established
    ensures Heard(cfg, s, i, m, now) == WithNb(s, i, HeardBy(cfg, s, i, m, now))
  {
    hide HeardBy;
    forall af | af in s.queues
      ensures s.queues[af] + Pushed(cfg, s, i, m, now, af) == s.queues[af]
    {
    }
    assert Heard(cfg, s, i, m, now).queues == s.queues;
  }

  lemma StillNoCollision(s: Spk, i: nat, nb: Nb, rid: U32)
    requires i < |s.nbs| && !Collides(SessionsOf(s), rid) && nb.session.rid == None
    ensures !Collides(SessionsOf(WithNb(s, i, nb)), rid)
  {
    var t := WithNb(s, i, nb);
    forall n <- SessionsOf(t)
      ensures n.rid == None || n in SessionsOf(s)
    {
      var k :| 0 <= k < |t.nbs| && SessionsOf(t)[k] == n;
      if k != i {
        assert SessionsOf(s)[k] == n;
      }
    }
  }

  /** A step of the connection of neighbour `i`. */
  lemma Moves(cfg: Config, rids: seq<U32>, run: Speakers.Run, s: Spk, i: nat, step: Step, nb: Nb)
    returns (longer: Speakers.Run)
    requires Reaches(cfg, rids, run, s) && i < |s.nbs| && !step.Hear? && !step.Drain? && step.i == i
    requires Allowed(s.nbs[i], step) && nb == Moved(s.nbs[i], step)
    ensures Reaches(cfg, rids, longer, WithNb(s, i, nb))
  {
    hide IsRun, Moved, Allowed;
    longer := Take(cfg, rids, run, s, step, WithNb(s, i, nb));
  }

  /** A connection is taken, and an OPEN goes out over it. */
  lemma Connects(
    cfg: Config, rids: seq<U32>, run: Speakers.Run, s: Spk, i: nat, o: Option<Opens.OpenMessage>, wired: bool)
    returns (longer: Speakers.Run)
    requires Reaches(cfg, rids, run, s) && i < |cfg.peers| && i < |s.nbs|
    requires s.nbs[i] == Stage(cfg, i, Idle, false, o, Down, wired)
    ensures Reaches(cfg, rids, longer, WithNb(s, i, Stage(cfg, i, OpenSent, true, o, Running, wired)))
  {
    hide Reaches;
    var b, c := Stage(cfg, i, Active, false, o, Opened, wired), Stage(cfg, i, OpenSent, true, o, Running, wired);
    longer := Moves(cfg, rids, run, s, i, Accepted(i), b);
    WithNbTwice(s, i, b, c);
    longer := Moves(cfg, rids, longer, WithNb(s, i, b), i, Begin(i, true), c);
  }

  /** The neighbour is given its channels first, or not. */
  lemma Wires(cfg: Config, rids: seq<U32>, run: Speakers.Run, s: Spk, i: nat, wired: bool) returns (longer: Speakers.Run)
    requires Reaches(cfg, rids, run, s) && i < |cfg.peers| && i < |s.nbs| && s.nbs[i] == InitialNb(cfg.peers[i])
    ensures Reaches(cfg, rids, longer, WithNb(s, i, Stage(cfg, i, Idle, false, None, Down, wired)))
  {
    hide Reaches;
    var a := Stage(cfg, i, Idle, false, None, Down, wired);
    WithNbTwice(s, i, a, a);
    longer := run;
    if wired {
      longer := Moves(cfg, rids, run, s, i, Wire(i), a);
    }
  }

  /** What the OPEN and the KEEPALIVE behind it do. */
  lemma OpenIsTaken(cfg: Config, rids: seq<U32>, s: Spk, i: nat, o: Opens.OpenMessage, wired: bool)
    requires i < |s.nbs| == |cfg.peers| == |rids| && Fits(cfg, rids, i, o)
    requires s.nbs[i] == Stage(cfg, i, OpenSent, true, None, Running, wired) && !Collides(SessionsOf(s), rids[i])
    ensures HeardBy(cfg, s, i, OpenBody(o), 0) == Stage(cfg, i, OpenConfirm, true, Some(o), Running, wired)
  {
    hide Collides, Opens.Understand;
  }

  lemma KeepaliveIsTaken(cfg: Config, rids: seq<U32>, s: Spk, i: nat, o: Opens.OpenMessage, wired: bool)
    requires i < |s.nbs| == |cfg.peers| == |rids| && Fits(cfg, rids, i, o) && Shaped(cfg, s) && RibsInv(cfg, s)
    requires s.nbs[i] == Stage(cfg, i, OpenConfirm, true, Some(o), Running, wired)
    ensures HeardBy(cfg, s, i, KeepaliveBody, 0) == UpNb(cfg, i, o, wired)
  {
    hide Collides, Opens.Understand, SendsTables, RibsInv, Shaped, Ready;
    KeepaliveGoesOnIff(cfg, s, i, o);
    hide FateAt;
  }

  lemma HearsQuietly(cfg: Config, rids: seq<U32>, run: Speakers.Run, s: Spk, i: nat, m: Body)
    returns (longer: Speakers.Run)
    requires Reaches(cfg, rids, run, s) && i < |s.nbs| == |cfg.peers| && FairStep(rids, Hear(i, m, 0))
    requires s.nbs[i].link == Running && s.nbs[i].session.state != Established
    ensures Reaches(cfg, rids, longer, WithNb(s, i, HeardBy(cfg, s, i, m, 0)))
    ensures |longer.steps| > 0 && longer.steps[|longer.steps| - 1] == Hear(i, m, 0)
    ensures |longer.states| > 1 && longer.states[|longer.states| - 2] == s
  {
    QuietHearing(cfg, s, i, m, 0);
    hide IsRun, HeardBy, FairStep, Heard;
    longer := Take(cfg, rids, run, s, Hear(i, m, 0), WithNb(s, i, HeardBy(cfg, s, i, m, 0)));
  }

  /** A neighbour not heard of before brings its session up, unless its router id collides. */
  lemma BringUp(
    cfg: Config, rids: seq<U32>, run: Speakers.Run, s: Spk, i: nat, o: Opens.OpenMessage, wired: bool)
    returns (longer: Speakers.Run)
    requires Reaches(cfg, rids, run, s) && i < |s.nbs| == |cfg.peers| == |rids| && s.nbs[i] == InitialNb(cfg.peers[i])
    requires Fits(cfg, rids, i, o) && !Collides(SessionsOf(s), rids[i])
    ensures Reaches(cfg, rids, longer, WithNb(s, i, UpNb(cfg, i, o, wired)))
  {
    hide Reaches, Collides, HeardBy, Opens.Understand, Readable, Ready;
    var a, c := Stage(cfg, i, Idle, false, None, Down, wired), Stage(cfg, i, OpenSent, true, None, Running, wired);
    var d, e := Stage(cfg, i, OpenConfirm, true, Some(o), Running, wired), UpNb(cfg, i, o, wired);
    longer := Wires(cfg, rids, run, s, i, wired);
    WithNbTwice(s, i, a, c);
    longer := Connects(cfg, rids, longer, WithNb(s, i, a), i, None, wired);
    StillNoCollision(s, i, c, rids[i]);
    OpenIsTaken(cfg, rids, WithNb(s, i, c), i, o, wired);
    WithNbTwice(s, i, c, d);
    longer := HearsQuietly(cfg, rids, longer, WithNb(s, i, c), i, OpenBody(o));
    ReachedShape(cfg, rids, longer, WithNb(s, i, d));
    KeepaliveIsTaken(cfg, rids, WithNb(s, i, d), i, o, wired);
    WithNbTwice(s, i, d, e);
    ShortBodiesAreReadable(Cease, 0);
    longer := HearsQuietly(cfg, rids, longer, WithNb(s, i, d), i, KeepaliveBody);
  }

  lemma AtFirst(cfg: Config, rids: seq<U32>) returns (run: Speakers.Run)
    ensures Reaches(cfg, rids, run, Initial(cfg))
    ensures forall rid: U32 :: !Collides(SessionsOf(Initial(cfg)), rid)
  {
    run := Speakers.Run.Run([Initial(cfg)], []);
  }

  /** The state with one session established and nothing else done. */
  function OneUp(cfg: Config, i: nat, o: Opens.OpenMessage, wired: bool): Spk
    requires i < |cfg.peers|
  {
    WithNb(Initial(cfg), i, UpNb(cfg, i, o, wired))
  }

  lemma OneComesUp(cfg: Config, rids: seq<U32>, i: nat, o: Opens.OpenMessage, wired: bool) returns (run: Speakers.Run)
    requires i < |cfg.peers| == |rids| && Fits(cfg, rids, i, o)
    ensures Reaches(cfg, rids, run, OneUp(cfg, i, o, wired))
  {
    hide Reaches, Collides, Fits;
    run := AtFirst(cfg, rids);
    run := BringUp(cfg, rids, run, Initial(cfg), i, o, wired);
  }

  /** An OPEN that names no family leads to an established neighbour whose task is gone: the KEEPALIVE
      finds no families to send tables for. So does any OPEN that is not ready. */
  lemma EstablishedAndStopped(cfg: Config, rids: seq<U32>, i: nat, o: Opens.OpenMessage) returns (run: Speakers.Run)
    requires i < |cfg.peers| == |rids| && Fits(cfg, rids, i, o) && !Ready(cfg, i, o)
    ensures IsRun(cfg, run) && run.states != [] && i < |Now(run).nbs|
    ensures Now(run).nbs[i].session.state == Established && Now(run).nbs[i].session.tx && Now(run).nbs[i].link == Down
  {
    hide IsRun, Fits, Ready, FairStep;
    run := OneComesUp(cfg, rids, i, o, true);
  }

  /** Two neighbours come up with one router id: the second is heard when the first is established. */
  lemma TwoEstablishedTwins(cfg: Config, rids: seq<U32>, i: nat, j: nat, af: AddressFamily) returns (run: Speakers.Run)
    requires i < |cfg.peers| == |rids| && j < |rids| && i != j && rids[i] == rids[j]
    requires cfg.peers[i].families.Some? && cfg.peers[j].families.Some? && af in cfg.families
    ensures IsRun(cfg, run) && run.states != [] && |Now(run).nbs| == |rids|
    ensures InState(Now(run).nbs[i], Established) && InState(Now(run).nbs[j], Established)
    ensures !Distinct(Now(run))
  {
    hide IsRun, FairStep, Fits, Ready, OpenNaming;
    NamingIsReady(cfg, rids, i, af);
    NamingIsReady(cfg, rids, j, af);
    var o, p := OpenNaming(cfg, rids, i, [af]), OpenNaming(cfg, rids, j, [af]);
    FitsRid(cfg, rids, i, o);
    FitsRid(cfg, rids, j, p);
    run := OneComesUp(cfg, rids, i, o, true);
    var s := OneUp(cfg, i, o, true);
    assert forall n <- SessionsOf(s) :: n.state == Established || n.state == Idle;
    run := BringUp(cfg, rids, run, s, j, p, true);
    assert IsUp(Now(run).nbs[i].session) && IsUp(Now(run).nbs[j].session);
  }

  lemma FitsRid(cfg: Config, rids: seq<U32>, i: nat, o: Opens.OpenMessage)
    requires i < |cfg.peers| == |rids| && Fits(cfg, rids, i, o)
    ensures o.routerId == rids[i] && o.asn == cfg.peers[i].asn
  {
  }

  /** Nothing is held, listed or on its way for a neighbour that has just come up. */
  lemma NothingYet(
    cfg: Config, rids: seq<U32>, i: nat, o: Opens.OpenMessage, wired: bool, af: AddressFamily, n: Nlri, r: Route)
    requires i < |cfg.peers| == |rids| && af in cfg.families
    ensures var s := OneUp(cfg, i, o, wired);
            && Shaped(cfg, s) && Pending(cfg, s, af, n, r) == 0 && AdjOf(s, i, af) == map[]
            && OwnEntry(rids, s, i, af, n) && HeldAt(cfg, s, i, af, n) && ListedAt(cfg, rids, s, i, af, n, r)
  {
    hide Ready, HeardFrom;
  }

  lemma Hears(cfg: Config, rids: seq<U32>, run: Speakers.Run, s: Spk, i: nat, m: Body) returns (longer: Speakers.Run)
    requires Reaches(cfg, rids, run, s) && i < |s.nbs| && s.nbs[i].link == Running && FairStep(rids, Hear(i, m, 0))
    ensures |s.nbs| == |cfg.peers| && Reaches(cfg, rids, longer, Heard(cfg, s, i, m, 0))
  {
    hide IsRun, FairStep, Heard;
    longer := Take(cfg, rids, run, s, Hear(i, m, 0), Heard(cfg, s, i, m, 0));
  }

  /** An IPv4 announcement, with or without a withdrawal of the same prefix. */
  function Announcement(n: Nlri, withdrawn: bool): Updates.UpdateMessage {
    Updates.UpdateMessage(if withdrawn then [n] else [], [], [n])
  }

  lemma AnnouncementIsReadable(n: Nlri, withdrawn: bool)
    requires n.addr.afi == Ipv4
    ensures Readable(UpdateBody(Announcement(Network(n), withdrawn)))
  {
    hide Readable, Network, PrintNlri, Received;
    var u := Announcement(n, withdrawn);
    PrintsOne(n);
    assert |PrintBody(UpdateBody(u))| <= 4077 && Updates.WireUpdate(u);
    ReceivedUpdate(u);
    assert Updates.Canonical(u) == Announcement(Network(n), withdrawn) by {
      NetworksOfOne(n);
    }
    ReceivedIsReadable(UpdateBody(u));
  }

  lemma PrintsOne(n: Nlri)
    ensures |PrintNlris([n])| <= 17 && PrintNlris([]) == []
  {
    assert [n][1..] == [];
    assert PrintNlris([n]) == PrintNlri(n) + PrintNlris([]);
  }

  /** A loop-free announcement does not reach the Loc-RIB when the neighbour has no channels yet, or
      when its message also withdraws the prefix; the Adj-RIB has it all the same. */
  lemma AnnouncedNotHeld(cfg: Config, rids: seq<U32>, i: nat, wired: bool, n: Nlri) returns (run: Speakers.Run)
    requires i < |cfg.peers| == |rids| && cfg.peers[i].families.Some? && IPV4_UNICAST in cfg.families
    requires forall a, b | 0 <= a < b < |rids| :: rids[a] != rids[b]
    requires n.addr.afi == Ipv4
    ensures IsRun(cfg, run) && StableRids(rids, run) && run.states != [] && Shaped(cfg, Now(run))
    ensures forall step <- run.steps :: step.Hear? ==> Readable(step.m)
    ensures !HeldAt(cfg, Now(run), i, IPV4_UNICAST, Network(n))
  {
    hide IsRun, Readable, HeldAt, ListedAt, OwnEntry, Heard, Fits, Ready, OpenNaming, Network, OneUp, StableRids;
    NamingIsReady(cfg, rids, i, IPV4_UNICAST);
    var o := OpenNaming(cfg, rids, i, [IPV4_UNICAST]);
    run := OneComesUp(cfg, rids, i, o, wired);
    var s, u, m := OneUp(cfg, i, o, wired), Announcement(Network(n), wired), Network(n);
    OneUpIs(cfg, rids, i, o, wired);
    FairRuns(cfg, rids, run, s);
    AnnouncementIsReadable(n, wired);
    assert PartsOf(u) == Parts(IPV4_UNICAST, u.nlri, u.withdrawn, None);
    NothingYet(cfg, rids, i, o, wired, IPV4_UNICAST, m, WithdrawAllEvent(0).withdrawn.value.attributes);
    forall r
      ensures ListedAt(cfg, rids, s, i, IPV4_UNICAST, m, r)
    {
      NothingYet(cfg, rids, i, o, wired, IPV4_UNICAST, m, r);
    }
    run := Hears(cfg, rids, run, s, i, UpdateBody(u));
    FairRuns(cfg, rids, run, Heard(cfg, s, i, UpdateBody(u), 0));
    UpdateHoldsAt(cfg, rids, s, i, u, 0, Now(run), m);
    PathlessIsLoopFree(s.nbs[i].session, EndsOf(cfg, i), u, cfg.localAsn);
  }

  lemma OneUpIs(cfg: Config, rids: seq<U32>, i: nat, o: Opens.OpenMessage, wired: bool)
    requires i < |cfg.peers| == |rids| && Fits(cfg, rids, i, o)
    ensures var s := OneUp(cfg, i, o, wired);
            && |s.nbs| == |cfg.peers| && s.nbs[i].wired == wired && Identified(s.nbs[i].session)
            && s.nbs[i].session.state == Established && s.nbs[i].session.rid == Some(rids[i])
            && (s.nbs[i].link == Running <==> Ready(cfg, i, o))
  {
    hide Ready, HeardFrom;
  }

  lemma PathlessIsLoopFree(s: Session, ends: Ends, u: Updates.UpdateMessage, asn: U16)
    requires Identified(s) && forall a <- u.attributes :: !a.value.AsPathValue?
    ensures LoopFree(RouteFrom(s, ends, u, 0), asn)
  {
    hide PartsOf;
    SaidPath(UNSAID, u.attributes);
  }

  /** An announcement in any family, with the next hop left open. */
  function MpAnnouncement(af: AddressFamily, n: Nlri): Mpnlri {
    Mpnlri(af, if af.afi == Ipv4 then UNSPECIFIED_V4 else UNSPECIFIED_V6, [n])
  }

  lemma MpAnnouncementIsReadable(af: AddressFamily, n: Nlri)
    requires n.addr.afi == af.afi
    ensures Readable(UpdateBody(ReachUpdate(MpAnnouncement(af, Network(n)))))
  {
    hide Readable, Network, PrintNlri;
    var m := MpAnnouncement(af, Network(n));
    NetworkTwice(n);
    NetworksOfOne(Network(n));
    PrintsOne(Network(n));
    ReachIsReadable(m);
  }

  /** In a family that the neighbour was not offered, a NOTIFICATION leaves its routes in the Loc-RIB,
      while its Adj-RIB is empty: for every configuration with such a family there is a run. */
  lemma UnofferedFamilyDisagrees(cfg: Config, rids: seq<U32>, i: nat, af: AddressFamily, n: Nlri)
    returns (run: Speakers.Run, r: Route)
    requires i < |cfg.peers| == |rids| && cfg.peers[i].families.Some? && n.addr.afi == af.afi
    requires af in cfg.families && af !in FamiliesOf(cfg, i)
    requires forall a, b | 0 <= a < b < |rids| :: rids[a] != rids[b]
    ensures IsRun(cfg, run) && StableRids(rids, run) && run.states != [] && Shaped(cfg, Now(run))
    ensures forall step <- run.steps :: step.Hear? ==> Readable(step.m)
    ensures r.peerRid == rids[i]
    ensures Pending(cfg, Now(run), af, Network(n), r) > 0 && Network(n) !in AdjOf(Now(run), i, af)
  {
    hide IsRun, Readable, Heard, Pending, AdjOf, FamiliesOf, Settled, LoopFree, StableRids, Fits, Ready, OpenNaming,
      Network, OneUp;
    NamingIsReady(cfg, rids, i, af);
    var o := OpenNaming(cfg, rids, i, [af]);
    run := OneComesUp(cfg, rids, i, o, true);
    var s, u, m := OneUp(cfg, i, o, true), ReachUpdate(MpAnnouncement(af, Network(n))), Network(n);
    OneUpIs(cfg, rids, i, o, true);
    MpAnnouncementIsReadable(af, n);
    assert PartsOf(u) == Parts(af, [m], [], Some(MpAnnouncement(af, m).nh));
    r := RouteFrom(s.nbs[i].session, EndsOf(cfg, i), u, 0);
    NothingYet(cfg, rids, i, o, true, af, m, r);
    PathlessIsLoopFree(s.nbs[i].session, EndsOf(cfg, i), u, cfg.localAsn);
    run := Hears(cfg, rids, run, s, i, UpdateBody(u));
    HearChangesPending(cfg, s, i, UpdateBody(u), 0, af, m, r);
    var t := Heard(cfg, s, i, UpdateBody(u), 0);
    StillUp(cfg, s, i, u);
    FairRuns(cfg, rids, run, t);
    var cease := NotificationBody(Cease, 0, []);
    ShortBodiesAreReadable(Cease, 0);
    run := Hears(cfg, rids, run, t, i, cease);
    FairRuns(cfg, rids, run, Heard(cfg, t, i, cease, 0));
    NotificationAgreesIff(cfg, rids, t, i, cease, 0, Now(run), af, m, r);
  }

  lemma StillUp(cfg: Config, s: Spk, i: nat, u: Updates.UpdateMessage)
    requires i < |s.nbs| == |cfg.peers| && s.nbs[i].session.state == Established && Identified(s.nbs[i].session)
    ensures var t := Heard(cfg, s, i, UpdateBody(u), 0);
            |t.nbs| == |s.nbs| && t.nbs[i].session.state == Established && t.nbs[i].link == s.nbs[i].link
  {
    hide AdjAfter, Pushed;
  }

  /** In a run all routes of a neighbour, held or on their way, are for prefixes of its Adj-RIB. */
  ghost predicate AllListed(cfg: Config, rids: seq<U32>, run: Speakers.Run, i: nat, af: AddressFamily)
    requires i < |cfg.peers| == |rids| && af in cfg.families
  {
    forall k: nat, n: Nlri, r: Route | k < |run.states| && Shaped(cfg, run.states[k]) && r.peerRid == rids[i] ::
      Pending(cfg, run.states[k], af, n, r) > 0 ==> n in AdjOf(run.states[k], i, af)
  }

  /** Every run with stable router ids keeps a neighbour's routes listed exactly in the families that it
      is offered; a neighbour without configured families is never heard at all. */
  lemma AllListedIffOffered(cfg: Config, rids: seq<U32>, i: nat, af: AddressFamily)
    requires i < |cfg.peers| == |rids| && af in cfg.families
    requires forall a, b | 0 <= a < b < |rids| :: rids[a] != rids[b]
    ensures (forall run :: IsRun(cfg, run) && StableRids(rids, run) ==> AllListed(cfg, rids, run, i, af)) <==>
            cfg.peers[i].families.None? || af in cfg.peers[i].families.value
  {
    hide IsRun, StableRids, Pending, AdjOf, Settled, AllListed, Network, Readable;
    if cfg.peers[i].families.None? {
      forall run | IsRun(cfg, run) && StableRids(rids, run)
        ensures AllListed(cfg, rids, run, i, af)
      {
        NothingIsListed(cfg, rids, run, i, af);
      }
    } else if af in cfg.peers[i].families.value {
      forall run | IsRun(cfg, run) && StableRids(rids, run)
        ensures AllListed(cfg, rids, run, i, af)
      {
        OfferedIsListed(cfg, rids, run, i, af);
      }
    } else {
      var any := RawNet(if af.afi == Ipv4 then UNSPECIFIED_V4 else UNSPECIFIED_V6, 0);
      var run, r := UnofferedFamilyDisagrees(cfg, rids, i, af, any);
      NotListed(cfg, rids, run, i, af, Network(any), r);
    }
  }

  lemma NotListed(cfg: Config, rids: seq<U32>, run: Speakers.Run, i: nat, af: AddressFamily, n: Nlri, r: Route)
    requires i < |cfg.peers| == |rids| && af in cfg.families && run.states != [] && Shaped(cfg, Now(run))
    requires r.peerRid == rids[i] && Pending(cfg, Now(run), af, n, r) > 0 && n !in AdjOf(Now(run), i, af)
    ensures !AllListed(cfg, rids, run, i, af)
  {
    hide Pending, AdjOf;
  }

  lemma OfferedIsListed(cfg: Config, rids: seq<U32>, run: Speakers.Run, i: nat, af: AddressFamily)
    requires i < |cfg.peers| == |rids| && af in cfg.families && af in FamiliesOf(cfg, i)
    requires IsRun(cfg, run) && StableRids(rids, run)
    ensures AllListed(cfg, rids, run, i, af)
  {
    hide IsRun, StableRids, Pending, AdjOf, FamiliesOf, Settled;
    forall k: nat, n: Nlri, r: Route | k < |run.states| && Shaped(cfg, run.states[k]) && r.peerRid == rids[i]
      ensures Pending(cfg, run.states[k], af, n, r) > 0 ==> n in AdjOf(run.states[k], i, af)
    {
      LocRibIsListed(cfg, rids, run, k, i, af, n, r);
    }
  }

  lemma NothingIsListed(cfg: Config, rids: seq<U32>, run: Speakers.Run, i: nat, af: AddressFamily)
    requires i < |cfg.peers| == |rids| && af in cfg.families && cfg.peers[i].families.None?
    requires IsRun(cfg, run) && StableRids(rids, run)
    ensures AllListed(cfg, rids, run, i, af)
  {
    hide IsRun, StableRids, Pending, AdjOf;
    forall k: nat, n: Nlri, r: Route | k < |run.states| && Shaped(cfg, run.states[k]) && r.peerRid == rids[i]
      ensures Pending(cfg, run.states[k], af, n, r) == 0
    {
      NothingOfUnconfigured(cfg, rids, run, k, i, af, n, r);
    }
  }

  /** A neighbour for which no families are configured never has a route in a table, or on its way:
      its task stops at the KEEPALIVE that establishes the session. */
  lemma {:induction false} NothingOfUnconfigured(
    cfg: Config, rids: seq<U32>, run: Speakers.Run, k: nat, i: nat, af: AddressFamily, n: Nlri, r: Route)
    requires IsRun(cfg, run) && StableRids(rids, run) && |rids| == |cfg.peers| && k < |run.states|
    requires i < |cfg.peers| && cfg.peers[i].families.None? && af in cfg.families && r.peerRid == rids[i]
    ensures Settled(cfg, rids, run.states[k]) && Pending(cfg, run.states[k], af, n, r) == 0
  {
    hide IsRun, Next, Settled, StableRids, Pending;
    RunSettles(cfg, rids, run, k);
    SettledShape(cfg, rids, run.states[k]);
    if k == 0 {
      NothingAtFirst(cfg, run, i, af, n, r);
    } else {
      RunSettles(cfg, rids, run, k - 1);
      SettledShape(cfg, rids, run.states[k - 1]);
      NothingOfUnconfigured(cfg, rids, run, k - 1, i, af, n, r);
      UnheardStep(cfg, rids, run, k - 1, i, af, n, r);
    }
  }

  lemma UnheardStep(cfg: Config, rids: seq<U32>, run: Speakers.Run, k: nat, i: nat, af: AddressFamily, n: Nlri, r: Route)
    requires IsRun(cfg, run) && k < |run.steps| && |run.states| == |run.steps| + 1 && |rids| == |cfg.peers|
    requires Settled(cfg, rids, run.states[k]) && Shaped(cfg, run.states[k + 1])
    requires Next(cfg, run.states[k], run.steps[k], run.states[k + 1])
    requires i < |cfg.peers| && cfg.peers[i].families.None? && af in cfg.families && r.peerRid == rids[i]
    ensures Pending(cfg, run.states[k + 1], af, n, r) == Pending(cfg, run.states[k], af, n, r)
  {
    hide IsRun, Next, Pending, RibsInv, Ready, Establishments.TakesOpen, Heard, HeardBy;
    var s, step := run.states[k], run.steps[k];
    assert |s.nbs| == |cfg.peers|;
    NextChangesPending(cfg, s, step, run.states[k + 1], af, n, r);
    if step.Hear? {
      HearIs(cfg, s, step, run.states[k + 1]);
      StepOf(cfg, s, step, run.states[k + 1], i);
      if step.i != i {
        OthersDoNotCount(cfg, rids, s, step.i, step.m, step.now, af, n, r, Pending(cfg, s, af, n, r));
      } else if s.nbs[i].session.state == Established {
        var j, o := EstablishedHasOpen(cfg, run, k, i);
        UnconfiguredIsNotReady(cfg, i, o);
        assert false;
      }
    }
  }

  lemma UnconfiguredIsNotReady(cfg: Config, i: nat, o: Opens.OpenMessage)
    requires i < |cfg.peers| && cfg.peers[i].families.None?
    ensures !Ready(cfg, i, o)
  {
  }

  /** A peer whose session ended opens again with the same OPEN: it clashes with what is left of its
      last session, and nothing comes of it. */
  lemma ReopenIsRefused(cfg: Config, rids: seq<U32>, i: nat, af: AddressFamily)
    returns (run: Speakers.Run, o: Opens.OpenMessage)
    requires i < |cfg.peers| == |rids| && cfg.peers[i].families.Some? && af in cfg.families
    ensures IsRun(cfg, run) && |run.steps| > 0 && |run.states| > 1 && i < |Now(run).nbs|
    ensures run.steps[|run.steps| - 1] == Hear(i, OpenBody(o), 0) && Fits(cfg, rids, i, o)
    ensures run.states[|run.states| - 2] == Now(run) && InState(Now(run).nbs[i], OpenSent)
  {
    hide Reaches, Fits, Ready, OpenNaming, HeardBy;
    NamingIsReady(cfg, rids, i, af);
    o := OpenNaming(cfg, rids, i, [af]);
    run := OneComesUp(cfg, rids, i, o, true);
    var s := OneUp(cfg, i, o, true);
    run := Closes(cfg, rids, run, s, i, o);
    var a, c := Stage(cfg, i, Idle, false, Some(o), Down, true), Stage(cfg, i, OpenSent, true, Some(o), Running, true);
    WithNbTwice(s, i, a, c);
    run := Connects(cfg, rids, run, WithNb(s, i, a), i, Some(o), true);
    var t := WithNb(s, i, c);
    OpenIsRefused(cfg, rids, t, i, o);
    OpenIsFair(cfg, rids, i, o);
    WithNbTwice(t, i, c, c);
    run := HearsQuietly(cfg, rids, run, t, i, OpenBody(o));
    ReachesRun(cfg, rids, run, t);
  }

  lemma ReachesRun(cfg: Config, rids: seq<U32>, run: Speakers.Run, s: Spk)
    requires Reaches(cfg, rids, run, s)
    ensures IsRun(cfg, run) && run.states != [] && Now(run) == s
  {
  }

  lemma OpenIsFair(cfg: Config, rids: seq<U32>, i: nat, o: Opens.OpenMessage)
    requires i < |cfg.peers| == |rids| && Fits(cfg, rids, i, o)
    ensures FairStep(rids, Hear(i, OpenBody(o), 0))
  {
  }

  /** The connection of an established session comes to its end. */
  lemma Closes(cfg: Config, rids: seq<U32>, run: Speakers.Run, s: Spk, i: nat, o: Opens.OpenMessage)
    returns (longer: Speakers.Run)
    requires Reaches(cfg, rids, run, s) && i < |s.nbs| == |cfg.peers|
    requires s.nbs[i] == Stage(cfg, i, Established, true, Some(o), Running, true)
    ensures Reaches(cfg, rids, longer, WithNb(s, i, Stage(cfg, i, Idle, false, Some(o), Down, true)))
  {
    hide Reaches;
    longer := Moves(cfg, rids, run, s, i, Close(i), Stage(cfg, i, Idle, false, Some(o), Down, true));
  }

  lemma OpenIsRefused(cfg: Config, rids: seq<U32>, s: Spk, i: nat, o: Opens.OpenMessage)
    requires i < |s.nbs| == |cfg.peers| == |rids| && Fits(cfg, rids, i, o)
    requires s.nbs[i] == Stage(cfg, i, OpenSent, true, Some(o), Running, true)
    ensures HeardBy(cfg, s, i, OpenBody(o), 0) == s.nbs[i]
  {
    hide Opens.Understand, HeardFrom;
    assert SessionsOf(s)[i] == s.nbs[i].session;
    assert Clashes(SessionsOf(s)[i], o.routerId);
  }
}
