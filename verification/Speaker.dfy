/** One speaker with all its neighbours: connections, messages handled as one step, and the queues
    of the Loc-RIB managers (src/neighbor/fsm.rs, src/neighbor/message_handler.rs,
    src/speaker/connection.rs, src/speaker/manager.rs:128-156). */
module Speakers {
  import opened Basics
  import opened Bytes
  import opened Types
  import opened Nlris
  import opened LocRibs
  import opened Sessions
  import opened Messages
  import Opens

  /** Where the connection task of a neighbour is; a neighbour has at most one. */
  datatype Link = Down | Opened | Running

  /** `wired` says that the neighbour has been given the channels of the Loc-RIB managers. */
  datatype Nb = Nb(session: Session, link: Link, wired: bool)

  datatype PeerConfig = PeerConfig(asn: U16, ip: IpAddr, families: Option<seq<AddressFamily>>)
  datatype Config = Config(localAsn: U16, peers: seq<PeerConfig>, families: set<AddressFamily>)

  datatype Spk = Spk(nbs: seq<Nb>, ribs: map<AddressFamily, Rib>, queues: map<AddressFamily, seq<RibEvent>>)

  datatype Step =
    | Wire(i: nat)
    | Connected(i: nat)
    | ConnectFails(i: nat)
    | Accepted(i: nat)
    | Begin(i: nat, written: bool)
    | Happens(i: nat, e: Event, written: bool)
    | Hear(i: nat, m: Body, now: nat)
    | Close(i: nat)
    | Crash(i: nat)
    | Drain(af: AddressFamily, fib: Fib, out: Outcome)

  /** A connection step that a neighbour or the listener for it can take. */
  predicate Allowed(nb: Nb, step: Step) {
    match step
    case Wire(_) => true
    case Connected(_) => nb.link == Down && nb.wired
    case ConnectFails(_) => nb.link == Down && nb.wired
    case Accepted(_) => nb.link == Down && TakesConnection(nb.session.state)
    case Begin(_, _) => nb.link == Opened
    case Happens(_, _, _) => nb.link == Running
    case Close(_) => nb.link == Running
    case Crash(_) => nb.link == Running
    case _ => false
  }

  /** What the connection steps do. A task that crashes leaves everything as it is. */
  function Moved(nb: Nb, step: Step): Nb {
    var s := nb.session;
    match step
    case Wire(_) => nb.(wired := true)
    case Connected(_) => nb.(session := s.(state := Connect), link := Opened)
    case ConnectFails(_) => nb.(session := s.(state := Idle))
    case Accepted(_) => nb.(session := s.(state := Active), link := Opened)
    case Begin(_, written) =>
      nb.(session := Entered(s, written), link := if FirstEvent(s.state).Some? && !written then Down else Running)
    case Happens(_, e, written) => nb.(session := AfterEvent(s, e, written))
    case Close(_) => nb.(session := s.(state := Idle, tx := false), link := Down)
    case Crash(_) => nb.(link := Down)
    case _ => nb
  }

  function SessionsOf(s: Spk): (ss: seq<Session>)
    ensures |ss| == |s.nbs|
  {
    seq(|s.nbs|, k requires 0 <= k < |s.nbs| => s.nbs[k].session)
  }

  function EndsOf(cfg: Config, i: nat): Ends
    requires i < |cfg.peers|
  {
    Ends(cfg.localAsn, cfg.peers[i].ip)
  }

  function FamiliesOf(cfg: Config, i: nat): seq<AddressFamily>
    requires i < |cfg.peers|
  {
    Advertised(cfg.peers[i].families)
  }

  /** What a message puts in a queue: an UPDATE goes through the neighbour's own channels, a
      NOTIFICATION through the speaker's. */
  function Pushed(cfg: Config, s: Spk, i: nat, m: Body, now: nat, af: AddressFamily): seq<RibEvent>
    requires i < |s.nbs| == |cfg.peers|
  {
    if m.UpdateBody? && !s.nbs[i].wired then []
    else EventsOn(s.nbs[i].session, EndsOf(cfg, i), FamiliesOf(cfg, i), m, now, af)
  }

  /** How the handling of a message ends. */
  function FateAt(cfg: Config, s: Spk, i: nat, m: Body): Fate
    requires i < |s.nbs| == |cfg.peers|
  {
    FateOf(s.nbs[i].session, cfg.peers[i].families, s.ribs, SessionsOf(s), m)
  }

  /** A task that gets an error cleans up behind itself, one that stops leaves everything as it is. */
  function Ended(nb: Nb, fate: Fate): Nb {
    match fate
    case GoesOn => nb
    case Fails => nb.(session := nb.session.(state := Idle, tx := false), link := Down)
    case Stops => nb.(link := Down)
  }

  function HeardBy(cfg: Config, s: Spk, i: nat, m: Body, now: nat): Nb
    requires i < |s.nbs| == |cfg.peers|
  {
    Ended(s.nbs[i].(session := Reached(s.nbs[i].session, EndsOf(cfg, i), SessionsOf(s), m, now)), FateAt(cfg, s, i, m))
  }

  function Heard(cfg: Config, s: Spk, i: nat, m: Body, now: nat): Spk
    requires i < |s.nbs| == |cfg.peers|
  {
    Spk(s.nbs[i := HeardBy(cfg, s, i, m, now)], s.ribs,
        map af | af in s.queues :: s.queues[af] + Pushed(cfg, s, i, m, now, af))
  }

  ghost predicate Shaped(cfg: Config, s: Spk) {
    |s.nbs| == |cfg.peers| && s.ribs.Keys == s.queues.Keys == cfg.families
  }

  ghost predicate Next(cfg: Config, s: Spk, step: Step, t: Spk) {
    && Shaped(cfg, s)
    && match step
       case Hear(i, m, now) => i < |s.nbs| && s.nbs[i].link == Running && t == Heard(cfg, s, i, m, now)
       case Drain(af, fib, out) =>
         && af in s.queues && s.queues[af] != []
         && EventStep(s.ribs[af], fib, cfg.localAsn, s.queues[af][0], out)
         && t == s.(ribs := s.ribs[af := out.rib], queues := s.queues[af := s.queues[af][1..]])
       case _ =>
         && step.i < |s.nbs| && Allowed(s.nbs[step.i], step)
         && t == s.(nbs := s.nbs[step.i := Moved(s.nbs[step.i], step)])
  }

  function InitialNb(p: PeerConfig): Nb {
    Nb(Session(Idle, false, Some(p.asn), None, None, map[]), Down, false)
  }

  function Initial(cfg: Config): Spk {
    Spk(seq(|cfg.peers|, k requires 0 <= k < |cfg.peers| => InitialNb(cfg.peers[k])),
        map af | af in cfg.families :: map[], map af | af in cfg.families :: [])
  }

  datatype Run = Run(states: seq<Spk>, steps: seq<Step>)

  ghost predicate IsRun(cfg: Config, run: Run) {
    && |run.states| == |run.steps| + 1
    && run.states[0] == Initial(cfg)
    && forall k | 0 <= k < |run.steps| :: Next(cfg, run.states[k], run.steps[k], run.states[k + 1])
  }

  ghost predicate RibsInv(cfg: Config, s: Spk) {
    forall af <- s.ribs :: RibInv(s.ribs[af], cfg.localAsn)
  }

  lemma AnEventKeepsInv(rib: Rib, fib: Fib, asn: U16, u: RibEvent, out: Outcome)
    requires RibInv(rib, asn) && EventStep(rib, fib, asn, u, out)
    ensures RibInv(out.rib, asn)
  {
    hide EventStep, RibInv;
    EventRefines(rib, fib, asn, u, out, RawNet(UNSPECIFIED_V4, 0), WithdrawAllEvent(0).withdrawn.value.attributes);
  }

  lemma NextKeepsShape(cfg: Config, s: Spk, step: Step, t: Spk)
    requires Next(cfg, s, step, t)
    ensures Shaped(cfg, t)
    ensures RibsInv(cfg, s) ==> RibsInv(cfg, t)
  {
    hide EventStep, RibInv, Pushed, HeardBy, Moved, Allowed;
    if step.Drain? && RibsInv(cfg, s) {
      AnEventKeepsInv(s.ribs[step.af], step.fib, cfg.localAsn, s.queues[step.af][0], step.out);
    }
  }

  lemma {:induction false} RunKeepsShape(cfg: Config, run: Run, k: nat)
    requires IsRun(cfg, run) && k < |run.states|
    ensures Shaped(cfg, run.states[k]) && RibsInv(cfg, run.states[k])
  {
    hide Next;
    if k > 0 {
      RunKeepsShape(cfg, run, k - 1);
      NextKeepsShape(cfg, run.states[k - 1], run.steps[k - 1], run.states[k]);
    }
  }

  /** A session under negotiation has its event channel registered, and no two neighbours are in
      OpenConfirm with the same router id. */
  ghost predicate Exclusive(s: Spk) {
    && (forall n <- s.nbs :: n.session.state == OpenConfirm ==> n.session.tx && n.session.rid.Some?)
    && (forall i, j | 0 <= i < j < |s.nbs| ::
          s.nbs[i].session.state == OpenConfirm && s.nbs[j].session.state == OpenConfirm ==>
          s.nbs[i].session.rid != s.nbs[j].session.rid)
  }

  lemma OnlyAnOpenConfirms(cfg: Config, s: Spk, i: nat, m: Body, now: nat)
    requires i < |s.nbs| == |cfg.peers| && Exclusive(s)
    ensures var n, n' := s.nbs[i].session, HeardBy(cfg, s, i, m, now).session;
            n'.state == OpenConfirm ==>
              n'.tx && n'.rid.Some?
              && ((n'.rid == n.rid && n.state == OpenConfirm) || !Collides(SessionsOf(s), n'.rid.value))
  {
    hide Collides, AdjAfter, FateAt, HeardFrom;
    assert s.nbs[i] in s.nbs;
  }

  lemma NoneClashes(others: seq<Session>, rid: U32, j: nat)
    requires j < |others|
    ensures !Collides(others, rid) ==> !Clashes(others[j], rid)
  {
    hide Clashes;
  }

  lemma HearKeepsExclusive(cfg: Config, s: Spk, i: nat, m: Body, now: nat)
    requires i < |s.nbs| == |cfg.peers| && Exclusive(s)
    ensures Exclusive(Heard(cfg, s, i, m, now))
  {
    hide HeardBy, Pushed;
    OnlyAnOpenConfirms(cfg, s, i, m, now);
    var t := Heard(cfg, s, i, m, now);
    forall j | 0 <= j < |s.nbs| && j != i && s.nbs[j].session.state == OpenConfirm
      ensures t.nbs[i].session.state == OpenConfirm ==> t.nbs[i].session.rid != s.nbs[j].session.rid
    {
      assert s.nbs[j] in s.nbs;
      assert SessionsOf(s)[j] == s.nbs[j].session;
      if t.nbs[i].session.rid.Some? {
        NoneClashes(SessionsOf(s), t.nbs[i].session.rid.value, j);
      }
    }
    forall n <- t.nbs
      ensures n.session.state == OpenConfirm ==> n.session.tx && n.session.rid.Some?
    {
      assert n == t.nbs[i] || n in s.nbs;
    }
  }

  lemma MoveKeepsExclusive(s: Spk, i: nat, step: Step)
    requires i < |s.nbs| && Exclusive(s) && Allowed(s.nbs[i], step)
    ensures Exclusive(s.(nbs := s.nbs[i := Moved(s.nbs[i], step)]))
  {
    var nb := Moved(s.nbs[i], step);
    assert s.nbs[i] in s.nbs;
    assert nb.session.state == OpenConfirm ==>
             nb.session.rid == s.nbs[i].session.rid && s.nbs[i].session.state == OpenConfirm;
    hide Moved, Allowed;
    var t := s.nbs[i := nb];
    forall n <- t
      ensures n.session.state == OpenConfirm ==> n.session.tx && n.session.rid.Some?
    {
      assert n == nb || n in s.nbs;
    }
  }

  /** Collision exclusion, section 6.8 of RFC 4271: in no reachable state are two neighbours in
      OpenConfirm with the same router id. */
  lemma {:induction false} NoTwins(cfg: Config, run: Run, k: nat)
    requires IsRun(cfg, run) && k < |run.states|
    ensures Exclusive(run.states[k])
  {
    hide Heard, Moved, Allowed, EventStep, Exclusive;
    if k == 0 {
      NothingIsOpen(cfg);
    } else {
      NoTwins(cfg, run, k - 1);
      var s, step := run.states[k - 1], run.steps[k - 1];
      assert Next(cfg, s, step, run.states[k]);
      match step {
        case Hear(i, m, now) => HearKeepsExclusive(cfg, s, i, m, now);
        case Drain(af, fib, out) => SameNeighbours(s, run.states[k]);
        case _ => MoveKeepsExclusive(s, step.i, step);
      }
    }
  }

  lemma NothingIsOpen(cfg: Config)
    ensures Exclusive(Initial(cfg))
  {
  }

  lemma SameNeighbours(s: Spk, t: Spk)
    requires s.nbs == t.nbs && Exclusive(s)
    ensures Exclusive(t)
  {
  }

  predicate IsUp(s: Session) {
    s.state == OpenConfirm || s.state == Established
  }

  /** No two sessions that are up have the same router id. */
  ghost predicate Distinct(s: Spk) {
    forall i, j | 0 <= i < |s.nbs| && 0 <= j < |s.nbs| && i != j && IsUp(s.nbs[i].session) && IsUp(s.nbs[j].session) ::
      s.nbs[i].session.rid != s.nbs[j].session.rid
  }

  lemma AcceptedOpen(cfg: Config, s: Spk, i: nat, o: Opens.OpenMessage, now: nat)
    requires i < |s.nbs| == |cfg.peers| && s.nbs[i].session.state != OpenConfirm
    ensures var n := HeardBy(cfg, s, i, OpenBody(o), now).session;
            n.state == OpenConfirm ==> n.rid == Some(o.routerId) && !Collides(SessionsOf(s), o.routerId)
  {
    hide Collides, FateAt, HeardFrom;
  }

  /** The collision check looks past established sessions. So an accepted OPEN leaves all sessions
      that are up with different router ids exactly when no established one has the new router id. */
  lemma OpenKeepsDistinctIff(cfg: Config, s: Spk, i: nat, o: Opens.OpenMessage, now: nat, t: Spk)
    requires i < |s.nbs| == |cfg.peers| && Exclusive(s) && Distinct(s)
    requires t == Heard(cfg, s, i, OpenBody(o), now)
    requires s.nbs[i].session.state != OpenConfirm && t.nbs[i].session.state == OpenConfirm
    ensures Distinct(t) <==>
            forall j | 0 <= j < |s.nbs| && j != i ::
              s.nbs[j].session.state == Established ==> s.nbs[j].session.rid != Some(o.routerId)
  {
    hide HeardBy, Pushed;
    AcceptedOpen(cfg, s, i, o, now);
    forall j | 0 <= j < |s.nbs| && j != i && s.nbs[j].session.state == OpenConfirm
      ensures s.nbs[j].session.rid != Some(o.routerId)
    {
      assert s.nbs[j] in s.nbs;
      assert SessionsOf(s)[j] == s.nbs[j].session;
      NoneClashes(SessionsOf(s), o.routerId, j);
    }
    if Distinct(t) {
      forall j | 0 <= j < |s.nbs| && j != i && s.nbs[j].session.state == Established
        ensures s.nbs[j].session.rid != Some(o.routerId)
      {
        assert t.nbs[j] == s.nbs[j] && IsUp(t.nbs[i].session);
      }
    }
  }

  /** A session that is up has its event channel registered. */
  ghost predicate UpHasChannel(s: Spk) {
    forall n <- s.nbs :: IsUp(n.session) ==> n.session.tx
  }

  lemma HearKeepsChannel(cfg: Config, s: Spk, i: nat, m: Body, now: nat)
    requires i < |s.nbs| == |cfg.peers| && UpHasChannel(s)
    ensures UpHasChannel(Heard(cfg, s, i, m, now))
  {
    hide Collides, AdjAfter, Pushed, FateAt, HeardFrom;
    assert s.nbs[i] in s.nbs;
    assert forall n <- Heard(cfg, s, i, m, now).nbs :: n == HeardBy(cfg, s, i, m, now) || n in s.nbs;
  }

  lemma MoveKeepsChannel(s: Spk, i: nat, step: Step)
    requires i < |s.nbs| && UpHasChannel(s) && Allowed(s.nbs[i], step)
    ensures UpHasChannel(s.(nbs := s.nbs[i := Moved(s.nbs[i], step)]))
  {
    assert s.nbs[i] in s.nbs;
    assert forall n <- s.nbs[i := Moved(s.nbs[i], step)] :: n == Moved(s.nbs[i], step) || n in s.nbs;
  }

  /** With one connection for each neighbour and messages handled in one step, a neighbour in
      OpenConfirm or Established has its channel, in every reachable state. */
  lemma {:induction false} EstablishedHasChannel(cfg: Config, run: Run, k: nat)
    requires IsRun(cfg, run) && k < |run.states|
    ensures UpHasChannel(run.states[k])
  {
    hide Heard, Moved, Allowed, EventStep;
    if k > 0 {
      hide UpHasChannel;
      EstablishedHasChannel(cfg, run, k - 1);
      var s, step := run.states[k - 1], run.steps[k - 1];
      assert Next(cfg, s, step, run.states[k]);
      match step {
        case Hear(i, m, now) => HearKeepsChannel(cfg, s, i, m, now);
        case Drain(af, fib, out) => SameChannels(s, run.states[k]);
        case _ => MoveKeepsChannel(s, step.i, step);
      }
    }
  }

  lemma SameChannels(s: Spk, t: Spk)
    requires s.nbs == t.nbs && UpHasChannel(s)
    ensures UpHasChannel(t)
  {
  }
}
