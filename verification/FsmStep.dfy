/** A connection task that nobody interrupts: block by block it does just what the speaker model does in one
    step, so what is proved of runs of blocks and of runs of steps is about the same sessions
    (src/neighbor/fsm.rs:121-208, src/neighbor/message_handler.rs:14-563). */
module FsmSteps {
  import opened Basics
  import opened Types
  import opened Routes
  import opened Sessions
  import opened LocRibs
  import opened Messages
  import opened Fsms
  import Opens
  import Speakers
  import Updates

  /** What is found outside the record while the task runs: whether a router id clashes, whether the tables can
      be sent, how writing on the connection and reaching the neighbour end, what time it is. */
  datatype Around = Around(clash: bool, tables: bool, written: bool, attempt: Attempt, now: nat)

  function Chosen(pc: Pc, a: Around): Choice {
    match pc
    case OpenCollision(_) => if a.clash then Yes else No
    case Confirm => if a.tables then Yes else No
    case LookForEvent(_, _) => if a.written then Yes else No
    case SendingOpen(_) => if a.written then Yes else No
    case Dialing => if a.attempt == Connected then Yes else if a.attempt == Unreached then No else At(a.now)
    case UpdateRoute(_) => At(a.now)
    case _ => No
  }

  /** The task is at its loop again, or no more. */
  predicate Rests(pc: Pc) {
    pc.Loop? || pc.Gone?
  }

  /** At most `n` blocks of the task, one behind the other, until it rests. */
  function Alone(ends: Ends, nb: Record, pc: Pc, a: Around, n: nat): Fsms.Result
    decreases n
  {
    if n == 0 || Rests(pc) then Stay(nb, pc)
    else
      var r := Block(ends, nb, pc, Chosen(pc, a));
      Alone(ends, r.nb, r.next, a, n - 1)
  }

  lemma OneBlock(ends: Ends, nb: Record, pc: Pc, a: Around, n: nat)
    requires n > 0 && !Rests(pc)
    ensures var r := Block(ends, nb, pc, Chosen(pc, a));
            Alone(ends, nb, pc, a, n) ==
            if Rests(r.next) then Stay(r.nb, r.next) else Alone(ends, r.nb, r.next, a, n - 1)
  {
    hide Block;
  }

  /** The task takes its leave. */
  lemma Leaves(ends: Ends, nb: Record, a: Around, n: nat)
    requires n > 0
    ensures Alone(ends, nb, Leave, a, n) == Stay(nb.(session := nb.session.(state := Idle, tx := false)), Gone)
  {
    OneBlock(ends, nb, Leave, a, n);
  }

  /** How the handling of a message leaves session and task. */
  function Ended(s: Session, fate: Fate): Session {
    if fate == Fails then s.(state := Idle, tx := false) else s
  }

  /** The blocks of an OPEN. */
  lemma OpenBlocks(ends: Ends, nb: Record, o: Opens.OpenMessage, c: Choice)
    ensures Block(ends, nb, OpenStart(o), c) == Stay(nb, if nb.session.tx then OpenCollision(o) else Leave)
    ensures Block(ends, nb, OpenCollision(o), c) == Stay(nb, if c == Yes then Loop else OpenCheck(o))
    ensures Block(ends, nb, OpenCheck(o), c) == Stay(nb, if ValidOpen(nb.session, o) then OpenTake(o) else Loop)
    ensures Block(ends, nb, OpenTake(o), c) ==
            Stay(nb.(session := TakenOver(nb.session, o)),
                 if Opens.Understand(o.optParams.params).Ok? then OpenEnd else Gone)
    ensures Block(ends, nb, OpenEnd, c) == Stay(nb, if nb.session.tx then Loop else Leave)
  {
    hide PartsOf, RouteFrom, EventOf, AdjAdd, AdjWithdraw, Opens.Understand, ValidOpen, TakenOver, OpensOn, WritesOn,
      FirstEvent, TakesConnection, Dispatched;
  }

  /** The look at the state, and the look for the own channel. */
  lemma LookBlocks(ends: Ends, nb: Record, m: Body, c: Choice)
    ensures Block(ends, nb, LookForMessage(m), c) == Stay(nb, Dispatched(nb.session, m))
    ensures Block(ends, nb, Forward, c) == Stay(nb, if nb.session.tx then Loop else Leave)
  {
    hide PartsOf, RouteFrom, EventOf, AdjAdd, AdjWithdraw, Opens.Understand, ValidOpen, TakenOver, OpensOn, WritesOn,
      FirstEvent, TakesConnection, Dispatched;
  }

  /** The blocks of a KEEPALIVE. */
  lemma KeepaliveBlocks(ends: Ends, nb: Record, c: Choice)
    ensures Block(ends, nb, KeepaliveReset, c) == Stay(nb, Confirm)
    ensures Block(ends, nb, Confirm, c) == Stay(SetState(nb, Established), if c == Yes then Loop else Gone)
  {
    hide PartsOf, RouteFrom, EventOf, AdjAdd, AdjWithdraw, Opens.Understand, ValidOpen, TakenOver, OpensOn, WritesOn,
      FirstEvent, TakesConnection, Dispatched;
  }

  /** The blocks of a NOTIFICATION. */
  lemma NotificationBlocks(ends: Ends, nb: Record, c: Choice)
    ensures Block(ends, nb, NotificationStart, c) == Stay(nb, NotificationEnd)
    ensures Block(ends, nb, NotificationEnd, c) ==
            Stay(nb.(session := nb.session.(state := Idle, adj := map[])), Loop)
  {
    hide PartsOf, RouteFrom, EventOf, AdjAdd, AdjWithdraw, Opens.Understand, ValidOpen, TakenOver, OpensOn, WritesOn,
      FirstEvent, TakesConnection, Dispatched;
  }

  /** The blocks of an UPDATE, in which the route is made once and then carried along. */
  lemma RouteBlock(ends: Ends, nb: Record, u: Updates.UpdateMessage, now: nat)
    ensures Block(ends, nb, UpdateRoute(u), At(now)) ==
            if Identified(nb.session) then Stay(nb, UpdateWithdraw(u, RouteFrom(nb.session, ends, u, now)))
            else Stay(nb, Gone)
  {
    hide PartsOf, RouteFrom, EventOf, AdjAdd, AdjWithdraw, Opens.Understand, ValidOpen, TakenOver, OpensOn, WritesOn,
      FirstEvent, TakesConnection, Dispatched;
  }

  lemma WithdrawBlock(ends: Ends, nb: Record, u: Updates.UpdateMessage, attrs: Route, c: Choice)
    ensures var p, s := PartsOf(u), nb.session;
            var adj := if p.withdrawn == [] then s.adj else AdjWithdraw(s.adj, p.af, RibUpdate(p.withdrawn, attrs));
            Block(ends, nb, UpdateWithdraw(u, attrs), c) ==
            Stay(nb.(session := s.(adj := adj)), UpdateAdd(u, attrs))
  {
    hide PartsOf, RouteFrom, EventOf, AdjAdd, AdjWithdraw, Opens.Understand, ValidOpen, TakenOver, OpensOn, WritesOn,
      FirstEvent, TakesConnection, Dispatched;
  }

  lemma AddBlock(ends: Ends, nb: Record, u: Updates.UpdateMessage, attrs: Route, c: Choice)
    ensures var p, s := PartsOf(u), nb.session;
            var adj := if p.nlris == [] then s.adj else AdjAdd(s.adj, p.af, RibUpdate(p.nlris, attrs));
            Block(ends, nb, UpdateAdd(u, attrs), c) == Stay(nb.(session := s.(adj := adj)), UpdateSend(u, attrs))
  {
    hide PartsOf, RouteFrom, EventOf, AdjAdd, AdjWithdraw, Opens.Understand, ValidOpen, TakenOver, OpensOn, WritesOn,
      FirstEvent, TakesConnection, Dispatched;
  }

  lemma SendBlock(ends: Ends, nb: Record, u: Updates.UpdateMessage, attrs: Route, c: Choice)
    requires nb.session.rid.Some?
    ensures Block(ends, nb, UpdateSend(u, attrs), c) ==
            Stay(if nb.wired
                 then nb.(mail := nb.mail + [Mail(PartsOf(u).af, EventOf(PartsOf(u), attrs, nb.session.rid.value))])
                 else nb, Loop)
  {
    hide PartsOf, RouteFrom, EventOf, AdjAdd, AdjWithdraw, Opens.Understand, ValidOpen, TakenOver, OpensOn, WritesOn,
      FirstEvent, TakesConnection, Dispatched;
  }

  /** The record when the event of an UPDATE has been sent. */
  function SentOff(nb: Record, u: Updates.UpdateMessage, attrs: Route): Record
    requires nb.session.rid.Some?
  {
    if nb.wired then nb.(mail := nb.mail + [Mail(PartsOf(u).af, EventOf(PartsOf(u), attrs, nb.session.rid.value))])
    else nb
  }

  lemma AloneSends(ends: Ends, nb: Record, u: Updates.UpdateMessage, attrs: Route, a: Around)
    requires nb.session.rid.Some?
    ensures Alone(ends, nb, UpdateSend(u, attrs), a, 2) == Stay(SentOff(nb, u, attrs), Loop)
  {
    hide Alone, Block, PartsOf, EventOf;
    OneBlock(ends, nb, UpdateSend(u, attrs), a, 2);
    SendBlock(ends, nb, u, attrs, No);
  }

  lemma AloneAdds(ends: Ends, nb: Record, u: Updates.UpdateMessage, attrs: Route, a: Around)
    requires nb.session.rid.Some?
    ensures var p, s := PartsOf(u), nb.session;
            var adj := if p.nlris == [] then s.adj else AdjAdd(s.adj, p.af, RibUpdate(p.nlris, attrs));
            Alone(ends, nb, UpdateAdd(u, attrs), a, 3) ==
            Stay(SentOff(nb.(session := s.(adj := adj)), u, attrs), Loop)
  {
    hide Alone, Block, PartsOf, EventOf, AdjAdd, SentOff;
    var p, s := PartsOf(u), nb.session;
    var adj := if p.nlris == [] then s.adj else AdjAdd(s.adj, p.af, RibUpdate(p.nlris, attrs));
    OneBlock(ends, nb, UpdateAdd(u, attrs), a, 3);
    AddBlock(ends, nb, u, attrs, No);
    AloneSends(ends, nb.(session := s.(adj := adj)), u, attrs, a);
  }

  /** Withdrawals and announcements of an UPDATE, one block each, bring the Adj-RIB up to date. */
  lemma AloneUpdates(ends: Ends, nb: Record, u: Updates.UpdateMessage, attrs: Route, a: Around)
    requires nb.session.rid.Some?
    ensures Alone(ends, nb, UpdateWithdraw(u, attrs), a, 4) ==
            Stay(SentOff(nb.(session := nb.session.(adj := AdjAfter(nb.session.adj, PartsOf(u), attrs))), u, attrs), Loop)
  {
    hide Alone, Block, PartsOf, EventOf, AdjAdd, AdjWithdraw, SentOff;
    var p, s := PartsOf(u), nb.session;
    var adj := if p.withdrawn == [] then s.adj else AdjWithdraw(s.adj, p.af, RibUpdate(p.withdrawn, attrs));
    OneBlock(ends, nb, UpdateWithdraw(u, attrs), a, 4);
    WithdrawBlock(ends, nb, u, attrs, No);
    AloneAdds(ends, nb.(session := s.(adj := adj)), u, attrs, a);
  }

  lemma AloneTakes(ends: Ends, nb: Record, o: Opens.OpenMessage, a: Around)
    requires nb.session.tx
    ensures Alone(ends, nb, OpenTake(o), a, 2) ==
            Stay(nb.(session := TakenOver(nb.session, o)),
                 if Opens.Understand(o.optParams.params).Ok? then Loop else Gone)
  {
    hide Alone, Block, Opens.Understand, TakenOver;
    var t := nb.(session := TakenOver(nb.session, o));
    TakingOverKeepsChannel(nb.session, o);
    OneBlock(ends, nb, OpenTake(o), a, 2);
    OpenBlocks(ends, nb, o, No);
    OneBlock(ends, t, OpenEnd, a, 1);
    OpenBlocks(ends, t, o, No);
  }

  /** An OPEN, block by block. */
  lemma AloneOpens(ends: Ends, nb: Record, o: Opens.OpenMessage, a: Around)
    ensures var s := nb.session;
            Alone(ends, nb, OpenStart(o), a, 5) ==
            if !s.tx then Stay(nb.(session := s.(state := Idle, tx := false)), Gone)
            else if a.clash || !ValidOpen(s, o) then Stay(nb, Loop)
            else Stay(nb.(session := TakenOver(s, o)), if Opens.Understand(o.optParams.params).Ok? then Loop else Gone)
  {
    hide Alone, Block, Opens.Understand, ValidOpen, TakenOver;
    OneBlock(ends, nb, OpenStart(o), a, 5);
    OpenBlocks(ends, nb, o, No);
    if !nb.session.tx {
      Leaves(ends, nb, a, 4);
    } else {
      OpenBlocks(ends, nb, o, if a.clash then Yes else No);
      OneBlock(ends, nb, OpenCollision(o), a, 4);
      if !a.clash {
        OneBlock(ends, nb, OpenCheck(o), a, 3);
        AloneTakes(ends, nb, o, a);
      }
    }
  }

  lemma TakingOverKeepsChannel(s: Session, o: Opens.OpenMessage)
    ensures TakenOver(s, o).tx == s.tx
  {
    hide HeardFrom;
  }

  lemma AloneHearsOpen(
    ends: Ends, families: Option<seq<AddressFamily>>, tables: Tables, others: seq<Session>, nb: Record,
    o: Opens.OpenMessage, a: Around)
    requires a.clash <==> Collides(others, o.routerId)
    ensures var m, s := OpenBody(o), nb.session;
            Alone(ends, nb, LookForMessage(m), a, 6) ==
            Stay(nb.(session := Ended(Reached(s, ends, others, m, a.now), FateOf(s, families, tables, others, m))),
                 if FateOf(s, families, tables, others, m) == GoesOn then Loop else Gone)
  {
    hide Alone, Block, Opens.Understand, Collides, ValidOpen, TakenOver;
    LookBlocks(ends, nb, OpenBody(o), No);
    OneBlock(ends, nb, LookForMessage(OpenBody(o)), a, 6);
    AloneOpens(ends, nb, o, a);
  }

  lemma AloneHearsKeepalive(
    ends: Ends, families: Option<seq<AddressFamily>>, tables: Tables, others: seq<Session>, nb: Record, a: Around)
    requires a.tables <==> SendsTables(nb.session, families, tables)
    ensures var m, s := KeepaliveBody, nb.session;
            Alone(ends, nb, LookForMessage(m), a, 6) ==
            Stay(nb.(session := Ended(Reached(s, ends, others, m, a.now), FateOf(s, families, tables, others, m))),
                 if FateOf(s, families, tables, others, m) == GoesOn then Loop else Gone)
  {
    hide Alone, Block, SendsTables, AdjAfter, PartsOf, RouteFrom, TakesOver, TakenOver, Opens.Understand;
    LookBlocks(ends, nb, KeepaliveBody, No);
    KeepaliveBlocks(ends, nb, No);
    KeepaliveBlocks(ends, nb, if a.tables then Yes else No);
    OneBlock(ends, nb, LookForMessage(KeepaliveBody), a, 6);
    if nb.session.state == OpenConfirm {
      OneBlock(ends, nb, KeepaliveReset, a, 5);
      OneBlock(ends, nb, Confirm, a, 4);
    }
  }

  /** What an UPDATE in an established session sends through the neighbour's own channels. */
  function MailOf(nb: Record, ends: Ends, u: Updates.UpdateMessage, now: nat): seq<Mail> {
    var s := nb.session;
    if nb.wired && s.state == Established && Identified(s)
    then [Mail(PartsOf(u).af, EventOf(PartsOf(u), RouteFrom(s, ends, u, now), s.rid.value))] else []
  }

  lemma AloneHearsUpdate(
    ends: Ends, families: Option<seq<AddressFamily>>, tables: Tables, others: seq<Session>, nb: Record,
    u: Updates.UpdateMessage, a: Around)
    ensures var m, s := UpdateBody(u), nb.session;
            Alone(ends, nb, LookForMessage(m), a, 6) ==
            Stay(nb.(session := Ended(Reached(s, ends, others, m, a.now), FateOf(s, families, tables, others, m)),
                     mail := nb.mail + MailOf(nb, ends, u, a.now)),
                 if FateOf(s, families, tables, others, m) == GoesOn then Loop else Gone)
  {
    hide Alone, Block, PartsOf, RouteFrom, EventOf, AdjAfter, TakesOver, TakenOver, SendsTables, Opens.Understand;
    var s := nb.session;
    assert nb.mail + [] == nb.mail;
    LookBlocks(ends, nb, UpdateBody(u), No);
    OneBlock(ends, nb, LookForMessage(UpdateBody(u)), a, 6);
    if s.state == Established {
      OneBlock(ends, nb, UpdateRoute(u), a, 5);
      RouteBlock(ends, nb, u, a.now);
      if Identified(s) {
        AloneUpdates(ends, nb, u, RouteFrom(s, ends, u, a.now), a);
      }
    } else if s.state == OpenSent {
      OneBlock(ends, nb, Forward, a, 5);
      Leaves(ends, nb, a, 4);
    }
  }

  lemma AloneHearsNotification(
    ends: Ends, families: Option<seq<AddressFamily>>, tables: Tables, others: seq<Session>, nb: Record,
    m: Body, a: Around)
    requires m.NotificationBody?
    ensures var s := nb.session;
            Alone(ends, nb, LookForMessage(m), a, 6) ==
            Stay(nb.(session := Ended(Reached(s, ends, others, m, a.now), FateOf(s, families, tables, others, m))),
                 if FateOf(s, families, tables, others, m) == GoesOn then Loop else Gone)
  {
    hide Alone, Block, AdjAfter, PartsOf, RouteFrom, TakesOver, TakenOver, SendsTables, Opens.Understand;
    var s := nb.session;
    LookBlocks(ends, nb, m, No);
    NotificationBlocks(ends, nb, No);
    OneBlock(ends, nb, LookForMessage(m), a, 6);
    if s.state == Established {
      OneBlock(ends, nb, NotificationStart, a, 5);
      OneBlock(ends, nb, NotificationEnd, a, 4);
    } else if s.state == Active || s.state == OpenConfirm {
      OneBlock(ends, nb, Forward, a, 5);
      Leaves(ends, nb, a, 4);
    }
  }

  /** What is mailed for a family. */
  function EventsFor(mail: seq<Mail>, af: AddressFamily): seq<RibEvent> {
    if mail == [] then []
    else EventsFor(mail[..|mail| - 1], af) + if mail[|mail| - 1].af == af then [mail[|mail| - 1].event] else []
  }

  /** Whatever message a task hears in whatever state, on its own it ends up within six blocks where the speaker
      model puts session and task in one step, and has mailed for each family what that puts in its queue; the
      events of a NOTIFICATION go another way. */
  lemma BlocksAreTheStep(
    cfg: Speakers.Config, spk: Speakers.Spk, i: nat, nb: Record, m: Body, a: Around, af: AddressFamily)
    requires i < |spk.nbs| == |cfg.peers|
    requires nb.session == spk.nbs[i].session && nb.wired == spk.nbs[i].wired && spk.nbs[i].link == Speakers.Running
    requires m.OpenBody? ==> (a.clash <==> Collides(Speakers.SessionsOf(spk), m.open.routerId))
    requires a.tables <==> SendsTables(nb.session, cfg.peers[i].families, spk.ribs)
    ensures var r := Alone(Speakers.EndsOf(cfg, i), nb, LookForMessage(m), a, 6);
            var after := Speakers.HeardBy(cfg, spk, i, m, a.now);
            && r.nb.session == after.session && r.nb.wired == after.wired
            && r.next == (if after.link == Speakers.Running then Loop else Gone)
            && EventsFor(r.nb.mail, af) ==
               EventsFor(nb.mail, af)
               + if m.NotificationBody? then [] else Speakers.Pushed(cfg, spk, i, m, a.now, af)
  {
    hide Alone, Reached, FateOf, SendsTables, Collides, EventOf, RouteFrom, PartsOf;
    var ends, fams, others := Speakers.EndsOf(cfg, i), cfg.peers[i].families, Speakers.SessionsOf(spk);
    match m
    case OpenBody(o) =>
      AloneHearsOpen(ends, fams, spk.ribs, others, nb, o, a);
    case KeepaliveBody =>
      AloneHearsKeepalive(ends, fams, spk.ribs, others, nb, a);
    case UpdateBody(u) =>
      AloneHearsUpdate(ends, fams, spk.ribs, others, nb, u, a);
      Mailed(nb.mail, MailOf(nb, ends, u, a.now), af);
    case NotificationBody(_, _, _) =>
      AloneHearsNotification(ends, fams, spk.ribs, others, nb, m, a);
  }

  lemma Mailed(mail: seq<Mail>, more: seq<Mail>, af: AddressFamily)
    requires |more| <= 1
    ensures EventsFor(mail + more, af) ==
            EventsFor(mail, af) + if more != [] && more[0].af == af then [more[0].event] else []
  {
    if more == [] {
      assert mail + more == mail;
    } else {
      assert (mail + more)[..|mail|] == mail;
    }
  }

  /** The blocks of an event. */
  lemma EventBlocks(ends: Ends, nb: Record, e: Event, entering: bool, c: Choice)
    ensures Block(ends, nb, LookForEvent(e, entering), c) ==
            Stay(nb, if OpensOn(nb.session.state, e) then SendingOpen(entering)
                     else if nb.session.state == Connect && e == AutomaticStart then Restart
                     else if WritesOn(nb.session.state, e) && c != Yes then Leave else Loop)
    ensures Block(ends, nb, SendingOpen(entering), c) ==
            if c == Yes then Stay(SetState(nb, OpenSent), Loop) else Stay(nb, if entering then Gone else Leave)
    ensures Block(ends, nb, Restart, c) == Stay(SetState(nb, Active), Loop)
  {
    hide PartsOf, RouteFrom, EventOf, AdjAdd, AdjWithdraw, Opens.Understand, ValidOpen, TakenOver, OpensOn, WritesOn,
      FirstEvent, TakesConnection, Dispatched;
  }

  /** An event is handled as the speaker model has it ... */
  lemma EventBlocksAreTheStep(ends: Ends, nb: Record, e: Event, a: Around)
    ensures Alone(ends, nb, LookForEvent(e, false), a, 3) ==
            if WritesOn(nb.session.state, e) && !a.written
            then Stay(nb.(session := nb.session.(state := Idle, tx := false)), Gone)
            else Stay(nb.(session := AfterEvent(nb.session, e, a.written)), Loop)
  {
    hide Alone, Block;
    var c := if a.written then Yes else No;
    EventBlocks(ends, nb, e, false, c);
    EventBlocks(ends, nb, e, false, No);
    OneBlock(ends, nb, LookForEvent(e, false), a, 3);
    OneBlock(ends, nb, SendingOpen(false), a, 2);
    OneBlock(ends, nb, Restart, a, 2);
    Leaves(ends, nb, a, 2);
    Leaves(ends, nb, a, 1);
  }

  /** ... and so are the start of a task ... */
  lemma EnterBlocksAreTheStep(ends: Ends, nb: Record, a: Around)
    ensures Alone(ends, nb, Enter, a, 3) ==
            Stay(nb.(session := Entered(nb.session, a.written)),
                 if FirstEvent(nb.session.state).Some? && !a.written then Gone else Loop)
  {
    hide Alone;
    var t, e := nb.(session := nb.session.(tx := true)), FirstEvent(nb.session.state);
    OneBlock(ends, nb, Enter, a, 3);
    assert Block(ends, nb, Enter, No) == Stay(t, if e.Some? then LookForEvent(e.value, true) else Loop);
    hide Block;
    if e.Some? {
      EventBlocks(ends, t, e.value, true, if a.written then Yes else No);
      OneBlock(ends, t, LookForEvent(e.value, true), a, 2);
      OneBlock(ends, t, SendingOpen(true), a, 1);
    }
  }

  /** ... and the attempts of either side to connect. */
  lemma ConnectBlocksAreTheStep(ends: Ends, nb: Record, a: Around)
    ensures Alone(ends, nb, Dial, a, 2) ==
            Stay(nb.(session := nb.session.(state := if a.attempt == Unreached then Idle else Connect), wired := true),
                 Gone)
    ensures Alone(ends, nb, Incoming, a, 2) ==
            Stay(if TakesConnection(nb.session.state) then nb.(session := nb.session.(state := Active)) else nb, Gone)
  {
    hide Alone;
    var w := nb.(wired := true);
    OneBlock(ends, nb, Dial, a, 2);
    OneBlock(ends, w, Dialing, a, 1);
    OneBlock(ends, nb, Incoming, a, 2);
    OneBlock(ends, nb, Admitted, a, 1);
  }
}
