/** One neighbour worked on by any number of connection tasks. A step is one block of code that
    holds the neighbour's lock, so that what a task saw in one block may be stale in the next
    (src/neighbor/fsm.rs, src/neighbor/message_handler.rs, src/speaker/connection.rs:11-91). */
module Fsms {
  import opened Basics
  import opened Bytes
  import opened Types
  import opened Routes
  import opened LocRibs
  import opened Sessions
  import opened Messages
  import Opens
  import Updates

  /** Where a task is: the block it runs next, and the locals that block needs. */
  datatype Pc =
    | Dial
    | Dialing
    | Incoming
    | Admitted
    | Enter
    | LookForEvent(e: Event, entering: bool)
    | SendingOpen(entering: bool)
    | Restart
    | Loop
    | LookForMessage(m: Body)
    | OpenStart(o: Opens.OpenMessage)
    | OpenCollision(o: Opens.OpenMessage)
    | OpenCheck(o: Opens.OpenMessage)
    | OpenTake(o: Opens.OpenMessage)
    | OpenEnd
    | KeepaliveReset
    | Confirm
    | UpdateRoute(u: Updates.UpdateMessage)
    | UpdateWithdraw(u: Updates.UpdateMessage, attrs: Route)
    | UpdateAdd(u: Updates.UpdateMessage, attrs: Route)
    | UpdateSend(u: Updates.UpdateMessage, attrs: Route)
    | NotificationStart
    | NotificationEnd
    | Forward
    | Leave
    | Gone

  datatype Mail = Mail(af: AddressFamily, event: RibEvent)

  /** The record behind the lock; `mail` is what went out through the neighbour's own channels. */
  datatype Record = Record(session: Session, wired: bool, mail: seq<Mail>)

  datatype World = World(nb: Record, tasks: seq<Pc>)

  /** What the environment decides: how an attempt ends, or the sending of the tables, what is received,
      what time it is. */
  datatype Choice = Yes | No | Received(m: Body) | Raised(e: Event) | At(now: nat)

  /** The record after a block, the next block of the task, and whether a connection was handed to
      a new task. */
  datatype Result = Result(nb: Record, next: Pc, spawned: bool)

  function Stay(nb: Record, next: Pc): Result {
    Result(nb, next, false)
  }

  function SetState(nb: Record, state: BGPState): Record {
    nb.(session := nb.session.(state := state))
  }

  /** One block of a task. */
  function Block(ends: Ends, nb: Record, pc: Pc, c: Choice): Result {
    var s := nb.session;
    match pc
    case Dial => Stay(nb.(wired := true), Dialing)
    case Dialing =>
      if c == Yes then Result(SetState(nb, Connect), Gone, true)
      else Stay(SetState(nb, if c == No then Idle else Connect), Gone)
    case Incoming => Stay(nb, if TakesConnection(s.state) then Admitted else Gone)
    case Admitted => Result(SetState(nb, Active), Gone, true)
    case Enter =>
      var e := FirstEvent(s.state);
      Stay(nb.(session := s.(tx := true)), if e.Some? then LookForEvent(e.value, true) else Loop)
    case LookForEvent(e, entering) =>
      Stay(nb, if OpensOn(s.state, e) then SendingOpen(entering)
               else if s.state == Connect && e == AutomaticStart then Restart
               else if WritesOn(s.state, e) && c != Yes then Leave else Loop)
    case SendingOpen(entering) =>
      if c == Yes then Stay(SetState(nb, OpenSent), Loop) else Stay(nb, if entering then Gone else Leave)
    case Restart => Stay(SetState(nb, Active), Loop)
    case Loop =>
      (match c
       case Received(m) => Stay(nb, LookForMessage(m))
       case Raised(e) => Stay(nb, if e == TcpConnectionFails then Leave else LookForEvent(e, false))
       case No => Stay(nb, Leave)
       case _ => Stay(nb, Loop))
    case LookForMessage(m) => Stay(nb, Dispatched(s, m))
    case OpenStart(o) => Stay(nb, if s.tx then OpenCollision(o) else Leave)
    case OpenCollision(o) => Stay(nb, if c == Yes then Loop else OpenCheck(o))
    case OpenCheck(o) => Stay(nb, if ValidOpen(s, o) then OpenTake(o) else Loop)
    case OpenTake(o) =>
      Stay(nb.(session := TakenOver(s, o)), if Opens.Understand(o.optParams.params).Ok? then OpenEnd else Gone)
    case OpenEnd => Stay(nb, if s.tx then Loop else Leave)
    case KeepaliveReset => Stay(nb, Confirm)
    case Confirm => Stay(SetState(nb, Established), if c == Yes then Loop else Gone)
    case UpdateRoute(u) =>
      if Identified(s) then Stay(nb, UpdateWithdraw(u, RouteFrom(s, ends, u, if c.At? then c.now else 0)))
      else Stay(nb, Gone)
    case UpdateWithdraw(u, attrs) =>
      var p := PartsOf(u);
      Stay(if p.withdrawn == [] then nb
           else nb.(session := s.(adj := AdjWithdraw(s.adj, p.af, RibUpdate(p.withdrawn, attrs)))),
           UpdateAdd(u, attrs))
    case UpdateAdd(u, attrs) =>
      var p := PartsOf(u);
      Stay(if p.nlris == [] then nb
           else nb.(session := s.(adj := AdjAdd(s.adj, p.af, RibUpdate(p.nlris, attrs)))),
           UpdateSend(u, attrs))
    case UpdateSend(u, attrs) =>
      if s.rid.None? then Stay(nb, Gone)
      else if !nb.wired then Stay(nb, Loop)
      else Stay(nb.(mail := nb.mail + [Mail(PartsOf(u).af, EventOf(PartsOf(u), attrs, s.rid.value))]), Loop)
    case NotificationStart => Stay(nb, NotificationEnd)
    case NotificationEnd => Stay(nb.(session := s.(state := Idle, adj := map[])), Loop)
    case Forward => Stay(nb, if s.tx then Loop else Leave)
    case Leave => Stay(nb.(session := s.(state := Idle, tx := false)), Gone)
    case Gone => Stay(nb, Gone)
  }

  /** The handler a message is given to, by the state that is read first. */
  function Dispatched(s: Session, m: Body): Pc {
    match m
    case OpenBody(o) => if s.state == Active || s.state == OpenSent then OpenStart(o) else Loop
    case KeepaliveBody =>
      if s.state == OpenConfirm then KeepaliveReset else Loop
    case UpdateBody(u) =>
      if s.state == Established then UpdateRoute(u) else if s.state == OpenSent then Forward else Loop
    case NotificationBody(_, _, _) =>
      if s.state == Established then NotificationStart
      else if s.state == Active || s.state == OpenConfirm then Forward else Loop
  }

  /** A connection arrives, or task `i` runs its next block. */
  datatype Step = Arrive | Do(i: nat, c: Choice)

  function After(ends: Ends, w: World, step: Step): World {
    match step
    case Arrive => w.(tasks := w.tasks + [Incoming])
    case Do(i, c) =>
      if i >= |w.tasks| then w
      else
        var r := Block(ends, w.nb, w.tasks[i], c);
        World(r.nb, w.tasks[i := r.next] + if r.spawned then [Enter] else [])
  }

  function Initial(asn: U16): World {
    World(Record(Session(Idle, false, Some(asn), None, None, map[]), false, []), [Dial])
  }

  datatype Run = Run(worlds: seq<World>, steps: seq<Step>)

  ghost predicate IsRun(ends: Ends, asn: U16, run: Run) {
    && |run.worlds| == |run.steps| + 1
    && run.worlds[0] == Initial(asn)
    && forall k | 0 <= k < |run.steps| :: run.worlds[k + 1] == After(ends, run.worlds[k], run.steps[k])
  }

  /** Blocks that run only after an OPEN has been taken over. */
  predicate NeedsPeer(pc: Pc) {
    || pc.KeepaliveReset? || pc.Confirm? || pc.UpdateRoute? || pc.UpdateWithdraw? || pc.UpdateAdd? || pc.UpdateSend?
  }

  predicate GoodTask(asn: U16, s: Session, pc: Pc) {
    && (NeedsPeer(pc) ==> s.rid.Some?)
    && (pc.OpenTake? ==> pc.o.asn == asn)
  }

  ghost predicate Safe(asn: U16, w: World) {
    && GoodSession(asn, w.nb.session)
    && forall pc <- w.tasks :: GoodTask(asn, w.nb.session, pc)
  }

  predicate GoodSession(asn: U16, s: Session) {
    s.asn == Some(asn) && (s.state == OpenConfirm || s.state == Established ==> s.rid.Some?)
  }

  lemma BlockKeepsSession(ends: Ends, asn: U16, nb: Record, pc: Pc, c: Choice)
    requires GoodSession(asn, nb.session) && GoodTask(asn, nb.session, pc)
    ensures var r := Block(ends, nb, pc, c);
            GoodSession(asn, r.nb.session) && (nb.session.rid.Some? ==> r.nb.session.rid.Some?)
  {
    hide PartsOf, RouteFrom, EventOf, AdjAdd, AdjWithdraw, Opens.Understand, Dispatched, OpensOn, WritesOn, ValidOpen;
  }

  lemma BlockKeepsTask(ends: Ends, asn: U16, nb: Record, pc: Pc, c: Choice)
    requires GoodSession(asn, nb.session) && GoodTask(asn, nb.session, pc)
    ensures var r := Block(ends, nb, pc, c);
            GoodTask(asn, r.nb.session, r.next)
  {
    hide PartsOf, RouteFrom, EventOf, AdjAdd, AdjWithdraw, Opens.Understand, OpensOn, WritesOn;
  }

  lemma StepIsSafe(ends: Ends, asn: U16, w: World, step: Step)
    requires Safe(asn, w)
    ensures Safe(asn, After(ends, w, step))
    ensures w.nb.session.rid.Some? ==> After(ends, w, step).nb.session.rid.Some?
  {
    hide Block;
    if step.Do? && step.i < |w.tasks| {
      assert w.tasks[step.i] in w.tasks;
      BlockKeepsSession(ends, asn, w.nb, w.tasks[step.i], step.c);
      BlockKeepsTask(ends, asn, w.nb, w.tasks[step.i], step.c);
      var t := After(ends, w, step);
      forall pc <- t.tasks
        ensures GoodTask(asn, t.nb.session, pc)
      {
        assert pc == Block(ends, w.nb, w.tasks[step.i], step.c).next || pc == Enter || pc in w.tasks;
      }
    }
  }

  /** Safety under every interleaving: the remote AS stays the configured one; in OpenConfirm and
      Established, and wherever an UPDATE is handled, the router id is known too. */
  lemma {:induction false} RunIsSafe(ends: Ends, asn: U16, run: Run, k: nat)
    requires IsRun(ends, asn, run) && k < |run.worlds|
    ensures Safe(asn, run.worlds[k])
  {
    hide Safe, After;
    if k == 0 {
      InitialIsSafe(asn);
    } else {
      RunIsSafe(ends, asn, run, k - 1);
      StepIsSafe(ends, asn, run.worlds[k - 1], run.steps[k - 1]);
    }
  }

  lemma InitialIsSafe(asn: U16)
    ensures Safe(asn, Initial(asn))
  {
  }

  /** A router id once known is never forgotten. */
  lemma {:induction false} RidIsKept(ends: Ends, asn: U16, run: Run, k: nat, l: nat)
    requires IsRun(ends, asn, run) && k <= l < |run.worlds| && run.worlds[k].nb.session.rid.Some?
    ensures run.worlds[l].nb.session.rid.Some?
    decreases l
  {
    hide Safe, After;
    if k < l {
      RidIsKept(ends, asn, run, k, l - 1);
      RunIsSafe(ends, asn, run, l - 1);
      StepIsSafe(ends, asn, run.worlds[l - 1], run.steps[l - 1]);
    }
  }

  /** Step `k` is a block of task `i`, at `pc`. */
  ghost predicate Runs(run: Run, k: nat, i: nat, pc: Pc) {
    && k < |run.steps| && k < |run.worlds| && run.steps[k].Do? && run.steps[k].i == i
    && i < |run.worlds[k].tasks| && run.worlds[k].tasks[i] == pc
  }

  /** The remote fields that UPDATE handling takes for granted are there whenever it looks: the
      route can be made, and the event sent. */
  lemma UpdateNeverPanics(ends: Ends, asn: U16, run: Run, k: nat, i: nat, pc: Pc)
    requires IsRun(ends, asn, run) && Runs(run, k, i, pc) && (pc.UpdateRoute? || pc.UpdateSend?)
    ensures Identified(run.worlds[k].nb.session)
    ensures i < |run.worlds[k + 1].tasks|
    ensures pc.UpdateRoute? ==> run.worlds[k + 1].tasks[i].UpdateWithdraw?
    ensures pc.UpdateSend? ==> run.worlds[k + 1].tasks[i] == Loop
  {
    hide PartsOf, RouteFrom, EventOf;
    RunIsSafe(ends, asn, run, k);
    assert pc in run.worlds[k].tasks;
  }

  /** Step `a` takes over an OPEN with the configured AS number. */
  ghost predicate TakesOpen(run: Run, asn: U16, a: nat) {
    a < |run.steps| && a < |run.worlds| && run.steps[a].Do? &&
    var i := run.steps[a].i;
    i < |run.worlds[a].tasks| && run.worlds[a].tasks[i].OpenTake? && run.worlds[a].tasks[i].o.asn == asn
  }

  /** Step `b` reads OpenConfirm for a KEEPALIVE that task `i` received. */
  ghost predicate DispatchesKeepalive(run: Run, b: nat, i: nat) {
    Runs(run, b, i, LookForMessage(KeepaliveBody)) && run.worlds[b].nb.session.state == OpenConfirm
  }

  /** The ways into a block or a state. */
  lemma Entries(ends: Ends, nb: Record, pc: Pc, c: Choice)
    ensures var r := Block(ends, nb, pc, c);
            && (r.next.KeepaliveReset? ==> pc == LookForMessage(KeepaliveBody) && nb.session.state == OpenConfirm)
            && (r.next.Confirm? ==> pc.KeepaliveReset?)
            && (r.next.OpenTake? ==> pc == OpenCheck(r.next.o) && ValidOpen(nb.session, r.next.o))
            && (r.nb.session.state == OpenConfirm ==> nb.session.state == OpenConfirm || pc.OpenTake?)
            && (r.nb.session.state == Established ==> nb.session.state == Established || pc.Confirm?)
  {
    hide PartsOf, RouteFrom, EventOf, AdjAdd, AdjWithdraw, Opens.Understand, ValidOpen;
  }

  lemma TasksAfter(ends: Ends, w: World, step: Step, j: nat)
    requires j < |After(ends, w, step).tasks|
    ensures var pc := After(ends, w, step).tasks[j];
            || pc == Enter || pc == Incoming
            || (j < |w.tasks| && step.Do? && step.i == j && pc == Block(ends, w.nb, w.tasks[j], step.c).next)
            || (j < |w.tasks| && pc == w.tasks[j])
  {
    hide Block;
  }

  /** OpenConfirm is the doing of an accepted OPEN. */
  lemma {:induction false} OpenConfirmHasCause(ends: Ends, asn: U16, run: Run, k: nat) returns (a: nat)
    requires IsRun(ends, asn, run) && k < |run.worlds| && run.worlds[k].nb.session.state == OpenConfirm
    ensures a < k && TakesOpen(run, asn, a)
  {
    hide Block, Safe;
    var w, step := run.worlds[k - 1], run.steps[k - 1];
    if w.nb.session.state == OpenConfirm {
      a := OpenConfirmHasCause(ends, asn, run, k - 1);
    } else {
      a := k - 1;
      Entries(ends, w.nb, w.tasks[step.i], step.c);
      RunIsSafe(ends, asn, run, k - 1);
      TaskIsGood(asn, w, step.i);
    }
  }

  lemma TaskIsGood(asn: U16, w: World, i: nat)
    requires Safe(asn, w) && i < |w.tasks|
    ensures GoodTask(asn, w.nb.session, w.tasks[i])
  {
    assert w.tasks[i] in w.tasks;
  }

  /** A task about to confirm has dispatched a KEEPALIVE in OpenConfirm. */
  lemma {:induction false} ConfirmHasCause(ends: Ends, asn: U16, run: Run, k: nat, i: nat) returns (b: nat)
    requires IsRun(ends, asn, run) && k < |run.worlds| && i < |run.worlds[k].tasks|
    requires run.worlds[k].tasks[i].KeepaliveReset? || run.worlds[k].tasks[i].Confirm?
    ensures b < k && DispatchesKeepalive(run, b, i)
  {
    hide Block, After;
    var w, step := run.worlds[k - 1], run.steps[k - 1];
    TasksAfter(ends, w, step, i);
    if i < |w.tasks| && (w.tasks[i].KeepaliveReset? || w.tasks[i].Confirm?) {
      b := ConfirmHasCause(ends, asn, run, k - 1, i);
    } else {
      b := k - 1;
      Entries(ends, w.nb, w.tasks[i], step.c);
    }
  }

  /** Every step into Established is a task's last block for a KEEPALIVE that it dispatched in
      OpenConfirm, after an OPEN with the configured AS number was taken over. */
  lemma EstablishedHasCauses(ends: Ends, asn: U16, run: Run, k: nat) returns (a: nat, b: nat, i: nat)
    requires IsRun(ends, asn, run) && k < |run.steps|
    requires run.worlds[k].nb.session.state != Established && run.worlds[k + 1].nb.session.state == Established
    ensures a < b < k && TakesOpen(run, asn, a) && DispatchesKeepalive(run, b, i) && Runs(run, k, i, Confirm)
  {
    hide Block, TakesOpen;
    var w, step := run.worlds[k], run.steps[k];
    i := step.i;
    Entries(ends, w.nb, w.tasks[i], step.c);
    b := ConfirmHasCause(ends, asn, run, k, i);
    a := OpenConfirmHasCause(ends, asn, run, b);
  }

  /** An OPEN is taken over only after its own task has checked it against the AS number known. */
  lemma {:induction false} OpenWasChecked(ends: Ends, asn: U16, run: Run, k: nat, i: nat, o: Opens.OpenMessage)
    returns (v: nat)
    requires IsRun(ends, asn, run) && k < |run.worlds| && i < |run.worlds[k].tasks|
    requires run.worlds[k].tasks[i] == OpenTake(o)
    ensures v < k && Runs(run, v, i, OpenCheck(o)) && ValidOpen(run.worlds[v].nb.session, o)
  {
    hide Block, After, ValidOpen;
    var w, step := run.worlds[k - 1], run.steps[k - 1];
    TasksAfter(ends, w, step, i);
    if i < |w.tasks| && w.tasks[i] == OpenTake(o) {
      v := OpenWasChecked(ends, asn, run, k - 1, i, o);
    } else {
      v := k - 1;
      Entries(ends, w.nb, w.tasks[i], step.c);
    }
  }

  /** A task at work in the record: it has registered its channel and not left yet. */
  predicate AtWork(pc: Pc) {
    !(pc.Dial? || pc.Dialing? || pc.Incoming? || pc.Admitted? || pc.Enter? || pc.Gone?)
  }

  /** Registering a channel and taking it away is all that ever happens to it. */
  lemma ChannelAfter(ends: Ends, nb: Record, pc: Pc, c: Choice)
    ensures Block(ends, nb, pc, c).nb.session.tx == (pc.Enter? || (nb.session.tx && !pc.Leave?))
  {
    hide PartsOf, RouteFrom, EventOf, AdjAdd, AdjWithdraw, Opens.Understand, Dispatched;
  }

  predicate HasChannel(s: Session) {
    s.state == Established ==> s.tx
  }

  /** One block: an established neighbour has lost its channel exactly when the block confirmed on a
      record without one. */
  lemma BlockKeepsChannelIff(ends: Ends, nb: Record, pc: Pc, c: Choice)
    requires HasChannel(nb.session)
    ensures HasChannel(Block(ends, nb, pc, c).nb.session) <==> !(pc.Confirm? && !nb.session.tx)
  {
    hide PartsOf, RouteFrom, EventOf, AdjAdd, AdjWithdraw, Opens.Understand, Dispatched;
  }

  /** Some task confirms on a record without a channel. */
  ghost predicate ConfirmsWithoutChannel(run: Run, k: nat, i: nat) {
    Runs(run, k, i, Confirm) && !run.worlds[k].nb.session.tx
  }

  lemma {:induction false} ChannelKept(ends: Ends, asn: U16, run: Run, k: nat)
    requires IsRun(ends, asn, run) && k < |run.worlds|
    requires forall l, i :: 0 <= l < k ==> !ConfirmsWithoutChannel(run, l, i)
    ensures HasChannel(run.worlds[k].nb.session)
  {
    hide Block;
    if k > 0 {
      ChannelKept(ends, asn, run, k - 1);
      var w, step := run.worlds[k - 1], run.steps[k - 1];
      if step.Do? && step.i < |w.tasks| {
        BlockKeepsChannelIff(ends, w.nb, w.tasks[step.i], step.c);
        assert !ConfirmsWithoutChannel(run, k - 1, step.i);
      }
    }
  }

  /** In every world of a run an established neighbour has its channel, exactly when no task of the
      run confirms on a record without one. */
  lemma EstablishedHasChannelIff(ends: Ends, asn: U16, run: Run)
    requires IsRun(ends, asn, run)
    ensures (forall k | 0 <= k < |run.worlds| :: HasChannel(run.worlds[k].nb.session)) <==>
            (forall k, i :: 0 <= k < |run.steps| ==> !ConfirmsWithoutChannel(run, k, i))
  {
    hide HasChannel, ConfirmsWithoutChannel, After;
    if forall k, i :: 0 <= k < |run.steps| ==> !ConfirmsWithoutChannel(run, k, i) {
      forall k | 0 <= k < |run.worlds|
        ensures HasChannel(run.worlds[k].nb.session)
      {
        ChannelKept(ends, asn, run, k);
      }
    } else {
      var k, i :| 0 <= k < |run.steps| && ConfirmsWithoutChannel(run, k, i);
      ConfirmedWithout(ends, asn, run, k, i);
    }
  }

  lemma ConfirmedWithout(ends: Ends, asn: U16, run: Run, k: nat, i: nat)
    requires IsRun(ends, asn, run) && k < |run.steps| && ConfirmsWithoutChannel(run, k, i)
    ensures !HasChannel(run.worlds[k + 1].nb.session)
  {
  }

  /** Step `k` is some task's block at `Enter`, or at `Leave`. */
  ghost predicate Enters(run: Run, k: nat) {
    exists i :: Runs(run, k, i, Enter)
  }

  ghost predicate Leaves(run: Run, k: nat, i: nat) {
    Runs(run, k, i, Leave)
  }

  ghost predicate NoneEnters(run: Run, from: nat, to: nat) {
    forall x | from <= x < to :: !Enters(run, x)
  }

  /** A task leaves, and none enters from then on. */
  ghost predicate LeftBetween(run: Run, from: nat, to: nat) {
    exists l, j :: from <= l < to && Leaves(run, l, j) && NoneEnters(run, l + 1, to)
  }

  lemma ChannelStep(ends: Ends, asn: U16, run: Run, k: nat)
    requires IsRun(ends, asn, run) && k < |run.steps|
    ensures run.worlds[k + 1].nb.session.tx <==>
            Enters(run, k) || (run.worlds[k].nb.session.tx && !exists j :: Leaves(run, k, j))
  {
    hide Block;
    var w, step := run.worlds[k], run.steps[k];
    if step.Do? && step.i < |w.tasks| {
      ChannelAfter(ends, w.nb, w.tasks[step.i], step.c);
      assert w.tasks[step.i].Enter? ==> Runs(run, k, step.i, Enter);
      assert w.tasks[step.i].Leave? ==> Leaves(run, k, step.i);
    }
  }

  /** A channel that was there is gone exactly when a task left since and none entered after it. */
  lemma {:induction false} ChannelGoneIff(ends: Ends, asn: U16, run: Run, from: nat, k: nat)
    requires IsRun(ends, asn, run) && from <= k < |run.worlds| && run.worlds[from].nb.session.tx
    ensures !run.worlds[k].nb.session.tx <==> LeftBetween(run, from, k)
    decreases k
  {
    hide After, Enters, Leaves;
    if from < k {
      ChannelGoneIff(ends, asn, run, from, k - 1);
      ChannelStep(ends, asn, run, k - 1);
      if LeftBetween(run, from, k) {
        var l, j :| from <= l < k && Leaves(run, l, j) && NoneEnters(run, l + 1, k);
        if l < k - 1 {
          assert NoneEnters(run, l + 1, k - 1);
          assert !Enters(run, k - 1);
        } else {
          OneBlockAtATime(run, l, j);
        }
      }
      if !run.worlds[k].nb.session.tx {
        if run.worlds[k - 1].nb.session.tx {
          var j :| Leaves(run, k - 1, j);
          assert NoneEnters(run, k, k);
        } else {
          var l, j :| from <= l < k - 1 && Leaves(run, l, j) && NoneEnters(run, l + 1, k - 1);
          assert NoneEnters(run, l + 1, k);
        }
        assert LeftBetween(run, from, k);
      }
    }
  }

  lemma OneBlockAtATime(run: Run, k: nat, j: nat)
    requires Leaves(run, k, j)
    ensures !Enters(run, k)
  {
  }

  /** A task at work has entered before. */
  lemma {:induction false} WorkerEntered(ends: Ends, asn: U16, run: Run, k: nat, i: nat) returns (e: nat)
    requires IsRun(ends, asn, run) && k < |run.worlds| && i < |run.worlds[k].tasks| && AtWork(run.worlds[k].tasks[i])
    ensures e < k && Runs(run, e, i, Enter)
  {
    hide Block, After;
    var w, step := run.worlds[k - 1], run.steps[k - 1];
    TasksAfter(ends, w, step, i);
    if i < |w.tasks| && AtWork(w.tasks[i]) {
      e := WorkerEntered(ends, asn, run, k - 1, i);
    } else {
      e := k - 1;
      WorkStarts(ends, w.nb, w.tasks[i], step.c);
    }
  }

  lemma WorkStarts(ends: Ends, nb: Record, pc: Pc, c: Choice)
    requires AtWork(Block(ends, nb, pc, c).next)
    ensures AtWork(pc) || pc.Enter?
    ensures !pc.Leave?
  {
    hide PartsOf, RouteFrom, EventOf, AdjAdd, AdjWithdraw, Opens.Understand, Dispatched;
  }

  /** A task that left is gone for good. */
  lemma {:induction false} GoneStays(ends: Ends, asn: U16, run: Run, l: nat, k: nat, i: nat)
    requires IsRun(ends, asn, run) && l < k < |run.worlds| && Leaves(run, l, i)
    ensures i < |run.worlds[k].tasks| && run.worlds[k].tasks[i] == Gone
    decreases k
  {
    if l < k - 1 {
      GoneStays(ends, asn, run, l, k - 1, i);
    }
  }

  /** Another task leaves, and none enters from then on. */
  ghost predicate OtherLeftBetween(run: Run, from: nat, to: nat, i: nat) {
    exists l, j :: from <= l < to && j != i && Leaves(run, l, j) && NoneEnters(run, l + 1, to)
  }

  lemma OthersLeave(ends: Ends, asn: U16, run: Run, from: nat, k: nat, i: nat)
    requires IsRun(ends, asn, run) && from <= k && Runs(run, k, i, Confirm)
    ensures LeftBetween(run, from, k) <==> OtherLeftBetween(run, from, k, i)
  {
    hide After, Leaves, NoneEnters;
    if LeftBetween(run, from, k) {
      var l, j :| from <= l < k && Leaves(run, l, j) && NoneEnters(run, l + 1, k);
      if j == i {
        GoneStays(ends, asn, run, l, k, i);
        assert false;
      }
    }
  }

  /** Step `a` takes over an OPEN although the channel was taken away meanwhile. */
  ghost predicate TakesOpenWithoutChannel(run: Run, asn: U16, a: nat) {
    TakesOpen(run, asn, a) && !run.worlds[a].nb.session.tx
  }

  /** OpenConfirm without a channel comes from an OPEN taken over without one. */
  lemma {:induction false} OpenConfirmWithoutChannel(ends: Ends, asn: U16, run: Run, k: nat) returns (a: nat)
    requires IsRun(ends, asn, run) && k < |run.worlds|
    requires run.worlds[k].nb.session.state == OpenConfirm && !run.worlds[k].nb.session.tx
    ensures a < k && TakesOpenWithoutChannel(run, asn, a)
  {
    hide Block, Safe;
    var w, step := run.worlds[k - 1], run.steps[k - 1];
    if w.nb.session.state == OpenConfirm && !w.nb.session.tx {
      a := OpenConfirmWithoutChannel(ends, asn, run, k - 1);
    } else {
      a := k - 1;
      OpenConfirmStarts(ends, w.nb, w.tasks[step.i], step.c);
      RunIsSafe(ends, asn, run, k - 1);
      TaskIsGood(asn, w, step.i);
    }
  }

  lemma OpenConfirmStarts(ends: Ends, nb: Record, pc: Pc, c: Choice)
    requires var s := Block(ends, nb, pc, c).nb.session; s.state == OpenConfirm && !s.tx
    ensures !nb.session.tx && (nb.session.state == OpenConfirm || pc.OpenTake?)
  {
    hide PartsOf, RouteFrom, EventOf, AdjAdd, AdjWithdraw, Opens.Understand, Dispatched;
  }

  /** When a confirming task meets a record without a channel: exactly when, after it entered itself,
      another task left and none entered from then on. */
  lemma ConfirmMeetsNoChannelIff(ends: Ends, asn: U16, run: Run, k: nat, i: nat) returns (e: nat)
    requires IsRun(ends, asn, run) && Runs(run, k, i, Confirm)
    ensures e < k && Runs(run, e, i, Enter)
    ensures ConfirmsWithoutChannel(run, k, i) <==> OtherLeftBetween(run, e + 1, k, i)
  {
    hide After, OtherLeftBetween, LeftBetween;
    e := WorkerEntered(ends, asn, run, k, i);
    ChannelStep(ends, asn, run, e);
    assert Enters(run, e);
    ChannelGoneIff(ends, asn, run, e + 1, k);
    OthersLeave(ends, asn, run, e + 1, k, i);
  }

  /** Told from the keepalive's dispatch: if the channel was there then, exactly when another task left
      since; if not, an OPEN was taken over without a channel before. */
  lemma ConfirmAfterDispatchIff(ends: Ends, asn: U16, run: Run, k: nat, i: nat) returns (b: nat)
    requires IsRun(ends, asn, run) && Runs(run, k, i, Confirm)
    ensures b < k && DispatchesKeepalive(run, b, i)
    ensures run.worlds[b].nb.session.tx ==>
              (ConfirmsWithoutChannel(run, k, i) <==> OtherLeftBetween(run, b, k, i))
    ensures !run.worlds[b].nb.session.tx ==> exists a :: 0 <= a < b && TakesOpenWithoutChannel(run, asn, a)
  {
    hide After, OtherLeftBetween, LeftBetween, TakesOpenWithoutChannel;
    b := ConfirmHasCause(ends, asn, run, k, i);
    if run.worlds[b].nb.session.tx {
      ChannelGoneIff(ends, asn, run, b, k);
      OthersLeave(ends, asn, run, b, k, i);
    } else {
      var a := OpenConfirmWithoutChannel(ends, asn, run, b);
    }
  }

  function Exec(ends: Ends, w: World, steps: seq<Step>): World
    decreases |steps|
  {
    if steps == [] then w else Exec(ends, After(ends, w, steps[0]), steps[1..])
  }

  /** Steps taken from the end of a run make a longer run. */
  lemma {:induction false} Extended(ends: Ends, asn: U16, run: Run, steps: seq<Step>) returns (longer: Run)
    requires IsRun(ends, asn, run)
    ensures IsRun(ends, asn, longer) && longer.worlds != []
    ensures longer.worlds[|longer.worlds| - 1] == Exec(ends, run.worlds[|run.worlds| - 1], steps)
    decreases |steps|
  {
    hide After;
    longer := run;
    if steps != [] {
      var w := After(ends, run.worlds[|run.worlds| - 1], steps[0]);
      var one := Run(run.worlds + [w], run.steps + [steps[0]]);
      longer := Extended(ends, asn, one, steps[1..]);
    }
  }

  /** The neighbour while two tasks work on it that both serve connections from the peer. */
  function TwoTasks(
    asn: U16, state: BGPState, tx: bool, o: Option<Opens.OpenMessage>, one: Pc, two: Pc): World
  {
    World(Record(SessionOf(asn, state, tx, o), false, []), [Dial, Gone, one, Gone, two])
  }

  /** Two connections of one peer, the second let in before the task of the first has begun. */
  lemma BothLetIn(ends: Ends, asn: U16)
    ensures Exec(ends, Initial(asn), [Arrive, Do(1, Yes), Do(1, Yes), Arrive, Do(3, Yes), Do(3, Yes)]) ==
            TwoTasks(asn, Active, false, None, Enter, Enter)
  {
    var w := Exec(ends, Initial(asn), [Arrive, Do(1, Yes), Do(1, Yes), Arrive, Do(3, Yes), Do(3, Yes)]);
    assert w.tasks == [Dial, Gone, Enter, Gone, Enter];
  }

  lemma BothOpen(ends: Ends, asn: U16)
    ensures Exec(ends, TwoTasks(asn, Active, false, None, Enter, Enter),
                 [Do(2, Yes), Do(4, Yes), Do(2, Yes), Do(4, Yes), Do(2, Yes), Do(4, Yes)]) ==
            TwoTasks(asn, OpenSent, true, None, Loop, Loop)
  {
  }

  lemma OneHearsOpen(ends: Ends, asn: U16, o: Opens.OpenMessage)
    ensures Exec(ends, TwoTasks(asn, OpenSent, true, None, Loop, Loop),
                 [Do(2, Received(OpenBody(o))), Do(2, Yes), Do(2, Yes), Do(2, No)]) ==
            TwoTasks(asn, OpenSent, true, None, OpenCheck(o), Loop)
  {
    var look := TwoTasks(asn, OpenSent, true, None, LookForMessage(OpenBody(o)), Loop);
    var start := TwoTasks(asn, OpenSent, true, None, OpenStart(o), Loop);
    var collision := TwoTasks(asn, OpenSent, true, None, OpenCollision(o), Loop);
    assert After(ends, TwoTasks(asn, OpenSent, true, None, Loop, Loop), Do(2, Received(OpenBody(o)))) == look;
    assert After(ends, look, Do(2, Yes)) == start;
    assert After(ends, start, Do(2, Yes)) == collision;
    assert After(ends, collision, Do(2, No)) == TwoTasks(asn, OpenSent, true, None, OpenCheck(o), Loop);
    assert [Do(2, Received(OpenBody(o))), Do(2, Yes), Do(2, Yes), Do(2, No)][1..] == [Do(2, Yes), Do(2, Yes), Do(2, No)];
    assert Exec(ends, look, [Do(2, Yes), Do(2, Yes), Do(2, No)]) ==
           TwoTasks(asn, OpenSent, true, None, OpenCheck(o), Loop);
  }

  lemma OneConfirms(ends: Ends, asn: U16, o: Opens.OpenMessage)
    requires o.asn == asn && Opens.Understand(o.optParams.params).Ok?
    ensures Exec(ends, TwoTasks(asn, OpenSent, true, None, OpenCheck(o), Loop), [Do(2, Yes), Do(2, Yes), Do(2, Yes)]) ==
            TwoTasks(asn, OpenConfirm, true, Some(o), Loop, Loop)
  {
    hide Opens.Understand;
    var w := TwoTasks(asn, OpenSent, true, None, OpenCheck(o), Loop);
    assert After(ends, w, Do(2, Yes)) == TwoTasks(asn, OpenSent, true, None, OpenTake(o), Loop);
    var taken := TwoTasks(asn, OpenConfirm, true, Some(o), OpenEnd, Loop);
    assert After(ends, TwoTasks(asn, OpenSent, true, None, OpenTake(o), Loop), Do(2, Yes)) == taken;
    assert After(ends, taken, Do(2, Yes)) == TwoTasks(asn, OpenConfirm, true, Some(o), Loop, Loop);
  }

  lemma OneHearsKeepalive(ends: Ends, asn: U16, o: Opens.OpenMessage)
    ensures Exec(ends, TwoTasks(asn, OpenConfirm, true, Some(o), Loop, Loop),
                 [Do(2, Received(KeepaliveBody)), Do(2, Yes), Do(2, Yes)]) ==
            TwoTasks(asn, OpenConfirm, true, Some(o), Confirm, Loop)
  {
  }

  lemma OtherLeaves(ends: Ends, asn: U16, o: Opens.OpenMessage, c: Choice)
    ensures Exec(ends, TwoTasks(asn, OpenConfirm, true, Some(o), Confirm, Loop), [Do(4, No), Do(4, Yes), Do(2, c)]) ==
            TwoTasks(asn, Established, false, Some(o), if c == Yes then Loop else Gone, Gone)
  {
    LeaveBlocks(ends, asn, o, c);
    hide After;
    var leaves := TwoTasks(asn, OpenConfirm, true, Some(o), Confirm, Leave);
    var left := TwoTasks(asn, Idle, false, Some(o), Confirm, Gone);
    assert [Do(4, No), Do(4, Yes), Do(2, c)][1..] == [Do(4, Yes), Do(2, c)];
    assert Exec(ends, left, [Do(2, c)]) == After(ends, left, Do(2, c));
    assert Exec(ends, leaves, [Do(4, Yes), Do(2, c)]) == After(ends, left, Do(2, c));
  }

  lemma LeaveBlocks(ends: Ends, asn: U16, o: Opens.OpenMessage, c: Choice)
    ensures var before := TwoTasks(asn, OpenConfirm, true, Some(o), Confirm, Loop);
            var leaves := TwoTasks(asn, OpenConfirm, true, Some(o), Confirm, Leave);
            var left := TwoTasks(asn, Idle, false, Some(o), Confirm, Gone);
            && After(ends, before, Do(4, No)) == leaves && After(ends, leaves, Do(4, Yes)) == left
            && After(ends, left, Do(2, c)) ==
               TwoTasks(asn, Established, false, Some(o), if c == Yes then Loop else Gone, Gone)
  {
    hide HeardFrom;
  }

  /** The gap between reading the state and acting on it is real: a run ends in Established although
      the other connection had just put the neighbour back to Idle and taken its channel away, whether
      the sending of the tables then misses the channel (`c`) or there is none to send. */
  lemma EstablishedWithoutChannel(ends: Ends, asn: U16, o: Opens.OpenMessage, c: Choice) returns (run: Run)
    requires o.asn == asn && Opens.Understand(o.optParams.params).Ok?
    ensures IsRun(ends, asn, run)
    ensures var s := run.worlds[|run.worlds| - 1].nb.session; s.state == Established && !s.tx
  {
    hide IsRun, Exec, Opens.Understand;
    run := AtFirst(ends, asn);
    BothLetIn(ends, asn);
    run := Extended(ends, asn, run, [Arrive, Do(1, Yes), Do(1, Yes), Arrive, Do(3, Yes), Do(3, Yes)]);
    BothOpen(ends, asn);
    run := Extended(ends, asn, run, [Do(2, Yes), Do(4, Yes), Do(2, Yes), Do(4, Yes), Do(2, Yes), Do(4, Yes)]);
    OneHearsOpen(ends, asn, o);
    run := Extended(ends, asn, run, [Do(2, Received(OpenBody(o))), Do(2, Yes), Do(2, Yes), Do(2, No)]);
    OneConfirms(ends, asn, o);
    run := Extended(ends, asn, run, [Do(2, Yes), Do(2, Yes), Do(2, Yes)]);
    OneHearsKeepalive(ends, asn, o);
    run := Extended(ends, asn, run, [Do(2, Received(KeepaliveBody)), Do(2, Yes), Do(2, Yes)]);
    OtherLeaves(ends, asn, o, c);
    run := Extended(ends, asn, run, [Do(4, No), Do(4, Yes), Do(2, c)]);
  }

  lemma AtFirst(ends: Ends, asn: U16) returns (run: Run)
    ensures IsRun(ends, asn, run) && run.worlds != [] && run.worlds[|run.worlds| - 1] == Initial(asn)
  {
    run := Run([Initial(asn)], []);
  }

  ghost predicate Reaches(ends: Ends, asn: U16, run: Run, w: World) {
    IsRun(ends, asn, run) && run.worlds != [] && run.worlds[|run.worlds| - 1] == w
  }

  lemma Then(ends: Ends, asn: U16, run: Run, w: World, step: Step, w': World) returns (longer: Run)
    requires Reaches(ends, asn, run, w) && After(ends, w, step) == w'
    ensures Reaches(ends, asn, longer, w')
  {
    hide After;
    longer := Run(run.worlds + [w'], run.steps + [step]);
  }

  /** The neighbour with its channels, and three tasks: the third serves the connection it made itself. */
  function Trio(
    asn: U16, state: BGPState, tx: bool, o: Option<Opens.OpenMessage>, one: Pc, two: Pc, three: Pc): World
  {
    World(Record(SessionOf(asn, state, tx, o), true, []), [Gone, Gone, one, Gone, two, three])
  }

  lemma TwoAtWork(ends: Ends, asn: U16) returns (run: Run)
    ensures Reaches(ends, asn, run, TwoTasks(asn, OpenSent, true, None, Loop, Loop))
  {
    hide IsRun, After, Exec;
    run := AtFirst(ends, asn);
    BothLetIn(ends, asn);
    run := Extended(ends, asn, run, [Arrive, Do(1, Yes), Do(1, Yes), Arrive, Do(3, Yes), Do(3, Yes)]);
    BothOpen(ends, asn);
    run := Extended(ends, asn, run, [Do(2, Yes), Do(4, Yes), Do(2, Yes), Do(4, Yes), Do(2, Yes), Do(4, Yes)]);
  }

  lemma ThreeAtWork(ends: Ends, asn: U16) returns (run: Run)
    ensures Reaches(ends, asn, run, Trio(asn, OpenSent, true, None, Loop, Loop, Loop))
  {
    hide Reaches;
    run := TwoAtWork(ends, asn);
    var s := SessionOf(asn, OpenSent, true, None);
    var dialing := World(Record(s, true, []), [Dialing, Gone, Loop, Gone, Loop]);
    run := Then(ends, asn, run, TwoTasks(asn, OpenSent, true, None, Loop, Loop), Do(0, Yes), dialing);
    var entered := Trio(asn, Connect, true, None, Loop, Loop, Enter);
    run := Then(ends, asn, run, dialing, Do(0, Yes), entered);
    var looks := Trio(asn, Connect, true, None, Loop, Loop, LookForEvent(TcpConnectionValid, true));
    run := Then(ends, asn, run, entered, Do(5, Yes), looks);
    var sends := Trio(asn, Connect, true, None, Loop, Loop, SendingOpen(true));
    run := Then(ends, asn, run, looks, Do(5, Yes), sends);
    run := Then(ends, asn, run, sends, Do(5, Yes), Trio(asn, OpenSent, true, None, Loop, Loop, Loop));
  }

  /** One connection's OPEN is checked. */
  lemma FirstChecks(ends: Ends, asn: U16, o: Opens.OpenMessage) returns (run: Run)
    requires o.asn == asn
    ensures Reaches(ends, asn, run, Trio(asn, OpenSent, true, None, OpenTake(o), Loop, Loop))
  {
    hide Reaches;
    run := ThreeAtWork(ends, asn);
    var n := Trio(asn, OpenSent, true, None, Loop, Loop, Loop);
    var w := Trio(asn, OpenSent, true, None, LookForMessage(OpenBody(o)), Loop, Loop);
    run := Then(ends, asn, run, n, Do(2, Received(OpenBody(o))), w);
    n, w := w, Trio(asn, OpenSent, true, None, OpenStart(o), Loop, Loop);
    run := Then(ends, asn, run, n, Do(2, Yes), w);
    n, w := w, Trio(asn, OpenSent, true, None, OpenCollision(o), Loop, Loop);
    run := Then(ends, asn, run, n, Do(2, Yes), w);
    n, w := w, Trio(asn, OpenSent, true, None, OpenCheck(o), Loop, Loop);
    run := Then(ends, asn, run, n, Do(2, No), w);
    n, w := w, Trio(asn, OpenSent, true, None, OpenTake(o), Loop, Loop);
    run := Then(ends, asn, run, n, Do(2, Yes), w);
  }

  /** The other way to confirm without a channel: it is taken away before the OPEN is taken over, and a
      third connection's KEEPALIVE finds OpenConfirm without one. */
  lemma KeepaliveWithoutChannel(ends: Ends, asn: U16, o: Opens.OpenMessage) returns (run: Run)
    requires o.asn == asn && Opens.Understand(o.optParams.params).Ok?
    ensures IsRun(ends, asn, run) && |run.steps| >= 3
    ensures DispatchesKeepalive(run, |run.steps| - 3, 5) && !run.worlds[|run.steps| - 3].nb.session.tx
    ensures ConfirmsWithoutChannel(run, |run.steps| - 1, 5)
  {
    hide Reaches, Opens.Understand;
    run := FirstChecks(ends, asn, o);
    var n := Trio(asn, OpenSent, true, None, OpenTake(o), Loop, Loop);
    var w := Trio(asn, OpenSent, true, None, OpenTake(o), Leave, Loop);
    run := Then(ends, asn, run, n, Do(4, No), w);
    n, w := w, Trio(asn, Idle, false, None, OpenTake(o), Gone, Loop);
    run := Then(ends, asn, run, n, Do(4, Yes), w);
    n, w := w, Trio(asn, OpenConfirm, false, Some(o), OpenEnd, Gone, Loop);
    run := Then(ends, asn, run, n, Do(2, Yes), w);
    n, w := w, Trio(asn, OpenConfirm, false, Some(o), OpenEnd, Gone, LookForMessage(KeepaliveBody));
    run := Then(ends, asn, run, n, Do(5, Received(KeepaliveBody)), w);
    run := KeepaliveEnds(ends, asn, run, o);
  }

  lemma KeepaliveBlocks(ends: Ends, asn: U16, o: Opens.OpenMessage)
    ensures var w := Trio(asn, OpenConfirm, false, Some(o), OpenEnd, Gone, LookForMessage(KeepaliveBody));
            var a := Trio(asn, OpenConfirm, false, Some(o), OpenEnd, Gone, KeepaliveReset);
            var b := Trio(asn, OpenConfirm, false, Some(o), OpenEnd, Gone, Confirm);
            && After(ends, w, Do(5, Yes)) == a && After(ends, a, Do(5, Yes)) == b
            && After(ends, b, Do(5, Yes)) == Trio(asn, Established, false, Some(o), OpenEnd, Gone, Loop)
  {
    hide HeardFrom;
  }

  lemma KeepaliveEnds(ends: Ends, asn: U16, run: Run, o: Opens.OpenMessage) returns (longer: Run)
    requires Reaches(ends, asn, run,
                     Trio(asn, OpenConfirm, false, Some(o), OpenEnd, Gone, LookForMessage(KeepaliveBody)))
    ensures IsRun(ends, asn, longer) && |longer.steps| >= 3
    ensures DispatchesKeepalive(longer, |longer.steps| - 3, 5) && !longer.worlds[|longer.steps| - 3].nb.session.tx
    ensures ConfirmsWithoutChannel(longer, |longer.steps| - 1, 5)
  {
    KeepaliveBlocks(ends, asn, o);
    hide After;
    var a := Trio(asn, OpenConfirm, false, Some(o), OpenEnd, Gone, KeepaliveReset);
    var b := Trio(asn, OpenConfirm, false, Some(o), OpenEnd, Gone, Confirm);
    var c := Trio(asn, Established, false, Some(o), OpenEnd, Gone, Loop);
    longer := Run(run.worlds + [a, b, c], run.steps + [Do(5, Yes), Do(5, Yes), Do(5, Yes)]);
    var k := |run.steps|;
    assert longer.worlds[k] == run.worlds[k] && longer.worlds[k + 1] == a;
    assert longer.worlds[k + 2] == b && longer.worlds[k + 3] == c;
  }
}
