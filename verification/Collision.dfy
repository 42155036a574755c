/** Any number of neighbours, each worked on by any number of connection tasks, with the collision
    check going through the neighbours block by block: it holds one neighbour's lock at a time, so
    what it saw of one neighbour may be stale when it has seen the last
    (src/neighbor/message_handler.rs:70-99, 351-433; section 6.8 of RFC 4271). */
module Collisions {
  import opened Basics
  import opened Bytes
  import opened Sessions
  import opened Messages
  import opened Fsms
  import Opens

  /** A connection task of neighbour `nb`; `scanned` counts the neighbours its check has passed. */
  datatype Task = Task(nb: nat, pc: Pc, scanned: nat)

  datatype Town = Town(nbs: seq<Record>, tasks: seq<Task>)

  /** A connection from the address of a neighbour arrives, or task `i` runs its next block. */
  datatype Act = Knock(nb: nat) | Move(i: nat, c: Choice)

  /** One block of the check, or one of the blocks that look at the task's own neighbour alone. */
  function Moved(ends: seq<Ends>, w: Town, i: nat, c: Choice): Town
    requires i < |w.tasks| && w.tasks[i].nb < |w.nbs| == |ends|
  {
    var t := w.tasks[i];
    if t.pc.OpenCollision? then
      if t.scanned == |w.nbs| then w.(tasks := w.tasks[i := Task(t.nb, OpenCheck(t.pc.o), 0)])
      else if t.scanned < |w.nbs| && Clashes(w.nbs[t.scanned].session, t.pc.o.routerId)
      then w.(tasks := w.tasks[i := Task(t.nb, Loop, 0)])
      else w.(tasks := w.tasks[i := t.(scanned := t.scanned + 1)])
    else
      var r := Block(ends[t.nb], w.nbs[t.nb], t.pc, c);
      Town(w.nbs[t.nb := r.nb], w.tasks[i := Task(t.nb, r.next, 0)] + if r.spawned then [Task(t.nb, Enter, 0)] else [])
  }

  function After(ends: seq<Ends>, w: Town, act: Act): Town
    requires |w.nbs| == |ends|
  {
    match act
    case Knock(n) => if n < |w.nbs| then w.(tasks := w.tasks + [Task(n, Incoming, 0)]) else w
    case Move(i, c) => if i < |w.tasks| && w.tasks[i].nb < |w.nbs| then Moved(ends, w, i, c) else w
  }

  function Initial(asns: seq<U16>): Town {
    Town(seq(|asns|, k requires 0 <= k < |asns| => Fsms.Initial(asns[k]).nb),
         seq(|asns|, k requires 0 <= k < |asns| => Task(k, Dial, 0)))
  }

  datatype Run = Run(towns: seq<Town>, acts: seq<Act>)

  ghost predicate IsRun(ends: seq<Ends>, asns: seq<U16>, run: Run) {
    && |run.towns| == |run.acts| + 1 && |ends| == |asns|
    && run.towns[0] == Initial(asns)
    && (forall k | 0 <= k < |run.towns| :: |run.towns[k].nbs| == |ends|)
    && forall k | 0 <= k < |run.acts| :: run.towns[k + 1] == After(ends, run.towns[k], run.acts[k])
  }

  /** Act `k` is the block of a task `i` that stands at `t`. */
  ghost predicate Runs(run: Run, k: nat, i: nat, t: Task) {
    && k < |run.acts| && k < |run.towns| && run.acts[k].Move? && run.acts[k].i == i
    && i < |run.towns[k].tasks| && run.towns[k].tasks[i] == t && t.nb < |run.towns[k].nbs|
  }

  /** The blocks that set the state of their neighbour. */
  predicate SetsState(pc: Pc, c: Choice) {
    || pc.Dialing? || pc.Admitted? || (pc.SendingOpen? && c == Yes) || pc.Restart? || pc.OpenTake? || pc.Confirm?
    || pc.NotificationEnd? || pc.Leave?
  }

  lemma StateAfter(ends: Ends, nb: Record, pc: Pc, c: Choice)
    ensures var s := Block(ends, nb, pc, c).nb.session;
            && (!SetsState(pc, c) ==> s.state == nb.session.state && s.rid == nb.session.rid)
            && (pc.OpenTake? ==> s.state == OpenConfirm && s.rid == Some(pc.o.routerId))
            && (SetsState(pc, c) && !pc.OpenTake? ==> s.state != OpenConfirm)
  {
    hide PartsOf, RouteFrom, EventOf, AdjAdd, AdjWithdraw, Opens.Understand, Dispatched;
  }

  /** Neighbour `q` is in OpenConfirm with the router id. */
  ghost predicate Holds(w: Town, q: nat, rid: U32) {
    q < |w.nbs| && w.nbs[q].session.state == OpenConfirm && w.nbs[q].session.rid == Some(rid)
  }

  /** Act `k` sets the state of neighbour `q`. */
  ghost predicate Sets(run: Run, k: nat, q: nat) {
    exists i, t :: Runs(run, k, i, t) && t.nb == q && SetsState(t.pc, run.acts[k].c)
  }

  /** Act `k` takes over an OPEN with the router id for neighbour `q`. */
  ghost predicate TakesRid(run: Run, k: nat, q: nat, rid: U32) {
    exists i, t :: Runs(run, k, i, t) && t.nb == q && t.pc.OpenTake? && t.pc.o.routerId == rid
  }

  ghost predicate Quiet(run: Run, from: nat, to: nat, q: nat) {
    forall x | from <= x < to :: !Sets(run, x, q)
  }

  /** One act, told of one neighbour. */
  lemma ActOn(ends: seq<Ends>, asns: seq<U16>, run: Run, k: nat, q: nat, rid: U32)
    requires IsRun(ends, asns, run) && k < |run.acts| && q < |ends|
    ensures Holds(run.towns[k + 1], q, rid) <==>
            TakesRid(run, k, q, rid) || (Holds(run.towns[k], q, rid) && !Sets(run, k, q))
  {
    hide Block, SetsState;
    var w, act := run.towns[k], run.acts[k];
    if act.Move? && act.i < |w.tasks| && w.tasks[act.i].nb < |w.nbs| {
      var t := w.tasks[act.i];
      assert Runs(run, k, act.i, t);
      StateAfter(ends[t.nb], w.nbs[t.nb], t.pc, act.c);
      SettersAreBlocks(t.pc, act.c);
    }
  }

  lemma SettersAreBlocks(pc: Pc, c: Choice)
    ensures pc.OpenTake? ==> SetsState(pc, c)
    ensures pc.OpenCollision? ==> !SetsState(pc, c)
  {
  }

  /** An OPEN with the router id was taken over since, and the state not set any more. */
  ghost predicate TakenSince(run: Run, from: nat, to: nat, q: nat, rid: U32) {
    exists l :: from <= l < to && TakesRid(run, l, q, rid) && Quiet(run, l + 1, to, q)
  }

  lemma {:induction false} HoldsIff(ends: seq<Ends>, asns: seq<U16>, run: Run, from: nat, k: nat, q: nat, rid: U32)
    requires IsRun(ends, asns, run) && from <= k < |run.towns| && q < |ends|
    ensures Holds(run.towns[k], q, rid) <==>
            TakenSince(run, from, k, q, rid) || (Holds(run.towns[from], q, rid) && Quiet(run, from, k, q))
    decreases k
  {
    hide IsRun, Holds, Sets, TakesRid;
    if from < k {
      RunShape(ends, asns, run);
      HoldsIff(ends, asns, run, from, k - 1, q, rid);
      ActOn(ends, asns, run, k - 1, q, rid);
      if TakenSince(run, from, k, q, rid) {
        var l :| from <= l < k && TakesRid(run, l, q, rid) && Quiet(run, l + 1, k, q);
        if l < k - 1 {
          assert Quiet(run, l + 1, k - 1, q) && !Sets(run, k - 1, q);
        }
      }
      if Holds(run.towns[k], q, rid) {
        if TakesRid(run, k - 1, q, rid) {
          assert Quiet(run, k, k, q);
        } else if TakenSince(run, from, k - 1, q, rid) {
          var l :| from <= l < k - 1 && TakesRid(run, l, q, rid) && Quiet(run, l + 1, k - 1, q);
          assert Quiet(run, l + 1, k, q);
        } else {
          assert Quiet(run, from, k, q);
        }
      }
    }
  }

  lemma RunShape(ends: seq<Ends>, asns: seq<U16>, run: Run)
    requires IsRun(ends, asns, run)
    ensures |run.towns| == |run.acts| + 1 && forall k | 0 <= k < |run.towns| :: |run.towns[k].nbs| == |ends|
  {
  }

  /** The task has passed neighbour `q` with this OPEN and not been sent back yet. */
  predicate Passed(t: Task, o: Opens.OpenMessage, q: nat) {
    t.pc == OpenCheck(o) || t.pc == OpenTake(o) || (t.pc == OpenCollision(o) && t.scanned > q)
  }

  /** Act `c` is the block in which the check of task `i` passes neighbour `q`. */
  ghost predicate Passes(run: Run, c: nat, i: nat, q: nat, o: Opens.OpenMessage) {
    && c < |run.towns| && q < |run.towns[c].nbs| && i < |run.towns[c].tasks|
    && Runs(run, c, i, Task(run.towns[c].tasks[i].nb, OpenCollision(o), q))
    && !Clashes(run.towns[c].nbs[q].session, o.routerId)
  }

  ghost predicate StaysPassed(run: Run, from: nat, to: nat, i: nat, q: nat, o: Opens.OpenMessage) {
    forall x | from <= x <= to :: x < |run.towns| && i < |run.towns[x].tasks| && Passed(run.towns[x].tasks[i], o, q)
  }

  lemma NextOfBlock(ends: Ends, nb: Record, pc: Pc, c: Choice, o: Opens.OpenMessage)
    ensures var next := Block(ends, nb, pc, c).next;
            && (next == OpenCheck(o) ==> pc == OpenCollision(o))
            && (next == OpenTake(o) ==> pc == OpenCheck(o))
  {
    hide PartsOf, RouteFrom, EventOf, AdjAdd, AdjWithdraw, Opens.Understand, ValidOpen;
  }

  lemma PassedBefore(ends: seq<Ends>, asns: seq<U16>, run: Run, k: nat, i: nat, q: nat, o: Opens.OpenMessage)
    requires IsRun(ends, asns, run) && k < |run.acts| && q < |ends| && i < |run.towns[k + 1].tasks|
    requires Passed(run.towns[k + 1].tasks[i], o, q)
    ensures i < |run.towns[k].tasks|
    ensures Passed(run.towns[k].tasks[i], o, q) || Passes(run, k, i, q, o)
  {
    hide Block, Clashes;
    var w, act := run.towns[k], run.acts[k];
    if act.Move? && act.i < |w.tasks| && w.tasks[act.i].nb < |w.nbs| {
      var t := w.tasks[act.i];
      NextOfBlock(ends[t.nb], w.nbs[t.nb], t.pc, act.c, o);
    }
  }

  /** A task that takes over an OPEN has passed every neighbour with it. */
  lemma {:induction false} PassedEach(
    ends: seq<Ends>, asns: seq<U16>, run: Run, k: nat, i: nat, q: nat, o: Opens.OpenMessage) returns (c: nat)
    requires IsRun(ends, asns, run) && k < |run.towns| && q < |ends| && i < |run.towns[k].tasks|
    requires Passed(run.towns[k].tasks[i], o, q)
    ensures c < k && Passes(run, c, i, q, o) && StaysPassed(run, c + 1, k, i, q, o)
    decreases k
  {
    hide IsRun, Passed, Passes;
    RunShape(ends, asns, run);
    if k == 0 {
      NoneAtFirst(ends, asns, run, i, q, o);
    }
    PassedBefore(ends, asns, run, k - 1, i, q, o);
    if Passed(run.towns[k - 1].tasks[i], o, q) {
      c := PassedEach(ends, asns, run, k - 1, i, q, o);
    } else {
      c := k - 1;
    }
  }

  lemma NoneAtFirst(ends: seq<Ends>, asns: seq<U16>, run: Run, i: nat, q: nat, o: Opens.OpenMessage)
    requires IsRun(ends, asns, run) && i < |run.towns[0].tasks|
    ensures !Passed(run.towns[0].tasks[i], o, q)
  {
  }

  /** How neighbour `q` can be in OpenConfirm with the router id although the check passed it at `c`:
      since then it took over an OPEN with that router id itself, or it was there already without a
      channel, which the check asks for. */
  ghost predicate SlippedPast(run: Run, c: nat, k: nat, q: nat, rid: U32)
    requires c < |run.towns|
  {
    || TakenSince(run, c, k, q, rid)
    || (Holds(run.towns[c], q, rid) && !run.towns[c].nbs[q].session.tx && Quiet(run, c, k, q))
  }

  /** The exact condition for one OPEN: the router id it brings is already there in OpenConfirm when it
      is taken over, exactly when it slipped past the check. */
  lemma TwinIffSlippedPast(ends: seq<Ends>, asns: seq<U16>, run: Run, k: nat, i: nat, q: nat, t: Task) returns (c: nat)
    requires IsRun(ends, asns, run) && Runs(run, k, i, t) && t.pc.OpenTake? && q < |ends|
    ensures c < k && Passes(run, c, i, q, t.pc.o) && StaysPassed(run, c + 1, k, i, q, t.pc.o)
    ensures Holds(run.towns[k], q, t.pc.o.routerId) <==> SlippedPast(run, c, k, q, t.pc.o.routerId)
  {
    hide IsRun, TakenSince, Quiet, StaysPassed;
    c := PassedEach(ends, asns, run, k, i, q, t.pc.o);
    HoldsIff(ends, asns, run, c, k, q, t.pc.o.routerId);
  }

  /** Two neighbours are in OpenConfirm with one router id. */
  ghost predicate Twins(w: Town, p: nat, q: nat, rid: U32) {
    p != q && Holds(w, p, rid) && Holds(w, q, rid)
  }

  /** Act `k` takes over an OPEN whose router id slipped past the check at another neighbour. */
  ghost predicate TakesTwin(run: Run, k: nat, i: nat, t: Task, q: nat) {
    Runs(run, k, i, t) && t.pc.OpenTake? && q != t.nb &&
    exists c :: 0 <= c < k && Passes(run, c, i, q, t.pc.o) && StaysPassed(run, c + 1, k, i, q, t.pc.o)
                && SlippedPast(run, c, k, q, t.pc.o.routerId)
  }

  /** The OPEN that brings a second neighbour to a router id slipped past its check at the first. */
  lemma SecondTakes(ends: seq<Ends>, asns: seq<U16>, run: Run, k: nat, taker: nat, other: nat, rid: U32)
    returns (i: nat, t: Task)
    requires IsRun(ends, asns, run) && k < |run.acts| && taker != other && other < |ends|
    requires TakesRid(run, k, taker, rid) && Holds(run.towns[k], other, rid)
    ensures TakesTwin(run, k, i, t, other)
  {
    hide IsRun, Holds, Runs, Passes, StaysPassed, SlippedPast;
    i, t :| Runs(run, k, i, t) && t.nb == taker && t.pc.OpenTake? && t.pc.o.routerId == rid;
    var c := TwinIffSlippedPast(ends, asns, run, k, i, other, t);
  }

  /** Of two neighbours one act brings at most one to a router id. */
  lemma WhoTakes(ends: seq<Ends>, asns: seq<U16>, run: Run, k: nat, p: nat, q: nat, rid: U32)
    returns (taker: nat, other: nat)
    requires IsRun(ends, asns, run) && k < |run.acts| && p < |ends| && q < |ends|
    requires Twins(run.towns[k + 1], p, q, rid) && !Twins(run.towns[k], p, q, rid)
    ensures taker != other < |ends| && TakesRid(run, k, taker, rid) && Holds(run.towns[k], other, rid)
  {
    RunShape(ends, asns, run);
    hide IsRun, Holds, Sets, TakesRid;
    ActOn(ends, asns, run, k, p, rid);
    ActOn(ends, asns, run, k, q, rid);
    OneTaker(run, k, p, q, rid);
    other := if Holds(run.towns[k], p, rid) then p else q;
    taker := if Holds(run.towns[k], p, rid) then q else p;
  }

  lemma {:induction false} TwinsHaveCause(
    ends: seq<Ends>, asns: seq<U16>, run: Run, m: nat, p: nat, q: nat, rid: U32)
    returns (k: nat, i: nat, t: Task, other: nat)
    requires IsRun(ends, asns, run) && m < |run.towns| && Twins(run.towns[m], p, q, rid)
    ensures k < m && TakesTwin(run, k, i, t, other)
    decreases m
  {
    RunShape(ends, asns, run);
    NoTwinsAtFirst(ends, asns, run, p, q, rid);
    TwinsShape(run.towns[m], p, q, rid);
    hide IsRun, Twins, TakesTwin, TakesRid, Holds;
    if Twins(run.towns[m - 1], p, q, rid) {
      k, i, t, other := TwinsHaveCause(ends, asns, run, m - 1, p, q, rid);
    } else {
      k := m - 1;
      var taker;
      taker, other := WhoTakes(ends, asns, run, k, p, q, rid);
      i, t := SecondTakes(ends, asns, run, k, taker, other, rid);
    }
  }

  lemma TwinsShape(w: Town, p: nat, q: nat, rid: U32)
    requires Twins(w, p, q, rid)
    ensures p < |w.nbs| && q < |w.nbs|
  {
  }

  lemma NoTwinsAtFirst(ends: seq<Ends>, asns: seq<U16>, run: Run, p: nat, q: nat, rid: U32)
    requires IsRun(ends, asns, run)
    ensures !Twins(run.towns[0], p, q, rid)
  {
  }

  /** One act works on one neighbour. */
  lemma OneTaker(run: Run, k: nat, p: nat, q: nat, rid: U32)
    ensures TakesRid(run, k, p, rid) && TakesRid(run, k, q, rid) ==> p == q
  {
  }

  lemma SlippedHolds(ends: seq<Ends>, asns: seq<U16>, run: Run, c: nat, k: nat, q: nat, rid: U32)
    requires IsRun(ends, asns, run) && c <= k < |run.towns| && q < |ends| && SlippedPast(run, c, k, q, rid)
    ensures Holds(run.towns[k], q, rid)
  {
    HoldsIff(ends, asns, run, c, k, q, rid);
  }

  lemma TwinTaken(ends: seq<Ends>, asns: seq<U16>, run: Run, k: nat, i: nat, t: Task, q: nat) returns (rid: U32)
    requires IsRun(ends, asns, run) && TakesTwin(run, k, i, t, q)
    ensures k + 1 < |run.towns| && Twins(run.towns[k + 1], t.nb, q, rid)
  {
    hide IsRun, TakenSince, Quiet, StaysPassed, Passed;
    RunShape(ends, asns, run);
    rid := t.pc.o.routerId;
    var c :| 0 <= c < k && Passes(run, c, i, q, t.pc.o) && SlippedPast(run, c, k, q, rid);
    SlippedHolds(ends, asns, run, c, k, q, rid);
    assert TakesRid(run, k, t.nb, rid);
    ActOn(ends, asns, run, k, t.nb, rid);
    ActOn(ends, asns, run, k, q, rid);
    OneSetter(run, k, i, t, q);
    assert Holds(run.towns[k], q, rid);
    assert Holds(run.towns[k + 1], q, rid);
    assert Holds(run.towns[k + 1], t.nb, rid);
  }

  lemma OneSetter(run: Run, k: nat, i: nat, t: Task, q: nat)
    requires Runs(run, k, i, t) && q != t.nb
    ensures !Sets(run, k, q)
  {
  }

  /** Collision exclusion at the grain of the locks: a run has a world with two neighbours in OpenConfirm
      with one router id exactly when some OPEN is taken over whose router id slipped past its check:
      taken over by the other neighbour after the check had passed it, or held there without a channel. */
  lemma TwinsIff(ends: seq<Ends>, asns: seq<U16>, run: Run)
    requires IsRun(ends, asns, run)
    ensures (exists m: nat, p, q, rid :: m < |run.towns| && Twins(run.towns[m], p, q, rid)) <==>
            (exists k, i, t, q :: TakesTwin(run, k, i, t, q))
  {
    hide IsRun, Twins, TakesTwin;
    if m: nat, p, q, rid :| m < |run.towns| && Twins(run.towns[m], p, q, rid) {
      var k, i, t, other := TwinsHaveCause(ends, asns, run, m, p, q, rid);
    }
    if k, i, t, q :| TakesTwin(run, k, i, t, q) {
      var rid := TwinTaken(ends, asns, run, k, i, t, q);
      assert Twins(run.towns[k + 1], t.nb, q, rid);
    }
  }

  ghost function Latest(run: Run): Town
    requires run.towns != []
  {
    run.towns[|run.towns| - 1]
  }

  lemma Take(ends: seq<Ends>, asns: seq<U16>, run: Run, act: Act, w: Town) returns (longer: Run)
    requires IsRun(ends, asns, run) && run.towns != [] && |Latest(run).nbs| == |ends|
    requires After(ends, Latest(run), act) == w && |w.nbs| == |ends|
    ensures IsRun(ends, asns, longer) && longer.towns != [] && Latest(longer) == w
  {
    hide After;
    longer := Run.Run(run.towns + [w], run.acts + [act]);
  }

  /** Two neighbours, two tasks that are done, and one at work for each. */
  function Pair(a: Session, b: Session, one: Pc, two: Pc, scanned: (nat, nat)): Town {
    Town([Record(a, false, []), Record(b, false, [])],
         [Task(0, Dial, 0), Task(1, Dial, 0), Task(0, Gone, 0), Task(0, one, scanned.0), Task(1, Gone, 0),
          Task(1, two, scanned.1)])
  }

  function Stage(asn: U16, state: BGPState, tx: bool, o: Option<Opens.OpenMessage>): Session {
    SessionOf(asn, state, tx, o)
  }

  ghost predicate Reached(ends: seq<Ends>, asns: seq<U16>, run: Run, w: Town) {
    IsRun(ends, asns, run) && run.towns != [] && Latest(run) == w && |ends| == |w.nbs|
  }

  /** A block of the first neighbour's task, or of the second's. */
  lemma OneMoves(
    ends: seq<Ends>, asns: seq<U16>, run: Run, a: Session, b: Session, one: Pc, two: Pc, c: Choice,
    a': Session, next: Pc)
    returns (longer: Run)
    requires Reached(ends, asns, run, Pair(a, b, one, two, (0, 0))) && !one.OpenCollision?
    requires Block(ends[0], Record(a, false, []), one, c) == Result(Record(a', false, []), next, false)
    ensures Reached(ends, asns, longer, Pair(a', b, next, two, (0, 0)))
  {
    hide Block, IsRun;
    longer := Take(ends, asns, run, Move(3, c), Pair(a', b, next, two, (0, 0)));
  }

  lemma TwoMoves(
    ends: seq<Ends>, asns: seq<U16>, run: Run, a: Session, b: Session, one: Pc, two: Pc, c: Choice,
    b': Session, next: Pc)
    returns (longer: Run)
    requires Reached(ends, asns, run, Pair(a, b, one, two, (0, 0))) && !two.OpenCollision?
    requires Block(ends[1], Record(b, false, []), two, c) == Result(Record(b', false, []), next, false)
    ensures Reached(ends, asns, longer, Pair(a, b', one, next, (0, 0)))
  {
    hide Block, IsRun;
    longer := Take(ends, asns, run, Move(5, c), Pair(a, b', one, next, (0, 0)));
  }

  /** The three blocks of a check that finds nothing. */
  lemma OneScans(ends: seq<Ends>, asns: seq<U16>, run: Run, a: Session, b: Session, o: Opens.OpenMessage, two: Pc)
    returns (longer: Run)
    requires Reached(ends, asns, run, Pair(a, b, OpenCollision(o), two, (0, 0)))
    requires !Clashes(a, o.routerId) && !Clashes(b, o.routerId)
    ensures Reached(ends, asns, longer, Pair(a, b, OpenCheck(o), two, (0, 0)))
  {
    hide Block, IsRun, Clashes;
    longer := Take(ends, asns, run, Move(3, Yes), Pair(a, b, OpenCollision(o), two, (1, 0)));
    longer := Take(ends, asns, longer, Move(3, Yes), Pair(a, b, OpenCollision(o), two, (2, 0)));
    longer := Take(ends, asns, longer, Move(3, Yes), Pair(a, b, OpenCheck(o), two, (0, 0)));
  }

  lemma TwoScans(ends: seq<Ends>, asns: seq<U16>, run: Run, a: Session, b: Session, one: Pc, o: Opens.OpenMessage)
    returns (longer: Run)
    requires Reached(ends, asns, run, Pair(a, b, one, OpenCollision(o), (0, 0)))
    requires !Clashes(a, o.routerId) && !Clashes(b, o.routerId)
    ensures Reached(ends, asns, longer, Pair(a, b, one, OpenCheck(o), (0, 0)))
  {
    hide Block, IsRun, Clashes;
    longer := Take(ends, asns, run, Move(5, Yes), Pair(a, b, one, OpenCollision(o), (0, 1)));
    longer := Take(ends, asns, longer, Move(5, Yes), Pair(a, b, one, OpenCollision(o), (0, 2)));
    longer := Take(ends, asns, longer, Move(5, Yes), Pair(a, b, one, OpenCheck(o), (0, 0)));
  }

  /** From the start of its connection to the end of its check. */
  lemma OneGoes(ends: seq<Ends>, asns: seq<U16>, run: Run, n: U16, b: Session, two: Pc, o: Opens.OpenMessage)
    returns (longer: Run)
    requires Reached(ends, asns, run, Pair(Stage(n, Active, false, None), b, Enter, two, (0, 0)))
    requires !Clashes(b, o.routerId)
    ensures Reached(ends, asns, longer, Pair(Stage(n, OpenSent, true, None), b, OpenCheck(o), two, (0, 0)))
  {
    hide Reached, Clashes;
    var x, y, z := Stage(n, Active, false, None), Stage(n, Active, true, None), Stage(n, OpenSent, true, None);
    longer := OneMoves(ends, asns, run, x, b, Enter, two, Yes, y, LookForEvent(TcpConnectionConfirmed, true));
    longer := OneMoves(ends, asns, longer, y, b, LookForEvent(TcpConnectionConfirmed, true), two, Yes, y,
                       SendingOpen(true));
    longer := OneMoves(ends, asns, longer, y, b, SendingOpen(true), two, Yes, z, Loop);
    longer := OneMoves(ends, asns, longer, z, b, Loop, two, Received(OpenBody(o)), z, LookForMessage(OpenBody(o)));
    longer := OneMoves(ends, asns, longer, z, b, LookForMessage(OpenBody(o)), two, Yes, z, OpenStart(o));
    longer := OneMoves(ends, asns, longer, z, b, OpenStart(o), two, Yes, z, OpenCollision(o));
    NoRidNoClash(z, o.routerId);
    longer := OneScans(ends, asns, longer, z, b, o, two);
  }

  lemma TwoGoes(ends: seq<Ends>, asns: seq<U16>, run: Run, a: Session, n: U16, one: Pc, o: Opens.OpenMessage)
    returns (longer: Run)
    requires Reached(ends, asns, run, Pair(a, Stage(n, Active, false, None), one, Enter, (0, 0)))
    requires !Clashes(a, o.routerId)
    ensures Reached(ends, asns, longer, Pair(a, Stage(n, OpenSent, true, None), one, OpenCheck(o), (0, 0)))
  {
    hide Reached, Clashes;
    var x, y, z := Stage(n, Active, false, None), Stage(n, Active, true, None), Stage(n, OpenSent, true, None);
    longer := TwoMoves(ends, asns, run, a, x, one, Enter, Yes, y, LookForEvent(TcpConnectionConfirmed, true));
    longer := TwoMoves(ends, asns, longer, a, y, one, LookForEvent(TcpConnectionConfirmed, true), Yes, y,
                       SendingOpen(true));
    longer := TwoMoves(ends, asns, longer, a, y, one, SendingOpen(true), Yes, z, Loop);
    longer := TwoMoves(ends, asns, longer, a, z, one, Loop, Received(OpenBody(o)), z, LookForMessage(OpenBody(o)));
    longer := TwoMoves(ends, asns, longer, a, z, one, LookForMessage(OpenBody(o)), Yes, z, OpenStart(o));
    longer := TwoMoves(ends, asns, longer, a, z, one, OpenStart(o), Yes, z, OpenCollision(o));
    NoRidNoClash(z, o.routerId);
    longer := TwoScans(ends, asns, longer, a, z, one, o);
  }

  lemma NoRidNoClash(s: Session, rid: U32)
    requires s.rid == None
    ensures !Clashes(s, rid)
  {
  }

  /** Both neighbours' connections are let in, one after the other. */
  lemma BothLetIn(ends: seq<Ends>, asns: seq<U16>) returns (run: Run)
    requires |ends| == |asns| == 2
    ensures Reached(ends, asns, run, Pair(Stage(asns[0], Active, false, None), Stage(asns[1], Active, false, None),
                                          Enter, Enter, (0, 0)))
  {
    hide IsRun;
    run := AtFirst(ends, asns);
    var dials := [Task(0, Dial, 0), Task(1, Dial, 0)];
    var p := Record(Stage(asns[0], Idle, false, None), false, []);
    var q := Record(Stage(asns[1], Idle, false, None), false, []);
    var p' := Record(Stage(asns[0], Active, false, None), false, []);
    var q' := Record(Stage(asns[1], Active, false, None), false, []);
    var w := Town([p, q], dials + [Task(0, Incoming, 0)]);
    assert Latest(run) == Town([p, q], dials);
    run := Take(ends, asns, run, Knock(0), w);
    w := Town([p, q], dials + [Task(0, Admitted, 0)]);
    run := Take(ends, asns, run, Move(2, Yes), w);
    w := Town([p', q], dials + [Task(0, Gone, 0), Task(0, Enter, 0)]);
    run := Take(ends, asns, run, Move(2, Yes), w);
    w := Town([p', q], dials + [Task(0, Gone, 0), Task(0, Enter, 0), Task(1, Incoming, 0)]);
    run := Take(ends, asns, run, Knock(1), w);
    w := Town([p', q], dials + [Task(0, Gone, 0), Task(0, Enter, 0), Task(1, Admitted, 0)]);
    run := Take(ends, asns, run, Move(4, Yes), w);
    w := Town([p', q'], dials + [Task(0, Gone, 0), Task(0, Enter, 0), Task(1, Gone, 0), Task(1, Enter, 0)]);
    run := Take(ends, asns, run, Move(4, Yes), w);
    assert w == Pair(p'.session, q'.session, Enter, Enter, (0, 0));
  }

  lemma AtFirst(ends: seq<Ends>, asns: seq<U16>) returns (run: Run)
    requires |ends| == |asns|
    ensures IsRun(ends, asns, run) && run.towns != [] && Latest(run) == Initial(asns)
  {
    run := Run.Run([Initial(asns)], []);
  }

  /** Two OPENs with one router id pass their checks before either is taken over. */
  lemma TwinsAreReal(ends: seq<Ends>, asns: seq<U16>, rid: U32, o: Opens.OpenMessage, o': Opens.OpenMessage)
    returns (run: Run)
    requires |ends| == |asns| == 2 && o.asn == asns[0] && o'.asn == asns[1] && o.routerId == o'.routerId == rid
    ensures IsRun(ends, asns, run) && run.towns != [] && Twins(Latest(run), 0, 1, rid)
  {
    hide Reached, Clashes, Opens.Understand;
    run := BothLetIn(ends, asns);
    NoRidNoClash(Stage(asns[1], Active, false, None), rid);
    run := OneGoes(ends, asns, run, asns[0], Stage(asns[1], Active, false, None), Enter, o);
    var a, b := Stage(asns[0], OpenSent, true, None), Stage(asns[1], OpenSent, true, None);
    NoRidNoClash(a, rid);
    run := TwoGoes(ends, asns, run, a, asns[1], OpenCheck(o), o');
    run := OneMoves(ends, asns, run, a, b, OpenCheck(o), OpenCheck(o'), Yes, a, OpenTake(o));
    run := TwoMoves(ends, asns, run, a, b, OpenTake(o), OpenCheck(o'), Yes, b, OpenTake(o'));
    var end := if Opens.Understand(o.optParams.params).Ok? then OpenEnd else Gone;
    var a', b' := Stage(asns[0], OpenConfirm, true, Some(o)), Stage(asns[1], OpenConfirm, true, Some(o'));
    run := OneMoves(ends, asns, run, a, b, OpenTake(o), OpenTake(o'), Yes, a', end);
    var end' := if Opens.Understand(o'.optParams.params).Ok? then OpenEnd else Gone;
    run := TwoMoves(ends, asns, run, a', b, end, OpenTake(o'), Yes, b', end');
    TwinsReached(ends, asns, run, a', b', end, end', rid);
  }

  lemma TwinsReached(
    ends: seq<Ends>, asns: seq<U16>, run: Run, a: Session, b: Session, one: Pc, two: Pc, rid: U32)
    requires Reached(ends, asns, run, Pair(a, b, one, two, (0, 0)))
    requires a.state == OpenConfirm && b.state == OpenConfirm && a.rid == Some(rid) && b.rid == Some(rid)
    ensures IsRun(ends, asns, run) && run.towns != [] && Twins(Latest(run), 0, 1, rid)
  {
    hide IsRun;
  }
}
