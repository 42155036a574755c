/** What the manager reports, against what the reports are for (src/speaker/manager.rs:12-126). */
module LocRibDeltas {
  import opened Basics
  import opened Bytes
  import opened Nlris
  import opened Routes
  import opened LocRibs

  /** The best route the table offers for a prefix. */
  function BestOf(rib: Rib, fib: Fib, n: Nlri): Option<Route> {
    if n in rib then BestReachable(fib, rib[n]) else None
  }

  /** Neither is better than the other. */
  predicate SameRank(a: Option<Route>, b: Option<Route>) {
    match (a, b)
    case (None, None) => true
    case (Some(x), Some(y)) => Cmp(x, y) == Equal
    case _ => false
  }

  /** The best got better, or there is one at last. */
  predicate Rose(before: Option<Route>, after: Option<Route>) {
    after.Some? && (before.None? || Cmp(after.value, before.value) == Greater)
  }

  lemma RankLaws(a: Option<Route>, b: Option<Route>, c: Option<Route>)
    ensures SameRank(a, a)
    ensures SameRank(a, b) ==> SameRank(b, a) && !Rose(a, b)
    ensures SameRank(a, b) ==> (SameRank(b, c) <==> SameRank(a, c)) && (Rose(a, c) <==> Rose(b, c))
    ensures SameRank(a, b) ==> (Rose(c, a) <==> Rose(c, b))
  {
    hide Cmp;
    if a.Some? {
      var y := if b.Some? then b.value else a.value;
      var z := if c.Some? then c.value else a.value;
      CmpLaws(a.value, y, z);
      CmpLaws(y, a.value, z);
      CmpLaws(z, a.value, y);
      CmpLaws(z, y, a.value);
    }
  }

  /** The best reachable route is a greatest among the reachable ones. */
  ghost predicate Greatest(fib: Fib, s: seq<Route>, best: Option<Route>) {
    match best
    case None => forall r <- s :: !fib(r.nextHop)
    case Some(b) => b in s && fib(b.nextHop) && forall r <- s :: fib(r.nextHop) ==> AtMost(r, b)
  }

  lemma {:induction false} BestIsGreatest(fib: Fib, s: seq<Route>)
    requires Descending(s)
    ensures Greatest(fib, s, BestReachable(fib, s))
  {
    hide Cmp;
    if s != [] {
      DescendingTail(s);
      BestIsGreatest(fib, s[1..]);
      CmpLaws(s[0], s[0], s[0]);
      assert s == [s[0]] + s[1..];
    }
  }

  /** Greatest routes of the same list have the same rank. */
  lemma GreatestAreLevel(fib: Fib, s: seq<Route>, a: Option<Route>, b: Option<Route>)
    requires Greatest(fib, s, a) && Greatest(fib, s, b)
    ensures SameRank(a, b)
  {
    hide Cmp;
    if a.Some? && b.Some? {
      CmpLaws(a.value, b.value, a.value);
    }
  }

  /** Whether an announcement gives the prefix a better route than it has. */
  predicate Improves(rib: Rib, fib: Fib, asn: U16, attrs: Route, n: Nlri) {
    LoopFree(attrs, asn) && fib(attrs.nextHop) && Rose(BestOf(rib, fib, n), Some(attrs))
  }

  lemma BestOfGrown(fib: Fib, s: seq<Route>, a: Route, t: seq<Route>)
    requires Descending(s) && Descending(t) && multiset(t) == multiset(s) + multiset{a}
    ensures var best := BestReachable(fib, s);
            SameRank(BestReachable(fib, t), if fib(a.nextHop) && Rose(best, Some(a)) then Some(a) else best)
  {
    hide Cmp, BestReachable;
    var best := BestReachable(fib, s);
    BestIsGreatest(fib, s);
    BestIsGreatest(fib, t);
    forall r
      ensures r in t <==> r in s || r == a
    {
      assert r in t <==> r in multiset(t);
    }
    CmpLaws(a, a, a);
    if best.Some? {
      CmpLaws(a, best.value, a);
      if fib(a.nextHop) && Rose(best, Some(a)) {
        forall r <- s | fib(r.nextHop)
          ensures AtMost(r, a)
        {
          CmpLaws(r, best.value, a);
        }
      }
    }
    GreatestAreLevel(fib, t, BestReachable(fib, t), if fib(a.nextHop) && Rose(best, Some(a)) then Some(a) else best);
  }

  /** The new best routes reported for one prefix, in order. */
  function Reports(modified: seq<Delta>, n: Nlri): seq<Option<Route>> {
    if modified == [] then []
    else (if modified[0].nlri == n then [modified[0].best] else []) + Reports(modified[1..], n)
  }

  lemma {:induction false} ReportsSplit(a: seq<Delta>, b: seq<Delta>, n: Nlri)
    ensures Reports(a + b, n) == Reports(a, n) + Reports(b, n)
  {
    if a == [] {
      assert a + b == b;
      assert [] + Reports(b, n) == Reports(b, n);
    } else {
      assert (a + b)[1..] == a[1..] + b;
      ReportsSplit(a[1..], b, n);
      var head := if a[0].nlri == n then [a[0].best] else [];
      assert head + (Reports(a[1..], n) + Reports(b, n)) == head + Reports(a[1..], n) + Reports(b, n);
    }
  }

  lemma AddOneDelta(rib: Rib, fib: Fib, asn: U16, attrs: Route, n: Nlri, m: Nlri)
    requires RibInv(rib, asn)
    ensures var out := AddOne(rib, fib, asn, attrs, n);
            var better := m == n && Improves(rib, fib, asn, attrs, n);
            && Reports(out.modified, m) == (if better then [Some(attrs)] else [])
            && SameRank(BestOf(out.rib, fib, m), if better then Some(attrs) else BestOf(rib, fib, m))
            && (m != n ==> BestOf(out.rib, fib, m) == BestOf(rib, fib, m))
  {
    hide Cmp, BestReachable, Resort, LoopFree;
    RankLaws(BestOf(rib, fib, m), None, None);
    NothingIsBest(fib);
    var out := AddOne(rib, fib, asn, attrs, n);
    assert out.modified != [] ==> out.modified[1..] == [];
    if m == n && LoopFree(attrs, asn) {
      var before := if n in rib then rib[n] else [];
      assert n in rib ==> EntryInv(rib[n], asn);
      if n in rib {
        ResortSorts(before + [attrs]);
      }
      BestOfGrown(fib, before, attrs, out.rib[n]);
    }
  }

  /** An announcement does not improve on itself. */
  lemma ImprovesOnce(rib: Rib, fib: Fib, asn: U16, attrs: Route, n: Nlri, m: Nlri)
    requires RibInv(rib, asn)
    ensures var rib' := AddOne(rib, fib, asn, attrs, n).rib;
            Improves(rib', fib, asn, attrs, m) == (m != n && Improves(rib, fib, asn, attrs, m))
  {
    hide Cmp, AddOne, BestOf, SameRank, Rose, LoopFree, RibInv;
    AddOneDelta(rib, fib, asn, attrs, n, m);
    var after := BestOf(AddOne(rib, fib, asn, attrs, n).rib, fib, m);
    RankLaws(after, Some(attrs), None);
    RankLaws(after, BestOf(rib, fib, m), Some(attrs));
  }

  /** Delta exactness of a batch, told from the table before it: a prefix is reported once, with the
      announced route, when it is announced and would get better; repeats are not reported. */
  lemma {:induction false} AddedDelta(rib: Rib, fib: Fib, asn: U16, nlris: seq<Nlri>, attrs: Route, m: Nlri)
    requires RibInv(rib, asn)
    ensures var out := Added(rib, fib, asn, nlris, attrs);
            var better := m in nlris && Improves(rib, fib, asn, attrs, m);
            && Reports(out.modified, m) == (if better then [Some(attrs)] else [])
            && SameRank(BestOf(out.rib, fib, m), if better then Some(attrs) else BestOf(rib, fib, m))
    decreases |nlris|
  {
    hide AddOne, BestOf, SameRank, RibInv, Improves;
    var best := BestOf(rib, fib, m);
    RankLaws(best, best, best);
    if nlris != [] {
      var n := nlris[0];
      var one := AddOne(rib, fib, asn, attrs, n);
      var rest := Added(one.rib, fib, asn, nlris[1..], attrs);
      AddOneRefines(rib, fib, asn, attrs, n, m);
      AddOneDelta(rib, fib, asn, attrs, n, m);
      ImprovesOnce(rib, fib, asn, attrs, n, m);
      AddedDelta(one.rib, fib, asn, nlris[1..], attrs, m);
      ReportsSplit(one.modified, rest.modified, m);
      RankLaws(BestOf(rest.rib, fib, m), BestOf(one.rib, fib, m), best);
      RankLaws(BestOf(rest.rib, fib, m), BestOf(one.rib, fib, m), Some(attrs));
    }
  }

  /** A prefix is reported exactly when the rank of its best reachable route rose over the batch,
      and what is reported has the rank of the new best. */
  lemma AddedReportsExactly(rib: Rib, fib: Fib, asn: U16, nlris: seq<Nlri>, attrs: Route, m: Nlri)
    requires RibInv(rib, asn)
    ensures var out := Added(rib, fib, asn, nlris, attrs);
            var rose := Rose(BestOf(rib, fib, m), BestOf(out.rib, fib, m));
            && Reports(out.modified, m) == (if rose then [Some(attrs)] else [])
            && (rose ==> SameRank(BestOf(out.rib, fib, m), Some(attrs)))
  {
    hide Cmp, Added, BestOf, SameRank, Rose, LoopFree, RibInv;
    var out := Added(rib, fib, asn, nlris, attrs);
    AddedDelta(rib, fib, asn, nlris, attrs, m);
    RankLaws(BestOf(out.rib, fib, m), Some(attrs), BestOf(rib, fib, m));
    RankLaws(BestOf(out.rib, fib, m), BestOf(rib, fib, m), Some(attrs));
    RankLaws(BestOf(rib, fib, m), BestOf(out.rib, fib, m), Some(attrs));
  }

  lemma RetainFirst(s: seq<Route>, rid: U32)
    requires s != []
    ensures var rest := Retain(s[1..], rid);
            Retain(s, rid) == if s[0].peerRid == rid then rest else [s[0]] + rest
    ensures ([s[0]] + Retain(s[1..], rid))[1..] == Retain(s[1..], rid)
  {
    assert [] + Retain(s[1..], rid) == Retain(s[1..], rid);
  }

  lemma {:induction false} BestOfRetained(fib: Fib, s: seq<Route>, rid: U32)
    ensures var best, left := BestReachable(fib, s), BestReachable(fib, Retain(s, rid));
            if best.Some? && best.value.peerRid == rid then left.Some? ==> left.value.peerRid != rid
            else left == best
  {
    if s != [] {
      RetainFirst(s, rid);
      BestOfRetained(fib, s[1..], rid);
      RetainMembers(s[1..], rid);
      BestIsMember(fib, Retain(s[1..], rid));
      hide Retain;
    }
  }

  lemma {:induction false} BestIsMember(fib: Fib, s: seq<Route>)
    ensures BestReachable(fib, s).Some? ==> BestReachable(fib, s).value in s && fib(BestReachable(fib, s).value.nextHop)
  {
    if s != [] {
      BestIsMember(fib, s[1..]);
    }
  }

  predicate BestIsFrom(rib: Rib, fib: Fib, rid: U32, n: Nlri) {
    BestOf(rib, fib, n).Some? && BestOf(rib, fib, n).value.peerRid == rid
  }

  lemma WithdrawOneDelta(rib: Rib, fib: Fib, rid: U32, n: Nlri, m: Nlri)
    ensures var out := WithdrawOne(rib, fib, rid, n);
            var lost := m == n && BestIsFrom(rib, fib, rid, n);
            && Reports(out.modified, m) == (if lost then [None] else [])
            && (lost ==> !BestIsFrom(out.rib, fib, rid, m))
            && (!lost ==> BestOf(out.rib, fib, m) == BestOf(rib, fib, m))
  {
    hide BestReachable, Retain;
    NothingIsBest(fib);
    var out := WithdrawOne(rib, fib, rid, n);
    assert out.modified != [] ==> out.modified[1..] == [];
    if n in rib {
      BestOfRetained(fib, rib[n], rid);
    }
  }

  /** Over a whole withdrawal a prefix is reported as gone, and once, exactly when its best
      reachable route changed. Repeats in the list are not reported. */
  lemma {:induction false} WithdrawnReportsExactly(rib: Rib, fib: Fib, rid: U32, nlris: seq<Nlri>, m: Nlri)
    ensures var out := Withdrawn(rib, fib, rid, nlris);
            var lost := m in nlris && BestIsFrom(rib, fib, rid, m);
            && Reports(out.modified, m) == (if lost then [None] else [])
            && (lost <==> BestOf(out.rib, fib, m) != BestOf(rib, fib, m))
            && (lost ==> !BestIsFrom(out.rib, fib, rid, m))
    decreases |nlris|
  {
    hide WithdrawOne, BestOf;
    if nlris != [] {
      var one := WithdrawOne(rib, fib, rid, nlris[0]);
      WithdrawOneDelta(rib, fib, rid, nlris[0], m);
      WithdrawnReportsExactly(one.rib, fib, rid, nlris[1..], m);
      ReportsSplit(one.modified, Withdrawn(one.rib, fib, rid, nlris[1..]).modified, m);
    }
  }

  lemma {:induction false} AddedReportsAnnounced(rib: Rib, fib: Fib, asn: U16, nlris: seq<Nlri>, attrs: Route, d: Delta)
    requires d in Added(rib, fib, asn, nlris, attrs).modified
    ensures d.best == Some(attrs) && LoopFree(attrs, asn) && d.nlri in nlris
    decreases |nlris|
  {
    hide Cmp, BestReachable, Resort, LoopFree;
    if nlris != [] {
      var one := AddOne(rib, fib, asn, attrs, nlris[0]);
      if d !in one.modified {
        AddedReportsAnnounced(one.rib, fib, asn, nlris[1..], attrs, d);
      }
    }
  }

  lemma {:induction false} WithdrawnReportsNone(rib: Rib, fib: Fib, rid: U32, nlris: seq<Nlri>, d: Delta)
    requires d in Withdrawn(rib, fib, rid, nlris).modified
    ensures d.best == None && d.nlri in nlris
    decreases |nlris|
  {
    hide BestReachable, Retain;
    if nlris != [] {
      var one := WithdrawOne(rib, fib, rid, nlris[0]);
      if d !in one.modified {
        WithdrawnReportsNone(one.rib, fib, rid, nlris[1..], d);
      }
    }
  }

  /** What is reported of an event is its announced route, which has passed the loop check. */
  lemma EventReports(rib: Rib, fib: Fib, asn: U16, u: RibEvent, out: Outcome, d: Delta)
    requires EventStep(rib, fib, asn, u, out) && d in out.modified && d.best.Some?
    ensures u.added.Some? && d.best == Some(u.added.value.attributes) && LoopFree(d.best.value, asn)
  {
    hide Added, Withdrawn, LoopFree;
    var order :| EventOrder(rib, fib, asn, u, order) && out == Processed(rib, fib, asn, u, order);
    var a := AfterAdded(rib, fib, asn, u);
    if d in a.modified {
      AddedReportsAnnounced(rib, fib, asn, u.added.value.nlris, u.added.value.attributes, d);
    } else {
      WithdrawnReportsNone(a.rib, fib, u.withdrawn.value.attributes.peerRid, order, d);
    }
  }

  /** All routes that one event reports are the same. */
  lemma OneRouteReported(rib: Rib, fib: Fib, asn: U16, u: RibEvent, out: Outcome, d: Delta, e: Delta)
    requires EventStep(rib, fib, asn, u, out) && d in out.modified && e in out.modified && d.best.Some? && e.best.Some?
    ensures d.best == e.best
  {
    hide EventStep, LoopFree;
    EventReports(rib, fib, asn, u, out, d);
    EventReports(rib, fib, asn, u, out, e);
  }

  /** What a peer knows that has replayed every report. */
  type View = map<Nlri, Route>

  function Replay(view: View, modified: seq<Delta>): View
    decreases |modified|
  {
    if modified == [] then view
    else
      var d := modified[0];
      Replay(if d.best.Some? then view[d.nlri := d.best.value] else view - {d.nlri}, modified[1..])
  }

  function Lookup(view: View, n: Nlri): Option<Route> {
    if n in view then Some(view[n]) else None
  }

  /** Replaying changes a prefix to the last report about it. */
  lemma {:induction false} ReplayAt(view: View, modified: seq<Delta>, n: Nlri)
    ensures var reports := Reports(modified, n);
            Lookup(Replay(view, modified), n) ==
            if reports == [] then Lookup(view, n) else reports[|reports| - 1]
    decreases |modified|
  {
    if modified != [] {
      var d := modified[0];
      var next := if d.best.Some? then view[d.nlri := d.best.value] else view - {d.nlri};
      ReplayAt(next, modified[1..], n);
    }
  }

  lemma {:induction false} ReplaySplit(view: View, a: seq<Delta>, b: seq<Delta>)
    ensures Replay(view, a + b) == Replay(Replay(view, a), b)
    decreases |a|
  {
    if a == [] {
      assert a + b == b;
    } else {
      assert (a + b)[1..] == a[1..] + b;
      var d := a[0];
      ReplaySplit(if d.best.Some? then view[d.nlri := d.best.value] else view - {d.nlri}, a[1..], b);
    }
  }

  /** The peer's route for `n` is one the table holds, is reachable, and no reachable route of the
      table is better. */
  ghost predicate SoundAt(view: View, rib: Rib, fib: Fib, n: Nlri) {
    n in view ==>
      n in rib && view[n] in rib[n] && fib(view[n].nextHop) &&
      forall r <- rib[n] :: fib(r.nextHop) ==> AtMost(r, view[n])
  }

  /** Soundness told by rank. */
  lemma SoundByRank(view: View, rib: Rib, fib: Fib, asn: U16, n: Nlri)
    requires RibInv(rib, asn)
    ensures SoundAt(view, rib, fib, n) <==>
            (n in view ==> Held(rib, n)[view[n]] > 0 && fib(view[n].nextHop)
                           && SameRank(Some(view[n]), BestOf(rib, fib, n)))
  {
    hide Cmp, BestReachable;
    if n in view && n in rib {
      assert EntryInv(rib[n], asn);
      BestIsGreatest(fib, rib[n]);
      var best := BestReachable(fib, rib[n]);
      if SoundAt(view, rib, fib, n) {
        GreatestAreLevel(fib, rib[n], Some(view[n]), best);
      } else if best.Some? && Cmp(view[n], best.value) == Equal {
        forall r <- rib[n] | fib(r.nextHop)
          ensures AtMost(r, view[n])
        {
          CmpLaws(view[n], best.value, r);
          CmpLaws(r, view[n], r);
          CmpLaws(r, best.value, r);
        }
      }
    }
  }

  lemma AddedKeepsViewSound(view: View, rib: Rib, fib: Fib, asn: U16, nlris: seq<Nlri>, attrs: Route, n: Nlri)
    requires RibInv(rib, asn) && SoundAt(view, rib, fib, n)
    ensures var out := Added(rib, fib, asn, nlris, attrs);
            SoundAt(Replay(view, out.modified), out.rib, fib, n)
  {
    hide Cmp, Added, BestOf, SameRank, Rose, LoopFree, SoundAt, Held, RibInv, Reports, Replay;
    var out := Added(rib, fib, asn, nlris, attrs);
    AddedDelta(rib, fib, asn, nlris, attrs, n);
    ReplayAt(view, out.modified, n);
    SoundByRank(view, rib, fib, asn, n);
    var r := if n in Replay(view, out.modified) then Replay(view, out.modified)[n] else attrs;
    AddedRefines(rib, fib, asn, nlris, attrs, n, r);
    SoundByRank(Replay(view, out.modified), out.rib, fib, asn, n);
    RankLaws(BestOf(out.rib, fib, n), Some(r), None);
    RankLaws(BestOf(rib, fib, n), BestOf(out.rib, fib, n), Some(r));
    RankLaws(BestOf(out.rib, fib, n), BestOf(rib, fib, n), Some(r));
    RankLaws(Some(r), BestOf(rib, fib, n), BestOf(out.rib, fib, n));
  }

  lemma WithdrawnKeepsViewSound(view: View, rib: Rib, fib: Fib, asn: U16, rid: U32, nlris: seq<Nlri>, n: Nlri)
    requires RibInv(rib, asn) && SoundAt(view, rib, fib, n)
    ensures var out := Withdrawn(rib, fib, rid, nlris);
            SoundAt(Replay(view, out.modified), out.rib, fib, n)
  {
    hide Cmp, AtMost, Withdrawn, Held, RibInv, Reports, Replay, BestOf;
    var out := Withdrawn(rib, fib, rid, nlris);
    WithdrawnReportsExactly(rib, fib, rid, nlris, n);
    ReplayAt(view, out.modified, n);
    SoundByRank(view, rib, fib, asn, n);
    if n in view {
      WithdrawnRefines(rib, fib, asn, rid, nlris, n, view[n]);
      SoundByRank(Replay(view, out.modified), out.rib, fib, asn, n);
      if BestOf(rib, fib, n).Some? {
        EqualRoutes(view[n], BestOf(rib, fib, n).value);
      }
    }
  }

  /** One event keeps the peer's view sound. */
  lemma EventKeepsViewSound(view: View, rib: Rib, fib: Fib, asn: U16, u: RibEvent, out: Outcome, n: Nlri)
    requires RibInv(rib, asn) && EventStep(rib, fib, asn, u, out) && SoundAt(view, rib, fib, n)
    ensures SoundAt(Replay(view, out.modified), out.rib, fib, n)
  {
    hide Added, Withdrawn, SoundAt, Held, RibInv, Replay;
    var order :| EventOrder(rib, fib, asn, u, order) && out == Processed(rib, fib, asn, u, order);
    var a := AfterAdded(rib, fib, asn, u);
    ReplayNothing(view);
    if u.added.Some? {
      var nlris, attrs := u.added.value.nlris, u.added.value.attributes;
      AddedRefines(rib, fib, asn, nlris, attrs, n, attrs);
      AddedKeepsViewSound(view, rib, fib, asn, nlris, attrs, n);
    }
    if u.withdrawn.Some? {
      var rid := u.withdrawn.value.attributes.peerRid;
      WithdrawnKeepsViewSound(Replay(view, a.modified), a.rib, fib, asn, rid, order, n);
      ReplaySplit(view, a.modified, Withdrawn(a.rib, fib, rid, order).modified);
    }
  }

  lemma ReplayNothing(view: View)
    ensures Replay(view, []) == view
  {
  }

  /** The peer knows a route for `n` whenever the table offers one. */
  ghost predicate CompleteAt(view: View, rib: Rib, fib: Fib, n: Nlri) {
    BestOf(rib, fib, n).Some? ==> n in view
  }

  /** Announcements never leave a prefix unknown. */
  lemma AddedKeepsViewComplete(view: View, rib: Rib, fib: Fib, asn: U16, nlris: seq<Nlri>, attrs: Route, n: Nlri)
    requires RibInv(rib, asn) && CompleteAt(view, rib, fib, n)
    ensures var out := Added(rib, fib, asn, nlris, attrs);
            CompleteAt(Replay(view, out.modified), out.rib, fib, n)
  {
    hide Cmp, Added, BestOf, Rose, LoopFree, RibInv, Reports, Replay;
    var out := Added(rib, fib, asn, nlris, attrs);
    AddedDelta(rib, fib, asn, nlris, attrs, n);
    ReplayAt(view, out.modified, n);
  }

  /** Withdrawing the best route of a prefix while another peer has a reachable one for it. */
  ghost predicate LeavesBackup(rib: Rib, fib: Fib, rid: U32, n: Nlri) {
    BestIsFrom(rib, fib, rid, n) && exists r <- rib[n] :: fib(r.nextHop) && r.peerRid != rid
  }

  lemma {:induction false} BestLeft(fib: Fib, s: seq<Route>, rid: U32)
    ensures BestReachable(fib, Retain(s, rid)).Some? <==> exists r <- s :: fib(r.nextHop) && r.peerRid != rid
  {
    if s != [] {
      BestLeft(fib, s[1..], rid);
      assert s == [s[0]] + s[1..];
      assert [] + Retain(s[1..], rid) == Retain(s[1..], rid);
      assert ([s[0]] + Retain(s[1..], rid))[1..] == Retain(s[1..], rid);
    }
  }

  lemma {:induction false} WithdrawnEntry(rib: Rib, fib: Fib, rid: U32, nlris: seq<Nlri>, n: Nlri)
    requires n in rib && n in nlris
    ensures BestOf(Withdrawn(rib, fib, rid, nlris).rib, fib, n) == BestReachable(fib, Retain(rib[n], rid))
    decreases |nlris|
  {
    hide BestReachable;
    NothingIsBest(fib);
    var one := WithdrawOne(rib, fib, rid, nlris[0]);
    if n !in nlris[1..] {
      WithdrawnElsewhere(one.rib, fib, rid, nlris[1..], n);
    } else if n in one.rib {
      WithdrawnEntry(one.rib, fib, rid, nlris[1..], n);
      RetainTwice(rib[n], rid);
    } else {
      WithdrawnAbsent(one.rib, fib, rid, nlris[1..], n);
    }
  }

  lemma {:induction false} RetainTwice(s: seq<Route>, rid: U32)
    ensures Retain(Retain(s, rid), rid) == Retain(s, rid)
  {
    if s != [] {
      RetainTwice(s[1..], rid);
      assert [] + Retain(s[1..], rid) == Retain(s[1..], rid);
      assert ([s[0]] + Retain(s[1..], rid))[1..] == Retain(s[1..], rid);
    }
  }

  lemma {:induction false} WithdrawnElsewhere(rib: Rib, fib: Fib, rid: U32, nlris: seq<Nlri>, n: Nlri)
    requires n !in nlris
    ensures BestOf(Withdrawn(rib, fib, rid, nlris).rib, fib, n) == BestOf(rib, fib, n)
    decreases |nlris|
  {
    hide BestReachable, Retain;
    if nlris != [] {
      WithdrawnElsewhere(WithdrawOne(rib, fib, rid, nlris[0]).rib, fib, rid, nlris[1..], n);
    }
  }

  lemma {:induction false} WithdrawnAbsent(rib: Rib, fib: Fib, rid: U32, nlris: seq<Nlri>, n: Nlri)
    requires n !in rib
    ensures BestOf(Withdrawn(rib, fib, rid, nlris).rib, fib, n) == None
    decreases |nlris|
  {
    hide BestReachable, Retain;
    if nlris != [] {
      WithdrawnAbsent(WithdrawOne(rib, fib, rid, nlris[0]).rib, fib, rid, nlris[1..], n);
    }
  }

  /** The view is sound but not complete: a withdrawal is reported without the route that takes
      over. A complete view stays complete exactly when no withdrawn prefix has such a backup. */
  lemma WithdrawnKeepsViewCompleteIff(view: View, rib: Rib, fib: Fib, rid: U32, nlris: seq<Nlri>, n: Nlri)
    requires CompleteAt(view, rib, fib, n)
    ensures var out := Withdrawn(rib, fib, rid, nlris);
            CompleteAt(Replay(view, out.modified), out.rib, fib, n) <==>
            !(n in nlris && LeavesBackup(rib, fib, rid, n))
  {
    hide Withdrawn, BestReachable, Retain, Reports, Replay;
    var out := Withdrawn(rib, fib, rid, nlris);
    WithdrawnReportsExactly(rib, fib, rid, nlris, n);
    ReplayAt(view, out.modified, n);
    if n in rib && n in nlris {
      WithdrawnEntry(rib, fib, rid, nlris, n);
      BestLeft(fib, rib[n], rid);
    }
  }
}
