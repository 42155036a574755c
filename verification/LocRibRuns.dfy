/** Whole runs of the Loc-RIB manager: what peers know of the table, and what the table owes to
    the order of events (src/speaker/manager.rs:128-207). */
module LocRibRuns {
  import opened Basics
  import opened Bytes
  import opened Nlris
  import opened Routes
  import opened LocRibs
  import opened LocRibDeltas

  /** A run from the empty table: event `k` turns table `k` into table `k + 1` and emits `outs[k]`,
      with the forwarding table `fibs[k]`. */
  datatype Run = Run(ribs: seq<Rib>, events: seq<RibEvent>, fibs: seq<Fib>, outs: seq<seq<Delta>>)

  ghost predicate IsRun(run: Run, asn: U16) {
    && |run.ribs| == |run.events| + 1 && |run.fibs| == |run.events| && |run.outs| == |run.events|
    && run.ribs[0] == map[]
    && forall k | 0 <= k < |run.events| ::
         EventStep(run.ribs[k], run.fibs[k], asn, run.events[k], Outcome(run.ribs[k + 1], run.outs[k]))
  }

  ghost function Last(run: Run): Rib
    requires run.ribs != []
  {
    run.ribs[|run.ribs| - 1]
  }

  lemma {:induction false} RunKeepsInv(run: Run, asn: U16, k: nat)
    requires IsRun(run, asn) && k < |run.ribs|
    ensures RibInv(run.ribs[k], asn)
  {
    hide EventStep;
    if k > 0 {
      RunKeepsInv(run, asn, k - 1);
      var any := Route([], Attributes.Igp, UNSPECIFIED_V4, None, None, External, Ebgp, 0, 0, UNSPECIFIED_V4);
      EventRefines(run.ribs[k - 1], run.fibs[k - 1], asn, run.events[k - 1],
                   Outcome(run.ribs[k], run.outs[k - 1]), RawNet(UNSPECIFIED_V4, 0), any);
    }
  }

  /** In every reachable table each entry has a first route, as the full-table dump to a new peer
      assumes, and nothing in it runs through the local AS. */
  lemma EveryEntryHasAFirst(run: Run, asn: U16, k: nat, n: Nlri)
    requires IsRun(run, asn) && k < |run.ribs| && n in run.ribs[k]
    ensures run.ribs[k][n] != [] && forall r <- run.ribs[k][n] :: AtMost(r, run.ribs[k][n][0]) && LoopFree(r, asn)
  {
    hide Cmp;
    RunKeepsInv(run, asn, k);
    var s := run.ribs[k][n];
    assert EntryInv(s, asn);
    forall r <- s
      ensures AtMost(r, s[0])
    {
      CmpLaws(r, r, r);
      var j :| 0 <= j < |s| && s[j] == r;
    }
  }

  /** The view of a peer that was there from the start and replayed every report. */
  ghost function ViewAfter(outs: seq<seq<Delta>>, k: nat): View
    requires k <= |outs|
  {
    if k == 0 then map[] else Replay(ViewAfter(outs, k - 1), outs[k - 1])
  }

  /** With a forwarding table that stays as it is, what peers were told is sound in every
      reachable state: each route they know is in the table, is reachable, and is unbeaten. */
  lemma {:induction false} PeerViewIsSound(run: Run, asn: U16, fib: Fib, k: nat, n: Nlri)
    requires IsRun(run, asn) && k < |run.ribs|
    requires forall i | 0 <= i < |run.fibs| :: run.fibs[i] == fib
    ensures SoundAt(ViewAfter(run.outs, k), run.ribs[k], fib, n)
  {
    hide EventStep, SoundAt, Replay, RibInv;
    if k == 0 {
      NothingKnownIsSound(run.ribs[0], fib, n);
    } else {
      PeerViewIsSound(run, asn, fib, k - 1, n);
      RunKeepsInv(run, asn, k - 1);
      EventKeepsViewSound(ViewAfter(run.outs, k - 1), run.ribs[k - 1], fib, asn, run.events[k - 1],
                          Outcome(run.ribs[k], run.outs[k - 1]), n);
    }
  }

  lemma NothingKnownIsSound(rib: Rib, fib: Fib, n: Nlri)
    ensures SoundAt(map[], rib, fib, n)
  {
  }

  /** The view of a peer that has just been sent the whole table: the first route of every entry. */
  function TableView(rib: Rib): View {
    map n | n in rib && rib[n] != [] :: rib[n][0]
  }

  /** The dump asks nothing of the forwarding table. So a peer that joins later knows a route for
      every entry, and its view is sound exactly where the first route is reachable. */
  lemma TableViewIsSoundIff(rib: Rib, fib: Fib, asn: U16, n: Nlri)
    requires RibInv(rib, asn)
    ensures CompleteAt(TableView(rib), rib, fib, n)
    ensures SoundAt(TableView(rib), rib, fib, n) <==> (n in rib ==> rib[n] != [] && fib(rib[n][0].nextHop))
  {
    hide Cmp;
    if n in rib {
      var s := rib[n];
      assert EntryInv(s, asn);
      CmpLaws(s[0], s[0], s[0]);
      forall r <- s
        ensures AtMost(r, s[0])
      {
        var j :| 0 <= j < |s| && s[j] == r;
      }
    }
  }

  lemma {:induction false} OneReport(routes: seq<Delta>, k: nat)
    requires k < |routes| && forall i | 0 <= i < |routes| :: routes[i].nlri == routes[k].nlri ==> i == k
    ensures Reports(routes, routes[k].nlri) == [routes[k].best]
  {
    var n, rest := routes[k].nlri, routes[1..];
    assert forall i | 0 <= i < |rest| :: rest[i] == routes[i + 1];
    if k == 0 {
      NoReport(rest, n);
    } else {
      OneReport(rest, k - 1);
    }
  }

  lemma {:induction false} NoReport(routes: seq<Delta>, n: Nlri)
    requires forall d <- routes :: d.nlri != n
    ensures Reports(routes, n) == []
  {
    if routes != [] {
      NoReport(routes[1..], n);
    }
  }

  /** A dump tells its reader the table view and nothing else. */
  lemma DumpTellsTableView(rib: Rib, routes: seq<Delta>, n: Nlri)
    requires IsDump(rib, routes)
    ensures Lookup(Replay(map[], routes), n) == Lookup(TableView(rib), n)
  {
    hide Replay, Reports;
    ReplayAt(map[], routes, n);
    var ns := PrefixesOf(routes);
    if n in rib {
      var k :| 0 <= k < |ns| && ns[k] == n;
      assert IsFirst(rib, routes[k]);
      forall i | 0 <= i < |routes| && routes[i].nlri == n
        ensures i == k
      {
        assert ns[i] == ns[k];
      }
      OneReport(routes, k);
    } else {
      assert forall i | 0 <= i < |routes| :: routes[i].nlri == ns[i];
      NoReport(routes, n);
    }
  }

  /** What a peer that joins when the table is table `j` has seen by then. The manager changes the
      table before it tells the neighbours, so the reports of the last event may come `behind` the
      dump that already shows their effect. */
  ghost function ViewOnJoining(run: Run, j: nat, behind: bool): View
    requires j < |run.ribs| && j <= |run.outs|
  {
    if behind && j > 0 then Replay(TableView(run.ribs[j]), run.outs[j - 1]) else TableView(run.ribs[j])
  }

  /** Its view after it has replayed every later report too. */
  ghost function LateViewAfter(run: Run, j: nat, behind: bool, k: nat): View
    requires j <= k <= |run.outs| && j < |run.ribs|
  {
    if k == j then ViewOnJoining(run, j, behind) else Replay(LateViewAfter(run, j, behind, k - 1), run.outs[k - 1])
  }

  /** Reports that come behind the dump change a prefix to what they would have made of it before. */
  lemma ReplayBehind(view: View, before: View, modified: seq<Delta>, n: Nlri)
    ensures var late, sound := Lookup(Replay(view, modified), n), Lookup(Replay(before, modified), n);
            late == sound || (Reports(modified, n) == [] && late == Lookup(view, n))
  {
    ReplayAt(view, modified, n);
    ReplayAt(before, modified, n);
  }

  lemma JoiningViewIsSound(run: Run, asn: U16, fib: Fib, j: nat, behind: bool, n: Nlri)
    requires IsRun(run, asn) && j < |run.ribs|
    requires forall i | 0 <= i < |run.fibs| :: run.fibs[i] == fib
    requires n in run.ribs[j] && run.ribs[j][n] != [] ==> fib(run.ribs[j][n][0].nextHop)
    ensures SoundAt(ViewOnJoining(run, j, behind), run.ribs[j], fib, n)
  {
    hide EventStep, Replay, RibInv, Reports;
    RunKeepsInv(run, asn, j);
    if n in run.ribs[j] {
      EveryEntryHasAFirst(run, asn, j, n);
    }
    TableViewIsSoundIff(run.ribs[j], fib, asn, n);
    if behind && j > 0 {
      PeerViewIsSound(run, asn, fib, j, n);
      ReplayBehind(TableView(run.ribs[j]), ViewAfter(run.outs, j - 1), run.outs[j - 1], n);
      var late := Replay(TableView(run.ribs[j]), run.outs[j - 1]);
      if Lookup(late, n) == Lookup(ViewAfter(run.outs, j), n) {
        SoundByLookup(late, ViewAfter(run.outs, j), run.ribs[j], fib, n);
      } else {
        SoundByLookup(late, TableView(run.ribs[j]), run.ribs[j], fib, n);
      }
    }
  }

  lemma SoundByLookup(a: View, b: View, rib: Rib, fib: Fib, n: Nlri)
    requires Lookup(a, n) == Lookup(b, n)
    ensures SoundAt(a, rib, fib, n) <==> SoundAt(b, rib, fib, n)
  {
    hide AtMost;
  }

  /** A peer that joins later, with or without reports behind the dump, has a sound view of a prefix
      from then on, with a forwarding table that stays as it is, if the first route of the prefix was
      reachable when it joined. */
  lemma {:induction false} LatePeerViewIsSound(
    run: Run, asn: U16, fib: Fib, j: nat, behind: bool, k: nat, n: Nlri)
    requires IsRun(run, asn) && j <= k < |run.ribs|
    requires forall i | 0 <= i < |run.fibs| :: run.fibs[i] == fib
    requires n in run.ribs[j] && run.ribs[j][n] != [] ==> fib(run.ribs[j][n][0].nextHop)
    ensures SoundAt(LateViewAfter(run, j, behind, k), run.ribs[k], fib, n)
    decreases k
  {
    hide EventStep, SoundAt, Replay, RibInv, TableView, ViewOnJoining;
    if k == j {
      JoiningViewIsSound(run, asn, fib, j, behind, n);
    } else {
      LatePeerViewIsSound(run, asn, fib, j, behind, k - 1, n);
      RunKeepsInv(run, asn, k - 1);
      EventKeepsViewSound(LateViewAfter(run, j, behind, k - 1), run.ribs[k - 1], fib, asn, run.events[k - 1],
                          Outcome(run.ribs[k], run.outs[k - 1]), n);
    }
  }

  /** The number of copies of a route that a list of events leaves. */
  function CountOf(events: seq<RibEvent>, asn: U16, m: Nlri, r: Route): nat {
    if events == [] then 0
    else CountAfter(events[|events| - 1], asn, m, r, CountOf(events[..|events| - 1], asn, m, r))
  }

  lemma {:induction false} RunCounts(run: Run, asn: U16, k: nat, m: Nlri, r: Route)
    requires IsRun(run, asn) && k < |run.ribs|
    ensures Held(run.ribs[k], m)[r] == CountOf(run.events[..k], asn, m, r)
  {
    hide EventStep, CountAfter, RibInv;
    if k > 0 {
      RunCounts(run, asn, k - 1, m, r);
      RunKeepsInv(run, asn, k - 1);
      EventRefines(run.ribs[k - 1], run.fibs[k - 1], asn, run.events[k - 1],
                   Outcome(run.ribs[k], run.outs[k - 1]), m, r);
      assert run.events[..k][..k - 1] == run.events[..k - 1];
    }
  }

  /** An event as a session makes it: every route in it carries the session's router id. */
  predicate OfItsPeer(u: RibEvent) {
    && (u.added.Some? ==> u.added.value.attributes.peerRid == u.rid)
    && (u.withdrawn.Some? ==> u.withdrawn.value.attributes.peerRid == u.rid)
  }

  /** The events of one peer, in order. */
  function ByPeer(events: seq<RibEvent>, rid: U32): seq<RibEvent> {
    if events == [] then []
    else
      ByPeer(events[..|events| - 1], rid)
      + if events[|events| - 1].rid == rid then [events[|events| - 1]] else []
  }

  /** The routes of a peer depend on the events of that peer alone. */
  lemma {:induction false} CountOfByPeer(events: seq<RibEvent>, asn: U16, m: Nlri, r: Route)
    requires forall u <- events :: OfItsPeer(u)
    ensures CountOf(events, asn, m, r) == CountOf(ByPeer(events, r.peerRid), asn, m, r)
  {
    if events != [] {
      var init, last := events[..|events| - 1], events[|events| - 1];
      CountOfByPeer(init, asn, m, r);
      assert OfItsPeer(last);
      if last.rid == r.peerRid {
        assert ByPeer(events, r.peerRid)[..|ByPeer(init, r.peerRid)|] == ByPeer(init, r.peerRid);
      } else {
        assert ByPeer(init, r.peerRid) + [] == ByPeer(init, r.peerRid);
      }
    }
  }

  /** The same entry up to the order of routes that compare equal. */
  ghost predicate SameOrder(s: seq<Route>, t: seq<Route>) {
    |s| == |t| && forall i | 0 <= i < |s| :: Cmp(s[i], t[i]) == Equal
  }

  lemma DescendingWithout(t: seq<Route>, j: nat)
    requires Descending(t) && j < |t|
    ensures Descending(Without(t, j))
  {
    hide AtMost;
    var u := Without(t, j);
    assert forall i | 0 <= i < |u| :: u[i] == if i < j then t[i] else t[i + 1];
  }

  /** Every route up to a copy of the first of the other list has the rank of that first. */
  lemma LevelUpTo(s: seq<Route>, t: seq<Route>, j: nat, i: nat)
    requires Descending(s) && Descending(t) && i <= j < |t| && s != [] && t[j] == s[0] && t[0] in s
    ensures Cmp(t[i], s[0]) == Equal
  {
    hide Cmp;
    var k :| 0 <= k < |s| && s[k] == t[0];
    CmpLaws(t[0], t[0], t[0]);
    CmpLaws(t[i], s[0], t[i]);
    CmpLaws(t[i], t[0], s[0]);
    CmpLaws(t[i], t[i], t[i]);
  }

  lemma PutBack(s: seq<Route>, t: seq<Route>, j: nat, i: nat)
    requires Descending(s) && Descending(t) && j < |t| == |s| && t[j] == s[0] && t[0] in s && i < |s|
    requires SameOrder(s[1..], Without(t, j))
    ensures Cmp(s[i], t[i]) == Equal
  {
    hide Cmp, Descending;
    var u := Without(t, j);
    if i > j {
      assert s[i] == s[1..][i - 1] && t[i] == u[i - 1];
    } else if i == 0 {
      LevelUpTo(s, t, j, 0);
      CmpLaws(t[0], s[0], s[0]);
    } else {
      assert s[i] == s[1..][i - 1] && t[i - 1] == u[i - 1];
      LevelUpTo(s, t, j, i - 1);
      LevelUpTo(s, t, j, i);
      CmpLaws(s[i], t[i - 1], t[i]);
      CmpLaws(t[i - 1], s[0], t[i]);
      CmpLaws(t[i], s[0], t[i]);
    }
  }

  /** Two descending lists of the same routes agree place by place. */
  lemma {:induction false} SortedAlike(s: seq<Route>, t: seq<Route>)
    requires Descending(s) && Descending(t) && multiset(s) == multiset(t)
    ensures SameOrder(s, t)
    decreases |s|
  {
    hide AtMost, Descending, Without;
    assert |s| == |multiset(s)| == |multiset(t)| == |t|;
    if s != [] {
      assert s[0] in multiset(t) && t[0] in multiset(s);
      var j :| 0 <= j < |t| && t[j] == s[0];
      DescendingTail(s);
      DescendingWithout(t, j);
      MultisetWithout(t, j);
      MultisetTail(s);
      assert multiset(s[1..]) == multiset(s) - multiset{s[0]} == multiset(Without(t, j));
      SortedAlike(s[1..], Without(t, j));
      forall i | 0 <= i < |s|
        ensures Cmp(s[i], t[i]) == Equal
      {
        PutBack(s, t, j, i);
      }
    }
  }

  lemma MultisetTail(s: seq<Route>)
    requires s != []
    ensures multiset(s) == multiset(s[1..]) + multiset{s[0]}
  {
    assert s == [s[0]] + s[1..];
  }

  /** The tables hold the same routes for the prefix, in the same order up to equal ones. */
  ghost predicate SameEntry(a: Rib, b: Rib, n: Nlri) {
    && (n in a <==> n in b)
    && (n in a && n in b ==> multiset(a[n]) == multiset(b[n]) && SameOrder(a[n], b[n]))
  }

  /** Confluence: two interleavings of the same per-peer streams of additions, withdrawals and
      whole-peer withdrawals end in the same table. */
  lemma Confluence(one: Run, two: Run, asn: U16, n: Nlri)
    requires IsRun(one, asn) && IsRun(two, asn)
    requires forall u <- one.events :: OfItsPeer(u)
    requires forall u <- two.events :: OfItsPeer(u)
    requires forall rid: U32 :: ByPeer(one.events, rid) == ByPeer(two.events, rid)
    ensures SameEntry(Last(one), Last(two), n)
  {
    hide EventStep, CountOf, ByPeer, OfItsPeer, Cmp;
    var k, l := |one.events|, |two.events|;
    assert one.events[..k] == one.events && two.events[..l] == two.events;
    forall r: Route
      ensures Held(Last(one), n)[r] == Held(Last(two), n)[r]
    {
      RunCounts(one, asn, k, n, r);
      RunCounts(two, asn, l, n, r);
      CountOfByPeer(one.events, asn, n, r);
      CountOfByPeer(two.events, asn, n, r);
    }
    assert Held(Last(one), n) == Held(Last(two), n);
    RunKeepsInv(one, asn, k);
    RunKeepsInv(two, asn, l);
    SameHeldSameEntry(Last(one), Last(two), asn, n);
  }

  lemma SameHeldSameEntry(a: Rib, b: Rib, asn: U16, n: Nlri)
    requires RibInv(a, asn) && RibInv(b, asn) && Held(a, n) == Held(b, n)
    ensures SameEntry(a, b, n)
  {
    hide Cmp;
    assert n in a ==> EntryInv(a[n], asn);
    assert n in b ==> EntryInv(b[n], asn);
    if n in a {
      assert a[n][0] in Held(a, n);
    }
    if n in b {
      assert b[n][0] in Held(b, n);
    }
    if n in a && n in b {
      SortedAlike(a[n], b[n]);
    }
  }

  function Announcement(n: Nlri, r: Route): RibEvent {
    RibEvent(Some(RibUpdate([n], r)), None, r.peerRid)
  }

  function Withdrawal(n: Nlri, r: Route): RibEvent {
    RibEvent(None, Some(RibUpdate([n], r)), r.peerRid)
  }

  lemma AnnouncementStep(rib: Rib, fib: Fib, asn: U16, n: Nlri, r: Route)
    ensures EventStep(rib, fib, asn, Announcement(n, r), Added(rib, fib, asn, [n], r))
  {
    hide Added;
    assert EventOrder(rib, fib, asn, Announcement(n, r), []);
  }

  lemma WithdrawalStep(rib: Rib, fib: Fib, asn: U16, n: Nlri, r: Route)
    ensures EventStep(rib, fib, asn, Withdrawal(n, r), Withdrawn(rib, fib, r.peerRid, [n]))
  {
    hide Withdrawn;
    var u := Withdrawal(n, r);
    assert EventOrder(rib, fib, asn, u, [n]);
    assert [] + Withdrawn(rib, fib, r.peerRid, [n]).modified == Withdrawn(rib, fib, r.peerRid, [n]).modified;
    assert Processed(rib, fib, asn, u, [n]) == Withdrawn(rib, fib, r.peerRid, [n]);
  }

  /** The table after two announcements of a prefix, the better route first. */
  function TwoRoutes(asn: U16, n: Nlri, r: Route, t: Route, fib: Fib): Rib {
    Added(Added(map[], fib, asn, [n], r).rib, fib, asn, [n], t).rib
  }

  lemma FirstRouteHeld(asn: U16, n: Nlri, r: Route, fib: Fib)
    requires LoopFree(r, asn) && fib(r.nextHop)
    ensures var rib := Added(map[], fib, asn, [n], r).rib;
            RibInv(rib, asn) && Held(rib, n)[r] > 0 && SameRank(BestOf(rib, fib, n), Some(r))
  {
    hide Cmp, Added, LoopFree, SameRank;
    assert RibInv(map[], asn);
    AddedRefines(map[], fib, asn, [n], r, n, r);
    AddedDelta(map[], fib, asn, [n], r, n);
  }

  lemma TwoRoutesHeld(asn: U16, n: Nlri, r: Route, t: Route, fib: Fib)
    requires LoopFree(r, asn) && LoopFree(t, asn) && fib(r.nextHop) && Cmp(t, r) == Less
    ensures var rib := TwoRoutes(asn, n, r, t, fib);
            && RibInv(rib, asn) && Held(rib, n)[r] > 0 && Held(rib, n)[t] > 0
            && SameRank(BestOf(rib, fib, n), Some(r))
  {
    hide Cmp, Added, LoopFree, BestOf, Held, RibInv;
    FirstRouteHeld(asn, n, r, fib);
    var one := Added(map[], fib, asn, [n], r).rib;
    AddedRefines(one, fib, asn, [n], t, n, r);
    AddedRefines(one, fib, asn, [n], t, n, t);
    AddedDelta(one, fib, asn, [n], t, n);
    var best := BestOf(one, fib, n);
    CmpLaws(best.value, r, t);
    CmpLaws(t, best.value, t);
    CmpLaws(t, r, t);
    RankLaws(best, Some(r), BestOf(TwoRoutes(asn, n, r, t, fib), fib, n));
    RankLaws(BestOf(TwoRoutes(asn, n, r, t, fib), fib, n), best, Some(r));
  }

  lemma BestIsLost(asn: U16, n: Nlri, r: Route, t: Route, fib: Fib)
    requires LoopFree(r, asn) && LoopFree(t, asn) && fib(r.nextHop) && fib(t.nextHop)
    requires Cmp(t, r) == Less && r.peerRid != t.peerRid
    ensures LeavesBackup(TwoRoutes(asn, n, r, t, fib), fib, r.peerRid, n)
  {
    hide Cmp, LoopFree, BestReachable, RibInv, TwoRoutes;
    TwoRoutesHeld(asn, n, r, t, fib);
    var rib := TwoRoutes(asn, n, r, t, fib);
    EqualRoutes(BestOf(rib, fib, n).value, r);
    assert t in rib[n];
  }

  /** Two peers announce a prefix and the better route is withdrawn: a peer told everything from the
      start knows no route for it, while the table offers one. */
  lemma BackupStaysUnknown(asn: U16, n: Nlri, r: Route, t: Route, fib: Fib) returns (run: Run)
    requires LoopFree(r, asn) && LoopFree(t, asn) && fib(r.nextHop) && fib(t.nextHop)
    requires Cmp(t, r) == Less && r.peerRid != t.peerRid
    ensures IsRun(run, asn) && |run.outs| == 3
    ensures !CompleteAt(ViewAfter(run.outs, 3), Last(run), fib, n)
  {
    hide Cmp, EventStep, Added, Withdrawn, Replay, LoopFree, CompleteAt, LeavesBackup, RibInv;
    var one := Added(map[], fib, asn, [n], r);
    var two := Added(one.rib, fib, asn, [n], t);
    var three := Withdrawn(two.rib, fib, r.peerRid, [n]);
    AnnouncementStep(map[], fib, asn, n, r);
    AnnouncementStep(one.rib, fib, asn, n, t);
    WithdrawalStep(two.rib, fib, asn, n, r);
    run := Run.Run([map[], one.rib, two.rib, three.rib],
                   [Announcement(n, r), Announcement(n, t), Withdrawal(n, r)], [fib, fib, fib],
                   [one.modified, two.modified, three.modified]);
    assert ViewAfter(run.outs, 1) == Replay(ViewAfter(run.outs, 0), one.modified);
    assert ViewAfter(run.outs, 2) == Replay(ViewAfter(run.outs, 1), two.modified);
    assert ViewAfter(run.outs, 3) == Replay(ViewAfter(run.outs, 2), three.modified);
    hide ViewAfter, IsRun;
    KnownAtFirst(fib, asn, n);
    AddedKeepsViewComplete(map[], map[], fib, asn, [n], r, n);
    FirstRouteHeld(asn, n, r, fib);
    AddedKeepsViewComplete(Replay(map[], one.modified), one.rib, fib, asn, [n], t, n);
    BestIsLost(asn, n, r, t, fib);
    WithdrawnKeepsViewCompleteIff(Replay(Replay(map[], one.modified), two.modified), two.rib, fib, r.peerRid, [n], n);
  }

  lemma KnownAtFirst(fib: Fib, asn: U16, n: Nlri)
    ensures RibInv(map[], asn) && CompleteAt(map[], map[], fib, n)
  {
  }

  /** One announcement with an unreachable next hop, and a peer that joins then is told of it. */
  lemma UnreachableIsTold(asn: U16, n: Nlri, r: Route, fib: Fib) returns (run: Run)
    requires LoopFree(r, asn) && !fib(r.nextHop)
    ensures IsRun(run, asn) && run.fibs == [fib]
    ensures !SoundAt(TableView(Last(run)), Last(run), fib, n)
  {
    hide Cmp, EventStep, LoopFree, Resort, BestReachable;
    var one := Added(map[], fib, asn, [n], r);
    AnnouncementStep(map[], fib, asn, n, r);
    run := Run.Run([map[], one.rib], [Announcement(n, r)], [fib], [one.modified]);
    assert [n][1..] == [];
    assert one.rib == AddOne(map[], fib, asn, r, n).rib;
  }
}
