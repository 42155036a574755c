/** From the manager's reports to the table of the neighbour at the other end of an external session:
    what one event's batch becomes there, and when the neighbour follows the reports
    (src/speaker/manager.rs:158-207, src/neighbor/connection.rs:37-120,
    src/neighbor/message_handler.rs:478-563). */
module Propagations {
  import opened Basics
  import opened Bytes
  import opened Types
  import opened Nlris
  import opened Attributes
  import opened Routes
  import opened LocRibs
  import opened LocRibDeltas
  import opened LocRibRuns
  import opened Sessions
  import opened SendUpdates
  import Updates

  /** The batch reports a route for the network that did not come from the neighbour itself. */
  ghost predicate Announces(batch: seq<Delta>, rid: U32, x: Nlri) {
    exists d <- batch :: Network(d.nlri) == x && d.best.Some? && d.best.value.peerRid != rid
  }

  ghost predicate Withdraws(batch: seq<Delta>, x: Nlri) {
    exists d <- batch :: Network(d.nlri) == x && d.best.None?
  }

  /** The reports as they look on the wire, where prefixes have no host bits. */
  function Nets(batch: seq<Delta>): (nets: seq<Delta>)
    ensures |nets| == |batch|
  {
    if batch == [] then [] else [batch[0].(nlri := Network(batch[0].nlri))] + Nets(batch[1..])
  }

  lemma MembersOf(batch: seq<Delta>)
    requires batch != []
    ensures forall d :: d in batch <==> d == batch[0] || d in batch[1..]
  {
    assert batch == [batch[0]] + batch[1..];
  }

  /** The first report, and those behind it. */
  lemma TellsMore(batch: seq<Delta>, rid: U32, x: Nlri)
    requires batch != []
    ensures var d, rest := batch[0], batch[1..];
            && (Announces(batch, rid, x) <==>
                  Announces(rest, rid, x) || (Network(d.nlri) == x && d.best.Some? && d.best.value.peerRid != rid))
            && (Withdraws(batch, x) <==> Withdraws(rest, x) || (Network(d.nlri) == x && d.best.None?))
  {
    hide Network;
    MembersOf(batch);
  }

  lemma ReportsMore(batch: seq<Delta>, x: Nlri)
    requires batch != []
    ensures Reports(Nets(batch), x) ==
            (if Network(batch[0].nlri) == x then [batch[0].best] else []) + Reports(Nets(batch[1..]), x)
  {
    hide Network;
    assert Nets(batch)[1..] == Nets(batch[1..]);
  }

  lemma {:induction false} NewsAnnounce(batch: seq<Delta>, rid: U32, x: Nlri)
    ensures x in Networks(NlrisOf(News(batch, rid))) <==> Announces(batch, rid, x)
  {
    hide Network;
    if batch != [] {
      var d, rest := batch[0], batch[1..];
      NewsAnnounce(rest, rid, x);
      var head := if d.best.Some? && d.best.value.peerRid != rid then [Entry(d.nlri, d.best.value)] else [];
      assert News(batch, rid) == head + News(rest, rid);
      NetworksOfTwo(head, News(rest, rid));
      TellsMore(batch, rid, x);
      hide Announces, News;
      NetworksOfOne(d.nlri);
      assert NlrisOf(head) == if head == [] then [] else [d.nlri];
    }
  }

  lemma NetworksOfTwo(a: seq<Entry>, b: seq<Entry>)
    ensures Networks(NlrisOf(a + b)) == Networks(NlrisOf(a)) + Networks(NlrisOf(b))
  {
    assert NlrisOf(a + b) == NlrisOf(a) + NlrisOf(b);
    NetworksSplit(NlrisOf(a), NlrisOf(b));
  }

  lemma {:induction false} GoneWithdraw(batch: seq<Delta>, x: Nlri)
    ensures x in Networks(Gone(batch)) <==> Withdraws(batch, x)
  {
    hide Network;
    if batch != [] {
      var d, rest := batch[0], batch[1..];
      GoneWithdraw(rest, x);
      var head := if d.best.None? then [d.nlri] else [];
      assert Gone(batch) == head + Gone(rest);
      NetworksSplit(head, Gone(rest));
      NetworksOfOne(d.nlri);
      TellsMore(batch, 0, x);
    }
  }

  lemma NetworksIn(ns: seq<Nlri>, ms: seq<Nlri>, x: Nlri)
    requires multiset(ns) == multiset(ms)
    ensures x in Networks(ns) <==> x in Networks(ms)
  {
    hide Network;
    NetworksKeepAll(ns);
    NetworksKeepAll(ms);
    forall n
      ensures n in ns <==> n in ms
    {
      assert n in multiset(ns) <==> n in multiset(ms);
    }
    assert x in Networks(ns) <==> exists n <- ns :: Network(n) == x;
    assert x in Networks(ms) <==> exists n <- ms :: Network(n) == x;
  }

  /** What the neighbour takes a message to be about: IPv4 unicast, and the message's own prefixes. */
  lemma SentParts(
    localAsn: U16, remoteAsn: U16, localIp: IpAddr, rid: U32, batch: seq<Delta>, m: Updates.UpdateMessage)
    requires SentFor(localAsn, remoteAsn, localIp, rid, batch, m)
    ensures PartsOf(Updates.Canonical(m)) == Parts(IPV4_UNICAST, Networks(m.nlri), Networks(m.withdrawn), None)
  {
    hide SentFor, Announced, Plain, Networks;
    forall k | 0 <= k < |m.attributes|
      ensures Plain(m.attributes[k])
    {
      var r := SentFrom(localAsn, remoteAsn, localIp, rid, batch, m, k);
      AnnouncedArePlain(localAsn, remoteAsn, localIp, r, m.attributes[k]);
    }
    NothingMultiprotocol(m.attributes);
  }

  lemma {:induction false} NothingMultiprotocol(attrs: seq<PathAttribute>)
    requires forall k | 0 <= k < |attrs| :: Plain(attrs[k])
    ensures FirstMp(Updates.Normals(attrs)) == None
  {
    if attrs != [] {
      assert Plain(attrs[0]);
      assert forall k | 0 <= k < |attrs[1..]| :: attrs[1..][k] == attrs[k + 1];
      NothingMultiprotocol(attrs[1..]);
      assert Updates.Normals(attrs)[1..] == Updates.Normals(attrs[1..]);
    }
  }

  /** The neighbour's Adj-RIB after the message for a batch, prefix by prefix: it announces over what it
      withdraws. */
  lemma NeighbourAfter(
    localAsn: U16, remoteAsn: U16, localIp: IpAddr, rid: U32, batch: seq<Delta>, m: Updates.UpdateMessage,
    adj: AdjRib, attrs: Route, x: Nlri)
    requires SentFor(localAsn, remoteAsn, localIp, rid, batch, m) && localAsn != remoteAsn
    ensures x in FamilyRib(AdjAfter(adj, PartsOf(Updates.Canonical(m)), attrs), IPV4_UNICAST) <==>
            Announces(batch, rid, x) || (x in FamilyRib(adj, IPV4_UNICAST) && !Withdraws(batch, x))
  {
    hide SentFor, AdjAfter, Networks, FamilyRib, Announces, Withdraws, PartsOf, Updates.Canonical;
    SentParts(localAsn, remoteAsn, localIp, rid, batch, m);
    AdjAfterAt(adj, PartsOf(Updates.Canonical(m)), attrs, IPV4_UNICAST, x);
    SendConserves(localAsn, remoteAsn, localIp, rid, batch, m);
    NewsAnnounce(batch, rid, x);
    GoneWithdraw(batch, x);
    NetworksIn(m.nlri, NlrisOf(News(batch, rid)), x);
  }

  /** The neighbour has the network in its table exactly when the reports give it a route that is not
      the neighbour's own. */
  ghost predicate Tracks(view: View, adj: AdjRib, rid: U32, x: Nlri) {
    x in FamilyRib(adj, IPV4_UNICAST) <==> Lookup(view, x).Some? && Lookup(view, x).value.peerRid != rid
  }

  /** What a batch must be like for that: it does not report a route before it withdraws the network, and
      not a route of the neighbour's own, which is left out, while the neighbour keeps another. */
  ghost predicate Followed(batch: seq<Delta>, rid: U32, known: bool, x: Nlri) {
    var reports := Reports(Nets(batch), x);
    reports == [] ||
    match reports[|reports| - 1]
    case None => !Announces(batch, rid, x)
    case Some(r) => r.peerRid != rid || (!Announces(batch, rid, x) && (known ==> Withdraws(batch, x)))
  }

  lemma {:induction false} ReportsTold(batch: seq<Delta>, rid: U32, x: Nlri)
    ensures var reports := Reports(Nets(batch), x);
            && (Announces(batch, rid, x) ==> reports != [])
            && (Withdraws(batch, x) ==> reports != [])
            && (reports != [] ==>
                  match reports[|reports| - 1]
                  case None => Withdraws(batch, x)
                  case Some(r) => r.peerRid != rid ==> Announces(batch, rid, x))
  {
    hide Network, Announces, Withdraws, Nets, Reports;
    if batch == [] {
      NothingTold(rid, x);
    } else {
      ReportsTold(batch[1..], rid, x);
      TellsMore(batch, rid, x);
      ReportsMore(batch, x);
    }
  }

  lemma NothingTold(rid: U32, x: Nlri)
    ensures !Announces([], rid, x) && !Withdraws([], x) && Reports(Nets([]), x) == []
  {
  }

  /** A neighbour that followed the reports follows them after the message for a batch has arrived exactly
      when the batch is followed: told for every network, whatever the batch. */
  lemma TracksIff(
    localAsn: U16, remoteAsn: U16, localIp: IpAddr, rid: U32, batch: seq<Delta>, m: Updates.UpdateMessage,
    view: View, adj: AdjRib, attrs: Route, x: Nlri)
    requires SentFor(localAsn, remoteAsn, localIp, rid, batch, m) && localAsn != remoteAsn
    requires Tracks(view, adj, rid, x)
    ensures Tracks(Replay(view, Nets(batch)), AdjAfter(adj, PartsOf(Updates.Canonical(m)), attrs), rid, x) <==>
            Followed(batch, rid, x in FamilyRib(adj, IPV4_UNICAST), x)
  {
    hide SentFor, AdjAfter, FamilyRib, Announces, Withdraws, PartsOf, Updates.Canonical, Nets, Replay, Reports;
    NeighbourAfter(localAsn, remoteAsn, localIp, rid, batch, m, adj, attrs, x);
    ReplayAt(view, Nets(batch), x);
    ReportsTold(batch, rid, x);
  }

  /** No announced prefix of the event has the network of one that is withdrawn. */
  ghost predicate Untangled(u: RibEvent, order: seq<Nlri>) {
    u.added.Some? && u.withdrawn.Some? ==>
      forall a <- u.added.value.nlris, w <- order :: Network(a) != Network(w)
  }

  lemma ReportedPrefixes(rib: Rib, fib: Fib, asn: U16, u: RibEvent, order: seq<Nlri>, d: Delta)
    requires EventOrder(rib, fib, asn, u, order) && d in Processed(rib, fib, asn, u, order).modified
    ensures if d.best.Some?
            then u.added.Some? && d.nlri in u.added.value.nlris && d.best.value == u.added.value.attributes
            else u.withdrawn.Some? && d.nlri in order
  {
    hide Added, Withdrawn, WithdrawalOrder;
    var a := AfterAdded(rib, fib, asn, u);
    if d in a.modified {
      AddedReportsAnnounced(rib, fib, asn, u.added.value.nlris, u.added.value.attributes, d);
    } else {
      WithdrawnReportsNone(a.rib, fib, u.withdrawn.value.attributes.peerRid, order, d);
    }
  }

  /** So a neighbour follows what the events of other peers change, as long as no event announces and
      withdraws one network. */
  lemma OthersAreFollowed(
    rib: Rib, fib: Fib, asn: U16, u: RibEvent, order: seq<Nlri>, rid: U32, known: bool, x: Nlri)
    requires EventOrder(rib, fib, asn, u, order) && Untangled(u, order)
    requires u.added.Some? ==> u.added.value.attributes.peerRid != rid
    ensures Followed(Processed(rib, fib, asn, u, order).modified, rid, known, x)
  {
    hide EventOrder, Processed, Reports, Nets, Network;
    var batch := Processed(rib, fib, asn, u, order).modified;
    ReportsTold(batch, rid, x);
    var reports := Reports(Nets(batch), x);
    if reports != [] {
      var last := reports[|reports| - 1];
      if last.Some? {
        NothingTold(0, x);
        ReportsAreReported(batch, x, |reports| - 1);
        var d :| d in batch && Network(d.nlri) == x && d.best == last;
        ReportedPrefixes(rib, fib, asn, u, order, d);
      } else if Announces(batch, rid, x) {
        var d :| d in batch && Network(d.nlri) == x && d.best.Some? && d.best.value.peerRid != rid;
        var e :| e in batch && Network(e.nlri) == x && e.best.None?;
        ReportedPrefixes(rib, fib, asn, u, order, d);
        ReportedPrefixes(rib, fib, asn, u, order, e);
      }
    }
  }

  lemma {:induction false} ReportsAreReported(batch: seq<Delta>, x: Nlri, k: nat)
    requires batch != [] && k < |Reports(Nets(batch), x)|
    ensures exists d <- batch :: Network(d.nlri) == x && d.best == Reports(Nets(batch), x)[k]
  {
    hide Network, Nets, Reports;
    MembersOf(batch);
    ReportsMore(batch, x);
    var rest := batch[1..];
    var head := if Network(batch[0].nlri) == x then [batch[0].best] else [];
    if k < |head| {
      assert batch[0] in batch;
    } else {
      NothingTold(0, x);
      ReportsAreReported(rest, x, k - |head|);
      var d :| d in rest && Network(d.nlri) == x && d.best == Reports(Nets(rest), x)[k - |head|];
      assert d in batch;
    }
  }

  /** A route of the neighbour's own becomes the best: nothing is sent, and the neighbour keeps the route
      it was told before. */
  lemma OwnBestIsStale(rid: U32, n: Nlri, r: Route)
    requires r.peerRid == rid && Network(n) == n
    ensures !Followed([Delta(n, Some(r))], rid, true, n)
  {
    var batch := [Delta(n, Some(r))];
    assert batch[1..] == [];
    assert Nets(batch) == [Delta(n, Some(r))];
    assert Reports(Nets(batch), n) == [Some(r)] + Reports(Nets(batch)[1..], n);
    assert Reports(Nets(batch), n) == [Some(r)];
  }

  /** An event that announces and withdraws a network: the neighbour is told of both in one message and
      keeps the route, while the table has none. */
  lemma BothIsKept(asn: U16, fib: Fib, rid: U32, n: Nlri, r: Route) returns (u: RibEvent, out: Outcome)
    requires LoopFree(r, asn) && fib(r.nextHop) && r.peerRid != rid && Network(n) == n
    ensures EventStep(map[], fib, asn, u, out) && n !in out.rib
    ensures forall known :: !Followed(out.modified, rid, known, n)
  {
    u := RibEvent(Some(RibUpdate([n], r)), Some(RibUpdate([n], r)), r.peerRid);
    out := Processed(map[], fib, asn, u, [n]);
    assert EventOrder(map[], fib, asn, u, [n]);
    var batch := [Delta(n, Some(r)), Delta(n, None)];
    AddThenWithdraw(asn, fib, n, r);
    hide Processed, EventOrder, Network;
    assert out.modified == batch && n !in out.rib;
    assert batch[1..] == [Delta(n, None)] && batch[1..][1..] == [];
    assert Nets(batch) == batch;
    assert Reports(batch, n) == [Some(r)] + Reports(batch[1..], n);
    assert Reports(batch[1..], n) == [None] + Reports([], n);
    assert Reports(batch, n) == [Some(r), None];
    assert batch[0] in batch;
  }

  lemma AddThenWithdraw(asn: U16, fib: Fib, n: Nlri, r: Route)
    requires LoopFree(r, asn) && fib(r.nextHop)
    ensures var u := RibEvent(Some(RibUpdate([n], r)), Some(RibUpdate([n], r)), r.peerRid);
            Processed(map[], fib, asn, u, [n]) == Outcome(map[], [Delta(n, Some(r)), Delta(n, None)])
  {
    hide Cmp, LoopFree, Resort, Added, Withdrawn;
    OnePrefix(map[], fib, asn, n, r);
    var rib := map[n := [r]];
    assert AddOne(map[], fib, asn, r, n) == Outcome(rib, [Delta(n, Some(r))]);
    OnePrefix(rib, fib, asn, n, r);
    assert [r][1..] == [] && Retain([r], r.peerRid) == [] && BestReachable(fib, [r]) == Some(r);
    assert rib[n] == [r] && rib - {n} == map[];
    assert WithdrawOne(rib, fib, r.peerRid, n) == Outcome(map[], [Delta(n, None)]);
  }

  lemma OnePrefix(rib: Rib, fib: Fib, asn: U16, n: Nlri, r: Route)
    ensures Added(rib, fib, asn, [n], r) == AddOne(rib, fib, asn, r, n)
    ensures Withdrawn(rib, fib, r.peerRid, [n]) == WithdrawOne(rib, fib, r.peerRid, n)
  {
    hide AddOne, WithdrawOne;
    assert [n][1..] == [];
    assert AddOne(rib, fib, asn, r, n).modified + [] == AddOne(rib, fib, asn, r, n).modified;
    assert WithdrawOne(rib, fib, r.peerRid, n).modified + [] == WithdrawOne(rib, fib, r.peerRid, n).modified;
  }

  /** The routes that one event reports are all the same, so nothing is lost when they go out in one
      message, but a next hop that cannot be told: attributes are mixed up in table dumps alone. */
  lemma EventMergesFaithfullyIff(
    rib: Rib, fib: Fib, asn: U16, u: RibEvent, out: Outcome,
    localAsn: U16, remoteAsn: U16, localIp: IpAddr, rid: U32, groups: seq<Group>)
    requires EventStep(rib, fib, asn, u, out) && Grouping(groups, News(out.modified, rid))
    ensures var m := MessageOf(localAsn, remoteAsn, localIp, out.modified, groups);
            var sent := Members(Outgoing(localAsn, remoteAsn, groups));
            && (sent != [] ==> u.added.Some?)
            && (Faithful(localAsn, remoteAsn, localIp, sent, SayAll(UNSAID, m.attributes)) <==>
                  sent != [] ==>
                    (if localAsn == remoteAsn then u.added.value.attributes.nextHop else localIp).afi == Ipv4)
  {
    hide EventStep, Members, Outgoing, Faithful, SayAll, MessageOf, LoopFree;
    MergeIsFaithfulIff(localAsn, remoteAsn, localIp, rid, out.modified, groups);
    var sent := Members(Outgoing(localAsn, remoteAsn, groups));
    OutgoingIsPart(localAsn, remoteAsn, groups);
    forall e <- sent
      ensures u.added.Some? && e.route == u.added.value.attributes
    {
      assert e in multiset(sent);
      assert e in multiset(News(out.modified, rid));
      NewsFromBatch(out.modified, rid, e);
      var d :| d in out.modified && d.best == Some(e.route);
      EventReports(rib, fib, asn, u, out, d);
    }
    if sent != [] {
      assert sent[0] in sent;
    }
  }

  /** Two announcements make a table whose dump is any two routes for two prefixes: the batches in which
      attributes are lost are sent to a peer that joins. */
  lemma TwoNewsAreDumped(asn: U16, fib: Fib, n: Nlri, r: Route, k: Nlri, t: Route) returns (run: LocRibRuns.Run)
    requires n != k && LoopFree(r, asn) && LoopFree(t, asn)
    ensures LocRibRuns.IsRun(run, asn) && IsDump(Last(run), TwoNews(n, r, k, t))
  {
    hide LoopFree, EventStep;
    var one := Added(map[], fib, asn, [n], r);
    var two := Added(one.rib, fib, asn, [k], t);
    LocRibRuns.AnnouncementStep(map[], fib, asn, n, r);
    LocRibRuns.AnnouncementStep(one.rib, fib, asn, k, t);
    assert one.rib == map[n := [r]] by {
      AddsAlone(map[], fib, asn, n, r);
    }
    assert two.rib == map[n := [r]][k := [t]] by {
      AddsAlone(one.rib, fib, asn, k, t);
    }
    hide Added;
    run := LocRibRuns.Run.Run([map[], one.rib, two.rib], [LocRibRuns.Announcement(n, r), LocRibRuns.Announcement(k, t)],
                              [fib, fib], [one.modified, two.modified]);
    assert PrefixesOf(TwoNews(n, r, k, t)) == [n, k];
  }

  lemma AddsAlone(rib: Rib, fib: Fib, asn: U16, n: Nlri, r: Route)
    requires n !in rib && LoopFree(r, asn)
    ensures Added(rib, fib, asn, [n], r).rib == rib[n := [r]]
  {
    hide LoopFree, Resort, BestReachable, Added;
    OnePrefix(rib, fib, asn, n, r);
  }
}
