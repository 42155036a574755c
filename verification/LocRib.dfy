/** The Loc-RIB manager (src/speaker/manager.rs). */
module LocRibs {
  import opened Basics
  import opened Bytes
  import opened Nlris
  import opened Routes

  type Rib = map<Nlri, seq<Route>>

  /** The forwarding table, of which only the question "is there a route to this hop" is asked. */
  type Fib = IpAddr -> bool

  datatype RibUpdate = RibUpdate(nlris: seq<Nlri>, attributes: Route)

  /** What a session sends to the manager. */
  datatype RibEvent = RibEvent(added: Option<RibUpdate>, withdrawn: Option<RibUpdate>, rid: U32)

  /** A prefix and its new best route, if it still is to have one. */
  datatype Delta = Delta(nlri: Nlri, best: Option<Route>)

  datatype Outcome = Outcome(rib: Rib, modified: seq<Delta>)

  /** The first route of the list with a reachable next hop. */
  function BestReachable(fib: Fib, s: seq<Route>): Option<Route> {
    if s == [] then None
    else if fib(s[0].nextHop) then Some(s[0])
    else BestReachable(fib, s[1..])
  }

  method FindBestReachable(fib: Fib, attributes: seq<Route>) returns (best: Option<Route>)
    ensures best == BestReachable(fib, attributes)
  {
    for k := 0 to |attributes|
      invariant BestReachable(fib, attributes) == BestReachable(fib, attributes[k..])
    {
      if fib(attributes[k].nextHop) {
        return Some(attributes[k]);
      }
    }
    best := None;
  }

  /** Behind every element that is not greater: how a stable sort places an element. */
  function Insert(r: Route, s: seq<Route>): seq<Route> {
    if s == [] || Cmp(s[0], r) == Greater then [r] + s else [s[0]] + Insert(r, s[1..])
  }

  /** `Vec::sort`: ascending and stable. */
  function StableSort(s: seq<Route>): seq<Route> {
    if s == [] then [] else Insert(s[|s| - 1], StableSort(s[..|s| - 1]))
  }

  /** `Vec::reverse`. */
  function Reversed(s: seq<Route>): (r: seq<Route>)
    ensures |r| == |s|
  {
    if s == [] then [] else Reversed(s[1..]) + [s[0]]
  }

  /** How an entry is put in order again after a push: sort, then reverse. */
  function Resort(s: seq<Route>): seq<Route> {
    Reversed(StableSort(s))
  }

  ghost predicate Descending(s: seq<Route>) {
    forall i, j | 0 <= i < j < |s| :: AtMost(s[j], s[i])
  }

  ghost predicate Ascending(s: seq<Route>) {
    forall i, j | 0 <= i < j < |s| :: AtMost(s[i], s[j])
  }

  lemma AscendingTail(s: seq<Route>)
    requires s != [] && Ascending(s)
    ensures Ascending(s[1..]) && forall x <- s[1..] :: AtMost(s[0], x)
  {
    hide AtMost;
    var rest := s[1..];
    assert forall i | 0 <= i < |rest| :: rest[i] == s[i + 1];
  }

  lemma AscendingCons(x: Route, s: seq<Route>)
    requires Ascending(s) && forall y <- s :: AtMost(x, y)
    ensures Ascending([x] + s)
  {
    hide AtMost;
    var t := [x] + s;
    assert forall i | 1 <= i < |t| :: t[i] == s[i - 1];
  }

  lemma {:induction false} InsertSorts(r: Route, s: seq<Route>)
    requires Ascending(s)
    ensures Ascending(Insert(r, s)) && multiset(Insert(r, s)) == multiset(s) + multiset{r}
  {
    hide Cmp;
    if s == [] {
    } else if Cmp(s[0], r) == Greater {
      AscendingTail(s);
      forall y <- s
        ensures AtMost(r, y)
      {
        CmpLaws(s[0], r, r);
        CmpLaws(r, s[0], y);
      }
      AscendingCons(r, s);
    } else {
      AscendingTail(s);
      var rest := s[1..];
      assert s == [s[0]] + rest;
      InsertSorts(r, rest);
      forall y <- Insert(r, rest)
        ensures AtMost(s[0], y)
      {
        assert y in multiset(Insert(r, rest));
        assert y == r || y in rest;
      }
      AscendingCons(s[0], Insert(r, rest));
    }
  }

  lemma {:induction false} StableSortSorts(s: seq<Route>)
    ensures Ascending(StableSort(s)) && multiset(StableSort(s)) == multiset(s)
  {
    if s != [] {
      var init, last := s[..|s| - 1], s[|s| - 1];
      assert StableSort(s) == Insert(last, StableSort(init));
      StableSortSorts(init);
      hide StableSort, Insert, Ascending;
      InsertSorts(last, StableSort(init));
      assert s == init + [last];
    }
  }

  lemma {:induction false} ReversedAt(s: seq<Route>)
    ensures forall k | 0 <= k < |s| :: Reversed(s)[k] == s[|s| - 1 - k]
    ensures multiset(Reversed(s)) == multiset(s)
  {
    if s != [] {
      ReversedAt(s[1..]);
      assert s == [s[0]] + s[1..];
    }
  }

  /** Sorting and reversing keeps the routes of an entry and puts the best first. */
  lemma ResortSorts(s: seq<Route>)
    ensures Descending(Resort(s)) && multiset(Resort(s)) == multiset(s)
  {
    hide Cmp;
    StableSortSorts(s);
    ReversedAt(StableSort(s));
  }

  function Retain(s: seq<Route>, rid: U32): seq<Route> {
    if s == [] then []
    else (if s[0].peerRid == rid then [] else [s[0]]) + Retain(s[1..], rid)
  }

  method RetainOthers(s: seq<Route>, rid: U32) returns (kept: seq<Route>)
    ensures kept == Retain(s, rid)
  {
    kept := [];
    for k := 0 to |s|
      invariant kept + Retain(s[k..], rid) == Retain(s, rid)
    {
      assert kept + ([s[k]] + Retain(s[k + 1..], rid)) == kept + [s[k]] + Retain(s[k + 1..], rid);
      assert [] + Retain(s[k + 1..], rid) == Retain(s[k + 1..], rid);
      if s[k].peerRid != rid {
        kept := kept + [s[k]];
      }
    }
  }

  function AddOne(rib: Rib, fib: Fib, asn: U16, attrs: Route, n: Nlri): Outcome {
    if !LoopFree(attrs, asn) then Outcome(rib, [])
    else
      var before := if n in rib then rib[n] else [];
      var best := BestReachable(fib, before);
      Outcome(
        rib[n := if n in rib then Resort(before + [attrs]) else [attrs]],
        if fib(attrs.nextHop) && (best.None? || Cmp(attrs, best.value) == Greater)
        then [Delta(n, Some(attrs))] else [])
  }

  function Added(rib: Rib, fib: Fib, asn: U16, nlris: seq<Nlri>, attrs: Route): Outcome
    decreases |nlris|
  {
    if nlris == [] then Outcome(rib, [])
    else
      var one := AddOne(rib, fib, asn, attrs, nlris[0]);
      After(one.modified, Added(one.rib, fib, asn, nlris[1..], attrs))
  }

  function WithdrawOne(rib: Rib, fib: Fib, rid: U32, n: Nlri): Outcome {
    if n !in rib then Outcome(rib, [])
    else
      var best := BestReachable(fib, rib[n]);
      var kept := Retain(rib[n], rid);
      Outcome(if kept == [] then rib - {n} else rib[n := kept],
              if best.Some? && best.value.peerRid == rid then [Delta(n, None)] else [])
  }

  function Withdrawn(rib: Rib, fib: Fib, rid: U32, nlris: seq<Nlri>): Outcome
    decreases |nlris|
  {
    if nlris == [] then Outcome(rib, [])
    else
      var one := WithdrawOne(rib, fib, rid, nlris[0]);
      After(one.modified, Withdrawn(one.rib, fib, rid, nlris[1..]))
  }

  function Affected(rib: Rib, rid: U32): set<Nlri> {
    set n | n in rib && exists r <- rib[n] :: r.peerRid == rid
  }

  /** The prefixes a withdrawal goes through: those it names or, when it names none, every prefix
      the peer has a route for, in whatever order the hash map gives them. */
  ghost predicate WithdrawalOrder(rib: Rib, w: RibUpdate, order: seq<Nlri>) {
    if w.nlris != [] then order == w.nlris
    else NoDuplicates(order) && forall n :: n in order <==> n in Affected(rib, w.attributes.peerRid)
  }

  function AfterAdded(rib: Rib, fib: Fib, asn: U16, u: RibEvent): Outcome {
    if u.added.None? then Outcome(rib, [])
    else Added(rib, fib, asn, u.added.value.nlris, u.added.value.attributes)
  }

  /** One event taken from the queue: additions first, then withdrawals. */
  function Processed(rib: Rib, fib: Fib, asn: U16, u: RibEvent, order: seq<Nlri>): Outcome {
    var a := AfterAdded(rib, fib, asn, u);
    if u.withdrawn.None? then a
    else
      var w := Withdrawn(a.rib, fib, u.withdrawn.value.attributes.peerRid, order);
      Outcome(w.rib, a.modified + w.modified)
  }

  ghost predicate EventOrder(rib: Rib, fib: Fib, asn: U16, u: RibEvent, order: seq<Nlri>) {
    u.withdrawn.Some? ==> WithdrawalOrder(AfterAdded(rib, fib, asn, u).rib, u.withdrawn.value, order)
  }

  /** `out` is a possible outcome of processing `u`. */
  ghost predicate EventStep(rib: Rib, fib: Fib, asn: U16, u: RibEvent, out: Outcome) {
    exists order :: EventOrder(rib, fib, asn, u, order) && out == Processed(rib, fib, asn, u, order)
  }

  /** An outcome with deltas emitted before it. */
  function After(emitted: seq<Delta>, out: Outcome): Outcome {
    Outcome(out.rib, emitted + out.modified)
  }

  lemma PrefixedOutcome(emitted: seq<Delta>, more: seq<Delta>, out: Outcome)
    ensures After([], out) == out
    ensures After(emitted, After(more, out)) == After(emitted + more, out)
  {
    assert [] + out.modified == out.modified;
    assert emitted + (more + out.modified) == emitted + more + out.modified;
  }

  lemma NothingIsBest(fib: Fib)
    ensures BestReachable(fib, []) == None
  {
  }

  function PrefixesOf(routes: seq<Delta>): seq<Nlri> {
    seq(|routes|, i requires 0 <= i < |routes| => routes[i].nlri)
  }

  predicate IsFirst(rib: Rib, d: Delta) {
    d.nlri in rib && rib[d.nlri] != [] && d.best == Some(rib[d.nlri][0])
  }

  /** The first route of every entry, once, in any order. */
  ghost predicate IsDump(rib: Rib, routes: seq<Delta>) {
    && NoDuplicates(PrefixesOf(routes))
    && (forall n :: n in PrefixesOf(routes) <==> n in rib)
    && forall d <- routes :: IsFirst(rib, d)
  }

  /** The table of one address family and the manager task that owns it. */
  class LocRib {
    var rib: Rib
    const asn: U16

    constructor (asn: U16)
      ensures this.asn == asn && rib == map[]
    {
      this.asn := asn;
      rib := map[];
    }

    method LocRibAdded(fib: Fib, routes: RibUpdate) returns (modified: seq<Delta>)
      modifies this
      ensures Outcome(rib, modified) == Added(old(rib), fib, asn, routes.nlris, routes.attributes)
    {
      hide AddOne;
      var nlris, attrs := routes.nlris, routes.attributes;
      modified := [];
      PrefixedOutcome([], [], Added(rib, fib, asn, nlris, attrs));
      for k := 0 to |nlris|
        invariant Added(old(rib), fib, asn, nlris, attrs) == After(modified, Added(rib, fib, asn, nlris[k..], attrs))
      {
        ghost var one := AddOne(rib, fib, asn, attrs, nlris[k]);
        PrefixedOutcome(modified, one.modified, Added(one.rib, fib, asn, nlris[k + 1..], attrs));
        var delta := AddPrefix(fib, attrs, nlris[k]);
        modified := modified + delta;
      }
      assert modified + [] == modified;
    }

    /** The body of the loop over announced prefixes. */
    method AddPrefix(fib: Fib, attrs: Route, n: Nlri) returns (modified: seq<Delta>)
      modifies this
      ensures Outcome(rib, modified) == AddOne(old(rib), fib, asn, attrs, n)
    {
      hide Cmp, BestReachable, StableSort, Reversed, LoopFree;
      modified := [];
      if n !in rib {
        NothingIsBest(fib);
        if LoopFree(attrs, asn) {
          rib := rib[n := [attrs]];
          if fib(attrs.nextHop) {
            modified := modified + [Delta(n, Some(attrs))];
          }
        }
      } else if LoopFree(attrs, asn) {
        var previousBest := FindBestReachable(fib, rib[n]);
        rib := rib[n := rib[n] + [attrs]];
        rib := rib[n := StableSort(rib[n])];
        rib := rib[n := Reversed(rib[n])];
        if fib(attrs.nextHop) {
          if previousBest.None? || Cmp(attrs, previousBest.value) == Greater {
            modified := modified + [Delta(n, Some(attrs))];
          }
        }
      }
    }

    method LocRibWithdraw(fib: Fib, routes: RibUpdate) returns (modified: seq<Delta>, order: seq<Nlri>)
      modifies this
      ensures WithdrawalOrder(old(rib), routes, order)
      ensures Outcome(rib, modified) == Withdrawn(old(rib), fib, routes.attributes.peerRid, order)
    {
      hide WithdrawOne;
      var rid := routes.attributes.peerRid;
      if routes.nlris == [] {
        order := AffectedPrefixes(rid);
      } else {
        order := routes.nlris;
      }
      modified := [];
      PrefixedOutcome([], [], Withdrawn(rib, fib, rid, order));
      for k := 0 to |order|
        invariant Withdrawn(old(rib), fib, rid, order) == After(modified, Withdrawn(rib, fib, rid, order[k..]))
      {
        ghost var one := WithdrawOne(rib, fib, rid, order[k]);
        PrefixedOutcome(modified, one.modified, Withdrawn(one.rib, fib, rid, order[k + 1..]));
        var delta := WithdrawPrefix(fib, rid, order[k]);
        modified := modified + delta;
      }
      assert modified + [] == modified;
    }

    /** The body of the loop over withdrawn prefixes. */
    method WithdrawPrefix(fib: Fib, rid: U32, n: Nlri) returns (modified: seq<Delta>)
      modifies this
      ensures Outcome(rib, modified) == WithdrawOne(old(rib), fib, rid, n)
    {
      hide BestReachable, Retain;
      modified := [];
      if n in rib {
        var previousBest := FindBestReachable(fib, rib[n]);
        var kept := RetainOthers(rib[n], rid);
        rib := rib[n := kept];
        if rib[n] == [] {
          rib := rib - {n};
        }
        if previousBest.Some? && previousBest.value.peerRid == rid {
          modified := modified + [Delta(n, None)];
        }
      }
    }

    /** The prefixes with a route from the peer, in any order. */
    method AffectedPrefixes(rid: U32) returns (prefixes: seq<Nlri>)
      ensures NoDuplicates(prefixes) && forall n :: n in prefixes <==> n in Affected(rib, rid)
    {
      prefixes := [];
      var left := rib.Keys;
      while left != {}
        invariant left <= rib.Keys && NoDuplicates(prefixes)
        invariant forall n :: n in prefixes <==> n in Affected(rib, rid) && n !in left
        decreases |left|
      {
        var n :| n in left;
        left := left - {n};
        if exists r <- rib[n] :: r.peerRid == rid {
          prefixes := prefixes + [n];
        }
      }
    }

    /** What a neighbour is sent when its session comes up; an entry without a route stops it. */
    method FirstRoutes() returns (dump: Option<seq<Delta>>)
      ensures dump.Some? <==> forall n <- rib :: rib[n] != []
      ensures dump.Some? ==> IsDump(rib, dump.value)
    {
      var routes: seq<Delta> := [];
      var left := rib.Keys;
      while left != {}
        invariant left <= rib.Keys && NoDuplicates(PrefixesOf(routes))
        invariant forall n :: n in PrefixesOf(routes) <==> n in rib && n !in left
        invariant forall d <- routes :: IsFirst(rib, d)
        invariant forall n <- rib :: n !in left ==> rib[n] != []
        decreases |left|
      {
        var n :| n in left;
        left := left - {n};
        if rib[n] == [] {
          return None;
        }
        var d := Delta(n, Some(rib[n][0]));
        assert PrefixesOf(routes + [d]) == PrefixesOf(routes) + [n];
        routes := routes + [d];
      }
      dump := Some(routes);
    }

    method ProcessRibEvent(fib: Fib, msg: RibEvent) returns (modified: seq<Delta>)
      modifies this
      ensures EventStep(old(rib), fib, asn, msg, Outcome(rib, modified))
    {
      modified := [];
      ghost var order: seq<Nlri> := [];
      if msg.added.Some? {
        modified := LocRibAdded(fib, msg.added.value);
      }
      if msg.withdrawn.Some? {
        var withdraw, o := LocRibWithdraw(fib, msg.withdrawn.value);
        order := o;
        modified := modified + withdraw;
      }
      assert EventOrder(old(rib), fib, asn, msg, order);
      assert Outcome(rib, modified) == Processed(old(rib), fib, asn, msg, order);
    }
  }

  /** Every entry holds at least one route, the best first, and no route with the local ASN. */
  ghost predicate RibInv(rib: Rib, asn: U16) {
    forall n <- rib :: EntryInv(rib[n], asn)
  }

  ghost predicate EntryInv(s: seq<Route>, asn: U16) {
    s != [] && Descending(s) && forall r <- s :: LoopFree(r, asn)
  }

  /** The routes held for a prefix, as a multiset: what the table means. */
  ghost function Held(rib: Rib, n: Nlri): multiset<Route> {
    if n in rib then multiset(rib[n]) else multiset{}
  }

  lemma PushedEntry(s: seq<Route>, attrs: Route, asn: U16)
    requires EntryInv(s, asn) && LoopFree(attrs, asn)
    ensures EntryInv(Resort(s + [attrs]), asn)
    ensures multiset(Resort(s + [attrs])) == multiset(s) + multiset{attrs}
  {
    hide Cmp, Resort, LoopFree, Descending;
    var pushed := s + [attrs];
    ResortSorts(pushed);
    assert |Resort(pushed)| == |multiset(pushed)| == |pushed|;
    forall r <- Resort(pushed)
      ensures LoopFree(r, asn)
    {
      assert r in multiset(pushed);
    }
  }

  lemma OneEntry(attrs: Route, asn: U16)
    ensures LoopFree(attrs, asn) ==> EntryInv([attrs], asn)
  {
  }

  lemma AddOneRefines(rib: Rib, fib: Fib, asn: U16, attrs: Route, n: Nlri, m: Nlri)
    requires RibInv(rib, asn)
    ensures var rib' := AddOne(rib, fib, asn, attrs, n).rib;
            && RibInv(rib', asn)
            && Held(rib', m) == Held(rib, m) + if m == n && LoopFree(attrs, asn) then multiset{attrs} else multiset{}
  {
    hide Cmp, Resort, BestReachable, Descending;
    OneEntry(attrs, asn);
    var rib' := AddOne(rib, fib, asn, attrs, n).rib;
    if LoopFree(attrs, asn) {
      if n in rib {
        PushedEntry(rib[n], attrs, asn);
      }
    }
  }

  /** An accepted announcement adds exactly one copy of the route per mention of the prefix. */
  lemma {:induction false} AddedRefines(rib: Rib, fib: Fib, asn: U16, nlris: seq<Nlri>, attrs: Route, m: Nlri, r: Route)
    requires RibInv(rib, asn)
    ensures var rib' := Added(rib, fib, asn, nlris, attrs).rib;
            && RibInv(rib', asn)
            && Held(rib', m)[r] ==
               Held(rib, m)[r] + if LoopFree(attrs, asn) && r == attrs then multiset(nlris)[m] else 0
    decreases |nlris|
  {
    hide AddOne, Held, RibInv;
    if nlris != [] {
      AddOneRefines(rib, fib, asn, attrs, nlris[0], m);
      AddedRefines(AddOne(rib, fib, asn, attrs, nlris[0]).rib, fib, asn, nlris[1..], attrs, m, r);
      assert nlris == [nlris[0]] + nlris[1..];
    }
  }

  lemma {:induction false} RetainCounts(s: seq<Route>, rid: U32, r: Route)
    ensures multiset(Retain(s, rid))[r] == if r.peerRid == rid then 0 else multiset(s)[r]
  {
    if s != [] {
      assert s == [s[0]] + s[1..];
      RetainCounts(s[1..], rid, r);
    }
  }

  lemma {:induction false} RetainMembers(s: seq<Route>, rid: U32)
    ensures forall x <- Retain(s, rid) :: x in s && x.peerRid != rid
  {
    if s != [] {
      RetainMembers(s[1..], rid);
    }
  }

  lemma DescendingTail(s: seq<Route>)
    requires s != [] && Descending(s)
    ensures Descending(s[1..]) && forall x <- s[1..] :: AtMost(x, s[0])
  {
    hide Cmp;
    var rest := s[1..];
    assert forall i | 0 <= i < |rest| :: rest[i] == s[i + 1];
  }

  lemma DescendingCons(x: Route, s: seq<Route>)
    requires Descending(s) && forall y <- s :: AtMost(y, x)
    ensures Descending([x] + s)
  {
    hide AtMost;
    var t := [x] + s;
    assert forall i | 1 <= i < |t| :: t[i] == s[i - 1];
  }

  lemma {:induction false} RetainDescends(s: seq<Route>, rid: U32)
    requires Descending(s)
    ensures Descending(Retain(s, rid))
  {
    hide AtMost;
    if s != [] {
      DescendingTail(s);
      RetainDescends(s[1..], rid);
      RetainMembers(s[1..], rid);
      DescendingCons(s[0], Retain(s[1..], rid));
      assert [] + Retain(s[1..], rid) == Retain(s[1..], rid);
    }
  }

  lemma WithdrawOneRefines(rib: Rib, fib: Fib, asn: U16, rid: U32, n: Nlri, m: Nlri, r: Route)
    requires RibInv(rib, asn)
    ensures var rib' := WithdrawOne(rib, fib, rid, n).rib;
            && RibInv(rib', asn)
            && Held(rib', m)[r] == if m == n && r.peerRid == rid then 0 else Held(rib, m)[r]
  {
    hide Cmp, Retain, BestReachable;
    if n in rib {
      RetainCounts(rib[n], rid, r);
      RetainMembers(rib[n], rid);
      RetainDescends(rib[n], rid);
      assert Retain(rib[n], rid) != [] ==> EntryInv(Retain(rib[n], rid), asn);
    }
  }

  /** A withdrawal removes the peer's routes on the prefixes gone through, and nothing else. */
  lemma {:induction false} WithdrawnRefines(
    rib: Rib, fib: Fib, asn: U16, rid: U32, nlris: seq<Nlri>, m: Nlri, r: Route)
    requires RibInv(rib, asn)
    ensures var rib' := Withdrawn(rib, fib, rid, nlris).rib;
            && RibInv(rib', asn)
            && Held(rib', m)[r] == if m in nlris && r.peerRid == rid then 0 else Held(rib, m)[r]
    decreases |nlris|
  {
    hide WithdrawOne, Held, RibInv;
    if nlris != [] {
      WithdrawOneRefines(rib, fib, asn, rid, nlris[0], m, r);
      WithdrawnRefines(WithdrawOne(rib, fib, rid, nlris[0]).rib, fib, asn, rid, nlris[1..], m, r);
    }
  }

  /** The number of copies of `r` at `m` after an event, told from the number before it. */
  function CountAfter(u: RibEvent, asn: U16, m: Nlri, r: Route, c: nat): nat {
    var more :=
      if u.added.Some? && LoopFree(r, asn) && r == u.added.value.attributes
      then multiset(u.added.value.nlris)[m] else 0;
    if && u.withdrawn.Some? && r.peerRid == u.withdrawn.value.attributes.peerRid
       && (u.withdrawn.value.nlris == [] || m in u.withdrawn.value.nlris)
    then 0 else c + more
  }

  /** A withdrawal that names no prefix clears the peer from all of them. */
  lemma WithdrawAllClears(rib: Rib, w: RibUpdate, order: seq<Nlri>, m: Nlri, r: Route)
    requires WithdrawalOrder(rib, w, order) && r.peerRid == w.attributes.peerRid
    requires w.nlris == [] && m !in order
    ensures Held(rib, m)[r] == 0
  {
    assert m !in Affected(rib, r.peerRid);
  }

  /** The table refines a map from prefixes to multisets of routes: whatever order the hash map
      gives, the new multisets are a function of the old ones and the event. */
  lemma EventRefines(rib: Rib, fib: Fib, asn: U16, u: RibEvent, out: Outcome, m: Nlri, r: Route)
    requires RibInv(rib, asn) && EventStep(rib, fib, asn, u, out)
    ensures RibInv(out.rib, asn)
    ensures Held(out.rib, m)[r] == CountAfter(u, asn, m, r, Held(rib, m)[r])
  {
    hide Added, Withdrawn, Held, RibInv;
    var order :| EventOrder(rib, fib, asn, u, order) && out == Processed(rib, fib, asn, u, order);
    var a := AfterAdded(rib, fib, asn, u);
    if u.added.Some? {
      AddedRefines(rib, fib, asn, u.added.value.nlris, u.added.value.attributes, m, r);
    }
    if u.withdrawn.Some? {
      var w := u.withdrawn.value;
      WithdrawnRefines(a.rib, fib, asn, w.attributes.peerRid, order, m, r);
      if w.nlris == [] && m !in order && r.peerRid == w.attributes.peerRid {
        WithdrawAllClears(a.rib, w, order, m, r);
      }
    }
  }
}
