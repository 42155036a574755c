/** How best-route changes become one UPDATE for a neighbour (src/neighbor/connection.rs:37-120). */
module SendUpdates {
  import opened Basics
  import opened Bytes
  import opened Types
  import opened Nlris
  import opened Attributes
  import opened Routes
  import opened LocRibs
  import Codec
  import Updates
  import Messages

  /** What sending reads of the neighbour. */
  datatype Neighbor = Neighbor(
    localAsn: U16, localIp: Option<IpAddr>, remoteAsn: Option<U16>, remoteRid: Option<U32>)

  datatype Entry = Entry(nlri: Nlri, route: Route)

  /** Prefixes that lost their route, in order. */
  function Gone(batch: seq<Delta>): seq<Nlri> {
    if batch == [] then []
    else (if batch[0].best.None? then [batch[0].nlri] else []) + Gone(batch[1..])
  }

  /** Prefixes with a new route that did not come from the neighbour itself, in order. */
  function News(batch: seq<Delta>, rid: U32): seq<Entry> {
    if batch == [] then []
    else
      (if batch[0].best.Some? && batch[0].best.value.peerRid != rid
       then [Entry(batch[0].nlri, batch[0].best.value)] else [])
      + News(batch[1..], rid)
  }

  /** An entry of the hash map: the first route inserted, and everything filed under it. */
  datatype Group = Group(key: Route, members: seq<Entry>)

  function Members(groups: seq<Group>): seq<Entry> {
    if groups == [] then [] else groups[0].members + Members(groups[1..])
  }

  function NlrisOf(entries: seq<Entry>): (ns: seq<Nlri>)
    ensures |ns| == |entries|
  {
    seq(|entries|, i requires 0 <= i < |entries| => entries[i].nlri)
  }

  predicate GoodGroup(g: Group) {
    g.members != [] && g.members[0].route == g.key && forall e <- g.members :: Same(e.route, g.key)
  }

  /** The routes are filed by the coarse `==`, each under exactly one key; the order of the keys is
      that of the hash map, which is no order. */
  ghost predicate Grouping(groups: seq<Group>, entries: seq<Entry>) {
    && (forall g <- groups :: GoodGroup(g))
    && DistinctKeys(groups)
    && multiset(Members(groups)) == multiset(entries)
  }

  ghost predicate DistinctKeys(groups: seq<Group>) {
    forall i, j | 0 <= i < |groups| && 0 <= j < |groups| && i != j :: !Same(groups[i].key, groups[j].key)
  }

  /** A group goes out to an external neighbour, or if its key did not come from inside. */
  predicate GoesOut(localAsn: U16, remoteAsn: U16, g: Group) {
    localAsn != remoteAsn || g.key.peerType != Ibgp
  }

  function Outgoing(localAsn: U16, remoteAsn: U16, groups: seq<Group>): seq<Group> {
    if groups == [] then []
    else (if GoesOut(localAsn, remoteAsn, groups[0]) then [groups[0]] else [])
         + Outgoing(localAsn, remoteAsn, groups[1..])
  }

  /** The route as the neighbour is to see it. */
  function Rewritten(localAsn: U16, remoteAsn: U16, localIp: IpAddr, r: Route): Route {
    if localAsn != remoteAsn then Prepend(r.(nextHop := localIp), localAsn, 1) else r
  }

  function Transitive(attrs: seq<PathAttribute>): seq<PathAttribute> {
    if attrs == [] then [] else (if attrs[0].transitive then [attrs[0]] else []) + Transitive(attrs[1..])
  }

  function Announced(localAsn: U16, remoteAsn: U16, localIp: IpAddr, r: Route): seq<PathAttribute> {
    Transitive(AttributesOf(Rewritten(localAsn, remoteAsn, localIp, r)))
  }

  function AnnouncedAll(localAsn: U16, remoteAsn: U16, localIp: IpAddr, groups: seq<Group>): seq<PathAttribute> {
    if groups == [] then []
    else Announced(localAsn, remoteAsn, localIp, groups[0].key)
         + AnnouncedAll(localAsn, remoteAsn, localIp, groups[1..])
  }

  function MessageOf(localAsn: U16, remoteAsn: U16, localIp: IpAddr, batch: seq<Delta>, groups: seq<Group>)
    : Updates.UpdateMessage
  {
    var out := Outgoing(localAsn, remoteAsn, groups);
    Updates.UpdateMessage(Gone(batch), AnnouncedAll(localAsn, remoteAsn, localIp, out), NlrisOf(Members(out)))
  }

  /** `m` is a message that a batch can give rise to. */
  ghost predicate SentFor(
    localAsn: U16, remoteAsn: U16, localIp: IpAddr, rid: U32, batch: seq<Delta>, m: Updates.UpdateMessage)
  {
    exists groups :: Grouping(groups, News(batch, rid)) && m == MessageOf(localAsn, remoteAsn, localIp, batch, groups)
  }

  lemma {:induction false} MembersWithout(groups: seq<Group>, k: nat)
    requires k < |groups|
    ensures multiset(Members(groups)) ==
            multiset(groups[k].members) + multiset(Members(groups[..k] + groups[k + 1..]))
  {
    if k == 0 {
      assert groups[..0] + groups[1..] == groups[1..];
    } else {
      MembersWithout(groups[1..], k - 1);
      assert groups[1..][..k - 1] + groups[1..][k..] == (groups[..k] + groups[k + 1..])[1..];
    }
  }

  lemma {:induction false} MembersSplit(a: seq<Group>, b: seq<Group>)
    ensures Members(a + b) == Members(a) + Members(b)
  {
    if a == [] {
      assert a + b == b;
    } else {
      assert (a + b)[1..] == a[1..] + b;
      MembersSplit(a[1..], b);
    }
  }

  lemma {:induction false} NewsSnoc(batch: seq<Delta>, d: Delta, rid: U32)
    ensures News(batch + [d], rid) == News(batch, rid) + News([d], rid)
  {
    if batch == [] {
      assert batch + [d] == [d];
    } else {
      assert (batch + [d])[1..] == batch[1..] + [d];
      NewsSnoc(batch[1..], d, rid);
      var head := if batch[0].best.Some? && batch[0].best.value.peerRid != rid
                  then [Entry(batch[0].nlri, batch[0].best.value)] else [];
      assert head + (News(batch[1..], rid) + News([d], rid)) == head + News(batch[1..], rid) + News([d], rid);
    }
  }

  lemma {:induction false} GoneSnoc(batch: seq<Delta>, d: Delta)
    ensures Gone(batch + [d]) == Gone(batch) + Gone([d])
  {
    if batch == [] {
      assert batch + [d] == [d];
    } else {
      assert (batch + [d])[1..] == batch[1..] + [d];
      GoneSnoc(batch[1..], d);
      var head := if batch[0].best.None? then [batch[0].nlri] else [];
      assert head + (Gone(batch[1..]) + Gone([d])) == head + Gone(batch[1..]) + Gone([d]);
    }
  }

  lemma {:induction false} OutgoingSnoc(localAsn: U16, remoteAsn: U16, a: seq<Group>, g: Group)
    ensures Outgoing(localAsn, remoteAsn, a + [g]) ==
            Outgoing(localAsn, remoteAsn, a) + if GoesOut(localAsn, remoteAsn, g) then [g] else []
  {
    if a == [] {
      assert a + [g] == [g];
      assert [g][1..] == [];
    } else {
      assert (a + [g])[1..] == a[1..] + [g];
      OutgoingSnoc(localAsn, remoteAsn, a[1..], g);
      var head := if GoesOut(localAsn, remoteAsn, a[0]) then [a[0]] else [];
      var rest := Outgoing(localAsn, remoteAsn, a[1..]);
      var last := if GoesOut(localAsn, remoteAsn, g) then [g] else [];
      assert Outgoing(localAsn, remoteAsn, a + [g]) == head + (rest + last);
      assert Outgoing(localAsn, remoteAsn, a) == head + rest;
      assert head + (rest + last) == head + rest + last;
    }
  }

  lemma {:induction false} AnnouncedSnoc(localAsn: U16, remoteAsn: U16, localIp: IpAddr, a: seq<Group>, g: Group)
    ensures AnnouncedAll(localAsn, remoteAsn, localIp, a + [g]) ==
            AnnouncedAll(localAsn, remoteAsn, localIp, a) + Announced(localAsn, remoteAsn, localIp, g.key)
  {
    hide Announced;
    if a == [] {
      assert a + [g] == [g];
      assert [g][1..] == [];
    } else {
      assert (a + [g])[1..] == a[1..] + [g];
      AnnouncedSnoc(localAsn, remoteAsn, localIp, a[1..], g);
      var head := Announced(localAsn, remoteAsn, localIp, a[0].key);
      var rest := AnnouncedAll(localAsn, remoteAsn, localIp, a[1..]);
      var last := Announced(localAsn, remoteAsn, localIp, g.key);
      assert head + (rest + last) == head + rest + last;
    }
  }

  lemma KeyIsNew(updates: seq<Group>, g: Group)
    requires DistinctKeys(updates) && forall h <- updates :: !Same(h.key, g.key)
    ensures DistinctKeys(updates + [g])
  {
    hide Same;
    forall h <- updates
      ensures !Same(g.key, h.key)
    {
      SameLaws(h.key, g.key);
    }
  }

  lemma FiledAlone(updates: seq<Group>, e: Entry, entries: seq<Entry>)
    requires Grouping(updates, entries) && forall g <- updates :: !Same(g.key, e.route)
    ensures Grouping(updates + [Group(e.route, [e])], entries + [e])
  {
    var g := Group(e.route, [e]);
    SameLaws(e.route, e.route);
    assert GoodGroup(g);
    hide Same, Members, GoodGroup, DistinctKeys;
    MembersAppended(updates, g);
    assert multiset(entries + [e]) == multiset(entries) + multiset([e]);
    KeyIsNew(updates, g);
  }

  lemma MembersAppended(updates: seq<Group>, g: Group)
    ensures multiset(Members(updates + [g])) == multiset(Members(updates)) + multiset(g.members)
  {
    MembersSplit(updates, [g]);
    MembersOfOne(g);
  }

  function Grown(g: Group, e: Entry): Group {
    g.(members := g.members + [e])
  }

  lemma MembersGrown(updates: seq<Group>, k: nat, e: Entry)
    requires k < |updates|
    ensures multiset(Members(updates[k := Grown(updates[k], e)])) == multiset(Members(updates)) + multiset{e}
  {
    var updates' := updates[k := Grown(updates[k], e)];
    MembersWithout(updates, k);
    MembersWithout(updates', k);
    assert updates'[..k] + updates'[k + 1..] == updates[..k] + updates[k + 1..];
  }

  lemma FiledWithOthers(updates: seq<Group>, k: nat, e: Entry, entries: seq<Entry>)
    requires Grouping(updates, entries) && k < |updates| && Same(updates[k].key, e.route)
    ensures Grouping(updates[k := Grown(updates[k], e)], entries + [e])
  {
    hide Same, Members;
    var g := Grown(updates[k], e);
    var updates' := updates[k := g];
    SameLaws(updates[k].key, e.route);
    assert GoodGroup(updates[k]) && GoodGroup(g);
    MembersGrown(updates, k, e);
    assert forall i | 0 <= i < |updates| :: updates'[i].key == updates[i].key;
    assert forall h <- updates' :: h == g || h in updates;
  }

  /** `HashMap::entry(..).or_default().push(..)` on a map of groups. */
  method FileUnder(updates: seq<Group>, e: Entry, ghost entries: seq<Entry>) returns (updates': seq<Group>)
    requires Grouping(updates, entries)
    ensures Grouping(updates', entries + [e])
  {
    hide Same, Grouping;
    var k := 0;
    while k < |updates| && !Same(updates[k].key, e.route)
      invariant 0 <= k <= |updates|
      invariant forall i | 0 <= i < k :: !Same(updates[i].key, e.route)
    {
      k := k + 1;
    }
    if k == |updates| {
      FiledAlone(updates, e, entries);
      updates' := updates + [Group(e.route, [e])];
    } else {
      FiledWithOthers(updates, k, e, entries);
      updates' := updates[k := Grown(updates[k], e)];
    }
  }

  lemma SameLaws(a: Route, b: Route)
    ensures Same(a, a) && (Same(a, b) <==> Same(b, a))
  {
  }

  method SendUpdate(n: Neighbor, nlris: seq<Delta>) returns (r: Result<Option<Updates.UpdateMessage>>)
    ensures n.remoteRid.None? ==> r == Err
    ensures n.remoteRid.Some? ==>
              var news := News(nlris, n.remoteRid.value);
              && (r == Ok(None) <==> news == [] && Gone(nlris) == [])
              && (r == Err <==> news != [] && (n.localIp.None? || n.remoteAsn.None?))
              && (r.Ok? && r.value.Some? && news != [] ==>
                    SentFor(n.localAsn, n.remoteAsn.value, n.localIp.value, n.remoteRid.value, nlris, r.value.value))
              && (r.Ok? && r.value.Some? && news == [] ==>
                    r.value.value == Updates.UpdateMessage(Gone(nlris), [], []))
  {
    if n.remoteRid.None? {
      return Err;
    }
    var wd, updates := CollectUpdates(n.remoteRid.value, nlris);
    if updates == [] && wd == [] {
      return Ok(None);
    }
    if updates == [] {
      return Ok(Some(Updates.UpdateMessage(wd, [], [])));
    }
    if n.localIp.None? || n.remoteAsn.None? {
      return Err;
    }
    var attributes, routes := BuildUpdate(
      n.localAsn, n.remoteAsn.value, n.localIp.value, n.remoteRid.value, nlris, updates);
    r := Ok(Some(Updates.UpdateMessage(wd, attributes, routes)));
  }

  /** The loop over the batch: sort out what is gone, file what is new. */
  method CollectUpdates(rid: U32, nlris: seq<Delta>) returns (wd: seq<Nlri>, updates: seq<Group>)
    ensures wd == Gone(nlris) && Grouping(updates, News(nlris, rid))
    ensures updates == [] <==> News(nlris, rid) == []
  {
    hide Grouping, News, Gone;
    wd, updates := [], [];
    NothingGrouped(rid);
    for k := 0 to |nlris|
      invariant wd == Gone(nlris[..k]) && Grouping(updates, News(nlris[..k], rid))
    {
      var d := nlris[k];
      assert nlris[..k + 1] == nlris[..k] + [d];
      NewsSnoc(nlris[..k], d, rid);
      GoneSnoc(nlris[..k], d);
      NewsOfOne(d, rid);
      assert News(nlris[..k], rid) + [] == News(nlris[..k], rid) && Gone(nlris[..k]) + [] == Gone(nlris[..k]);
      if d.best.None? {
        wd := wd + [d.nlri];
      } else if d.best.value.peerRid != rid {
        updates := FileUnder(updates, Entry(d.nlri, d.best.value), News(nlris[..k], rid));
      }
    }
    assert nlris[..|nlris|] == nlris;
    GroupsNotEmpty(updates, News(nlris, rid));
  }

  lemma NothingGrouped(rid: U32)
    ensures Grouping([], News([], rid)) && Gone([]) == []
  {
  }

  lemma NewsOfOne(d: Delta, rid: U32)
    ensures News([d], rid) ==
            if d.best.Some? && d.best.value.peerRid != rid then [Entry(d.nlri, d.best.value)] else []
    ensures Gone([d]) == if d.best.None? then [d.nlri] else []
  {
    assert [d][1..] == [];
  }

  lemma GroupsNotEmpty(groups: seq<Group>, entries: seq<Entry>)
    requires Grouping(groups, entries)
    ensures groups == [] <==> entries == []
  {
    hide Same;
    assert |multiset(Members(groups))| == |Members(groups)| && |multiset(entries)| == |entries|;
    if groups != [] {
      assert GoodGroup(groups[0]);
    }
  }

  /** The loop over the hash map, which hands out the groups in any order. */
  method BuildUpdate(
    localAsn: U16, remoteAsn: U16, localIp: IpAddr, ghost rid: U32, ghost batch: seq<Delta>, updates: seq<Group>)
    returns (attributes: seq<PathAttribute>, nlris: seq<Nlri>)
    requires Grouping(updates, News(batch, rid))
    ensures SentFor(localAsn, remoteAsn, localIp, rid, batch, Updates.UpdateMessage(Gone(batch), attributes, nlris))
  {
    hide GoodGroup, Same, Announced;
    attributes, nlris := [], [];
    var left := updates;
    ghost var done: seq<Group> := [];
    assert done + left == updates;
    while left != []
      invariant Grouping(done + left, News(batch, rid))
      invariant attributes == AnnouncedAll(localAsn, remoteAsn, localIp, Outgoing(localAsn, remoteAsn, done))
      invariant nlris == NlrisOf(Members(Outgoing(localAsn, remoteAsn, done)))
      decreases |left|
    {
      var k :| 0 <= k < |left|;
      var g := left[k];
      ghost var out := Outgoing(localAsn, remoteAsn, done);
      OutgoingSnoc(localAsn, remoteAsn, done, g);
      if GoesOut(localAsn, remoteAsn, g) {
        AnnouncedSnoc(localAsn, remoteAsn, localIp, out, g);
        MembersSnoc(out, g);
        var ra := Rewritten(localAsn, remoteAsn, localIp, g.key);
        attributes := attributes + Announced(localAsn, remoteAsn, localIp, g.key);
        nlris := nlris + NlrisOf(g.members);
      } else {
        assert out + [] == out;
      }
      TakeOut(done, left, k, News(batch, rid));
      done := done + [g];
      left := left[..k] + left[k + 1..];
    }
    assert done + left == done;
  }

  lemma MembersSnoc(groups: seq<Group>, g: Group)
    ensures NlrisOf(Members(groups + [g])) == NlrisOf(Members(groups)) + NlrisOf(g.members)
  {
    MembersSplit(groups, [g]);
    assert Members([g]) == g.members + Members([g][1..]);
  }

  lemma MembersTakeOut(done: seq<Group>, left: seq<Group>, k: nat)
    requires k < |left|
    ensures multiset(Members(done + [left[k]] + (left[..k] + left[k + 1..]))) == multiset(Members(done + left))
  {
    hide Members;
    var a, b := done + left, done + [left[k]] + (left[..k] + left[k + 1..]);
    MembersWithout(a, |done| + k);
    MembersWithout(b, |done|);
    assert a[..|done| + k] + a[|done| + k + 1..] == b[..|done|] + b[|done| + 1..];
  }

  lemma TakeOut(done: seq<Group>, left: seq<Group>, k: nat, entries: seq<Entry>)
    requires k < |left| && Grouping(done + left, entries)
    ensures Grouping(done + [left[k]] + (left[..k] + left[k + 1..]), entries)
  {
    hide GoodGroup, Same, DistinctKeys, Members;
    MembersTakeOut(done, left, k);
    KeysStayDistinct(done, left, k);
    assert forall h <- done + [left[k]] + (left[..k] + left[k + 1..]) :: h in done + left;
  }

  lemma KeysStayDistinct(done: seq<Group>, left: seq<Group>, k: nat)
    requires k < |left| && DistinctKeys(done + left)
    ensures DistinctKeys(done + [left[k]] + (left[..k] + left[k + 1..]))
  {
    hide Same;
    var a, b := done + left, done + [left[k]] + (left[..k] + left[k + 1..]);
    forall i, j | 0 <= i < |b| && 0 <= j < |b| && i != j
      ensures !Same(b[i].key, b[j].key)
    {
      var i', j' := PlaceBefore(|done|, k, i), PlaceBefore(|done|, k, j);
      assert b[i] == a[i'] && b[j] == a[j'] && i' != j';
    }
  }

  /** Where place `i` of the reordered list was before group `k` of the rest moved to the front. */
  function PlaceBefore(d: nat, k: nat, i: nat): nat {
    if i < d then i else if i == d then d + k else if i <= d + k then i - 1 else i
  }

  lemma MembersOfOne(g: Group)
    ensures Members([g]) == g.members && Members([]) == []
  {
    assert [g][1..] == [];
  }

  lemma {:induction false} OutgoingIsPart(localAsn: U16, remoteAsn: U16, groups: seq<Group>)
    ensures var out := Outgoing(localAsn, remoteAsn, groups);
            && multiset(Members(out)) <= multiset(Members(groups))
            && (localAsn != remoteAsn ==> out == groups)
            && forall g <- out :: g in groups && GoesOut(localAsn, remoteAsn, g)
  {
    if groups != [] {
      var rest := Outgoing(localAsn, remoteAsn, groups[1..]);
      var head := if GoesOut(localAsn, remoteAsn, groups[0]) then [groups[0]] else [];
      assert Outgoing(localAsn, remoteAsn, groups) == head + rest;
      OutgoingIsPart(localAsn, remoteAsn, groups[1..]);
      assert groups == [groups[0]] + groups[1..];
      MembersSplit(head, rest);
      MembersOfOne(groups[0]);
      MembersSplit([groups[0]], groups[1..]);
      hide Outgoing, Members;
      assert localAsn != remoteAsn ==> head == [groups[0]];
    }
  }

  lemma NlrisWithout(b: seq<Entry>, j: nat)
    requires j < |b|
    ensures multiset(NlrisOf(b)) == multiset(NlrisOf(Without(b, j))) + multiset{b[j].nlri}
  {
    assert NlrisOf(b) == NlrisOf(b[..j]) + [b[j].nlri] + NlrisOf(b[j + 1..]);
    assert NlrisOf(b[..j] + b[j + 1..]) == NlrisOf(b[..j]) + NlrisOf(b[j + 1..]);
  }

  lemma {:induction false} NlrisOfMultiset(a: seq<Entry>, b: seq<Entry>)
    requires multiset(a) <= multiset(b)
    ensures multiset(NlrisOf(a)) <= multiset(NlrisOf(b))
    decreases |a|
  {
    hide NlrisOf, Without;
    if a == [] {
      assert NlrisOf(a) == [];
    } else {
      assert a[0] in multiset(a);
      var j :| 0 <= j < |b| && b[j] == a[0];
      NlrisWithout(a, 0);
      NlrisWithout(b, j);
      MultisetWithout(a, 0);
      MultisetWithout(b, j);
      assert multiset(Without(a, 0)) == multiset(a) - multiset{a[0]};
      assert multiset(Without(b, j)) == multiset(b) - multiset{a[0]};
      NlrisOfMultiset(Without(a, 0), Without(b, j));
    }
  }

  /** News are the routes reported that did not come from the neighbour, gone the prefixes reported without
      a route. */
  lemma {:induction false} NewsAndGone(batch: seq<Delta>, rid: U32, e: Entry, n: Nlri)
    ensures e in News(batch, rid) <==> Delta(e.nlri, Some(e.route)) in batch && e.route.peerRid != rid
    ensures n in Gone(batch) <==> Delta(n, None) in batch
  {
    if batch != [] {
      assert batch == [batch[0]] + batch[1..];
      NewsAndGone(batch[1..], rid, e, n);
    }
  }

  /** Of the groups exactly those go out whose first route came over an external session, to an external
      neighbour all of them. */
  lemma {:induction false} OutgoingHas(localAsn: U16, remoteAsn: U16, groups: seq<Group>, g: Group)
    ensures multiset(Outgoing(localAsn, remoteAsn, groups))[g] ==
            if localAsn != remoteAsn || g.key.peerType == Ebgp then multiset(groups)[g] else 0
  {
    if groups != [] {
      assert groups == [groups[0]] + groups[1..];
      OutgoingHas(localAsn, remoteAsn, groups[1..], g);
    }
  }

  lemma {:induction false} NoneGoesOut(localAsn: U16, remoteAsn: U16, groups: seq<Group>)
    ensures (forall g <- groups :: GoesOut(localAsn, remoteAsn, g)) ==> Outgoing(localAsn, remoteAsn, groups) == groups
    ensures (forall g <- groups :: !GoesOut(localAsn, remoteAsn, g)) ==> Outgoing(localAsn, remoteAsn, groups) == []
  {
    if groups != [] {
      assert groups == [groups[0]] + groups[1..];
      assert groups[0] in groups && forall g <- groups[1..] :: g in groups;
      NoneGoesOut(localAsn, remoteAsn, groups[1..]);
    }
  }

  lemma KeyIsNews(groups: seq<Group>, entries: seq<Entry>, g: Group)
    requires Grouping(groups, entries) && g in groups
    ensures exists e <- entries :: e.route == g.key
  {
    hide Same;
    assert GoodGroup(g);
    var k :| 0 <= k < |groups| && groups[k] == g;
    MembersWithout(groups, k);
    assert g.members[0] in multiset(g.members);
    assert g.members[0] in multiset(entries);
  }

  /** To an internal neighbour news from outside are all announced, and news from inside not at all. */
  lemma InsideHearsOutside(
    asn: U16, localIp: IpAddr, rid: U32, batch: seq<Delta>, m: Updates.UpdateMessage)
    requires SentFor(asn, asn, localIp, rid, batch, m)
    ensures (forall e <- News(batch, rid) :: e.route.peerType == Ebgp) ==>
              multiset(m.nlri) == multiset(NlrisOf(News(batch, rid)))
    ensures (forall e <- News(batch, rid) :: e.route.peerType == Ibgp) ==> m.nlri == [] && m.attributes == []
  {
    var groups :| Grouping(groups, News(batch, rid)) && m == MessageOf(asn, asn, localIp, batch, groups);
    hide Outgoing, News, GoodGroup, DistinctKeys, Members, Announced;
    forall g: Group | g in groups
      ensures exists e: Entry :: e in News(batch, rid) && e.route == g.key
    {
      KeyIsNews(groups, News(batch, rid), g);
    }
    NoneGoesOut(asn, asn, groups);
    NoMembers();
    if forall e <- News(batch, rid) :: e.route.peerType == Ebgp {
      NlrisOfMultiset(Members(groups), News(batch, rid));
      NlrisOfMultiset(News(batch, rid), Members(groups));
    }
  }

  /** What is announced of a route in full: transitive attributes only, outside behind the local AS number and
      with the local address as next hop, an IPv6 one left out. */
  lemma AnnouncedInFull(localAsn: U16, remoteAsn: U16, localIp: IpAddr, r: Route)
    ensures var outside := localAsn != remoteAsn;
            var hop := if outside then localIp else r.nextHop;
            var path := (if outside then [Segment(AsSequence, [localAsn])] else []) + r.asPath;
            Announced(localAsn, remoteAsn, localIp, r) ==
            (if hop.afi == Ipv4 then [PathAttribute(false, true, false, false, NextHop, NextHopValue(hop))] else [])
            + [PathAttribute(false, true, false, false, AttrType.Origin, OriginValue(r.origin)),
               PathAttribute(false, true, false, false, AttrType.AsPath, AsPathValue(path))]
  {
    hide Announced;
    AnnouncedAttributes(localAsn, remoteAsn, localIp, r);
    PrependOnce(r.(nextHop := localIp), localAsn);
    assert [] + r.asPath == r.asPath;
  }

  /** Conservation: the withdrawn field is what is gone, in order; to an external neighbour exactly
      the news are announced, however the hash map arranged them; to an internal one no more. */
  lemma SendConserves(
    localAsn: U16, remoteAsn: U16, localIp: IpAddr, rid: U32, batch: seq<Delta>, m: Updates.UpdateMessage)
    requires SentFor(localAsn, remoteAsn, localIp, rid, batch, m)
    ensures m.withdrawn == Gone(batch)
    ensures multiset(m.nlri) <= multiset(NlrisOf(News(batch, rid)))
    ensures localAsn != remoteAsn ==> multiset(m.nlri) == multiset(NlrisOf(News(batch, rid)))
  {
    var groups :| Grouping(groups, News(batch, rid)) && m == MessageOf(localAsn, remoteAsn, localIp, batch, groups);
    var out := Outgoing(localAsn, remoteAsn, groups);
    OutgoingIsPart(localAsn, remoteAsn, groups);
    NlrisOfMultiset(Members(out), News(batch, rid));
    if localAsn != remoteAsn {
      NlrisOfMultiset(News(batch, rid), Members(out));
    }
  }

  lemma AnnouncedAttributes(localAsn: U16, remoteAsn: U16, localIp: IpAddr, r: Route)
    ensures var w := Rewritten(localAsn, remoteAsn, localIp, r);
            Announced(localAsn, remoteAsn, localIp, r) ==
            (if w.nextHop.afi == Ipv4 then [WellKnown(NextHop, NextHopValue(w.nextHop))] else [])
            + [WellKnown(AttrType.Origin, OriginValue(w.origin)), WellKnown(AttrType.AsPath, AsPathValue(w.asPath))]
  {
    hide Rewritten;
    var w := Rewritten(localAsn, remoteAsn, localIp, r);
    var hop := if w.nextHop.afi == Ipv4 then [WellKnown(NextHop, NextHopValue(w.nextHop))] else [];
    var core := [WellKnown(AttrType.Origin, OriginValue(w.origin)), WellKnown(AttrType.AsPath, AsPathValue(w.asPath))];
    var pref := if w.localPref.Some? then [OptionalOnly(LocalPref, LocalPrefValue(w.localPref.value))] else [];
    var med := if w.med.Some? then [OptionalOnly(MultiExitDisc, MedValue(w.med.value))] else [];
    assert AttributesOf(w) == hop + (core + (pref + med));
    TransitiveAll(hop, core + (pref + med));
    TransitiveAll(core, pref + med);
    TransitiveNone(pref + med);
    assert core + [] == core;
  }

  lemma {:induction false} TransitiveAll(a: seq<PathAttribute>, b: seq<PathAttribute>)
    requires forall x <- a :: x.transitive
    ensures Transitive(a + b) == a + Transitive(b)
  {
    if a == [] {
      assert a + b == b;
    } else {
      assert (a + b)[1..] == a[1..] + b;
      TransitiveAll(a[1..], b);
    }
  }

  lemma {:induction false} TransitiveNone(a: seq<PathAttribute>)
    requires forall x <- a :: !x.transitive
    ensures Transitive(a) == []
  {
    if a != [] {
      TransitiveNone(a[1..]);
    }
  }

  /** A route of the batch that may be announced to the neighbour. */
  ghost predicate Announceable(localAsn: U16, remoteAsn: U16, rid: U32, batch: seq<Delta>, r: Route) {
    && (exists d <- batch :: d.best == Some(r))
    && r.peerRid != rid
    && (localAsn == remoteAsn ==> r.peerType != Ibgp)
  }

  lemma {:induction false} NewsFromBatch(batch: seq<Delta>, rid: U32, e: Entry)
    requires e in News(batch, rid)
    ensures e.route.peerRid != rid && exists d <- batch :: d.best == Some(e.route)
  {
    if e in News(batch[1..], rid) {
      NewsFromBatch(batch[1..], rid, e);
    } else {
      assert batch[0].best == Some(e.route);
    }
  }

  lemma KeyIsAnnounceable(
    localAsn: U16, remoteAsn: U16, localIp: IpAddr, rid: U32, batch: seq<Delta>, groups: seq<Group>, g: Group)
    requires Grouping(groups, News(batch, rid)) && g in Outgoing(localAsn, remoteAsn, groups)
    ensures Announceable(localAsn, remoteAsn, rid, batch, g.key)
  {
    hide Same;
    OutgoingIsPart(localAsn, remoteAsn, groups);
    assert GoodGroup(g);
    var k :| 0 <= k < |groups| && groups[k] == g;
    MembersWithout(groups, k);
    var e := g.members[0];
    assert e in multiset(g.members);
    assert e in multiset(News(batch, rid));
    NewsFromBatch(batch, rid, e);
  }

  lemma {:induction false} AnnouncedAllFrom(
    localAsn: U16, remoteAsn: U16, localIp: IpAddr, groups: seq<Group>, a: PathAttribute)
    requires a in AnnouncedAll(localAsn, remoteAsn, localIp, groups)
    ensures exists g <- groups :: a in Announced(localAsn, remoteAsn, localIp, g.key)
  {
    hide Announced;
    if a in Announced(localAsn, remoteAsn, localIp, groups[0].key) {
      assert groups[0] in groups;
    } else {
      AnnouncedAllFrom(localAsn, remoteAsn, localIp, groups[1..], a);
    }
  }

  lemma AnnouncedPath(localAsn: U16, remoteAsn: U16, localIp: IpAddr, r: Route, a: PathAttribute)
    requires a in Announced(localAsn, remoteAsn, localIp, r) && a.value.AsPathValue?
    ensures Flatten(a.value.path) == (if localAsn != remoteAsn then [localAsn] else []) + Flatten(r.asPath)
  {
    hide Announced;
    AnnouncedAttributes(localAsn, remoteAsn, localIp, r);
    PrependOnce(r.(nextHop := localIp), localAsn);
    assert [] + Flatten(r.asPath) == Flatten(r.asPath);
  }

  /** Every AS path sent is that of a route of the batch which may go to the neighbour: behind the
      local ASN to an external neighbour, as it is to an internal one. */
  lemma SentPaths(
    localAsn: U16, remoteAsn: U16, localIp: IpAddr, rid: U32, batch: seq<Delta>, m: Updates.UpdateMessage, k: nat)
    returns (r: Route)
    requires SentFor(localAsn, remoteAsn, localIp, rid, batch, m)
    requires k < |m.attributes| && m.attributes[k].value.AsPathValue?
    ensures Announceable(localAsn, remoteAsn, rid, batch, r)
    ensures Flatten(m.attributes[k].value.path) ==
            (if localAsn != remoteAsn then [localAsn] else []) + Flatten(r.asPath)
  {
    hide Announced, Announceable, Grouping, Outgoing, AnnouncedAll, Flatten, News;
    var groups :| Grouping(groups, News(batch, rid)) && m == MessageOf(localAsn, remoteAsn, localIp, batch, groups);
    var out := Outgoing(localAsn, remoteAsn, groups);
    var a := m.attributes[k];
    AnnouncedAllFrom(localAsn, remoteAsn, localIp, out, a);
    var g :| g in out && a in Announced(localAsn, remoteAsn, localIp, g.key);
    r := g.key;
    KeyIsAnnounceable(localAsn, remoteAsn, localIp, rid, batch, groups, g);
    AnnouncedPath(localAsn, remoteAsn, localIp, r, a);
  }

  /** What the wire can carry: IPv4 prefixes, no segment of more ASNs than its length octet counts, and
      no more octets than a message has. */
  ghost predicate Carriable(m: Updates.UpdateMessage) {
    && AllOf(Ipv4, m.withdrawn) && AllOf(Ipv4, m.nlri)
    && Updates.ShortPaths(m.attributes)
    && |Updates.PrintUpdate(m)| <= 4077
  }

  /** An attribute of the kinds that are announced. */
  predicate Plain(a: PathAttribute) {
    && a.typeCode == TypeOfValue(a.value)
    && (a.value.OriginValue? || a.value.AsPathValue? || (a.value.NextHopValue? && a.value.hop.afi == Ipv4))
  }

  lemma AnnouncedArePlain(localAsn: U16, remoteAsn: U16, localIp: IpAddr, r: Route, a: PathAttribute)
    requires a in Announced(localAsn, remoteAsn, localIp, r)
    ensures Plain(a)
  {
    hide Announced, Rewritten;
    AnnouncedAttributes(localAsn, remoteAsn, localIp, r);
  }

  lemma PlainIsWire(a: PathAttribute)
    requires Plain(a) && |PrintAttr(a)| <= 0xffff && (a.value.AsPathValue? ==> ShortSegments(a.value.path))
    ensures WireAttr(a)
  {
    assert |ValueOctets(a.value)| <= |PrintAttr(a)|;
  }

  lemma AnnouncedAreShort(localAsn: U16, remoteAsn: U16, localIp: IpAddr, r: Route, a: PathAttribute)
    requires a in Announced(localAsn, remoteAsn, localIp, r) && ShortSegments(r.asPath) && a.value.AsPathValue?
    ensures ShortSegments(a.value.path)
  {
    hide Announced;
    AnnouncedAttributes(localAsn, remoteAsn, localIp, r);
    var w := Rewritten(localAsn, remoteAsn, localIp, r);
    forall g <- w.asPath
      ensures |g.asList| <= 255
    {
      assert g in r.asPath || g == Segment(AsSequence, seq(1, i => localAsn));
    }
  }

  ghost predicate ShortRoutes(batch: seq<Delta>) {
    forall d <- batch :: d.best.Some? ==> ShortSegments(d.best.value.asPath)
  }

  lemma AttributeFits(m: Updates.UpdateMessage, k: nat)
    requires k < |m.attributes| && |Updates.PrintUpdate(m)| <= 4077
    ensures |PrintAttr(m.attributes[k])| <= 0xffff
  {
    hide PrintAttr;
    Updates.AttrsShortValues(m.attributes, k);
  }

  /** An attribute of what is built and the route it speaks of. */
  lemma SentFrom(
    localAsn: U16, remoteAsn: U16, localIp: IpAddr, rid: U32, batch: seq<Delta>, m: Updates.UpdateMessage, k: nat)
    returns (r: Route)
    requires SentFor(localAsn, remoteAsn, localIp, rid, batch, m) && k < |m.attributes|
    ensures m.attributes[k] in Announced(localAsn, remoteAsn, localIp, r)
    ensures exists d <- batch :: d.best == Some(r)
  {
    hide Announced, Announceable, Grouping, Outgoing, AnnouncedAll, News;
    var groups :| Grouping(groups, News(batch, rid)) && m == MessageOf(localAsn, remoteAsn, localIp, batch, groups);
    var out := Outgoing(localAsn, remoteAsn, groups);
    AnnouncedAllFrom(localAsn, remoteAsn, localIp, out, m.attributes[k]);
    var g :| g in out && m.attributes[k] in Announced(localAsn, remoteAsn, localIp, g.key);
    r := g.key;
    KeyIsAnnounceable(localAsn, remoteAsn, localIp, rid, batch, groups, g);
    AnnounceableIsInBatch(localAsn, remoteAsn, rid, batch, r);
  }

  /** The attributes of what is built can be printed, whatever the prefixes and the session are. */
  lemma SentAttributesAreWire(
    localAsn: U16, remoteAsn: U16, localIp: IpAddr, rid: U32, batch: seq<Delta>, m: Updates.UpdateMessage, k: nat)
    requires SentFor(localAsn, remoteAsn, localIp, rid, batch, m) && ShortRoutes(batch)
    requires k < |m.attributes| && |PrintAttr(m.attributes[k])| <= 0xffff
    ensures WireAttr(m.attributes[k])
  {
    hide SentFor, Announced, WireAttr, PrintAttr, ShortSegments, Plain;
    var r := SentFrom(localAsn, remoteAsn, localIp, rid, batch, m, k);
    AnnouncedArePlain(localAsn, remoteAsn, localIp, r, m.attributes[k]);
    if m.attributes[k].value.AsPathValue? {
      AnnouncedAreShort(localAsn, remoteAsn, localIp, r, m.attributes[k]);
    }
    PlainIsWire(m.attributes[k]);
  }

  lemma SentIsWire(
    localAsn: U16, remoteAsn: U16, localIp: IpAddr, rid: U32, batch: seq<Delta>, m: Updates.UpdateMessage)
    requires SentFor(localAsn, remoteAsn, localIp, rid, batch, m) && Carriable(m)
    ensures Updates.WireUpdate(m)
  {
    hide SentFor, Announced, WireAttr, PrintAttr, AllOf, ShortSegments, Plain;
    forall a <- m.attributes
      ensures WireAttr(a)
    {
      var k :| 0 <= k < |m.attributes| && m.attributes[k] == a;
      AttributeFits(m, k);
      var r := SentFrom(localAsn, remoteAsn, localIp, rid, batch, m, k);
      AnnouncedArePlain(localAsn, remoteAsn, localIp, r, a);
      PlainIsWire(a);
    }
  }

  lemma AnnounceableIsInBatch(localAsn: U16, remoteAsn: U16, rid: U32, batch: seq<Delta>, r: Route)
    requires Announceable(localAsn, remoteAsn, rid, batch, r)
    ensures exists d <- batch :: d.best == Some(r)
  {
  }

  lemma {:induction false} SayNormals(s: Said, attrs: seq<PathAttribute>)
    ensures SayAll(s, Updates.Normals(attrs)) == SayAll(s, attrs)
    decreases |attrs|
  {
    if attrs != [] {
      SayNormals(Say(s, attrs[0].value), attrs[1..]);
      assert Updates.Normals(attrs)[1..] == Updates.Normals(attrs[1..]);
    }
  }

  /** One frame is read of the chunks, and it is parsed as the canonical form of the message. */
  ghost predicate Arrives(m: Updates.UpdateMessage, chunks: seq<seq<Byte>>) {
    var s := Codec.FeedAll(chunks);
    && !s.failed && s.pending == [] && |s.frames| == 1
    && Messages.ParseMessage(s.frames[0]) == Ok(Messages.UpdateBody(Updates.Canonical(m)))
  }

  /** The octets that go out for a message: none when the codec refuses it. */
  function OctetsOf(m: Updates.UpdateMessage): seq<Byte> {
    match Codec.EncodeOne(Messages.PrintMessage(Messages.UpdateBody(m))) case Ok(octets) => octets case Err => []
  }

  /** A message built of a batch is what the neighbour's parser returns, octet stream and all, exactly
      when its prefixes are IPv4, its paths have short segments and it is no longer than a message. */
  lemma SentArrivesIff(
    localAsn: U16, remoteAsn: U16, localIp: IpAddr, rid: U32, batch: seq<Delta>, m: Updates.UpdateMessage,
    chunks: seq<seq<Byte>>)
    requires SentFor(localAsn, remoteAsn, localIp, rid, batch, m)
    requires Concat(chunks) == OctetsOf(m)
    ensures Arrives(m, chunks) <==> Carriable(m)
  {
    hide Codec.FeedAll, SentFor, Messages.ParseMessage, Updates.PrintUpdate, Updates.Canonical, Updates.WireUpdate,
      Updates.ParseUpdate, Codec.Framed, AllOf, Updates.ShortPaths;
    WhatIsRead(m, chunks);
    if Carriable(m) {
      SentIsWire(localAsn, remoteAsn, localIp, rid, batch, m);
      Updates.UpdateRoundTrip(m);
    } else if Arrives(m, chunks) {
      Updates.ReadBackIsCarried(m);
    }
  }

  /** What is read of a message that fits is what the UPDATE parser makes of its octets. */
  lemma WhatIsRead(m: Updates.UpdateMessage, chunks: seq<seq<Byte>>)
    requires Concat(chunks) == OctetsOf(m)
    ensures Arrives(m, chunks) <==>
            |Updates.PrintUpdate(m)| <= 4077
            && Updates.ParseUpdate(Updates.PrintUpdate(m)) == Ok(Updates.Canonical(m))
  {
    hide Codec.FeedAll, Messages.ParseMessage, Updates.PrintUpdate, Updates.Canonical, Updates.ParseUpdate, Codec.Framed;
    var bodies := [Messages.UpdateBody(m)];
    if |Updates.PrintUpdate(m)| <= 4077 {
      assert Codec.FramedAll(Messages.Printed(bodies)) == [Codec.Framed(Messages.PrintMessage(bodies[0]))];
      ConcatOne(Codec.Framed(Messages.PrintMessage(bodies[0])));
      Messages.ConversationArrives(bodies, chunks);
    } else {
      NothingIsRead(chunks);
    }
  }

  lemma NothingIsRead(chunks: seq<seq<Byte>>)
    requires Concat(chunks) == []
    ensures Codec.FeedAll(chunks).frames == []
  {
    Codec.ChunkingIsIrrelevant(chunks);
  }

  /** And a message is understood as its canonical form is. */
  lemma CanonicalSaysTheSame(m: Updates.UpdateMessage)
    ensures SayAll(UNSAID, Updates.Canonical(m).attributes) == SayAll(UNSAID, m.attributes)
  {
    hide SayAll;
    CanonicalAttributes(m);
    SayNormals(UNSAID, m.attributes);
  }

  lemma CanonicalAttributes(m: Updates.UpdateMessage)
    ensures Updates.Canonical(m).attributes == Updates.Normals(m.attributes)
  {
  }

  /** The next hop that is read: only IPv4 ones are announced. */
  function HopSaid(before: IpAddr, w: Route): IpAddr {
    if w.nextHop.afi == Ipv4 then w.nextHop else before
  }

  lemma SayAnnounced(s: Said, localAsn: U16, remoteAsn: U16, localIp: IpAddr, r: Route)
    ensures var t := SayAll(s, Announced(localAsn, remoteAsn, localIp, r));
            var w := Rewritten(localAsn, remoteAsn, localIp, r);
            t.asPath == w.asPath && t.origin == r.origin && t.nextHop == HopSaid(s.nextHop, w)
  {
    hide Announced;
    AnnouncedAttributes(localAsn, remoteAsn, localIp, r);
    var w := Rewritten(localAsn, remoteAsn, localIp, r);
    var hop := if w.nextHop.afi == Ipv4 then [WellKnown(NextHop, NextHopValue(w.nextHop))] else [];
    var core := [WellKnown(AttrType.Origin, OriginValue(w.origin)), WellKnown(AttrType.AsPath, AsPathValue(w.asPath))];
    SayAllSplit(s, hop, core);
    var t := SayAll(s, hop);
    assert t.nextHop == HopSaid(s.nextHop, w) by {
      SayOne(s, WellKnown(NextHop, NextHopValue(w.nextHop)));
    }
    assert core[1..] == [core[1]] && [core[1]][1..] == [];
    assert SayAll(t, core) == SayAll(Say(t, core[0].value), [core[1]]);
    assert SayAll(t, core) == Say(Say(t, core[0].value), core[1].value);
  }

  /** The last group speaks for all of them. */
  lemma {:induction false} LastGroupWins(s: Said, localAsn: U16, remoteAsn: U16, localIp: IpAddr, groups: seq<Group>)
    requires groups != [] && s.nextHop.afi == Ipv4
    ensures var t := SayAll(s, AnnouncedAll(localAsn, remoteAsn, localIp, groups));
            var w := Rewritten(localAsn, remoteAsn, localIp, groups[|groups| - 1].key);
            && t.asPath == w.asPath && t.origin == w.origin
            && t.nextHop.afi == Ipv4 && (w.nextHop.afi == Ipv4 ==> t.nextHop == w.nextHop)
    decreases |groups|
  {
    assert groups[|groups| - 1].key.origin == Rewritten(localAsn, remoteAsn, localIp, groups[|groups| - 1].key).origin;
    hide Announced, Rewritten;
    var a := Announced(localAsn, remoteAsn, localIp, groups[0].key);
    var b := AnnouncedAll(localAsn, remoteAsn, localIp, groups[1..]);
    SayAllSplit(s, a, b);
    SayAnnounced(s, localAsn, remoteAsn, localIp, groups[0].key);
    if groups[1..] != [] {
      LastGroupWins(SayAll(s, a), localAsn, remoteAsn, localIp, groups[1..]);
    } else {
      assert a + [] == a;
    }
  }

  /** What the reader takes path, origin and next hop of a prefix to be. */
  predicate ReadAs(said: Said, w: Route) {
    said.asPath == w.asPath && said.origin == w.origin && said.nextHop == w.nextHop
  }

  /** The attributes read off the message are those of every announced route. */
  ghost predicate Faithful(localAsn: U16, remoteAsn: U16, localIp: IpAddr, entries: seq<Entry>, said: Said) {
    forall e <- entries :: ReadAs(said, Rewritten(localAsn, remoteAsn, localIp, e.route))
  }

  /** The routes share one path, one origin and, where it is not rewritten, one next hop; and a next
      hop can be announced at all. */
  ghost predicate Uniform(localAsn: U16, remoteAsn: U16, localIp: IpAddr, entries: seq<Entry>) {
    && (forall e <- entries, f <- entries ::
          && e.route.asPath == f.route.asPath && e.route.origin == f.route.origin
          && (localAsn == remoteAsn ==> e.route.nextHop == f.route.nextHop))
    && (forall e <- entries :: (if localAsn == remoteAsn then e.route.nextHop else localIp).afi == Ipv4)
  }

  lemma SharedIsShared(localAsn: U16, remoteAsn: U16, localIp: IpAddr, r: Route, t: Route)
    ensures var v, w := Rewritten(localAsn, remoteAsn, localIp, r), Rewritten(localAsn, remoteAsn, localIp, t);
            && (v.asPath == w.asPath <==> r.asPath == t.asPath)
            && v.origin == r.origin && v.nextHop == (if localAsn == remoteAsn then r.nextHop else localIp)
  {
    var v, w := Rewritten(localAsn, remoteAsn, localIp, r), Rewritten(localAsn, remoteAsn, localIp, t);
    if localAsn != remoteAsn {
      assert v.asPath[1..] == r.asPath && w.asPath[1..] == t.asPath;
    }
  }

  /** The members of the last group that goes out are announced with its key. */
  lemma LastKeyIsAnnounced(groups: seq<Group>)
    requires groups != [] && forall g <- groups :: GoodGroup(g)
    ensures exists e <- Members(groups) :: e.route == groups[|groups| - 1].key
  {
    hide Same, Members;
    var last := groups[|groups| - 1];
    assert GoodGroup(last);
    hide GoodGroup;
    MembersWithout(groups, |groups| - 1);
    assert last.members[0] in multiset(last.members);
    assert last.members[0] in multiset(Members(groups));
  }

  /** One message carries all groups that go out, and its reader keeps the last path, origin and next
      hop. So on a session of either kind each prefix is learnt with its own attributes exactly when
      the routes announced share path and origin, on an internal session also the next hop, which the
      grouping does not look at, and the next hop is an IPv4 address. */
  lemma MergeIsFaithfulIff(
    localAsn: U16, remoteAsn: U16, localIp: IpAddr, rid: U32, batch: seq<Delta>, groups: seq<Group>)
    requires Grouping(groups, News(batch, rid))
    ensures var m := MessageOf(localAsn, remoteAsn, localIp, batch, groups);
            var sent := Members(Outgoing(localAsn, remoteAsn, groups));
            Faithful(localAsn, remoteAsn, localIp, sent, SayAll(UNSAID, m.attributes)) <==>
            Uniform(localAsn, remoteAsn, localIp, sent)
  {
    hide Announced, Same, Rewritten, Members;
    var out := Outgoing(localAsn, remoteAsn, groups);
    var sent := Members(out);
    var said := SayAll(UNSAID, AnnouncedAll(localAsn, remoteAsn, localIp, out));
    OutgoingIsPart(localAsn, remoteAsn, groups);
    if out == [] {
      NoMembers();
    } else {
      LastGroupWins(UNSAID, localAsn, remoteAsn, localIp, out);
      LastKeyIsAnnounced(out);
      var l :| l in sent && l.route == out[|out| - 1].key;
      FaithfulIsUniform(localAsn, remoteAsn, localIp, sent, said, l);
    }
  }

  lemma NoMembers()
    ensures Members([]) == []
  {
  }

  lemma FaithfulIsUniform(
    localAsn: U16, remoteAsn: U16, localIp: IpAddr, sent: seq<Entry>, said: Said, l: Entry)
    requires l in sent && said.nextHop.afi == Ipv4
    requires var w := Rewritten(localAsn, remoteAsn, localIp, l.route);
             && said.asPath == w.asPath && said.origin == w.origin
             && (w.nextHop.afi == Ipv4 ==> said.nextHop == w.nextHop)
    ensures Faithful(localAsn, remoteAsn, localIp, sent, said) <==> Uniform(localAsn, remoteAsn, localIp, sent)
  {
    hide Rewritten;
    forall e <- sent, f <- sent
      ensures var v := Rewritten(localAsn, remoteAsn, localIp, e.route);
              var w := Rewritten(localAsn, remoteAsn, localIp, f.route);
              && (v.asPath == w.asPath <==> e.route.asPath == f.route.asPath)
              && v.origin == e.route.origin && v.nextHop == (if localAsn == remoteAsn then e.route.nextHop else localIp)
    {
      SharedIsShared(localAsn, remoteAsn, localIp, e.route, f.route);
    }
  }

  lemma SameEntries(
    localAsn: U16, remoteAsn: U16, localIp: IpAddr, a: seq<Entry>, b: seq<Entry>, said: Said)
    requires multiset(a) == multiset(b)
    ensures Faithful(localAsn, remoteAsn, localIp, a, said) <==> Faithful(localAsn, remoteAsn, localIp, b, said)
    ensures Uniform(localAsn, remoteAsn, localIp, a) <==> Uniform(localAsn, remoteAsn, localIp, b)
  {
    hide ReadAs, Rewritten;
    forall e
      ensures e in a <==> e in b
    {
      assert e in multiset(a) <==> e in multiset(b);
    }
  }

  /** To an external neighbour exactly the news go out, so the condition is one on the batch. */
  lemma MergeIsFaithfulIffUniform(
    localAsn: U16, remoteAsn: U16, localIp: IpAddr, rid: U32, batch: seq<Delta>, m: Updates.UpdateMessage)
    requires SentFor(localAsn, remoteAsn, localIp, rid, batch, m) && localAsn != remoteAsn
    ensures Faithful(localAsn, remoteAsn, localIp, News(batch, rid), SayAll(UNSAID, m.attributes)) <==>
            Uniform(localAsn, remoteAsn, localIp, News(batch, rid))
  {
    hide Members, DistinctKeys, GoodGroup, Faithful, Uniform, SayAll, AnnouncedAll, Outgoing, News;
    var groups :| Grouping(groups, News(batch, rid)) && m == MessageOf(localAsn, remoteAsn, localIp, batch, groups);
    OutgoingIsPart(localAsn, remoteAsn, groups);
    MergeIsFaithfulIff(localAsn, remoteAsn, localIp, rid, batch, groups);
    SameEntries(localAsn, remoteAsn, localIp, Members(groups), News(batch, rid), SayAll(UNSAID, m.attributes));
  }

  function TwoNews(n: Nlri, r: Route, k: Nlri, t: Route): seq<Delta> {
    [Delta(n, Some(r)), Delta(k, Some(t))]
  }

  lemma NewsOfTwo(n: Nlri, r: Route, k: Nlri, t: Route, rid: U32)
    requires r.peerRid != rid && t.peerRid != rid
    ensures News(TwoNews(n, r, k, t), rid) == [Entry(n, r), Entry(k, t)]
  {
    NewsSnoc([Delta(n, Some(r))], Delta(k, Some(t)), rid);
    assert [Delta(n, Some(r))] + [Delta(k, Some(t))] == TwoNews(n, r, k, t);
    NewsOfOne(Delta(n, Some(r)), rid);
    NewsOfOne(Delta(k, Some(t)), rid);
  }

  lemma OneGroup(e: Entry, f: Entry)
    requires Same(e.route, f.route)
    ensures Grouping([Group(e.route, [e, f])], [e, f]) && Members([Group(e.route, [e, f])]) == [e, f]
  {
    var g := Group(e.route, [e, f]);
    MembersOfOne(g);
    SameLaws(e.route, e.route);
    SameLaws(e.route, f.route);
    assert GoodGroup(g);
  }

  /** Two routes that differ in their next hop alone share a group, and an internal neighbour learns
      one prefix with the next hop of the other. */
  lemma NextHopIsLost(asn: U16, localIp: IpAddr, rid: U32, n: Nlri, r: Route, k: Nlri, hop: IpAddr)
    returns (groups: seq<Group>)
    requires r.peerRid != rid && r.peerType == Ebgp && hop != r.nextHop
    ensures var batch := TwoNews(n, r, k, r.(nextHop := hop));
            var out := Outgoing(asn, asn, groups);
            && Grouping(groups, News(batch, rid)) && |out| == 1
            && !Faithful(asn, asn, localIp, Members(out),
                         SayAll(UNSAID, MessageOf(asn, asn, localIp, batch, groups).attributes))
  {
    hide SayAll, AnnouncedAll, Faithful;
    var t := r.(nextHop := hop);
    var e, f := Entry(n, r), Entry(k, t);
    groups := [Group(r, [e, f])];
    NewsOfTwo(n, r, k, t, rid);
    OneGroup(e, f);
    assert groups[1..] == [];
    assert Outgoing(asn, asn, groups) == groups;
    MergeIsFaithfulIff(asn, asn, localIp, rid, TwoNews(n, r, k, t), groups);
    assert e in [e, f] && f in [e, f];
  }

  lemma TwoGroups(e: Entry, f: Entry) returns (groups: seq<Group>)
    requires !Same(e.route, f.route)
    ensures Grouping(groups, [e, f])
  {
    hide Same, Grouping;
    var none: seq<Group> := [];
    NothingGrouped(0);
    assert News([], 0) == [];
    hide News;
    FiledAlone(none, e, []);
    assert none + [Group(e.route, [e])] == [Group(e.route, [e])] && [] + [e] == [e];
    FiledAlone([Group(e.route, [e])], f, [e]);
    assert [e] + [f] == [e, f];
    groups := [Group(e.route, [e])] + [Group(f.route, [f])];
  }

  /** Two routes of different origin go out in one message, and an external neighbour learns one
      prefix with the origin of the other. */
  lemma OriginIsLost(
    localAsn: U16, remoteAsn: U16, localIp: IpAddr, rid: U32, n: Nlri, r: Route, k: Nlri, origin: Origin)
    returns (m: Updates.UpdateMessage)
    requires localAsn != remoteAsn && r.peerRid != rid && origin != r.origin
    ensures var batch := TwoNews(n, r, k, r.(origin := origin));
            && SentFor(localAsn, remoteAsn, localIp, rid, batch, m)
            && !Faithful(localAsn, remoteAsn, localIp, News(batch, rid), SayAll(UNSAID, m.attributes))
  {
    var t := r.(origin := origin);
    var e, f := Entry(n, r), Entry(k, t);
    var batch := TwoNews(n, r, k, t);
    assert !Same(r, t);
    hide SayAll, AnnouncedAll, Faithful, Grouping, Outgoing, Same;
    NewsOfTwo(n, r, k, t, rid);
    var groups := TwoGroups(e, f);
    m := MessageOf(localAsn, remoteAsn, localIp, batch, groups);
    MergeIsFaithfulIffUniform(localAsn, remoteAsn, localIp, rid, batch, m);
    assert e in [e, f] && f in [e, f];
  }
}
