/** A neighbour's session state and what its messages do to it (src/neighbor/session.rs,
    src/neighbor/message_handler.rs, src/speaker/connection.rs). */
module Sessions {
  import opened Basics
  import opened Bytes
  import opened Types
  import opened Nlris
  import opened Attributes
  import opened Routes
  import opened LocRibs
  import Opens
  import Updates
  import opened Messages

  datatype BGPState = Idle | Connect | Active | OpenSent | OpenConfirm | Established

  /** The routes last heard from a neighbour, family by family. */
  type AdjRib = map<AddressFamily, Rib>

  /** `rib.insert` of one route under each prefix. */
  function SetAll(rib: Rib, nlris: seq<Nlri>, r: Route): Rib
    decreases |nlris|
  {
    if nlris == [] then rib else SetAll(rib[nlris[0] := [r]], nlris[1..], r)
  }

  function FamilyRib(adj: AdjRib, af: AddressFamily): Rib {
    if af in adj then adj[af] else map[]
  }

  function AdjAdd(adj: AdjRib, af: AddressFamily, u: RibUpdate): AdjRib {
    adj[af := SetAll(FamilyRib(adj, af), u.nlris, u.attributes)]
  }

  function RemoveAll(rib: Rib, nlris: seq<Nlri>): Rib {
    map n | n in rib && n !in nlris :: rib[n]
  }

  function AdjWithdraw(adj: AdjRib, af: AddressFamily, u: RibUpdate): AdjRib {
    if af in adj then adj[af := RemoveAll(adj[af], u.nlris)] else adj
  }

  lemma {:induction false} SetAllAt(rib: Rib, nlris: seq<Nlri>, r: Route, n: Nlri)
    ensures n in SetAll(rib, nlris, r) <==> n in nlris || n in rib
    ensures n in nlris ==> SetAll(rib, nlris, r)[n] == [r]
    ensures n !in nlris && n in rib ==> SetAll(rib, nlris, r)[n] == rib[n]
    decreases |nlris|
  {
    if nlris != [] {
      SetAllAt(rib[nlris[0] := [r]], nlris[1..], r, n);
    }
  }

  /** What an UPDATE is about: its family, prefixes and, for a multiprotocol one, next hop. */
  datatype Parts = Parts(af: AddressFamily, nlris: seq<Nlri>, withdrawn: seq<Nlri>, nh: Option<IpAddr>)

  function FirstMp(attrs: seq<PathAttribute>): Option<AttrValue> {
    if attrs == [] then None
    else if attrs[0].typeCode == MpReach || attrs[0].typeCode == MpUnreach then Some(attrs[0].value)
    else FirstMp(attrs[1..])
  }

  /** The first multiprotocol attribute decides; without one the message's own fields do. */
  function PartsOf(m: Updates.UpdateMessage): Parts {
    match FirstMp(m.attributes)
    case Some(MpReachValue(n)) => Parts(n.af, n.nlris, [], Some(n.nh))
    case Some(MpUnreachValue(n)) => Parts(n.af, [], n.nlris, None)
    case _ => Parts(IPV4_UNICAST, m.nlri, m.withdrawn, None)
  }

  /** The first attribute of one of the two multiprotocol types, at place `k`, is all that is read of prefixes:
      one that announces has its own next hop. */
  lemma FirstMpDecides(m: Updates.UpdateMessage, k: nat)
    requires k < |m.attributes| && (m.attributes[k].typeCode == MpReach || m.attributes[k].typeCode == MpUnreach)
    requires forall j | 0 <= j < k :: m.attributes[j].typeCode != MpReach && m.attributes[j].typeCode != MpUnreach
    ensures PartsOf(m) ==
            match m.attributes[k].value
            case MpReachValue(n) => Parts(n.af, n.nlris, [], Some(n.nh))
            case MpUnreachValue(n) => Parts(n.af, [], n.nlris, None)
            case _ => Parts(AddressFamily(Ipv4, Unicast), m.nlri, m.withdrawn, None)
  {
    FirstMpAt(m.attributes, k);
  }

  lemma {:induction false} FirstMpAt(attrs: seq<PathAttribute>, k: nat)
    requires k < |attrs| && (attrs[k].typeCode == MpReach || attrs[k].typeCode == MpUnreach)
    requires forall j | 0 <= j < k :: attrs[j].typeCode != MpReach && attrs[j].typeCode != MpUnreach
    ensures FirstMp(attrs) == Some(attrs[k].value)
  {
    if k > 0 {
      FirstMpAt(attrs[1..], k - 1);
    }
  }

  /** Without one the message's own fields are read, as IPv4 unicast and with no next hop of their own. */
  lemma NoMpDecides(m: Updates.UpdateMessage)
    requires forall a <- m.attributes :: a.typeCode != MpReach && a.typeCode != MpUnreach
    ensures PartsOf(m) == Parts(AddressFamily(Ipv4, Unicast), m.nlri, m.withdrawn, None)
  {
    NoMp(m.attributes);
  }

  lemma {:induction false} NoMp(attrs: seq<PathAttribute>)
    requires forall a <- attrs :: a.typeCode != MpReach && a.typeCode != MpUnreach
    ensures FirstMp(attrs) == None
  {
    if attrs != [] {
      NoMp(attrs[1..]);
    }
  }

  /** The event an UPDATE becomes. */
  function EventOf(p: Parts, attrs: Route, rid: U32): RibEvent {
    RibEvent(if p.nlris != [] then Some(RibUpdate(p.nlris, attrs)) else None,
             if p.withdrawn != [] then Some(RibUpdate(p.withdrawn, attrs)) else None,
             rid)
  }

  /** Withdrawals first, then announcements: the order in which the Adj-RIB is brought up to date. */
  function AdjAfter(adj: AdjRib, p: Parts, attrs: Route): AdjRib {
    var w := if p.withdrawn != [] then AdjWithdraw(adj, p.af, RibUpdate(p.withdrawn, attrs)) else adj;
    if p.nlris != [] then AdjAdd(w, p.af, RibUpdate(p.nlris, attrs)) else w
  }

  /** One entry of the Adj-RIB after an UPDATE: a prefix announced has the new route alone, one
      only withdrawn has none, and no other prefix or family changes. */
  lemma AdjAfterAt(adj: AdjRib, p: Parts, attrs: Route, af: AddressFamily, n: Nlri)
    ensures var before, after := FamilyRib(adj, af), FamilyRib(AdjAfter(adj, p, attrs), af);
            && (n in after <==> (af == p.af && n in p.nlris) || (n in before && !(af == p.af && n in p.withdrawn)))
            && (n in after ==> after[n] == if af == p.af && n in p.nlris then [attrs] else before[n])
  {
    hide SetAll;
    var w := if p.withdrawn != [] then AdjWithdraw(adj, p.af, RibUpdate(p.withdrawn, attrs)) else adj;
    SetAllAt(FamilyRib(w, p.af), p.nlris, attrs, n);
  }

  /** The event that withdraws everything a peer announced. */
  function WithdrawAllEvent(rid: U32): RibEvent {
    var none := Route([], Igp, UNSPECIFIED_V4, None, None, External, Ebgp, 0, rid, UNSPECIFIED_V4);
    RibEvent(None, Some(RibUpdate([], none)), rid)
  }

  /** One event for every mention of the family. */
  function Purges(families: seq<AddressFamily>, af: AddressFamily, rid: U32): seq<RibEvent> {
    if families == [] then []
    else Purges(families[..|families| - 1], af, rid)
         + if families[|families| - 1] == af then [WithdrawAllEvent(rid)] else []
  }

  lemma PurgesSnoc(families: seq<AddressFamily>, k: nat, af: AddressFamily, rid: U32)
    requires k < |families|
    ensures Purges(families[..k + 1], af, rid) ==
            Purges(families[..k], af, rid) + if families[k] == af then [WithdrawAllEvent(rid)] else []
  {
    assert families[..k + 1][..k] == families[..k];
  }

  /** What a neighbour's record says about its session; `tx` tells whether a connection's event
      channel is registered, `heard` the families named in the last OPEN that was understood. */
  datatype Session = Session(
    state: BGPState, tx: bool, asn: Option<U16>, rid: Option<U32>, heard: Option<seq<AddressFamily>>, adj: AdjRib)

  /** The two facts about a session that never change. */
  datatype Ends = Ends(localAsn: U16, remoteIp: IpAddr)

  /** The session is under negotiation with this router id. */
  predicate Clashes(n: Session, rid: U32) {
    n.tx && (n.state == OpenConfirm || n.state == OpenSent) && n.rid == Some(rid)
  }

  predicate Collides(others: seq<Session>, rid: U32) {
    exists n <- others :: Clashes(n, rid)
  }

  /** An unexpected AS number is the only thing an OPEN is refused for. */
  predicate ValidOpen(s: Session, m: Opens.OpenMessage) {
    s.asn.None? || s.asn.value == m.asn
  }

  /** The remote AS and router id that the handling of an UPDATE takes for granted. */
  predicate Identified(s: Session) {
    s.asn.Some? && s.rid.Some?
  }

  function RouteFrom(s: Session, ends: Ends, m: Updates.UpdateMessage, now: nat): Route
    requires Identified(s)
  {
    RouteOf(m.attributes, PartsOf(m).nh, ends.localAsn, Peer(s.asn.value, s.rid.value, ends.remoteIp), now)
  }

  /** The route of an announcement behind a multiprotocol attribute has that attribute's next hop, whatever
      NEXT_HOP says. */
  lemma AnnouncedHop(s: Session, ends: Ends, m: Updates.UpdateMessage, now: nat, k: nat)
    requires Identified(s) && k < |m.attributes| && m.attributes[k].typeCode == MpReach
    requires m.attributes[k].value.MpReachValue?
    requires forall j | 0 <= j < k :: m.attributes[j].typeCode != MpReach && m.attributes[j].typeCode != MpUnreach
    ensures RouteFrom(s, ends, m, now).nextHop == m.attributes[k].value.reach.nh
  {
    hide PartsOf, RouteOf;
    FirstMpDecides(m, k);
    UnsaidIsDefault(m.attributes, PartsOf(m).nh, ends.localAsn,
                    Peer(s.asn.value, s.rid.value, ends.remoteIp), now);
  }

  /** It is a route of the session: told apart from inside by the two AS numbers, with the peer's router id
      and address. */
  lemma RouteIsOfSession(s: Session, ends: Ends, m: Updates.UpdateMessage, now: nat)
    requires Identified(s)
    ensures var r := RouteFrom(s, ends, m, now);
            && (r.peerType == Ibgp <==> s.asn == Some(ends.localAsn))
            && r.recvTime == now && Some(r.peerRid) == s.rid && r.peerIp == ends.remoteIp
  {
    hide PartsOf, RouteOf;
    UnsaidIsDefault(m.attributes, PartsOf(m).nh, ends.localAsn,
                    Peer(s.asn.value, s.rid.value, ends.remoteIp), now);
  }

  /** The neighbours are asked about an OPEN's router id. */
  predicate Asks(s: Session, m: Body) {
    m.OpenBody? && (s.state == Active || s.state == OpenSent) && s.tx
  }

  /** The OPEN is taken over, `others` being all sessions of the speaker. */
  predicate TakesOver(s: Session, others: seq<Session>, m: Body) {
    Asks(s, m) && !Collides(others, m.open.routerId) && ValidOpen(s, m.open)
  }

  /** The families known after an OPEN: capabilities that stop the parser change nothing. */
  function HeardFrom(o: Opens.OpenMessage, before: Option<seq<AddressFamily>>): Option<seq<AddressFamily>> {
    match Opens.Understand(o.optParams.params) case Ok(caps) => caps.multiprotocol case Err => before
  }

  function TakenOver(s: Session, o: Opens.OpenMessage): Session {
    s.(state := OpenConfirm, rid := Some(o.routerId), asn := Some(o.asn), heard := HeardFrom(o, s.heard))
  }

  /** The session of a neighbour from which one OPEN was taken over, or none. */
  function SessionOf(asn: U16, state: BGPState, tx: bool, o: Option<Opens.OpenMessage>): Session {
    Session(state, tx, Some(asn), if o.Some? then Some(o.value.routerId) else None,
            if o.Some? then HeardFrom(o.value, None) else None, map[])
  }

  /** The session after a message. */
  function Reached(s: Session, ends: Ends, others: seq<Session>, m: Body, now: nat): Session {
    match m
    case OpenBody(o) => if TakesOver(s, others, m) then TakenOver(s, o) else s
    case KeepaliveBody => if s.state == OpenConfirm then s.(state := Established) else s
    case UpdateBody(u) =>
      if s.state == Established && Identified(s)
      then s.(adj := AdjAfter(s.adj, PartsOf(u), RouteFrom(s, ends, u, now))) else s
    case NotificationBody(_, _, _) => if s.state == Established then s.(state := Idle, adj := map[]) else s
  }

  /** The families whose routes a NOTIFICATION withdraws. */
  function Advertised(families: Option<seq<AddressFamily>>): seq<AddressFamily> {
    if families.Some? then families.value else [IPV4_UNICAST]
  }

  /** What a message puts in the channel of a family. */
  function EventsOn(s: Session, ends: Ends, families: seq<AddressFamily>, m: Body, now: nat, af: AddressFamily)
    : seq<RibEvent>
  {
    if s.state != Established then []
    else match m
      case UpdateBody(u) =>
        if Identified(s) && af == PartsOf(u).af
        then [EventOf(PartsOf(u), RouteFrom(s, ends, u, now), s.rid.value)] else []
      case NotificationBody(_, _, _) => Purges(families, af, if s.rid.Some? then s.rid.value else 0)
      case _ => []
  }

  /** The events with an effect; the handlers of all others log and return. In Established the routes of
      `BestRoutes` are sent to the peer, and whether that succeeds is not asked. */
  datatype Event =
    | TcpConnectionConfirmed | TcpConnectionValid | TcpConnectionFails | BGPOpen
    | KeepaliveTimerExpires | ManualStart | AutomaticStart | BestRoutes(batch: seq<Delta>)
    | OpenCollisionDump | BGPOpenMsgErr | NotifMsg | OtherEvent

  /** The Loc-RIBs of a speaker. */
  type Tables = map<AddressFamily, Rib>

  /** The families offered that the peer named too, as often and in the order they are offered. */
  function Common(offered: seq<AddressFamily>, heard: seq<AddressFamily>): seq<AddressFamily> {
    if offered == [] then []
    else
      Common(offered[..|offered| - 1], heard)
      + if offered[|offered| - 1] in heard then [offered[|offered| - 1]] else []
  }

  /** A table is there, has a route in every entry, and there is a channel to send them to. */
  predicate CanSend(tx: bool, tables: Tables, af: AddressFamily) {
    tx && af in tables && forall n <- tables[af] :: tables[af][n] != []
  }

  /** The number of tables that are sent before something is missing. */
  function CountSent(tx: bool, tables: Tables, fams: seq<AddressFamily>): (k: nat)
    ensures k <= |fams|
  {
    if fams == [] || !CanSend(tx, tables, fams[0]) then 0 else 1 + CountSent(tx, tables, fams[1..])
  }

  /** The KEEPALIVE that establishes a session gets to its end: both sides named families, and the
      table of every family that both named can be sent. */
  predicate SendsTables(s: Session, families: Option<seq<AddressFamily>>, tables: Tables) {
    && families.Some? && s.heard.Some?
    && forall af <- families.value :: af in s.heard.value ==> CanSend(s.tx, tables, af)
  }

  /** The event carries the first routes of the table. */
  ghost predicate IsTable(e: Event, tables: Tables, af: AddressFamily) {
    e.BestRoutes? && af in tables && IsDump(tables[af], e.batch)
  }

  /** The table events of that KEEPALIVE, all of them or those before something is missing. */
  ghost predicate TableEvents(s: Session, families: Option<seq<AddressFamily>>, tables: Tables, events: seq<Event>) {
    var fams := if families.Some? && s.heard.Some? then Common(families.value, s.heard.value) else [];
    && |events| == CountSent(s.tx, tables, fams)
    && forall k | 0 <= k < |events| :: IsTable(events[k], tables, fams[k])
  }

  lemma NothingCommon(heard: Option<seq<AddressFamily>>)
    ensures heard.Some? ==> Common([], heard.value) == []
  {
  }

  lemma CommonSnoc(offered: seq<AddressFamily>, heard: seq<AddressFamily>, k: nat)
    requires k < |offered|
    ensures Common(offered[..k + 1], heard) ==
            Common(offered[..k], heard) + if offered[k] in heard then [offered[k]] else []
  {
    assert offered[..k + 1][..k] == offered[..k];
  }

  lemma {:induction false} CommonPrefix(offered: seq<AddressFamily>, heard: seq<AddressFamily>, k: nat)
    requires k <= |offered|
    ensures Common(offered[..k], heard) <= Common(offered, heard)
    decreases |offered| - k
  {
    if k < |offered| {
      CommonSnoc(offered, heard, k);
      CommonPrefix(offered, heard, k + 1);
    } else {
      assert offered[..k] == offered;
    }
  }

  lemma {:induction false} CountSentIs(tx: bool, tables: Tables, fams: seq<AddressFamily>, k: nat)
    requires k <= |fams| && (k < |fams| ==> !CanSend(tx, tables, fams[k]))
    requires forall j | 0 <= j < k :: CanSend(tx, tables, fams[j])
    ensures CountSent(tx, tables, fams) == k
  {
    hide CanSend;
    if k > 0 {
      CountSentIs(tx, tables, fams[1..], k - 1);
    }
  }

  /** What a message makes the session send to its own connection task, tables apart. */
  function Signals(s: Session, others: seq<Session>, m: Body): seq<Event> {
    if !s.tx then []
    else match m
      case OpenBody(o) =>
        if !Asks(s, m) then []
        else if Collides(others, o.routerId) then [OpenCollisionDump]
        else if !ValidOpen(s, o) then [BGPOpenMsgErr]
        else if s.state == Active && Opens.Understand(o.optParams.params).Ok? then [BGPOpen] else []
      case KeepaliveBody => []
      case UpdateBody(_) => if s.state == OpenSent then [NotifMsg] else []
      case NotificationBody(_, _, _) =>
        if s.state == Active || s.state == OpenConfirm then [NotifMsg]
        else if s.state == Established then [TcpConnectionFails] else []
  }

  /** The session is established by the message, and the tables are sent. */
  predicate Establishes(s: Session, m: Body) {
    m.KeepaliveBody? && s.state == OpenConfirm
  }

  /** All that a message makes the session send to its own connection task. */
  ghost predicate Signalled(
    s: Session, families: Option<seq<AddressFamily>>, tables: Tables, others: seq<Session>, m: Body, events: seq<Event>)
  {
    if Establishes(s, m) then TableEvents(s, families, tables, events) else events == Signals(s, others, m)
  }

  /** How the handling of a message ends: the task goes on, it gets an error and cleans up, or it stops
      where it is because something it takes for granted is missing. */
  datatype Fate = GoesOn | Fails | Stops

  function FateOf(
    s: Session, families: Option<seq<AddressFamily>>, tables: Tables, others: seq<Session>, m: Body): Fate
  {
    match m
    case OpenBody(o) =>
      if (s.state == Active || s.state == OpenSent) && !s.tx then Fails
      else if TakesOver(s, others, m) && Opens.Understand(o.optParams.params).Err? then Stops else GoesOn
    case KeepaliveBody => if Establishes(s, m) && !SendsTables(s, families, tables) then Stops else GoesOn
    case UpdateBody(_) =>
      if s.state == OpenSent && !s.tx then Fails
      else if s.state == Established && !Identified(s) then Stops else GoesOn
    case NotificationBody(_, _, _) => if (s.state == Active || s.state == OpenConfirm) && !s.tx then Fails else GoesOn
  }

  /** An OPEN in every state. Only while negotiating anything comes of it: without a channel an error, on a
      clash or an unexpected AS number just word of it, else OpenConfirm, and in Active the go-ahead. */
  lemma OpenTable(
    s: Session, ends: Ends, families: Option<seq<AddressFamily>>, tables: Tables, others: seq<Session>,
    o: Opens.OpenMessage, now: nat)
    ensures var m := OpenBody(o);
            var t, sent, fate := Reached(s, ends, others, m, now), Signals(s, others, m),
                                 FateOf(s, families, tables, others, m);
            if s.state != Active && s.state != OpenSent then t == s && sent == [] && fate == GoesOn
            else if !s.tx then t == s && sent == [] && fate == Fails
            else if exists n <- others :: n.tx && (n.state == OpenSent || n.state == OpenConfirm)
                                          && n.rid == Some(o.routerId)
            then t == s && sent == [OpenCollisionDump] && fate == GoesOn
            else if s.asn != None && s.asn != Some(o.asn) then t == s && sent == [BGPOpenMsgErr] && fate == GoesOn
            else
              && t.state == OpenConfirm && t.rid == Some(o.routerId) && t.asn == Some(o.asn)
              && t.tx && t.adj == s.adj
              && match Opens.Understand(o.optParams.params)
                 case Ok(caps) =>
                   && t.heard == caps.multiprotocol && fate == GoesOn
                   && sent == if s.state == Active then [BGPOpen] else []
                 case Err => t.heard == s.heard && fate == Stops && sent == []
  {
    hide Opens.Understand;
  }

  /** A KEEPALIVE, an UPDATE and a NOTIFICATION in every state, but for what the tables and channels get. */
  lemma OtherTables(
    s: Session, ends: Ends, families: Option<seq<AddressFamily>>, tables: Tables, others: seq<Session>,
    u: Updates.UpdateMessage, code: ErrorCode, sub: Byte, data: seq<Byte>, now: nat)
    ensures Reached(s, ends, others, KeepaliveBody, now) ==
            if s.state == OpenConfirm then s.(state := Established) else s
    ensures var m := UpdateBody(u);
            var t, sent, fate := Reached(s, ends, others, m, now), Signals(s, others, m),
                                 FateOf(s, families, tables, others, m);
            && t == s.(adj := t.adj)
            && (s.state != Established || s.asn == None || s.rid == None ==> t == s)
            && sent == (if s.state == OpenSent && s.tx then [NotifMsg] else [])
            && fate == if s.state == OpenSent && !s.tx then Fails
                       else if s.state == Established && (s.asn == None || s.rid == None) then Stops else GoesOn
    ensures var m := NotificationBody(code, sub, data);
            var t, sent, fate := Reached(s, ends, others, m, now), Signals(s, others, m),
                                 FateOf(s, families, tables, others, m);
            && t == (if s.state == Established then s.(state := Idle, adj := map[]) else s)
            && (fate == if (s.state == Active || s.state == OpenConfirm) && !s.tx then Fails else GoesOn)
            && sent == if s.state == Established && s.tx then [TcpConnectionFails]
                       else if (s.state == Active || s.state == OpenConfirm) && s.tx then [NotifMsg] else []
  {
    hide AdjAfter, PartsOf, RouteFrom;
  }

  /** The event for the Loc-RIB: an UPDATE in an established session puts one in the channel of its family,
      with what it announces and withdraws under the peer's router id, and nothing in any other. */
  lemma UpdateEvents(
    s: Session, ends: Ends, families: seq<AddressFamily>, u: Updates.UpdateMessage, now: nat, af: AddressFamily)
    ensures var p, events := PartsOf(u), EventsOn(s, ends, families, UpdateBody(u), now, af);
            if s.state == Established && s.asn.Some? && s.rid.Some? && af == p.af
            then
              var r := RouteFrom(s, ends, u, now);
              events == [RibEvent(if p.nlris == [] then None else Some(RibUpdate(p.nlris, r)),
                                  if p.withdrawn == [] then None else Some(RibUpdate(p.withdrawn, r)), s.rid.value)]
            else events == []
  {
    hide PartsOf, RouteFrom;
  }

  /** A NOTIFICATION in an established session puts one event in the channel of a family for each mention of
      it among the families offered, or one for IPv4 unicast when none are configured; it withdraws whatever
      is there of the peer's router id, or of 0 when that is not known. */
  lemma NotificationEvents(
    s: Session, ends: Ends, families: Option<seq<AddressFamily>>, code: ErrorCode, sub: Byte, data: seq<Byte>,
    now: nat, af: AddressFamily)
    ensures var events := EventsOn(s, ends, Advertised(families), NotificationBody(code, sub, data), now, af);
            && (s.state != Established ==> events == [])
            && (s.state == Established ==>
                  |events| == match families
                              case Some(fams) => multiset(fams)[af]
                              case None => if af == AddressFamily(Ipv4, Unicast) then 1 else 0)
            && forall e <- events ::
                 && e.added == None && e.withdrawn.Some? && e.withdrawn.value.nlris == []
                 && e.withdrawn.value.attributes.peerRid == (if s.rid == None then 0 else s.rid.value)
  {
    PurgesAre(Advertised(families), af, if s.rid.Some? then s.rid.value else 0);
  }

  lemma {:induction false} PurgesAre(families: seq<AddressFamily>, af: AddressFamily, rid: U32)
    ensures |Purges(families, af, rid)| == multiset(families)[af]
    ensures forall e <- Purges(families, af, rid) :: e == WithdrawAllEvent(rid)
  {
    hide WithdrawAllEvent;
    if families != [] {
      var init := families[..|families| - 1];
      PurgesAre(init, af, rid);
      assert families == init + [families[|families| - 1]];
    }
  }

  /** The tables that are sent: those of the families heard, as often as they are offered. */
  lemma {:induction false} CommonCounts(offered: seq<AddressFamily>, heard: seq<AddressFamily>, af: AddressFamily)
    ensures multiset(Common(offered, heard))[af] == if af in heard then multiset(offered)[af] else 0
  {
    if offered != [] {
      var init := offered[..|offered| - 1];
      CommonCounts(init, heard, af);
      assert offered == init + [offered[|offered| - 1]];
    }
  }

  /** The place of the first session that clashes; the length when there is none. */
  function FirstClash(sessions: seq<Session>, rid: U32): (k: nat)
    ensures k <= |sessions| && (k < |sessions| <==> Collides(sessions, rid))
  {
    if sessions == [] || Clashes(sessions[0], rid) then 0 else 1 + FirstClash(sessions[1..], rid)
  }

  lemma {:induction false} FirstClashIs(sessions: seq<Session>, rid: U32, k: nat)
    requires k < |sessions| && forall j | 0 <= j < k :: !Clashes(sessions[j], rid)
    ensures FirstClash(sessions, rid) >= k
    ensures FirstClash(sessions, rid) == k <==>
            sessions[k].tx && (sessions[k].state == OpenSent || sessions[k].state == OpenConfirm)
            && sessions[k].rid == Some(rid)
  {
    if k > 0 {
      hide Clashes;
      FirstClashIs(sessions[1..], rid, k - 1);
    }
  }

  /** How the speaker's attempt to reach a neighbour ends: not at all, without a local address to be
      found out, or well. */
  datatype Attempt = Unreached | Nameless | Connected

  /** An OPEN is written and, if that succeeds, OpenSent entered. */
  predicate OpensOn(state: BGPState, e: Event) {
    (state == Active && e == TcpConnectionConfirmed) || (state == Connect && e == TcpConnectionValid)
  }

  /** Something is written on the connection, which can fail. */
  predicate WritesOn(state: BGPState, e: Event) {
    || OpensOn(state, e)
    || (state == Connect && (e == KeepaliveTimerExpires || e == ManualStart))
    || (state == OpenConfirm && (e == KeepaliveTimerExpires || e == BGPOpen))
    || (state == Established && e == KeepaliveTimerExpires)
  }

  function AfterEvent(s: Session, e: Event, written: bool): Session {
    if OpensOn(s.state, e) && written then s.(state := OpenSent)
    else if s.state == Connect && e == AutomaticStart then s.(state := Active)
    else s
  }

  /** The event a connection task starts with. */
  function FirstEvent(state: BGPState): Option<Event> {
    if state == Active then Some(TcpConnectionConfirmed)
    else if state == Connect then Some(TcpConnectionValid) else None
  }

  /** A connection task up to its loop. */
  function Entered(s: Session, written: bool): Session {
    var e := FirstEvent(s.state);
    if e.Some? then AfterEvent(s.(tx := true), e.value, written) else s.(tx := true)
  }

  /** States in which a neighbour takes an incoming connection. */
  predicate TakesConnection(state: BGPState) {
    state == Idle || state == Active || state == Connect
  }

  /** A channel to a Loc-RIB manager. */
  class RibChannel {
    var events: seq<RibEvent>

    constructor ()
      ensures events == []
    {
      events := [];
    }

    method Send(u: RibEvent)
      modifies this
      ensures events == old(events) + [u]
    {
      events := events + [u];
    }
  }

  type Channels = map<AddressFamily, RibChannel>

  /** No two families share a channel. */
  ghost predicate Apart(tx: Channels) {
    forall a, b :: a in tx && b in tx && a != b ==> tx[a] != tx[b]
  }

  ghost function ChannelsOf(tx: Channels): set<RibChannel> {
    set af | af in tx :: tx[af]
  }

  /** The place of the first neighbour with the address whose lock is free; the length when there is
      none. */
  ghost function FirstWith(neighbors: seq<BGPNeighbor>, locked: set<BGPNeighbor>, ip: IpAddr): nat {
    if neighbors == [] || (neighbors[0] !in locked && neighbors[0].ends.remoteIp == ip) then 0
    else 1 + FirstWith(neighbors[1..], locked, ip)
  }

  /** What the collision check sends to a neighbour: the first that clashes is told, if its router id
      is below the speaker's own. */
  ghost function Told(neighbors: seq<BGPNeighbor>, views: seq<Session>, n: BGPNeighbor, rid: U32, own: U32): seq<Event> {
    var k := FirstClash(views, rid);
    if k < |neighbors| && n == neighbors[k] && rid < own then [OpenCollisionDump] else []
  }

  /** The first neighbour whose session clashes, at place `k`, and it alone. */
  lemma ToldIs(neighbors: seq<BGPNeighbor>, views: seq<Session>, n: BGPNeighbor, rid: U32, own: U32, k: nat)
    requires k < |neighbors| == |views| && forall j | 0 <= j < k :: !Clashes(views[j], rid)
    requires views[k].tx && (views[k].state == OpenSent || views[k].state == OpenConfirm) && views[k].rid == Some(rid)
    ensures Told(neighbors, views, n, rid, own) == if n == neighbors[k] && rid < own then [OpenCollisionDump] else []
  {
    FirstClashIs(views, rid, k);
  }

  class BGPNeighbor {
    var state: BGPState
    const ends: Ends
    const families: Option<seq<AddressFamily>>
    var remoteAsn: Option<U16>
    var remoteRid: Option<U32>
    var holdTime: U16
    var received: Opens.Capabilities
    var adjrib: AdjRib
    var hasTx: bool
    var sent: seq<Event>
    var ribtx: Channels

    constructor (ends: Ends, asn: U16, holdTime: U16, families: Option<seq<AddressFamily>>)
      ensures this.ends == ends && this.holdTime == holdTime && this.families == families && ribtx == map[]
      ensures View() == Session(Idle, false, Some(asn), None, None, map[]) && sent == []
    {
      this.ends, this.holdTime, this.families := ends, holdTime, families;
      state, remoteAsn, remoteRid := Idle, Some(asn), None;
      received, adjrib := Opens.NO_CAPABILITIES, map[];
      hasTx, sent, ribtx := false, [], map[];
    }

    function View(): Session
      reads `state, `hasTx, `remoteAsn, `remoteRid, `received, `adjrib
    {
      Session(state, hasTx, remoteAsn, remoteRid, received.multiprotocol, adjrib)
    }

    method InitPeer()
      modifies this`state
      ensures View() == old(View()).(state := Active)
    {
      state := Active;
    }

    /** An event of the loop or the first one; `written` tells how writing on the connection ends. */
    method ProcessEvent(e: Event, written: bool) returns (ok: bool)
      modifies this`state
      ensures View() == AfterEvent(old(View()), e, written)
      ensures state == match old(state)
                       case Active => if e == TcpConnectionConfirmed && written then OpenSent else Active
                       case Connect =>
                         if e == TcpConnectionValid && written then OpenSent
                         else if e == AutomaticStart then Active else Connect
                       case other => other
      ensures ok <==> (WritesOn(old(state), e) ==> written)
      ensures ok <==> || written
                      || match old(state)
                         case Active => e != TcpConnectionConfirmed
                         case Connect => e != TcpConnectionValid && e != KeepaliveTimerExpires && e != ManualStart
                         case OpenConfirm => e != KeepaliveTimerExpires && e != BGPOpen
                         case Established => e != KeepaliveTimerExpires
                         case _ => true
    {
      ok := true;
      match state {
        case Active =>
          if e == TcpConnectionConfirmed {
            if !written { return false; }
            state := OpenSent;
          }
        case Connect =>
          match e {
            case KeepaliveTimerExpires => ok := written;
            case ManualStart => ok := written;
            case AutomaticStart => InitPeer();
            case TcpConnectionValid =>
              if !written { return false; }
              state := OpenSent;
            case _ =>
          }
        case OpenConfirm =>
          if e == KeepaliveTimerExpires || e == BGPOpen { ok := written; }
        case Established =>
          if e == KeepaliveTimerExpires { ok := written; }
        case _ =>
      }
    }

    /** The connection task before its loop; when its first event fails it ends there and then. */
    method EnterTcp(written: bool) returns (looping: bool)
      modifies this`state, this`hasTx, this`sent
      ensures View() == Entered(old(View()), written) && sent == [] && hasTx
      ensures state == if written && (old(state) == Active || old(state) == Connect) then OpenSent else old(state)
      ensures looping <==> (old(state) == Active || old(state) == Connect ==> written)
    {
      hasTx, sent := true, [];
      looping := true;
      if state == Active {
        looping := ProcessEvent(TcpConnectionConfirmed, written);
      } else if state == Connect {
        looping := ProcessEvent(TcpConnectionValid, written);
      }
    }

    /** The connection task after its loop. */
    method LeaveTcp()
      modifies this`state, this`hasTx, this`sent
      ensures View() == old(View()).(state := Idle, tx := false) && sent == []
    {
      state := Idle;
      hasTx, sent := false, [];
    }

    /** The attempt to reach the neighbour, which also gives it the speaker's channels; `spawned` tells
        whether a connection task is started. */
    method ConnectTo(speakerTx: Channels, attempt: Attempt) returns (spawned: bool)
      modifies this`ribtx, this`state
      ensures ribtx == speakerTx
      ensures View() == old(View()).(state := if attempt == Unreached then Idle else Connect)
      ensures spawned <==> attempt == Connected
    {
      ribtx := speakerTx;
      if attempt == Unreached {
        state := Idle;
        return false;
      }
      state := Connect;
      spawned := attempt == Connected;
    }

    /** An incoming connection is for the first neighbour with the address that can be looked at without
        waiting for its lock, and is taken unless a session with it is on its way or up. */
    static method AddIncoming(neighbors: seq<BGPNeighbor>, locked: set<BGPNeighbor>, remoteIp: IpAddr)
      returns (taken: Option<BGPNeighbor>)
      modifies neighbors`state
      ensures var k := FirstWith(neighbors, locked, remoteIp);
              if k < |neighbors| && TakesConnection(old(neighbors[k].state))
              then taken == Some(neighbors[k]) && neighbors[k].View() == old(neighbors[k].View()).(state := Active)
              else taken == None
      ensures taken.Some? ==>
                && old(taken.value.state) in {Idle, Active, Connect} && taken.value.state == Active
                && exists k :: 0 <= k < |neighbors| && taken.value == neighbors[k]
                               && neighbors[k] !in locked && neighbors[k].ends.remoteIp == remoteIp
                               && forall j | 0 <= j < k ::
                                    neighbors[j] in locked || neighbors[j].ends.remoteIp != remoteIp
      ensures taken.None? ==>
                || (forall n <- neighbors :: n in locked || n.ends.remoteIp != remoteIp)
                || exists n <- neighbors :: n !in locked && n.ends.remoteIp == remoteIp
                                            && n.state in {OpenSent, OpenConfirm, Established}
      ensures forall n <- neighbors :: taken != Some(n) ==> n.View() == old(n.View())
    {
      var k := 0;
      while k < |neighbors| && (neighbors[k] in locked || neighbors[k].ends.remoteIp != remoteIp)
        invariant 0 <= k <= |neighbors|
        invariant FirstWith(neighbors, locked, remoteIp) == k + FirstWith(neighbors[k..], locked, remoteIp)
        invariant forall j | 0 <= j < k :: neighbors[j] in locked || neighbors[j].ends.remoteIp != remoteIp
      {
        k := k + 1;
      }
      if k == |neighbors| {
        return None;
      }
      var n := neighbors[k];
      assert n in neighbors;
      match n.state {
        case Idle | Active | Connect =>
          n.state := Active;
          taken := Some(n);
        case OpenSent | OpenConfirm | Established =>
          taken := None;
      }
    }

    method AdjRibAdd(af: AddressFamily, routes: RibUpdate)
      modifies this`adjrib
      ensures adjrib == AdjAdd(old(adjrib), af, routes)
    {
      var rib: Rib := if af in adjrib then adjrib[af] else map[];
      for k := 0 to |routes.nlris|
        invariant SetAll(rib, routes.nlris[k..], routes.attributes) ==
                  SetAll(FamilyRib(adjrib, af), routes.nlris, routes.attributes)
      {
        rib := rib[routes.nlris[k] := [routes.attributes]];
      }
      adjrib := adjrib[af := rib];
    }

    method AdjRibWithdraw(af: AddressFamily, routes: RibUpdate)
      modifies this`adjrib
      ensures adjrib == AdjWithdraw(old(adjrib), af, routes)
    {
      if af in adjrib {
        var rib := adjrib[af];
        for k := 0 to |routes.nlris|
          invariant rib == RemoveAll(adjrib[af], routes.nlris[..k])
        {
          rib := rib - {routes.nlris[k]};
          assert routes.nlris[..k + 1] == routes.nlris[..k] + [routes.nlris[k]];
        }
        assert routes.nlris[..|routes.nlris|] == routes.nlris;
        adjrib := adjrib[af := rib];
      }
    }

    /** The neighbours are asked one after the other, and the first that clashes may be told. */
    static method CollisionDetection(neighbors: seq<BGPNeighbor>, rid: U32, own: U32) returns (found: bool)
      modifies neighbors`sent
      ensures found <==> Collides(Views(neighbors), rid)
      ensures found <==> exists n <- neighbors ::
                           n.hasTx && (n.state == OpenSent || n.state == OpenConfirm) && n.remoteRid == Some(rid)
      ensures forall n <- neighbors :: n.sent == old(n.sent) + Told(neighbors, Views(neighbors), n, rid, own)
    {
      ClashInFields(neighbors, rid);
      hide Clashes, Collides;
      var k := FindClash(neighbors, rid);
      found := k < |neighbors|;
      if found && rid < own {
        neighbors[k].sent := neighbors[k].sent + [OpenCollisionDump];
      }
    }

    static method FindClash(neighbors: seq<BGPNeighbor>, rid: U32) returns (k: nat)
      ensures k == FirstClash(Views(neighbors), rid)
    {
      hide Collides;
      k := 0;
      ghost var views := Views(neighbors);
      while k < |neighbors|
            && !(neighbors[k].hasTx && (neighbors[k].state == OpenConfirm || neighbors[k].state == OpenSent)
                 && neighbors[k].remoteRid == Some(rid))
        invariant 0 <= k <= |neighbors|
        invariant FirstClash(views, rid) == k + FirstClash(views[k..], rid)
      {
        assert views[k..][0] == neighbors[k].View() && views[k..][1..] == views[k + 1..];
        k := k + 1;
      }
      if k < |neighbors| {
        assert views[k..][0] == neighbors[k].View();
      }
    }

    method ValidateOpen(m: Opens.OpenMessage) returns (ok: bool)
      ensures ok <==> ValidOpen(View(), m)
      ensures ok <==> remoteAsn == None || remoteAsn == Some(m.asn)
    {
      ok := remoteAsn.None? || remoteAsn.value == m.asn;
    }

    /** The capabilities come last: when they stop the parser, all else has been taken over. */
    method UpdateFromOpen(m: Opens.OpenMessage) returns (r: Result<()>)
      modifies this`holdTime, this`remoteRid, this`remoteAsn, this`state, this`received
      ensures View() == TakenOver(old(View()), m)
      ensures state == OpenConfirm && remoteRid == Some(m.routerId) && remoteAsn == Some(m.asn)
      ensures holdTime == m.holdTime
      ensures r == Err <==> Opens.Understand(m.optParams.params) == Err
      ensures if r == Err then received == old(received) else Ok(received) == Opens.Understand(m.optParams.params)
    {
      holdTime := m.holdTime;
      remoteRid := Some(m.routerId);
      remoteAsn := Some(m.asn);
      state := OpenConfirm;
      var raw := Opens.CapabilitiesOf(m.optParams.params);
      var caps := Opens.CapabilitiesFrom(raw);
      if caps.Err? {
        return Err;
      }
      received := caps.value;
      r := Ok(());
    }

    /** An OPEN; only while negotiating is anything made of it. */
    method HandleOpen(o: Opens.OpenMessage, neighbors: seq<BGPNeighbor>, own: U32) returns (fate: Fate)
      modifies this`holdTime, this`remoteRid, this`remoteAsn, this`state, this`received, this`sent, neighbors`sent
      ensures View() == Reached(old(View()), ends, old(Views(neighbors)), OpenBody(o), 0)
      ensures fate == FateOf(old(View()), families, map[], old(Views(neighbors)), OpenBody(o))
      ensures if TakesOver(old(View()), old(Views(neighbors)), OpenBody(o))
              then holdTime == o.holdTime
                   && (if fate.GoesOn? then Ok(received) == Opens.Understand(o.optParams.params)
                       else received == old(received))
              else holdTime == old(holdTime) && received == old(received)
      ensures Sent(this, neighbors, old(Views(neighbors)), old(View()), OpenBody(o), own, map[])
    {
      hide Collides, ValidOpen, Opens.Understand, Views, Told;
      if state != Active && state != OpenSent {
        return GoesOn;
      }
      if !hasTx {
        return Fails;
      }
      var active := state == Active;
      var collision := CollisionDetection(neighbors, o.routerId, own);
      if collision {
        sent := sent + [OpenCollisionDump];
        return GoesOn;
      }
      var valid := ValidateOpen(o);
      if !valid {
        sent := sent + [BGPOpenMsgErr];
        return GoesOn;
      }
      var taken := UpdateFromOpen(o);
      if taken.Err? {
        return Stops;
      }
      if active {
        sent := sent + [BGPOpen];
      }
      fate := GoesOn;
    }

    /** A KEEPALIVE; in OpenConfirm it establishes the session. */
    method HandleKeepalive(tables: map<AddressFamily, LocRib>) returns (fate: Fate)
      modifies this`state, this`sent
      ensures View() == Reached(old(View()), ends, [], KeepaliveBody, 0)
      ensures fate == FateOf(old(View()), families, TablesOf(tables), [], KeepaliveBody)
      ensures old(sent) <= sent
      ensures Signalled(old(View()), families, TablesOf(tables), [], KeepaliveBody, sent[|old(sent)|..])
    {
      hide SendsTables, TableEvents;
      fate := GoesOn;
      if state == OpenConfirm {
        ghost var before := View();
        state := Established;
        var ok := SendLocRib(tables);
        fate := if ok then GoesOn else Stops;
        SameTables(before, View(), families, TablesOf(tables), sent[|old(sent)|..]);
      }
    }

    /** The tables of the families that both sides named, one event for each mention. */
    method SendLocRib(tables: map<AddressFamily, LocRib>) returns (ok: bool)
      modifies this`sent
      ensures ok <==> SendsTables(View(), families, TablesOf(tables))
      ensures old(sent) <= sent && TableEvents(View(), families, TablesOf(tables), sent[|old(sent)|..])
    {
      NothingCommon(received.multiprotocol);
      hide Common, CanSend, IsDump, CountSent;
      if families.None? || received.multiprotocol.None? {
        NoneSent(hasTx, TablesOf(tables));
        return false;
      }
      var adv, rec := families.value, received.multiprotocol.value;
      ghost var ribs, all, front := TablesOf(tables), Common(adv, rec), |sent|;
      assert adv[..0] == [];
      for k := 0 to |adv|
        invariant old(sent) <= sent && |sent| == front + |Common(adv[..k], rec)|
        invariant Common(adv[..k], rec) <= all
        invariant forall j | 0 <= j < |sent| - front ::
                    CanSend(hasTx, ribs, all[j]) && IsTable(sent[front + j], ribs, all[j])
        invariant forall af <- adv[..k] :: af in rec ==> CanSend(hasTx, ribs, af)
      {
        CommonSnoc(adv, rec, k);
        CommonPrefix(adv, rec, k + 1);
        if adv[k] in rec {
          var routes := Table(tables, adv[k]);
          if routes.None? {
            CountSentIs(hasTx, ribs, all, |sent| - front);
            return false;
          }
          sent := sent + [BestRoutes(routes.value)];
        }
      }
      assert adv[..|adv|] == adv;
      CountSentIs(hasTx, ribs, all, |all|);
      ok := true;
    }

    /** The first routes of a table, if the table and a channel are there and no entry is empty. */
    method Table(tables: map<AddressFamily, LocRib>, af: AddressFamily) returns (routes: Option<seq<Delta>>)
      ensures routes.Some? <==> CanSend(hasTx, TablesOf(tables), af)
      ensures routes.Some? <==> hasTx && af in tables && forall n <- tables[af].rib :: tables[af].rib[n] != []
      ensures routes.Some? ==> IsTable(BestRoutes(routes.value), TablesOf(tables), af)
    {
      hide IsDump;
      if af !in tables {
        return None;
      }
      routes := tables[af].FirstRoutes();
      if !hasTx {
        routes := None;
      }
    }

    /** One message, from the look at the state to the last channel. */
    method ProcessMessage(
      m: Body, neighbors: seq<BGPNeighbor>, speakerTx: Channels, tables: map<AddressFamily, LocRib>, own: U32, now: nat)
      returns (fate: Fate)
      requires Apart(ribtx) && Apart(speakerTx)
      modifies this, neighbors`sent, ChannelsOf(ribtx), ChannelsOf(speakerTx)
      ensures ribtx == old(ribtx)
      ensures View() == Reached(old(View()), ends, old(Views(neighbors)), m, now)
      ensures fate == FateOf(old(View()), families, TablesOf(tables), old(Views(neighbors)), m)
      ensures TakesOver(old(View()), old(Views(neighbors)), m) ==>
                && holdTime == m.open.holdTime
                && if fate.GoesOn? then Ok(received) == Opens.Understand(m.open.optParams.params)
                   else received == old(received)
      ensures !TakesOver(old(View()), old(Views(neighbors)), m) ==> holdTime == old(holdTime) && received == old(received)
      ensures Sent(this, neighbors, old(Views(neighbors)), old(View()), m, own, TablesOf(tables))
      ensures !m.NotificationBody? ==> forall af :: af in ribtx ==>
                ribtx[af].events == old(ribtx[af].events)
                                    + EventsOn(old(View()), ends, Advertised(families), m, now, af)
      ensures m.NotificationBody? ==> forall af :: af in speakerTx ==>
                speakerTx[af].events == old(speakerTx[af].events)
                                        + EventsOn(old(View()), ends, Advertised(families), m, now, af)
      ensures forall c <- ChannelsOf(ribtx) + ChannelsOf(speakerTx) ::
                c !in ChannelsOf(if m.NotificationBody? then speakerTx else ribtx) ==> c.events == old(c.events)
    {
      ghost var before, views := View(), Views(neighbors);
      AloneOrAsked(before, ends, families, TablesOf(tables), views, Advertised(families), m, now);
      hide Reached, Signals, Signalled, FateOf, EventsOn, TakesOver, Apart, Told, Views, Asks, TablesOf;
      match m {
        case OpenBody(o) =>
          fate := HandleOpen(o, neighbors, own);
        case KeepaliveBody =>
          fate := HandleKeepalive(tables);
        case UpdateBody(u) =>
          fate := ReceiveUpdate(u, now);
        case NotificationBody(_, _, _) =>
          fate := ReceiveNotification(m, speakerTx);
      }
      ghost var told :=
        if Asks(before, m) && this in neighbors then Told(neighbors, views, this, m.open.routerId, own) else [];
      SignalledAlone(before, families, TablesOf(tables), views, m, sent[|old(sent) + told|..]);
    }

    method ReceiveUpdate(u: Updates.UpdateMessage, now: nat) returns (fate: Fate)
      requires Apart(ribtx)
      modifies this`adjrib, this`sent, ChannelsOf(ribtx)
      ensures View() == Reached(old(View()), ends, [], UpdateBody(u), now)
      ensures fate == FateOf(old(View()), families, map[], [], UpdateBody(u))
      ensures sent == old(sent) + Signals(old(View()), [], UpdateBody(u))
      ensures forall af :: af in ribtx ==>
                ribtx[af].events == old(ribtx[af].events)
                                    + EventsOn(old(View()), ends, Advertised(families), UpdateBody(u), now, af)
    {
      hide AdjAfter, PartsOf, RouteOf;
      fate := GoesOn;
      if state == Established {
        if remoteAsn.None? || remoteRid.None? {
          return Stops;
        }
        HandleUpdate(u, now);
      } else if state == OpenSent {
        if !hasTx {
          return Fails;
        }
        sent := sent + [NotifMsg];
      }
    }

    method ReceiveNotification(m: Body, speakerTx: Channels) returns (fate: Fate)
      requires Apart(speakerTx) && m.NotificationBody?
      modifies this`state, this`adjrib, this`sent, ChannelsOf(speakerTx)
      ensures View() == Reached(old(View()), ends, [], m, 0)
      ensures fate == FateOf(old(View()), families, map[], [], m)
      ensures sent == old(sent) + Signals(old(View()), [], m)
      ensures forall af :: af in speakerTx ==>
                speakerTx[af].events == old(speakerTx[af].events)
                                        + EventsOn(old(View()), ends, Advertised(families), m, 0, af)
    {
      hide Purges, Apart;
      fate := GoesOn;
      if state == Established {
        HandleNotification(speakerTx);
      } else if state == Active || state == OpenConfirm {
        if !hasTx {
          return Fails;
        }
        sent := sent + [NotifMsg];
      }
    }

    /** The neighbour keeps what it announced last; the event for the Loc-RIB goes to the channel of
        the family, if there is one. */
    method HandleUpdate(m: Updates.UpdateMessage, now: nat)
      requires Identified(View()) && Apart(ribtx)
      modifies this`adjrib, ChannelsOf(ribtx)
      ensures adjrib == AdjAfter(old(adjrib), PartsOf(m), RouteFrom(old(View()), ends, m, now))
      ensures forall af :: af in ribtx ==>
                ribtx[af].events == old(ribtx[af].events)
                  + if af == PartsOf(m).af
                    then [EventOf(PartsOf(m), RouteFrom(old(View()), ends, m, now), remoteRid.value)] else []
    {
      var p := FindParts(m);
      var peer := Peer(remoteAsn.value, remoteRid.value, ends.remoteIp);
      var attributes := NewRoute(m.attributes, ends.localAsn, peer, p.nh, now);
      var msg := RibEvent(None, None, remoteRid.value);
      if p.withdrawn != [] {
        msg := msg.(withdrawn := Some(RibUpdate(p.withdrawn, attributes)));
        AdjRibWithdraw(p.af, RibUpdate(p.withdrawn, attributes));
      }
      if p.nlris != [] {
        msg := msg.(added := Some(RibUpdate(p.nlris, attributes)));
        AdjRibAdd(p.af, RibUpdate(p.nlris, attributes));
      }
      if p.af in ribtx {
        ribtx[p.af].Send(msg);
      }
    }

    static method FindParts(m: Updates.UpdateMessage) returns (p: Parts)
      ensures p == PartsOf(m)
    {
      var k := 0;
      while k < |m.attributes| && m.attributes[k].typeCode != MpReach && m.attributes[k].typeCode != MpUnreach
        invariant 0 <= k <= |m.attributes|
        invariant FirstMp(m.attributes) == FirstMp(m.attributes[k..])
      {
        k := k + 1;
      }
      if k < |m.attributes| {
        match m.attributes[k].value {
          case MpReachValue(n) => return Parts(n.af, n.nlris, [], Some(n.nh));
          case MpUnreachValue(n) => return Parts(n.af, [], n.nlris, None);
          case _ =>
        }
      }
      p := Parts(IPV4_UNICAST, m.nlri, m.withdrawn, None);
    }

    /** Withdraw everything of a peer, family by family. */
    static method WithdrawNeighborRoutes(rid: U32, fams: seq<AddressFamily>, speakerTx: Channels)
      requires Apart(speakerTx)
      modifies ChannelsOf(speakerTx)
      ensures forall af :: af in speakerTx ==>
                speakerTx[af].events == old(speakerTx[af].events) + Purges(fams, af, rid)
    {
      hide Purges, WithdrawAllEvent;
      NoPurges(rid);
      for k := 0 to |fams|
        invariant forall af :: af in speakerTx ==>
                    speakerTx[af].events == old(speakerTx[af].events) + Purges(fams[..k], af, rid)
      {
        forall af
          ensures Purges(fams[..k + 1], af, rid) ==
                  Purges(fams[..k], af, rid) + if fams[k] == af then [WithdrawAllEvent(rid)] else []
        {
          PurgesSnoc(fams, k, af, rid);
        }
        if fams[k] in speakerTx {
          speakerTx[fams[k]].Send(WithdrawAllEvent(rid));
        }
      }
      assert fams[..|fams|] == fams;
    }

    /** A NOTIFICATION in an established session: withdraw everything, forget, and have the connection
        closed. */
    method HandleNotification(speakerTx: Channels)
      requires Apart(speakerTx)
      modifies this`state, this`adjrib, this`sent, ChannelsOf(speakerTx)
      ensures state == Idle && adjrib == map[]
      ensures sent == old(sent) + if hasTx then [TcpConnectionFails] else []
      ensures var rid := if remoteRid.Some? then remoteRid.value else 0;
              forall af :: af in speakerTx ==>
                speakerTx[af].events == old(speakerTx[af].events) + Purges(Advertised(families), af, rid)
    {
      hide Purges, Apart;
      WithdrawNeighborRoutes(if remoteRid.Some? then remoteRid.value else 0, Advertised(families), speakerTx);
      state := Idle;
      adjrib := map[];
      if hasTx {
        sent := sent + [TcpConnectionFails];
      }
    }
  }

  /** What a message puts in the channels of the connection tasks: of the neighbours asked, and then of
      the session's own. */
  twostate predicate Sent(
    me: BGPNeighbor, neighbors: seq<BGPNeighbor>, views: seq<Session>, before: Session, m: Body, own: U32,
    tables: Tables)
    reads me`sent, neighbors`sent
  {
    var told := if Asks(before, m) && me in neighbors then Told(neighbors, views, me, m.open.routerId, own) else [];
    && (forall n <- neighbors | n != me ::
          n.sent == old(n.sent) + if Asks(before, m) then Told(neighbors, views, n, m.open.routerId, own) else [])
    && old(me.sent) + told <= me.sent
    && Signalled(before, me.families, tables, views, m, me.sent[|old(me.sent) + told|..])
  }

  ghost function Views(neighbors: seq<BGPNeighbor>): (views: seq<Session>)
    reads neighbors`state, neighbors`hasTx, neighbors`remoteAsn, neighbors`remoteRid, neighbors`received, neighbors`adjrib
    ensures |views| == |neighbors|
    ensures forall k | 0 <= k < |views| :: views[k] == neighbors[k].View()
  {
    if neighbors == [] then [] else [neighbors[0].View()] + Views(neighbors[1..])
  }

  lemma ClashInFields(neighbors: seq<BGPNeighbor>, rid: U32)
    ensures Collides(Views(neighbors), rid) <==>
            exists n <- neighbors ::
              n.hasTx && (n.state == OpenSent || n.state == OpenConfirm) && n.remoteRid == Some(rid)
  {
    var views := Views(neighbors);
    if n :| n in neighbors && n.hasTx && (n.state == OpenSent || n.state == OpenConfirm) && n.remoteRid == Some(rid) {
      var k :| 0 <= k < |neighbors| && neighbors[k] == n;
      assert Clashes(views[k], rid);
    }
  }

  /** The tables as the managers have them. */
  ghost function TablesOf(tables: map<AddressFamily, LocRib>): Tables
    reads set af | af in tables :: tables[af]
  {
    map af | af in tables :: tables[af].rib
  }

  lemma NoneSent(tx: bool, tables: Tables)
    ensures CountSent(tx, tables, []) == 0
  {
  }

  lemma SameTables(
    s: Session, t: Session, families: Option<seq<AddressFamily>>, tables: Tables, events: seq<Event>)
    requires s.tx == t.tx && s.heard == t.heard
    ensures SendsTables(s, families, tables) <==> SendsTables(t, families, tables)
    ensures TableEvents(s, families, tables, events) <==> TableEvents(t, families, tables, events)
  {
    hide CanSend, IsTable;
  }

  /** Which messages look at the other sessions or the tables, and which reach a Loc-RIB. */
  lemma AloneOrAsked(
    s: Session, ends: Ends, families: Option<seq<AddressFamily>>, tables: Tables, others: seq<Session>,
    fams: seq<AddressFamily>, m: Body, now: nat)
    ensures !m.OpenBody? ==>
              && Reached(s, ends, others, m, now) == Reached(s, ends, [], m, now)
              && Signals(s, others, m) == Signals(s, [], m)
              && FateOf(s, families, tables, others, m) == FateOf(s, families, tables, [], m)
              && !TakesOver(s, others, m) && !Asks(s, m)
    ensures !m.KeepaliveBody? ==>
              && FateOf(s, families, tables, others, m) == FateOf(s, families, map[], others, m)
              && (!m.OpenBody? ==> FateOf(s, families, tables, others, m) == FateOf(s, families, map[], [], m))
    ensures m.OpenBody? ==> Reached(s, ends, others, m, now) == Reached(s, ends, others, m, 0)
    ensures m.NotificationBody? || m.KeepaliveBody? ==> Reached(s, ends, others, m, now) == Reached(s, ends, [], m, 0)
    ensures m.OpenBody? || m.KeepaliveBody? ==> forall af :: EventsOn(s, ends, fams, m, now, af) == []
    ensures m.NotificationBody? ==> forall af :: EventsOn(s, ends, fams, m, now, af) == EventsOn(s, ends, fams, m, 0, af)
  {
    hide AdjAfter, PartsOf, RouteFrom, Collides, ValidOpen, TableEvents, SendsTables, Opens.Understand;
  }

  lemma SignalledAlone(
    s: Session, families: Option<seq<AddressFamily>>, tables: Tables, others: seq<Session>, m: Body, events: seq<Event>)
    ensures m.KeepaliveBody? ==>
              (Signalled(s, families, tables, others, m, events) <==> Signalled(s, families, tables, [], m, events))
    ensures !m.KeepaliveBody? ==>
              && (Signalled(s, families, tables, others, m, events) <==> events == Signals(s, others, m))
              && (Signalled(s, families, map[], others, m, events) <==> events == Signals(s, others, m))
  {
    hide TableEvents;
  }

  lemma NoPurges(rid: U32)
    ensures forall af :: Purges([], af, rid) == []
  {
  }
}
