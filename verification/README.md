# A verified model of the ubgpd BGP speaker

ubgpd speaks BGP-4 (RFC 4271) with multiprotocol routes (RFC 4760) and capability advertisement
(RFC 5492). This project models what it computes and proves what its parts owe each other:

* **Wire format** (`Codec`, `Nlris`, `MpNlris`, `Attributes`, `Updates`, `Opens`, `Messages`): the
  framing codec, prefixes with bit masks, multiprotocol values, path attributes, UPDATE, OPEN with
  its capabilities, and whole messages, as printers and parsers on octets. A parser is a function
  that says what is read, a method with the loops of the program that computes it, and lemmas about
  round trips and about the octets accounted for. `WireLayouts` tells each format without these
  functions, in octets and numbers: where every field stands and what every code means.
* **Routes and the Loc-RIB** (`Routes`, `LocRibs`, `LocRibOrders`, `LocRibDeltas`, `LocRibRuns`): the
  decision order, the table that each family's manager changes in place, the best-route reports it
  emits, and whole runs of it. The table is related to a map from prefixes to multisets of routes.
* **Sending** (`SendUpdates`, `Propagations`): how a batch of reports becomes one UPDATE, what of it
  arrives, and what becomes of it in the neighbour's table.
* **Sessions** (`Sessions`, `Speakers`, `Agreements`, `Establishments`, `SpeakerRuns`, `Fsms`, `FsmSteps`,
  `Collisions`): the neighbour record as a class; one speaker with all its neighbours and queues, with a
  message handled as one step; and, with each lock-held block a step of its own, one neighbour with any
  number of connection tasks, and any number of such neighbours whose collision check reads them one by
  one. Where no other task interferes, the blocks do what the one step does.
* **The network** (`Networks`): any number of speakers, and the octets under way between them.

Each state-changing operation is a method proved against a function of the old state (`Added`,
`Withdrawn`, `Reached`, `AfterEvent`, ...); runs are sequences of states related by those functions.
The forwarding table is a predicate on next hops; it may differ at every step unless a statement
fixes it. A panic on malformed input is a failed parse, and a panic in a handler ends its connection
task where it is. The hash map gives its keys in any order:
where that shows (whole-peer withdrawals, grouping of updates) the model is a relation.

## What the code does that its standards or its own names do not say

Each of these is a theorem; where a promise fails, its exact condition is proved and a witness given.

* `Route` comparison prefers the *later* origin code, the *larger* MED, the *later* arrival and the
  *larger* router id, unlike section 9.1.2.2 of RFC 4271 (`LaterAndLargerWin`). The order is modelled
  as coded.
* Sort-then-reverse makes routes that compare equal change places on every add (`EqualRoutesFlip`); an
  entry keeps its order exactly when no two of its routes compare equal (`PushKeepsOrderIff`). "Best"
  is therefore stated by rank.
* A withdrawal is reported as "no route" even when another route takes over
  (`WithdrawnKeepsViewCompleteIff`, witness `BackupStaysUnknown`), and a full table is sent without
  asking the forwarding table (`TableViewIsSoundIff`, witness `UnreachableIsTold`).
* A multiprotocol attribute is printed behind two lengths and read behind one: whatever was
  announced, an empty IPv6 value is read (`MpReadsAsDefault`, `MpRoundTripsIffDefault`). Behind one
  length it is read as announced (`ReachIsReadable`), but a reachable prefix without all its octets stops
  the parser, where an unreachable one is read as that empty value (`TruncatedReachStops`,
  `TruncatedUnreachIsDefault`).
* A multiprotocol value counts its length in one octet; it survives exactly up to 255
  (`ReachRoundTrip`, `UnreachRoundTrip`).
* An OPEN counts capabilities in one octet; above 42 mentions of families some are cut off, and
  families may be lost (`OpenNegotiation`, `AllHeardExactlyWhen`, witness `FortyThreeAreTooMany`).
* One UPDATE carries the attributes of all groups of a batch and its reader keeps the last path,
  origin and next hop. Each prefix is learnt with its own attributes exactly when all routes announced
  share path and origin, on an internal session also the next hop, and the next hop is IPv4
  (`MergeIsFaithfulIff`, `MergeIsFaithfulIffUniform`, witnesses `OriginIsLost`, `NextHopIsLost`). Loops
  are excluded all the same (`NoRouteLoops`). The reports of one event are all of one route, so it is
  table dumps in which attributes are lost (`EventMergesFaithfullyIff`, witness `TwoNewsAreDumped`).
* What was built arrives exactly when its prefixes are IPv4, its paths have no segment of more than 255
  ASNs, and it has at most 4096 octets (`SentArrivesIff`).
* A batch that reports a prefix and takes it back is one message that withdraws and announces it, and the
  neighbour keeps it; a best route that is the neighbour's own is left out, and the neighbour keeps what
  it was told before. These are the only ways in which a neighbour stops following the reports
  (`TracksIff`, `OthersAreFollowed`, witnesses `BothIsKept`, `OwnBestIsStale`).
* An UPDATE that announces and withdraws one prefix is applied withdraw-first to the Adj-RIB and
  add-first to the Loc-RIB, and a neighbour that is reached before it has tried to connect has no
  channel to the Loc-RIB (`UpdateIsHeldIff`, witness `AnnouncedNotHeld`).
* A NOTIFICATION empties the whole Adj-RIB but withdraws from the Loc-RIB only the families that the
  neighbour was offered (`NotificationAgreesIff`, `AllListedIffOffered`, witness
  `UnofferedFamilyDisagrees`).
* The KEEPALIVE that establishes a session has the tables sent, and stops the connection task unless
  families are configured for the neighbour, its OPEN names families, and there are tables for the common
  ones; the record says Established either way (`KeepaliveFate`, `SpeakerIsReadyIff`, witness
  `EstablishedAndStopped`). A neighbour without configured families is never heard
  (`NothingOfUnconfigured`).
* A router id is never cleared, so the OPEN of a peer that comes back with it clashes with what its last
  session left behind (`ReopensIff`, witness `ReopenIsRefused`): a session comes up once (`UpOnce`), and
  what a NOTIFICATION purges stays purged (`PurgedForGood`).
* The collision check passes over established sessions (`OpenKeepsDistinctIff`, witness
  `TwoEstablishedTwins`), and it looks at one neighbour at a time: two neighbours get into OpenConfirm
  with one router id exactly when one takes its OPEN over after the other's check has passed it, or
  was there without a channel (`TwinsIff`, witness `TwinsAreReal`).
* Reading the state and acting on it are separate blocks: a neighbour can be Established with no
  connection registered, exactly when some task confirms after another has left
  (`EstablishedHasChannelIff`, `ConfirmMeetsNoChannelIff`, witnesses `EstablishedWithoutChannel`,
  `KeepaliveWithoutChannel`). With one connection for each neighbour it cannot (`EstablishedHasChannel`).

## Model

| member | source | states |
|---|---|---|
| Types.FloatStepIsOctets | src/bgp/messages.rs:236 | The floating-point step over a prefix is one more than the octets of its prefix length, for every length octet |
| Codec.Decode | src/bgp/codec.rs:13-51 | What is taken out of the buffer: nothing when more is needed or on an error, else one frame, and frame and rest make up the old buffer |
| Codec.Encode | src/bgp/codec.rs:57-73 | The buffer grows by marker, length and data, or not at all when the total is out of range |
| Codec.FrameInOctets | src/bgp/codec.rs:13-51 | For every buffer, in octets: there is a frame if and only if sixteen 0xff octets are followed by a length of 19 to 4096 that is there and a type of 1 to 4; which octets it has and which are left; and when more are waited for instead |
| Codec.EncodedInOctets | src/bgp/codec.rs:57-73 | Exactly bodies of 1 to 4078 octets are encoded, behind sixteen 0xff octets and the length of all of it |
| Codec.DecodeExtends | src/bgp/codec.rs:13-51 | More octets behind the buffer change neither an error nor a frame already there |
| Codec.DrainThenFeed | src/bgp/codec.rs:13-51 | Draining the buffer early does not change what is read later |
| Codec.ChunkingIsIrrelevant | src/bgp/codec.rs:13-51 | For every octet stream the frames read and whether reading fails are those of the stream in one piece, however it is cut |
| Codec.SameStreamSameFrames | src/bgp/codec.rs:13-51 | Two ways to cut one stream give the same frames and the same outcome |
| Codec.DrainConserves | src/bgp/codec.rs:13-51 | Frames and remaining buffer make up exactly the octets drained, every frame is one whole message, and draining stops only when it must |
| Codec.ReadingConserves | src/bgp/codec.rs:13-51 | Over any chunks the frames are a prefix of the stream and, without an error, frames and buffer are all of it |
| Codec.EncodeDecodeOne | src/bgp/codec.rs:54-73 | A body decodes to its own frame, with anything behind it, if and only if its length and type octet are sendable |
| Codec.StreamRoundTrip | src/bgp/codec.rs:9-74 | Every list of sendable bodies, encoded, concatenated and cut in any way, is read as exactly those frames in order with an empty buffer left |
| Nlris.ParseIpv4Octets | src/bgp/nlri.rs:63-93 | The in-place parser computes the prefix of its octets, with the error cases |
| Nlris.ParseIpv6Octets | src/bgp/nlri.rs:95-140 | The same for IPv6, through eight 16-bit groups |
| Nlris.CollectGroups | src/bgp/nlri.rs:118-127 | The loop over octet pairs yields the groups of the address |
| Nlris.GroupsSpellTheOctets | src/bgp/nlri.rs:118-131 | Putting the groups together again gives the octets |
| Nlris.MaskedTailIsZero | src/bgp/nlri.rs:34-46 | Keeping the octets of the prefix length and padding with zeros gives back the masked address, for every length up to the width |
| Nlris.NetworkBits | src/bgp/nlri.rs:34-46 | Bit by bit: the first bits of a network are those of the address, as many as the length says, and all others are zero |
| Nlris.NlriRoundTrip | src/bgp/nlri.rs:26-140 | A printed prefix of either family is parsed as itself with its host bits cleared |
| Nlris.ParsedPrefix | src/bgp/nlri.rs:63-140 | A parsed prefix has the length its first octet says and the family asked for |
| Nlris.PrintNlriList | src/bgp/messages.rs:172-176 | The append loop prints the prefixes one behind the other |
| Nlris.ReadNlriList | src/bgp/nlri.rs:303-324 | The index loop over a list of prefixes reads what the recursive reader reads |
| Nlris.ReadPrinted | src/bgp/messages.rs:216-239 | A printed list is read back as the list of its networks, and reading stops at its end |
| Nlris.ReadAccounts | src/bgp/messages.rs:216-239 | Whatever is accepted is spelled, slice by slice, by exactly the octets passed over, and the last prefix starts before the limit |
| Nlris.ReadStopsEarly | src/bgp/nlri.rs:252-263 | A limit short of the last prefix loses prefixes |
| MpNlris.ParseReachValue | src/bgp/nlri.rs:180-269 | The in-place parser of a reachable-prefixes value computes its specification, and tells an error from taking octets that are not there |
| MpNlris.ReadingDoesNotStop | src/bgp/nlri.rs:223-232 | A value whose prefixes run out of octets is not read at all |
| MpNlris.ParseUnreachValue | src/bgp/nlri.rs:271-354 | The same for an unreachable-prefixes value |
| MpNlris.PrintReachValue | src/bgp/nlri.rs:356-388 | Counting while writing and patching the first octet prints the value behind its length |
| MpNlris.PrintUnreachValue | src/bgp/nlri.rs:390-406 | The same for an unreachable-prefixes value |
| MpNlris.ReadBack | src/bgp/nlri.rs:252-263 | Behind any short head a printed list is read back as its networks if and only if head and list have at most 255 octets |
| MpNlris.ReachRoundTrip | src/bgp/nlri.rs:180-388 | A value of one family round-trips, host bits cleared, if and only if its payload has at most 255 octets |
| MpNlris.UnreachRoundTrip | src/bgp/nlri.rs:271-406 | The same for an unreachable-prefixes value |
| MpNlris.ShiftedFamilyIsUnknown | src/bgp/attributes.rs:323-328 | With the attribute's own length in front the octets taken for a family never name one |
| Attributes.FlattenPath | src/bgp/attributes.rs:61-69 | The append loop yields the flattened path |
| Attributes.FlattenHas | src/bgp/attributes.rs:61-69 | An ASN is in the flattened path if and only if some segment, set or sequence, has it |
| Attributes.FlattenAt | src/bgp/attributes.rs:61-69 | The k-th ASN of the j-th segment stands behind those of all segments before, and nothing else is in the flattened path |
| Attributes.PathLenOf | src/bgp/attributes.rs:31-38 | The length of a path is the sum over its segments of the ASNs of a sequence and one for a set |
| Attributes.ReadSegmentList | src/bgp/attributes.rs:259-289 | The segment loop reads what the recursive reader reads, with the underflow of the remaining length as a failure |
| Attributes.ReadAsnList | src/bgp/attributes.rs:267-275 | The loop over a segment reads its ASNs |
| Attributes.ParsePathAttribute | src/bgp/attributes.rs:225-341 | The attribute parser computes its specification for every type |
| Attributes.PrintOneSegment | src/bgp/attributes.rs:40-53 | A segment is its type, its one-octet count and its ASNs |
| Attributes.PrintPathSegments | src/bgp/attributes.rs:354-360 | The write loop prints the segments one behind the other |
| Attributes.PrintPathAttribute | src/bgp/attributes.rs:343-445 | The attribute printer computes its specification: flags, type, length in one or two octets, value |
| Attributes.ReadPrintedPath | src/bgp/attributes.rs:262-287 | A path of any number of segments of at most 255 ASNs is read back from its octets |
| Attributes.PrintReadPath | src/bgp/attributes.rs:262-287 | Whatever path is read uses exactly the declared length and prints as the octets it was read from |
| Attributes.AttrRoundTrip | src/bgp/attributes.rs:225-445 | Every non-multiprotocol attribute up to 65535 octets keeps type, flags and value, and has the extended length set exactly above 255 |
| Attributes.MpReadsAsDefault | src/bgp/attributes.rs:323-328 | A printed multiprotocol attribute is always read as the default value of its type |
| Attributes.MpRoundTripsIffDefault | src/bgp/attributes.rs:323-328 | It round-trips if and only if it is that default value |
| Attributes.TruncatedReachStops | src/bgp/nlri.rs:223-232 | A truncated reachable prefix stops the parser |
| Attributes.TruncatedUnreachIsDefault | src/bgp/nlri.rs:303-316 | A truncated unreachable prefix is read as the default value |
| Updates.ParseUpdateMessage | src/bgp/messages.rs:201-325 | The three-loop parser computes its specification |
| Updates.ParseAfterWithdrawn | src/bgp/messages.rs:241-324 | The part behind the withdrawn routes does |
| Updates.ReadPrefixes | src/bgp/messages.rs:216-239 | The loop that steps by a floating-point length reads what the integer reader reads |
| Updates.ReadAttributes | src/bgp/messages.rs:258-295 | The attribute loop with its early exits reads what the recursive reader reads |
| Updates.PrintUpdateMessage | src/bgp/messages.rs:168-196 | The printer computes its specification |
| Updates.PrintAttributes | src/bgp/messages.rs:180-186 | The append loop prints the attributes one behind the other |
| Updates.UpdateRoundTrip | src/bgp/messages.rs:168-325 | An UPDATE with IPv4 prefixes, non-multiprotocol attributes and blocks of at most 65535 octets is parsed as itself, host bits cleared and length flags set as the values ask |
| Updates.PrintedAlikeIff | src/bgp/messages.rs:168-196 | Two messages are printed alike if and only if they have the same canonical form, so distinct canonical messages are printed differently |
| Updates.ReadAttrsAccounts | src/bgp/messages.rs:258-295 | The attributes accepted are spelled by exactly the octets passed over, up to the declared length or to where the next one would not fit |
| Updates.UpdateAccounts | src/bgp/messages.rs:201-324 | Of any accepted message the two length fields and the octets of all withdrawn routes, attributes and prefixes are the whole buffer |
| Updates.ReadBackIsCarried | src/bgp/messages.rs:168-325 | Any message that is read back as its own canonical form has IPv4 prefixes only and paths with segments of at most 255 ASNs |
| Opens.ParseOptionalParameters | src/bgp/capabilities.rs:111-134 | The loop, with its u8 counter wrapping around, reads what the recursive reader reads |
| Opens.BuildsAgree | src/bgp/capabilities.rs:118-131 | What a build that stops on overflow accepts, a build that wraps around reads alike |
| Opens.CountWrapsAround | src/bgp/capabilities.rs:118-131 | The u8 count wraps around: one parameter of 254 octets is read past its end, whatever length is declared |
| Opens.CapabilitiesOf | src/bgp/capabilities.rs:239-279 | The loop over parameters collects the capabilities of all capability parameters |
| Opens.ScanParameter | src/bgp/capabilities.rs:245-273 | The scan of one parameter, cut-off capabilities included |
| Opens.CapabilitiesFrom | src/neighbor/capabilities.rs:15-73 | The loop that sets flags and collects families, with repeats removed at the end |
| Opens.FamilyUnderstoodIff | src/neighbor/capabilities.rs:21-42 | For any number of parameters and any octets in them: a family is understood if and only if some capability parameter has a whole capability of code 1 with at least four octets and the numbers of the family, and never twice |
| Opens.FlagsUnderstoodIff | src/neighbor/capabilities.rs:43-58 | The flags of codes 2, 3, 5 and 64 and the AS number of code 65 are there if and only if some capability parameter has a capability of that code, be it a cut-off one that is kept |
| Opens.NotUnderstoodIff | src/neighbor/capabilities.rs:21-58 | Which octets of which parameters stop the parser: code 65 with another length than four or cut off, or code 1 cut off after claiming four octets or more |
| Opens.ScannedInOrder | src/bgp/capabilities.rs:239-279 | Parameters and capabilities are gone through in order, other parameters add nothing, and a whole capability is read alike whatever stands behind it |
| Opens.LastAsnIsKept | src/neighbor/capabilities.rs:50-58 | Of several four-octet AS numbers the last is kept, most significant octet first |
| Opens.OpenRoundTrip | src/bgp/capabilities.rs:99-134 | An OPEN with any number of parameters of either kind, of 255 octets together, is parsed as itself but for the count |
| Opens.NewOpenMessage | src/bgp/messages.rs:98-140 | The OPEN built from the families, capability by capability, or from the default when there are none to tell |
| Opens.PrintOpenMessage | src/bgp/messages.rs:80-91 | The printer computes its specification |
| Opens.PrintParameters | src/bgp/capabilities.rs:99-109 | The write loop prints the parameters one behind the other |
| Opens.ParseOpenMessage | src/bgp/messages.rs:49-78 | The parser computes its specification, with running off the buffer as a failure |
| Opens.UniqueMembers | src/neighbor/capabilities.rs:66 | Removing later repeats keeps every family, once |
| Opens.UniqueOfPrefix | src/neighbor/capabilities.rs:66 | A prefix of the list has the same distinct families if and only if it has all of them |
| Opens.OpenNegotiation | src/bgp/messages.rs:98-140 | For every list of families AS number, hold time and router id arrive unchanged and the families understood are the distinct ones among those left readable |
| Opens.FewFamiliesAreAllHeard | src/bgp/messages.rs:98-140 | Up to 42 families: exactly the distinct families in order of first mention, none for an empty list |
| Opens.AllHeardExactlyWhen | src/bgp/capabilities.rs:99-109 | In general all families are understood if and only if those left readable include each of them |
| Opens.FortyThreeAreTooMany | src/bgp/capabilities.rs:99-109 | Forty-three mentions of one family are understood as none |
| Messages.FramesPassTheHeaderChecks | src/bgp/messages.rs:427-456 | On what the codec hands out the header checks of the message parser never fail |
| Messages.MessageReadsBack | src/bgp/messages.rs:424-492 | A message of at most 4077 octets, framed, is parsed as what its body's printer and parser make of it |
| Messages.ConversationArrives | src/bgp/messages.rs:424-492 | A list of messages is received one for one and in order, however the octets are cut into reads |
| Messages.ReceivedUpdate | src/bgp/messages.rs:198-325 | An UPDATE arrives in canonical form |
| Messages.ReceivedNotification | src/bgp/messages.rs:349-369 | A NOTIFICATION arrives without its data |
| Messages.ReachIsReadable | src/bgp/attributes.rs:323-325 | A multiprotocol UPDATE in which one length stands in front of the value is read as announced |
| WireLayouts.BigEndian | src/bgp/messages.rs:176 | Two and four octets of a number, most significant first |
| WireLayouts.PrefixInOctets | src/bgp/nlri.rs:26-49 | A prefix on the wire: its length, then as few octets as hold so many bits, with the bits of the address and zeros behind them |
| WireLayouts.PrefixRead | src/bgp/nlri.rs:63-140 | Which octets are read as a prefix of a family, and as which address: missing octets are zero, all others kept |
| WireLayouts.ReachInOctets | src/bgp/nlri.rs:356-388 | Where length, AFI, SAFI, next hop and prefixes of a reachable-prefixes value stand |
| WireLayouts.UnreachInOctets | src/bgp/nlri.rs:390-406 | The same for an unreachable-prefixes value |
| WireLayouts.ReachRead | src/bgp/nlri.rs:180-269 | What any octets accepted as such a value mean: family, next hop padded or cut, and prefixes spelled by just the octets behind it |
| WireLayouts.UnreachRead | src/bgp/nlri.rs:271-354 | The same for an unreachable-prefixes value |
| WireLayouts.TypeNumbers | src/bgp/attributes.rs:77-95 | Attribute types and numbers 1 to 16 belong to each other, one to one |
| WireLayouts.ValueInOctets | src/bgp/attributes.rs:343-412 | The value of every attribute type in octets and numbers |
| WireLayouts.PathInOctets | src/bgp/attributes.rs:40-53 | A path in octets, segment by segment: 1 for a set and 2 for a sequence, the count, each ASN in two octets |
| WireLayouts.AttributeInOctets | src/bgp/attributes.rs:414-445 | The four flags in the high bits of the first octet, the type, the length in one or two octets, the value |
| WireLayouts.AttributeRead | src/bgp/attributes.rs:225-321 | Of any octets accepted: flags, type, and which octets origin, addresses and numbers are read from |
| WireLayouts.PathRead | src/bgp/attributes.rs:242-289 | The path read is spelled by exactly the octets behind the length, from the fourth or, extended, the fifth octet on |
| WireLayouts.MpRead | src/bgp/attributes.rs:323-328 | A multiprotocol value is read from the third octet on, and an empty IPv6 unicast one stands for what cannot be read |
| WireLayouts.AttributeRefusedIff | src/bgp/attributes.rs:225-328 | Which octets are no attribute, type by type |
| WireLayouts.UpdateInOctets | src/bgp/messages.rs:168-196 | Where the two lengths and the three blocks of an UPDATE stand |
| WireLayouts.OpenInOctets | src/bgp/messages.rs:80-91 | Where version, AS number, hold time, router id, length and parameters of an OPEN stand |
| WireLayouts.ParameterInOctets | src/bgp/capabilities.rs:62-68 | A parameter among others: 1 or 2, the length of its value modulo 256, the value |
| WireLayouts.SpeakerOpen | src/bgp/messages.rs:98-140 | The OPEN of this speaker: version 4 and one parameter with the six octets of each family, or of IPv4 unicast |
| WireLayouts.OpenRead | src/bgp/messages.rs:49-78 | The fixed fields of any octets accepted as an OPEN |
| WireLayouts.MessageInOctets | src/bgp/messages.rs:484-492 | The type octet of each kind of message, and the codes of a NOTIFICATION |
| WireLayouts.MessageRead | src/bgp/messages.rs:424-482 | Octets are a message if and only if the header is sound and the body of its type is; and which message |
| Routes.CmpIsLexicographic | src/rib.rs:232-286 | The key-by-key comparison, conditional key included, is one lexicographic comparison of numbers |
| Routes.CmpLaws | src/rib.rs:232-286 | The comparison is a total preorder, and equal routes compare alike with every third |
| Routes.EqualRoutes | src/rib.rs:232-286 | Two routes compare equal if and only if they are `==` and agree on type, peer and, on external sessions, time |
| Routes.LaterAndLargerWin | src/rib.rs:253-282 | Of routes alike in all other keys the later origin code, larger MED, later external arrival or larger router id wins |
| Routes.BetterIff | src/rib.rs:189-286 | A route is better than another if and only if, where they first differ, it has the (larger) local preference, is internal, has the shorter path, the later of IGP, EGP and incomplete, the (larger) MED, the external session, the later external arrival, the larger router id, or the IPv6 or larger peer address |
| Routes.SetCountsOnce | src/rib.rs:246-251 | In the comparison a set counts once whatever it holds, and a sequence each of its ASNs |
| Routes.LoopFreeIff | src/rib.rs:75-80 | The loop check looks for the ASN in every segment, set or sequence |
| Routes.SameIffHashAgrees | src/rib.rs:205-224 | `==` holds if and only if the hash inputs agree |
| Routes.PrependOnce | src/rib.rs:52-59 | Prepending puts the ASN in front of the flattened path and makes it one longer |
| Routes.NewRoute | src/rib.rs:82-164 | The loop over attributes, last mention winning, makes the route of the message and the session |
| Routes.LastDecides | src/rib.rs:94-119 | The last attribute of its kind in the message decides origin, path, next hop, MED and local preference of the route; a next hop given from outside overrides |
| Routes.UnsaidIsDefault | src/rib.rs:90-163 | What the route has when no attribute says it, and that it is internal exactly when both AS numbers are one |
| Routes.AttributesSayRoute | src/rib.rs:167-187 | A route made of the attributes of a route has its origin, path, local preference, MED and IPv4 next hop |
| Routes.FlagsOfAttributes | src/bgp/attributes.rs:129-182 | Exactly local preference and MED are optional and not transitive |
| Routes.SaidPath | src/rib.rs:94-115 | The path of the route is one of those in the message, or empty |
| LocRibs.FindBestReachable | src/speaker/manager.rs:12-21 | The first route of the entry with a reachable next hop |
| LocRibs.RetainOthers | src/speaker/manager.rs:109 | The routes not from the peer, in order |
| LocRibs.ResortSorts | src/speaker/manager.rs:49-50 | Sort and reverse keep the routes of an entry and leave no route before a better one |
| LocRibOrders.PushKeepsOrderIff | src/speaker/manager.rs:48-50 | A push leaves the routes of a sorted entry in order if no two compare equal, and, where places can be told apart, only then |
| LocRibOrders.EqualRoutesFlip | src/speaker/manager.rs:48-50 | Of two places of an entry that compare equal, the second comes before the first after any push |
| LocRibOrders.EqualPairFlips | src/speaker/manager.rs:48-50 | Two routes that compare equal change places when a worse one is pushed |
| LocRibs.LocRib.LocRibAdded | src/speaker/manager.rs:22-72 | The in-place batch of announcements has table and reports of its specification |
| LocRibs.LocRib.AddPrefix | src/speaker/manager.rs:31-70 | One announced prefix: loop check, push, sort, reverse, report |
| LocRibs.LocRib.LocRibWithdraw | src/speaker/manager.rs:73-126 | The in-place withdrawal has table and reports of its specification, in some order of the prefixes where the source leaves the order open |
| LocRibs.LocRib.WithdrawPrefix | src/speaker/manager.rs:103-124 | One withdrawn prefix: retain, remove an empty entry, report |
| LocRibs.LocRib.AffectedPrefixes | src/speaker/manager.rs:84-93 | Exactly the prefixes with a route of the peer, each once |
| LocRibs.LocRib.ProcessRibEvent | src/speaker/manager.rs:158-184 | One event: additions, then withdrawals, reports appended |
| LocRibs.LocRib.FirstRoutes | src/neighbor/message_handler.rs:454-466 | The batch for a new session has the first route of every entry, each once; an entry without a route, and nothing else, stops it |
| LocRibs.AddedRefines | src/speaker/manager.rs:31-70 | An accepted announcement adds exactly one copy of its route per mention of the prefix and keeps entries non-empty, sorted and loop-free |
| LocRibs.WithdrawnRefines | src/speaker/manager.rs:103-125 | A withdrawal removes the peer's routes on the prefixes gone through and nothing else, and keeps the invariant |
| LocRibs.EventRefines | src/speaker/manager.rs:158-184 | In any hash-map order the new multisets are one function of the old ones and the event, whole-peer withdrawals included |
| LocRibDeltas.BestIsGreatest | src/speaker/manager.rs:12-21 | In a sorted entry the first reachable route is a greatest reachable route |
| LocRibDeltas.AddedDelta | src/speaker/manager.rs:31-71 | Over a batch with repeats a prefix is reported once, with the announced route, if and only if the announcement is loop-free, reachable and beats its best reachable route before the batch |
| LocRibDeltas.AddedReportsExactly | src/speaker/manager.rs:31-71 | A prefix is reported if and only if the rank of its best reachable route rose over the batch |
| LocRibDeltas.WithdrawnReportsExactly | src/speaker/manager.rs:103-125 | A prefix is reported as gone, at most once, if and only if its best reachable route changed |
| LocRibDeltas.EventReports | src/speaker/manager.rs:31-125 | A reported route is the announced one and has passed the loop check |
| LocRibDeltas.OneRouteReported | src/speaker/manager.rs:158-184 | All routes that one event reports are the same |
| LocRibDeltas.ReplayAt | src/speaker/manager.rs:191-203 | Replaying reports leaves each prefix with the last one about it |
| LocRibDeltas.EventKeepsViewSound | src/speaker/manager.rs:158-203 | One event keeps what a peer knows sound |
| LocRibDeltas.AddedKeepsViewComplete | src/speaker/manager.rs:52-66 | Announcements never leave a prefix with a reachable route unknown |
| LocRibDeltas.WithdrawnKeepsViewCompleteIff | src/speaker/manager.rs:107-120 | A complete view stays complete for a prefix if and only if it is not withdrawn with a reachable backup left |
| LocRibRuns.BackupStaysUnknown | src/speaker/manager.rs:107-120 | The witness: after two announcements and the withdrawal of the better one, a peer told everything knows no route while the table offers one |
| LocRibRuns.RunKeepsInv | src/speaker/manager.rs:128-156 | In every reachable table entries are non-empty, sorted and loop-free |
| LocRibRuns.EveryEntryHasAFirst | src/neighbor/message_handler.rs:454-466 | So the first route that a full-table dump takes exists and is a greatest |
| LocRibRuns.PeerViewIsSound | src/speaker/manager.rs:158-203 | With a fixed forwarding table, in every reachable state each route known from replaying all reports is in the table, reachable and unbeaten |
| LocRibRuns.TableViewIsSoundIff | src/neighbor/message_handler.rs:445-473 | A peer sent the whole table knows a route for every entry, and soundly if and only if the first route is reachable |
| LocRibRuns.UnreachableIsTold | src/neighbor/message_handler.rs:454-466 | The witness: a run whose table, when dumped, tells of an unreachable route |
| LocRibRuns.DumpTellsTableView | src/neighbor/message_handler.rs:445-473 | Replaying that batch gives each prefix the first route of its entry and nothing else |
| LocRibRuns.LatePeerViewIsSound | src/neighbor/message_handler.rs:192-212 | A peer that joins later, whether or not the reports of the last event come behind the dump, has a sound view of a prefix in every later state if its first route was reachable when it joined |
| LocRibRuns.RunCounts | src/speaker/manager.rs:128-156 | The copies of a route in the table are a function of the list of events alone |
| LocRibRuns.CountOfByPeer | src/speaker/manager.rs:31-125 | The routes of a peer depend on the events of that peer alone |
| LocRibRuns.SortedAlike | src/speaker/manager.rs:49-50 | Two sorted lists of the same routes agree place by place up to equal routes |
| LocRibRuns.Confluence | src/speaker/manager.rs:22-156 | Any two interleavings of the same per-peer event lists end in the same table, up to the order of equal routes |
| SendUpdates.SendUpdate | src/neighbor/connection.rs:37-108 | When something is sent, what, and which missing fields make it fail |
| SendUpdates.CollectUpdates | src/neighbor/connection.rs:42-59 | The loop over the batch sorts out what is gone and groups what is new by the coarse `==`, one group for each class |
| SendUpdates.FileUnder | src/neighbor/connection.rs:55 | A route joins the group it is `==` to or founds one |
| SendUpdates.BuildUpdate | src/neighbor/connection.rs:65-98 | The loop over the groups, in any order, builds a message that the batch can give rise to |
| SendUpdates.SendConserves | src/neighbor/connection.rs:50-104 | The withdrawn field is what is gone, in order; an external neighbour is announced exactly the new prefixes not learnt from it, counted, an internal one no more than those |
| SendUpdates.NewsAndGone | src/neighbor/connection.rs:50-59 | A route goes out for a prefix if and only if the batch reports it and it is not from the neighbour; a prefix is withdrawn if and only if the batch reports it without a route |
| SendUpdates.OutgoingHas | src/neighbor/connection.rs:68-91 | A group goes out if and only if the neighbour is external or its first route came from outside |
| SendUpdates.InsideHearsOutside | src/neighbor/connection.rs:68-91 | To an internal neighbour news from outside are all announced, and news from inside not at all |
| SendUpdates.AnnouncedInFull | src/neighbor/connection.rs:68-98 | Just which attributes are announced of a route: next hop unless IPv6, origin, path, outside behind the local AS number in a sequence of its own |
| SendUpdates.SentPaths | src/neighbor/connection.rs:68-97 | Every AS path sent is that of a route of the batch that may go to the neighbour, behind the local ASN on an external session |
| SendUpdates.SentIsWire | src/neighbor/connection.rs:100-112 | What is built of IPv4 prefixes and short paths, and is no longer than a message, is within the limits of the wire |
| SendUpdates.SentArrivesIff | src/neighbor/connection.rs:100-117 | It is received, through codec and parser and however the octets are cut, in canonical form if and only if its prefixes are IPv4, its paths have segments of at most 255 ASNs and it is no longer than a message |
| SendUpdates.CanonicalSaysTheSame | src/rib.rs:94-115 | The canonical form makes the same route as the message |
| SendUpdates.LastGroupWins | src/neighbor/connection.rs:68-98 | The reader of a merged message keeps path and origin of the last group, and its next hop if that is IPv4 |
| SendUpdates.MergeIsFaithfulIff | src/neighbor/connection.rs:65-104 | On a session of either kind each prefix that goes out is learnt with its own path, origin and next hop if and only if the routes announced share path and origin, on an internal session the next hop too, and the next hop is IPv4 |
| SendUpdates.MergeIsFaithfulIffUniform | src/neighbor/connection.rs:65-104 | An external neighbour learns each prefix of the batch with its own attributes if and only if all share path and origin and the local address is IPv4 |
| SendUpdates.OriginIsLost | src/neighbor/connection.rs:65-104 | The witness on an external session: two routes of different origin |
| SendUpdates.NextHopIsLost | src/neighbor/connection.rs:72-84 | The witness on an internal session: two routes that differ in the next hop alone, in one group |
| SendUpdates.SentAttributesAreWire | src/neighbor/connection.rs:92-97 | Whatever prefixes and session, the attributes of what is built can be printed |
| Propagations.NeighbourAfter | src/neighbor/message_handler.rs:529-547 | After the message for a batch the neighbour has a network if and only if the batch announces it, or it had it and the batch does not withdraw it |
| Propagations.TracksIff | src/neighbor/connection.rs:50-63 | A neighbour that has a network exactly when the reports give it a foreign route still does after a batch if and only if the batch does not withdraw last what it also announces, and does not end with the neighbour's own route while the neighbour keeps another |
| Propagations.OthersAreFollowed | src/speaker/manager.rs:158-203 | The batches of other peers' events are followed as long as no event announces and withdraws one network |
| Propagations.BothIsKept | src/speaker/manager.rs:166-180 | The witness: an event that does both leaves the table without the network and the neighbour with it |
| Propagations.OwnBestIsStale | src/neighbor/connection.rs:54-56 | The witness: the neighbour's own route becomes the best and nothing is sent |
| Propagations.EventMergesFaithfullyIff | src/neighbor/connection.rs:65-104 | The prefixes of one event's batch are learnt with their own attributes if and only if nothing goes out or the next hop is IPv4 |
| Propagations.TwoNewsAreDumped | src/neighbor/message_handler.rs:454-466 | Any two loop-free routes for two prefixes are the dump of a reachable table, so the batches of OriginIsLost and NextHopIsLost are sent |
| Updates.AttributesArrive | src/bgp/messages.rs:168-325 | Whatever becomes of prefixes that are not IPv4, an accepted message has the attributes that were printed |
| Updates.AcceptedPathsAreShort | src/bgp/attributes.rs:262-287 | No path of an accepted message has a segment of more than 255 ASNs |
| Sessions.AdjAfterAt | src/neighbor/message_handler.rs:529-547 | After an UPDATE a prefix announced has the new route alone, one only withdrawn has none, all else is unchanged |
| Sessions.FirstMpDecides | src/neighbor/message_handler.rs:483-514 | The first multiprotocol attribute, by its place, decides family and prefixes; an announcement has its own next hop, a withdrawal none |
| Sessions.NoMpDecides | src/neighbor/message_handler.rs:483-514 | Without one the fields of the message are read as IPv4 unicast |
| Sessions.AnnouncedHop | src/neighbor/message_handler.rs:498-502 | The route of a multiprotocol announcement has the next hop of its attribute |
| Sessions.RouteIsOfSession | src/rib.rs:121-163 | It is internal exactly when the AS numbers of the session are one, and has time, router id and address of the peer |
| Sessions.OpenTable | src/neighbor/message_handler.rs:52-173 | An OPEN in every state, field by field: new session, what is sent, how it ends |
| Sessions.OtherTables | src/neighbor/message_handler.rs:14-254 | KEEPALIVE, UPDATE and NOTIFICATION in every state |
| Sessions.UpdateEvents | src/neighbor/message_handler.rs:523-562 | The one event an UPDATE becomes, in the channel of its family alone |
| Sessions.NotificationEvents | src/neighbor/message_handler.rs:261-344 | As many events for a family as it is offered, each of which withdraws all of the peer and announces nothing |
| Sessions.CommonCounts | src/neighbor/message_handler.rs:435-476 | A table is sent as often as its family is offered, if it was heard |
| Sessions.ToldIs | src/neighbor/message_handler.rs:363-393 | The first neighbour whose session clashes is told, and it alone, if its router id is below the own |
| Sessions.BGPNeighbor.constructor | src/neighbor/session.rs:59-105 | A new neighbour is idle, knows the configured AS number, no router id and no channel |
| Sessions.BGPNeighbor.AdjRibAdd | src/neighbor/session.rs:111-135 | Each prefix is given the one new route |
| Sessions.BGPNeighbor.AdjRibWithdraw | src/neighbor/session.rs:137-147 | The prefixes are removed from a family that is there |
| Sessions.BGPNeighbor.ProcessEvent | src/neighbor/fsm.rs:220-506 | The state after an event in each state, and when handling fails |
| Sessions.BGPNeighbor.EnterTcp | src/neighbor/fsm.rs:121-156 | A connection task up to its loop: channel registered, and OPEN sent or an end then and there |
| Sessions.BGPNeighbor.ConnectTo | src/neighbor/fsm.rs:48-119 | The speaker's channels are taken over however the attempt ends; the state tells whether the neighbour was reached, and a task is started only with a local address |
| Sessions.BGPNeighbor.AddIncoming | src/speaker/connection.rs:11-91 | The first neighbour with the address whose lock is free takes the connection if and only if it is Idle, Active or Connect, and only its state changes |
| Sessions.BGPNeighbor.CollisionDetection | src/neighbor/message_handler.rs:351-393 | Found if and only if some neighbour with a channel is in OpenSent or OpenConfirm with the router id; the first such is told to dump if its router id is below the own, and no other is told anything |
| Sessions.BGPNeighbor.HandleOpen | src/neighbor/message_handler.rs:62-166 | An OPEN: taken over or not, the new session, hold time and capabilities, what is sent to which connection, and how handling ends |
| Sessions.BGPNeighbor.HandleKeepalive | src/neighbor/message_handler.rs:192-212 | A KEEPALIVE: in OpenConfirm the session is established, the tables are sent, and the task stops where one cannot be |
| Sessions.BGPNeighbor.SendLocRib | src/neighbor/message_handler.rs:435-476 | One batch for every mention of a family that both sides named, with the first routes of its table, up to the first table, route or channel that is missing; nothing when a side named no families |
| Sessions.BGPNeighbor.UpdateFromOpen | src/neighbor/message_handler.rs:424-433 | Router id, AS number, hold time and OpenConfirm are taken over even when the capabilities stop the parser |
| Sessions.BGPNeighbor.ProcessMessage | src/neighbor/message_handler.rs:14-254 | Every message in every state: the new session, hold time and capabilities, what is put in which channel and sent to which connection, tables included, that nothing else is, and whether the task goes on, gets an error or stops |
| Sessions.BGPNeighbor.FindParts | src/neighbor/message_handler.rs:483-514 | The first multiprotocol attribute decides family and prefixes, else the message's own fields |
| Sessions.BGPNeighbor.HandleUpdate | src/neighbor/message_handler.rs:478-563 | The Adj-RIB after an UPDATE, and the one event to the channel of its family |
| Sessions.BGPNeighbor.HandleNotification | src/neighbor/message_handler.rs:261-311 | A withdraw-all event for each family offered, Idle, an empty Adj-RIB, and the connection told to close |
| Sessions.BGPNeighbor.WithdrawNeighborRoutes | src/neighbor/message_handler.rs:312-344 | The loop over the families sends one withdraw-all event for each mention of a family to its channel |
| Speakers.NextKeepsShape | src/speaker/types.rs:93-113 | Every step keeps one table and one queue for each family, and the table invariant |
| Speakers.NoTwins | src/neighbor/message_handler.rs:351-433 | In no reachable state are two neighbours in OpenConfirm with the same router id |
| Speakers.OpenKeepsDistinctIff | src/neighbor/message_handler.rs:363-393 | An accepted OPEN leaves all sessions in OpenConfirm and Established with different router ids if and only if no established one has the new router id |
| SpeakerRuns.TwoEstablishedTwins | src/neighbor/message_handler.rs:363-393 | The witness: a run into two established sessions with one router id, with both connections there |
| Speakers.EstablishedHasChannel | src/neighbor/fsm.rs:131-173 | With one connection for each neighbour a session in OpenConfirm or Established has its channel in every reachable state |
| Agreements.DrainKeepsPending | src/speaker/manager.rs:136-147 | Processing a queued event changes nothing of what table and queue together will hold |
| Agreements.NextChangesPending | src/neighbor/message_handler.rs:529-562 | What any step changes of what table and queue together will hold |
| Agreements.RunKeepsKnown | src/neighbor/message_handler.rs:395-433 | With stable router ids every neighbour keeps its configured AS number, and in OpenConfirm and Established its router id |
| Agreements.OthersDoNotCount | src/speaker/manager.rs:109 | Another peer's message changes no count of a peer's routes |
| Agreements.LocRibIsListed | src/neighbor/message_handler.rs:523-562 | In every reachable state a prefix with a route of a peer, in the Loc-RIB or on its way, in a family the peer was offered, is a key of its Adj-RIB |
| Agreements.AdjRibIsHeld | src/neighbor/message_handler.rs:523-562 | In every reachable state of a run with tidy UPDATEs a loop-free route of an Adj-RIB is in the Loc-RIB or on its way |
| Agreements.RibsAgree | src/neighbor/session.rs:111-147 | Both, for a family the peer was offered, read off the table when the queue is empty |
| Agreements.UpdateIsHeldIff | src/neighbor/message_handler.rs:529-562 | An UPDATE keeps the Adj-RIB held if and only if it announces nothing loop-free, or the neighbour has its channels and no prefix is announced and withdrawn at once |
| SpeakerRuns.AnnouncedNotHeld | src/neighbor/message_handler.rs:529-562 | The witness: runs, of messages that octets are parsed as, in which a neighbour without channels announces, and one that withdraws what it announces |
| Agreements.NotificationPurges | src/neighbor/message_handler.rs:261-344 | A NOTIFICATION takes all routes of its peer from the families offered and leaves every other route of every peer |
| Agreements.NotificationAgreesIff | src/neighbor/message_handler.rs:270-303 | Of a route held or on its way when a NOTIFICATION comes, Loc-RIB and Adj-RIB agree afterwards if and only if its family was offered |
| SpeakerRuns.AllListedIffOffered | src/neighbor/message_handler.rs:270-303 | All routes of a peer in a family are for prefixes of its Adj-RIB in every state of every run if and only if the peer is offered the family or has no families configured |
| SpeakerRuns.NothingOfUnconfigured | src/neighbor/message_handler.rs:435-439 | A peer for which no families are configured never has a route in a table or on its way |
| SpeakerRuns.UnofferedFamilyDisagrees | src/neighbor/message_handler.rs:270-303 | The witness: for every configuration with a family not offered, a run of messages that octets are parsed as which ends with a route in it and an empty Adj-RIB |
| Establishments.OpenConfirmHasOpen | src/neighbor/message_handler.rs:424-433 | A task in OpenConfirm has taken over an OPEN that was understood, and knows just the families that it names |
| Establishments.KeepaliveGoesOnIff | src/neighbor/message_handler.rs:435-476 | In any state with table invariant and channel, the KEEPALIVE behind an OPEN goes through if and only if the OPEN was ready: families configured, families named, tables for the common ones |
| Establishments.KeepaliveFate | src/neighbor/message_handler.rs:192-212 | In every run the KEEPALIVE that establishes a session leaves its task at the loop if and only if the OPEN taken over was ready, and the neighbour Established either way |
| Establishments.EstablishedHasOpen | src/neighbor/message_handler.rs:192-212 | Whoever is heard in an established session has sent a ready OPEN |
| Establishments.SpeakerIsReadyIff | src/bgp/messages.rs:98-140 | The OPEN of a speaker of this kind is ready if and only if families are configured for it, some of its own are left readable, and there are tables for the common ones |
| SpeakerRuns.EstablishedAndStopped | src/neighbor/message_handler.rs:200-209 | The witness: for every OPEN that is not ready, such as one that names no family, a run into Established with the connection task gone |
| Establishments.ReopensIff | src/neighbor/message_handler.rs:363-389 | In OpenSent an OPEN is taken over if and only if its router id is not the one known of the neighbour already, no other neighbour has it in negotiation, and the AS number is the configured one |
| Establishments.NeverUpAgain | src/neighbor/message_handler.rs:363-389 | With stable router ids a neighbour whose router id is known and which is not up never comes up again |
| Establishments.UpOnce | src/neighbor/message_handler.rs:363-389 | With stable router ids no session comes up twice |
| SpeakerRuns.ReopenIsRefused | src/neighbor/message_handler.rs:378-386 | The witness: a run in which a peer whose session ended sends its OPEN again and nothing comes of it |
| Establishments.PurgedForGood | src/neighbor/message_handler.rs:298-344 | From then on none of its routes is held or on its way |
| Establishments.PurgedTable | src/speaker/manager.rs:81-112 | Once the queue is drained no route of that peer is in the table |
| Fsms.RunIsSafe | src/neighbor/message_handler.rs:192-212 | Under every interleaving of connection tasks the remote AS number stays the configured one, and OpenConfirm and Established have a router id |
| Fsms.RidIsKept | src/neighbor/message_handler.rs:424-433 | A router id once known is never forgotten |
| Fsms.UpdateNeverPanics | src/rib.rs:125-136 | Wherever an UPDATE is handled the remote fields are there, so the route is made and the event sent |
| Fsms.OpenWasChecked | src/neighbor/message_handler.rs:395-433 | An OPEN is taken over only after the same connection checked its AS number |
| Fsms.OpenConfirmHasCause | src/neighbor/message_handler.rs:424-433 | OpenConfirm is preceded by an OPEN taken over that has the configured AS number |
| Fsms.ConfirmHasCause | src/neighbor/message_handler.rs:192-202 | A connection about to enter Established has dispatched a KEEPALIVE in OpenConfirm |
| Fsms.EstablishedHasCauses | src/neighbor/message_handler.rs:192-212 | Every step into Established comes after an accepted OPEN and then a KEEPALIVE that the acting connection dispatched in OpenConfirm |
| Fsms.BlockKeepsChannelIff | src/neighbor/message_handler.rs:200-209 | One block leaves an established neighbour with its channel if and only if it does not confirm on a record without one |
| Fsms.EstablishedHasChannelIff | src/neighbor/message_handler.rs:200-209 | In every world of a run an established neighbour has its channel if and only if no task of the run confirms on a record without one |
| Fsms.ChannelGoneIff | src/neighbor/fsm.rs:131-173 | A channel that was there is gone if and only if a task left since and none entered after it |
| Fsms.ConfirmMeetsNoChannelIff | src/neighbor/message_handler.rs:192-209 | A confirming task meets a record without a channel if and only if, since it entered itself, another task left and none entered after that |
| Fsms.ConfirmAfterDispatchIff | src/neighbor/message_handler.rs:14-22 | If the channel was there when the KEEPALIVE was dispatched: if and only if another task left between dispatch and confirmation and none entered after it; if it was not, an OPEN was taken over without one |
| Fsms.EstablishedWithoutChannel | src/neighbor/message_handler.rs:14-22 | The witness: a run into Established in which the other connection leaves between dispatch and confirmation, with the connections let in one after the other |
| Fsms.KeepaliveWithoutChannel | src/neighbor/message_handler.rs:62-98 | The other witness: the channel is taken away before the OPEN is taken over, and a third connection confirms |
| FsmSteps.BlocksAreTheStep | src/neighbor/message_handler.rs:14-563 | Whatever message a task hears in whatever state, uninterrupted its blocks, at most six, lead to the session, the end of the task and the events of the one step of the speaker model |
| FsmSteps.EventBlocksAreTheStep | src/neighbor/fsm.rs:220-500 | The same for an event, whether writing succeeds or not |
| FsmSteps.EnterBlocksAreTheStep | src/neighbor/fsm.rs:121-153 | The same for the start of a connection task |
| FsmSteps.ConnectBlocksAreTheStep | src/speaker/connection.rs:11-91 | The same for reaching the neighbour and for being reached |
| Collisions.ActOn | src/neighbor/message_handler.rs:424-433 | One block brings a neighbour to OpenConfirm with a router id, or keeps it there, if and only if it takes such an OPEN over, or the neighbour was there and its state is not set |
| Collisions.PassedEach | src/neighbor/message_handler.rs:363-389 | A task that takes an OPEN over has passed every neighbour with it, each in a block of its own, without a clash |
| Collisions.TwinIffSlippedPast | src/neighbor/message_handler.rs:70-83 | When an OPEN is taken over, another neighbour is in OpenConfirm with its router id if and only if that one took its own OPEN over after the check had passed it, or was there without a channel, and its state was not set since |
| Collisions.TwinsIff | src/neighbor/message_handler.rs:351-433 | With locks held block by block, a run has two neighbours in OpenConfirm with one router id if and only if some OPEN is taken over that slipped past its check in this way |
| Collisions.TwinsAreReal | src/neighbor/message_handler.rs:351-433 | The witness: two OPENs with one router id that both pass their checks before either is taken over |
| Networks.EventKeepsSimple | src/speaker/manager.rs:158-184 | An event with a duplicate-free path keeps all paths of table and reports duplicate-free and without the local ASN |
| Networks.WrittenIsGood | src/neighbor/connection.rs:50-112 | What is sent for a batch of such routes has duplicate-free paths and printable attributes |
| Networks.WiredIsSimple | src/bgp/codec.rs:54-73 | The octets of a sent message join those under way as one more whole message, or the codec refuses it |
| Networks.TakenFrame | src/bgp/codec.rs:13-51 | The next frame read off the octets under way is that of the oldest message, and whole messages are left |
| Networks.ReadIsSimple | src/bgp/messages.rs:424-482 | What the parser makes of such a message, if it accepts it, has duplicate-free paths |
| Networks.ReceivedIsSimple | src/rib.rs:94-115 | The route made of an accepted message with duplicate-free paths has one, with no segment of more than 255 ASNs |
| Networks.NextKeepsLoopFree | src/neighbor/connection.rs:50-112 | Every step of the network keeps the invariant of tables, queues, batches and octets |
| Networks.NoRouteLoops | src/rib.rs:75-80 | For any speakers, sessions and interleaving, with messages carried as octets and duplicate-free paths from outside, no route in any Loc-RIB has its own ASN in any segment of its path, or one ASN at two places of it |

## Left out

- Sockets, tokio tasks, mutexes and channel capacities: atomic steps and unbounded first-in-first-out queues remain, so a table sent to a full channel, or to that of a task that is gone, is not modelled.
- Netlink and the forwarding table's own changes (`src/fib.rs`): only the question whether a next hop has a route.
- gRPC, command line, configuration, logging and error texts.
- Timers, keepalive cadence, hold-timer bookkeeping and the retry delay with its random jitter; waiting between queued events.
- Liveness: nothing is claimed about sessions coming up, only that they come up once (Establishments.UpOnce).
- Events whose handlers only log: they change nothing.
- Which malformed inputs panic: a panic is a failed parse, or a connection task that ends where it is.
- Local address and port of a connection, and what a hold time is used for.
- The `byte_len` helpers, error subcodes and `to_notification_codes`: nothing in the code uses them for what is modelled.
- Speakers.NoTwins: one connection for each neighbour, and a message is handled in one step; Collisions.TwinsIff is the exact statement with locks held block by block.
- Agreements.RibsAgree: one connection for each neighbour, messages handled in one step, peers that keep distinct router ids, and families that were offered; SpeakerRuns.AllListedIffOffered shows the last is needed.
- Agreements.LocRibIsListed: the same conditions, except that UPDATEs need not be tidy.
- Sessions.BGPNeighbor.ProcessMessage: one step from the look at the state to the last channel; the blocks it is made of are those of Fsms and Collisions.
- Sessions.BGPNeighbor.ConnectTo: the remote address and port are always configured, so their absence is not modelled.
- Fsms.RunIsSafe: one neighbour, so whether a collision is found, and whether the tables can be sent, is left to the environment (Collisions and Establishments have these checks); the record and the tasks are values, not objects, because a step is a block and not a call.
- Networks.NoRouteLoops: sessions are not modelled beyond their queues and octets, so any message may be sent on any of them; how reads cut the octets is covered by Codec.ChunkingIsIrrelevant.
- Establishments.UpOnce: one connection for each neighbour, messages handled in one step, and peers that keep distinct router ids.
- Propagations.TracksIff: external sessions, and whether a network is there, not with which attributes (SendUpdates.MergeIsFaithfulIff); it speaks of messages that arrive (SendUpdates.SentArrivesIff).
- Updates.UpdateRoundTrip: multiprotocol attributes do not round-trip; see Attributes.MpReadsAsDefault.
