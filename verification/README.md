# The relay's state, modelled and proved

A WebSocket relay for EasyTier networks, running as a Cloudflare durable object: peers connect by
socket, shake hands into a group, and exchange route updates with the relay. This project models
what the relay remembers and sends, in Dafny, and proves what that state machine keeps over every
run. Three parts:

- **Routes.** Per group: the connected peers, their infos, a connection version per peer, the
  peer-to-peer edges they report, and one session per target that remembers what the target was last
  sent. Updates carry a bit-packed adjacency matrix, left out when its textual signature is the one
  last sent, and infos in full or as a delta.
- **Rooms.** The sockets of one room and their attachments, through accept, handshake, re-handshake,
  route RPCs, close, error, timeout and restart.
- **Two smaller cores.** SipHash-1-3 with the digests and keys expanded from it, and the peer center's
  report log with its "not modified" replies.

## How it is laid out

| file | role |
|---|---|
| `Orders`, `Collections`, `Wire`, `BitMatrix`, `Signature` | sets in order; options; decoded messages; bits in bytes; the text of a signature |
| `RouteModel` | a group as a value and every operation as a function on it; runs of events |
| `RouteGroup`, `PeerManager`, `RpcHandler`, `Handshake` | the program's objects and handlers, updated in place and proved against those functions |
| `Invariants`, `Fingerprint`, `Coherence`, `GraphTheorems`, `InfoMerge`, `SyncRpc`, `Announcements`, `Reconnections` | what holds of groups over all runs |
| `Claims`, `Contents`, `Records` | the same state told from outside: from the bits and lists received, from what an update says, from the log of events |
| `Admissions` | who is admitted to which group, and what is filed about a newcomer |
| `RoomModel`, `RoomSteps`, `RelayRoom` | a room as a value and its steps; the room object, proved to perform them |
| `Holdings` | a remote peer some of whose updates are lost, and the session kept for it |
| `RoomTheorems`, `RoomGroups`, `RoomEdges`, `RoomCoherence`, `RoomCurrency` | what holds of rooms over all runs |
| `RoomSockets`, `RoomAlarms`, `RoomDeliveries` | sockets, removals and alarms told from the log of the room; who is sent what in each step |
| `RoomWitnesses` | runs of a room in which a group comes to list a peer without a socket |
| `SipHash`, `SipHashFamily`, `Digest` | the hash against its reference, and that against the paper's test vector; digests and keys |
| `PeerCenter`, `PeerCenterRuns` | the peer center; what holds over runs of reports, questions and cleanups |

The independent references are: `Coherence.View`, a remote peer that only remembers the updates
returned for it and forgets them with its session; `Holdings.Held`, a peer of a room that takes in
only the updates really sent to it; `Encodes`, a matrix read cell by cell; `IsJoin`,
the maximum of received versions; `PeersStanding`, the peers that live sockets stand for;
`IsSource`, the last report naming a pair; `IsFirstFor`, the first request for a network; `RemovedBy`,
`LastRemoval` and their like, a log read from its end; and section 2 and Appendix A of "SipHash: a fast short-input PRF"
(Aumasson and Bernstein, 2012).

## What is assumed

- Time is an input and one handler sees one `now`. It need not grow, but for timeouts and in the
  peer center a later time counts as a huge interval ago, as unsigned arithmetic makes it
  (`src/relay_room.rs:123-124`, `src/peer_center.rs:141-142`).
- Versions and counters are unbounded: the wrap-around of `u32` is not modelled.
- Random ids are inputs. Session ids of sockets are unique and never empty (`src/relay_room.rs:92-100`
  draws one for every socket); the route id drawn for a group is a function of its key (`draws`).
- A handler runs to its end before the next one starts: `wrap_packet` awaits nothing, since the
  handlers use the default, unencrypted `WsCrypto`, and storage operations hold back other events.
- Sends succeed.
- One room; its groups and digest registry are lost only when the isolate is.
- A socket leaves the room's list with its close or error event.
- A peer is counted as holding nothing from its removal, and from the loss of the isolate: the relay then starts over with it.
- An RPC answer names its own sender in its header. The program takes the header's word for it
  (`src/rpc_handler.rs:188-195`); one that names another peer would reset that peer's session.
- What a peer holds is kept per id and group, as the relay's sessions are, while updates go out per socket. While one
  socket stands for the peer they are the same (`RoomCurrency.SoleSocketGetsAll`); of two, only the first is sent a
  new graph.
- Where it says so, no client uses the relay's own id 10000001; the exact effect of one that does is proved.
- Where it says so, the hash of the peer center is collision-free.

## What the proofs turned up

- The update that is built for a newcomer and thrown away (`src/relay_room.rs:285-294`) makes the cache
  believe the newcomer has its graph, so the updates of the same handshake carry none to it
  (`RoomGroups.NewcomerGetsNoGraph`). It is left behind exactly when it was not listed, not described, or its
  session did not count the current graph as sent (`RoomCurrency.HandshakeLosesGraphExactly`); one that comes
  back up to date while its old socket is open loses nothing. It catches up with the next change of the graph that is sent
  to it (`RoomCurrency.NextChangeBringsGraph`) or with a new session (`RoomGroups.NewSessionGetsGraph`). Until
  then, and only then, being sent an update does not mean holding the current graph
  (`RoomCurrency.GraphsSentAreCurrentExactly`). Its infos are not affected (`RoomCoherence.SessionsDescribeWhatIsHeld`).
- A request can be announced to the others, and raise every version, though no edge changed: a cleanup
  leaves an empty entry behind, and a later report of no connections drops it
  (`GraphTheorems.EmptyEntryCountsAsChange`). `GraphTheorems.ReportChangesExactly` shows this is the only way, and
  `GraphTheorems.OnlyCleanupsLeaveEmptyEntries` where such entries come from.
- The second pass of a sync request overwrites infos of connected peers without looking at versions, so
  they can go back (`SyncRpc.InfoGoesBackExactly` says exactly when) and nobody is told
  (`SyncRpc.InfoGoesBackSilently`).
- The role that a request leaves the relay is set on a copy of the socket's attachment, which is then dropped: replies
  and sessions show it (`SyncRpc.ReplyTakesOtherRole`), but no update that is sent ever says the relay is the initiator
  (`RoomDeliveries.DeliveriesAreFull`).
- A late close never evicts a peer with another live socket, but a group can list a peer that no socket
  stands for: after a handshake with id 0, after a handshake under a new identity, and after a close
  while the same id is connected in another group. `RoomWitnesses` has a run for each;
  `RoomTheorems.StepKeepsExact` shows these are all the ways.
- A client that joins under the relay's own id and leaves resets the relay's version:
  `Fingerprint.StepRaisesOrKeepsExactly` and `Fingerprint.ServerIdBreaksFingerprint`.
- A comment promises that the connection version of a reconnecting peer keeps growing
  (`src/route_state.rs:188-190`). It starts at 2 again unless somebody told of the peer while it was away
  (`Reconnections.ReconnectRestartsVersion`); nothing in the program asks for it.
- The digest of the peer center sees pairs only: new infos for known pairs go unnoticed
  (`PeerCenterRuns.OnlyNewPairsAreSeen`). So would a cleanup that drops some pairs
  (`PeerCenterRuns.DigestStaysCurrent`, `PeerCenterRuns.PartialCleanupGoesUnseen`), but nothing in the program calls
  `clean_outdated`: this is what it would do, not what the relay does.

## Model

| member | source | states |
|---|---|---|
| BitMatrix.PackedBit | src/route_state.rs:566-575 | packing loses and adds nothing: bit k of the bytes is set exactly when position k was marked, so padding is clear |
| BitMatrix.CellsDiffer | src/route_state.rs:572-575 | two cells of the matrix share a bit only if they are the same cell |
| BitMatrix.BitsDetermineBytes | src/route_state.rs:566-575 | byte strings of one length with equal bits are equal |
| BitMatrix.SetBit | src/route_state.rs:572-575 | the in-place update sets one cell, keeps every other cell and all padding |
| Signature.SigIsInjective | src/route_state.rs:630-638 | equal signatures "id:version,...\|hex" mean equal bitmaps: ids, versions and bytes |
| Signature.JoinedIsInjective | src/route_state.rs:632-636 | the comma-joined list of "id:version" entries determines the list, also when it is empty |
| Signature.HexIsInjective | src/route_state.rs:637 | hex text determines the bytes |
| RouteModel.PositionOf | src/route_state.rs:261 | the first position of an id in a received list, and None only if it is nowhere |
| RouteModel.EncodingIsUnique | src/route_state.rs:566-620 | only one byte string shows the adjacency of a list of peers cell by cell with clear padding |
| RouteModel.MatrixBytesEncode | src/route_state.rs:566-620 | the specified matrix bytes are exactly those that read back as the adjacency of the peers |
| RouteModel.BitmapShowsVersion | src/route_state.rs:622-628 | a bitmap shows a version for a peer iff it names the peer and the version is the recorded one, or 1 |
| RouteModel.BuiltRest | src/route_state.rs:342-444 | a build adds stub infos and writes the target's session; peers, versions, edges, removals and other sessions stay |
| RouteModel.BuiltSession | src/route_state.rs:352-407 | what a build leaves in the target's session: ids, recorded versions, signature and one more build counted |
| RouteGroup.SetReportedEdges | src/route_state.rs:600-613 | one peer's reported edges are set in both directions, skipping unknown ids and the relay |
| RouteGroup.SetAllReportedEdges | src/route_state.rs:600-613 | whatever order the hash map yields its sources in, exactly the edges reported by either end are added |
| RouteGroup.SetServerEdges | src/route_state.rs:577-588 | exactly the diagonal and the relay's row and column are set |
| RouteGroup.SetEverything | src/route_state.rs:614-620 | without the relay among the peers every cell is set, and no padding |
| RouteGroup.SetAdjacency | src/route_state.rs:577-620 | the bytes written show the adjacency of the peers cell by cell |
| RouteGroup.GetConnectedPeersFromBitmap | src/route_state.rs:663-675 | decoding computes the specified row of any bitmap; `Claims.BitmapIsStoredByRow` reads that row off the bits |
| RouteGroup.RouteGroup.constructor | src/route_state.rs:88-123 | a fresh group is empty but for the relay's own info at version 1 |
| RouteGroup.RouteGroup.BumpAllConnVersions | src/route_state.rs:546-556 | every connected or described peer's version rises by one, then the relay's own by one, unrecorded ones counting as 1 |
| RouteGroup.RouteGroup.AddPeer | src/route_state.rs:125-133 | whole new state: listed, removal record gone, versions bumped only if it was not listed |
| RouteGroup.RouteGroup.RemovePeer | src/route_state.rs:135-149 | whole new state: unlisted, info, session and version gone, removal recorded, edges kept, bumped only if it was listed |
| RouteGroup.RouteGroup.UpdatePeerInfo | src/route_state.rs:153-166 | stored only if new or newer, bumped only if new; the answer says whether it was stored |
| RouteGroup.RouteGroup.OnRouteSessionAck | src/route_state.rs:168-186 | a new session id clears all four caches of the session, the same id none |
| RouteGroup.RouteGroup.GetPeerConnVersion | src/route_state.rs:191-197 | the one version that every bitmap naming the peer shows for it |
| RouteGroup.RouteGroup.BumpMyInfoVersion | src/route_state.rs:206-210 | the relay's info version rises by one in both places |
| RouteGroup.RouteGroup.UpdatePeerConnections | src/route_state.rs:234-339 | performs the claim, bumped and reported exactly when the stored map changes; what is stored is `Claims.RelationIsStored` and `Claims.ListIsStored` |
| RouteGroup.RouteGroup.PackAdjacency | src/route_state.rs:566-620 | the in-place bit loops compute the specified matrix |
| RouteGroup.RouteGroup.BuildConnBitmap | src/route_state.rs:558-659 | the graph is returned and its signature recorded, or None and nothing recorded when the signature is the last one sent |
| RouteGroup.RouteGroup.CollectInfos | src/route_state.rs:374-400 | the infos returned are those due in order of id, the versions recorded those sent, and the store gains stubs only |
| RouteGroup.RouteGroup.BuildSyncRouteInfoRequest | src/route_state.rs:342-444 | performs the build: the update and the whole new state; what the update says, field by field, is in `Contents` |
| RouteGroup.RouteGroup.OverwriteInfos | src/route_state.rs:474-491 | infos of connected peers and of the sender are replaced, last item winning, and all others kept |
| RouteGroup.RouteGroup.HandleSyncRouteInfoRequest | src/route_state.rs:447-508 | performs the second pass of a request and returns the reply; `SyncRpc.ReplyTakesOtherRole` and `Announcements.RepliesNameLastSession` say what is in it |
| RouteGroup.RouteGroup.CleanupStalePeerConnections | src/route_state.rs:514-541 | whole new state of the nested removal loops |
| Invariants.StepKeepsInv | src/route_state.rs:125-556 | no operation, on any ids, lists, bitmaps and times, breaks: edges end at listed or recorded peers and never at the relay or their owner, listed and removed peers are apart, the domain of versions, infos filed under their id |
| Invariants.RunKeepsInv | src/route_state.rs:88-556 | all of that after every run from a fresh group |
| Fingerprint.SameEncoding | src/route_state.rs:577-620 | the matrix depends on the edges between listed peers only |
| Fingerprint.StepRaisesOrKeeps | src/route_state.rs:125-556 | any step either raises the relay's version or leaves peers, versions and edges as reported |
| Fingerprint.StepRaisesOrKeepsExactly | src/route_state.rs:135-149 | the one exception, exactly: the relay's own id is removed once its version has passed 1 |
| Fingerprint.VersionIsFingerprint | src/route_state.rs:125-149 | between any two moments of a run the relay's version never falls, and equal versions mean equal reports |
| Fingerprint.EqualVersionsEqualBitmaps | src/route_state.rs:558-628 | equal relay versions at two moments of a run mean the same ids, versions and bytes for every connected target |
| Fingerprint.BitmapShowsPeers | src/route_state.rs:622-628 | equal bitmaps name equal sets of peers |
| Fingerprint.ServerIdBreaksFingerprint | src/route_state.rs:125-149 | a run in which a client joins under the relay's id and leaves: version and listed peers are back, and the graph reported to another peer is not |
| Coherence.SessionsDescribeViews | src/route_state.rs:168-186 | after every run a session records exactly what a remote that follows the updates holds: session id, signature of its graph, versions of its infos, number of updates since the last reset |
| Coherence.BuildLeavesGraphCurrent | src/route_state.rs:640-658 | after any build, whether it carried the graph or left it out, the remote's graph is the one recomputed from the state |
| Coherence.BuildLeavesInfosCurrent | src/route_state.rs:376-400 | after any build the remote holds an info, none older than the relay's, for itself, the relay and every connected peer; after a full build the relay's own ones |
| Coherence.GraphsHeldWereTrue | src/route_state.rs:558-659 | any graph a remote holds was the relay's graph for it at some moment of the run |
| Coherence.ServerVersionTellsCurrency | src/route_state.rs:546-556 | a connected remote's graph is current if and only if the version it shows for the relay is the relay's current one |
| Holdings.TakenBuildMatches | src/route_state.rs:342-444 | a full build that is sent keeps session and remote in step and settles every info of the target's peers |
| Holdings.MissedBuildMatches | src/relay_room.rs:282-294 | a full build that is lost leaves the remote behind iff it carried the graph, with an older one, and only the infos it carried unsettled |
| GraphTheorems.BitmapIsExact | src/route_state.rs:566-620 | cell (r,c) is set iff r=c, or either is the relay, or either reports the other; symmetric, padding clear, exact size |
| GraphTheorems.RowDecodesToNeighbours | src/route_state.rs:663-675 | decoding row r of a built bitmap gives exactly the peers linked to r's peer |
| GraphTheorems.EchoClaimsNeighbours | src/route_state.rs:250-276 | of an echoed bitmap the relay accepts exactly the connected neighbours |
| GraphTheorems.ReportIsIdempotent | src/route_state.rs:312-338 | the same report again changes nothing, bumps nothing and reports no change |
| GraphTheorems.ReportChangesExactly | src/route_state.rs:312-317 | a report counts as a change iff it changes an edge, or accepts nothing and drops an entry that was empty |
| GraphTheorems.EmptyEntryCountsAsChange | src/route_state.rs:312-328 | a run of join, join, report, leave and cleanup after which an empty report raises the versions and changes no edge |
| GraphTheorems.OnlyCleanupsLeaveEmptyEntries | src/route_state.rs:526-529 | over runs without cleanups no stored entry is empty |
| GraphTheorems.EchoKeepsGraph | src/route_state.rs:250-338 | echoing the graph back leaves the reported adjacency among connected peers as it was |
| GraphTheorems.CleanupIsExact | src/route_state.rs:514-541 | exactly the edges touching ids removed longer ago than the threshold go, and exactly those removal records |
| GraphTheorems.CleanupIsInvisible | src/route_state.rs:514-541 | the next update for any connected target, and what it records, are the same with and without the cleanup |
| GraphTheorems.CleanupReclaims | src/route_state.rs:514-541 | once all removals are old enough no edge to an absent peer is left |
| GraphTheorems.TopologySurvivesFlaps | src/route_state.rs:135-149 | over runs without reports and cleanups the matrix is always the first state's edges between the peers now listed |
| GraphTheorems.FlapRestoresGraph | src/route_state.rs:125-149 | remove then add brings back the same ids and bits under a higher relay version |
| GraphTheorems.InfosCarriedAreThoseDue | src/route_state.rs:376-400 | infos carried are exactly those due, once each, ascending by id, each the relay's current record of its id |
| GraphTheorems.ForcedUpdateIsComplete | src/route_state.rs:359-400 | a full build carries one info for each of the connected peers, the relay and the target, and nothing else |
| GraphTheorems.RepeatedDeltaIsEmpty | src/route_state.rs:389-399 | in a greeted session a delta build right after any build carries no infos and no graph |
| GraphTheorems.VersionsOnlyRise | src/route_state.rs:135-149 | only its own removal lowers a peer's connection version |
| Reconnections.ReconnectRestartsVersion | src/route_state.rs:125-149 | whatever happens between a peer's leaving and its return, no update being built for it, it comes back with version 2 iff nobody told of it meanwhile, with more otherwise; with 2 it has lost count iff it had more |
| GraphTheorems.BumpReachesEveryone | src/route_state.rs:546-556 | a step that moves the relay's version raises the version of every peer connected before and after |
| GraphTheorems.SameInputsSameBuild | src/route_state.rs:342-444 | an update depends on the report, the infos and the target's session only |
| Claims.RelationIsStored | src/route_state.rs:250-276 | any relation, symmetric or not, drawn bit by bit over distinct ids: afterwards p reports q iff both are named, the relation holds from p to q, and q is a connected peer other than p and the relay |
| Claims.BitmapIsStoredByRow | src/route_state.rs:261-268 | whatever the ids and the length of the bytes: p reports exactly the peers it may claim that a set bit of its own row names, the row being that of the first place naming p |
| Claims.BitmapWithoutSender | src/route_state.rs:270-275 | a bitmap that does not name its sender takes all of its reports away |
| Claims.ListIsStored | src/route_state.rs:285-298 | after a list p reports what the first entry naming p lists and p may claim, and nothing if no entry names p |
| Claims.OthersKeepReports | src/route_state.rs:312-317 | a claim of one peer changes the reports of no other |
| Claims.GraphNamesExactly | src/route_state.rs:622-628 | a graph names the connected peers, the relay and the target, once each, ascending, with their recorded versions, or 1 |
| Claims.GraphBitsExactly | src/route_state.rs:577-613 | the bit at r * n + c of the bytes is set iff the two peers are one, or one is the relay, or either reports the other |
| Claims.GraphPaddingIsClear | src/route_state.rs:566-570 | the bytes are just enough for n * n bits, and no bit beyond is set |
| Contents.OwnInfoIsFixed | src/route_state.rs:88-123 | over every run the relay describes itself as at the start, at a version that counts the bumps |
| Contents.UpdateIsSigned | src/route_state.rs:428-438 | every update names the relay, the session id and the role given, and carries no empty list |
| Contents.NextReplyNamesUpdate | src/route_state.rs:497-505 | the session id of an update is the one that the next reply to its target names |
| Contents.ForeignNetworkIsCurrent | src/route_state.rs:404-426 | the foreign network of an update: the peers, the relay and the target in ascending order, the number of updates since the last reset, the time in whole seconds |
| Contents.GraphTravelsWhenNew | src/route_state.rs:648-658 | over every run an update carries the current graph iff the target, following the updates, does not hold it already |
| Contents.UpdateCarriesWhatIsNewer | src/route_state.rs:376-400 | over every run an update carries what the relay knows of exactly those peers of which the target holds nothing or something older, or of all when it is forced or the session not named |
| Contents.BuildFilesStubs | src/route_state.rs:380-388 | a build files a stub for exactly the listed peers and the target that had none, and changes no other info |
| Records.ListFollowsLog | src/route_state.rs:125-149 | over every run who is listed, and who is on record as removed since when, is told by the log of comings, goings and cleanups |
| Records.ContactFollowsLog | src/route_state.rs:168-186 | over every run the last touch and the role of a session are those of its last greeting, build or request |
| Records.VersionsCountChanges | src/route_state.rs:546-556 | each operation moves the relay's version by at most one, and the version of every peer then listed or described with it |
| Records.VersionRisesExactly | src/route_state.rs:125-556 | the relay's version rises iff a peer is newly listed, taken off or newly described, or a report changes an edge or drops an empty entry |
| Records.FirstGraphFollowsLog | src/route_state.rs:641-653 | over every run the version kept for a graph is the greatest shown by the first graph built in the session |
| InfoMerge.MergeIsJoin | src/peer_manager.rs:187-212 | after any list each peer's record is the stored one unless exceeded, else the first item of the greatest version received |
| InfoMerge.NewsMeansNewToStore | src/peer_manager.rs:196-211 | the result is true iff some item about another peer was new or newer than the store the merge started from |
| InfoMerge.MergeIsIdempotent | src/peer_manager.rs:187-212 | the same list again is a no-op that reports no change |
| InfoMerge.MergeKeepsRest | src/peer_manager.rs:187-212 | a merge touches infos and connection versions only |
| SyncRpc.SyncIsRun | src/rpc_handler.rs:236-275 | handling a request is a run of single operations, so whatever holds of runs holds across it |
| SyncRpc.LastItemWins | src/route_state.rs:476-491 | the second pass stores the last item for each connected id and the sender, and nothing else |
| SyncRpc.InfosAfterSync | src/rpc_handler.rs:246-275 | after the whole request: the last item with a refreshed timestamp for connected ids and the sender, the version-maximum merge for all others |
| SyncRpc.RestAfterSync | src/rpc_handler.rs:246-275 | the second pass never bumps versions, the caches are reset at most once, all else is as after the merge |
| SyncRpc.ReplyTakesOtherRole | src/route_state.rs:501-505 | the reply takes the role opposite to the request, the one that the session then records |
| SyncRpc.BroadcastsOnChange | src/rpc_handler.rs:252-263 | the others are told iff an item was news to the first store, an edge changed, or a report of no connections dropped an empty entry |
| SyncRpc.InfoGoesBackExactly | src/route_state.rs:477-487 | exactly when a stored info loses version over a request |
| SyncRpc.InfoGoesBackSilently | src/route_state.rs:477-487 | a concrete request that replaces a connected peer's info by an older one without a broadcast |
| Announcements.RunKeepsCount | src/route_state.rs:206-210 | over every run the relay's info carries the relay's counter and no target was sent a later one |
| Announcements.OwnInfoGoesOut | src/route_state.rs:376-400 | after any run, a bump of the relay's own info is in the very next update for any target, delta or full |
| Announcements.RepliesNameLastSession | src/route_state.rs:497-505 | over every run a reply names the session id of the last update built for that peer since its last removal, else 1 |
| PeerManager.PeerManager.constructor | src/peer_manager.rs:43-47 | a fresh manager has no groups |
| PeerManager.PeerManager.EnsureGroup | src/route_state.rs:88-123 | a missing group is created, an existing one kept, all others untouched |
| PeerManager.PeerManager.AddPeer | src/peer_manager.rs:49-52 | the group's entry becomes the one with the peer added and the relay's info bumped; all other groups stay |
| PeerManager.PeerManager.RemovePeer | src/peer_manager.rs:60-68 | id 0 is never removed; otherwise one entry changes |
| PeerManager.PeerManager.ListPeerIdsInGroup | src/peer_manager.rs:70-72 | the listed peers in ascending order, none for an unknown group |
| PeerManager.PeerManager.UpdatePeerInfo | src/peer_manager.rs:76-84 | one entry changes, under the id given; the answer says whether the info was news |
| PeerManager.PeerManager.OnRouteSessionAck | src/peer_manager.rs:93-102 | one entry changes, by the session's greeting |
| PeerManager.PeerManager.BuildRouteUpdate | src/peer_manager.rs:106-124 | the request for the target, and one entry changed by the build |
| PeerManager.PeerManager.HandleSyncRouteInfo | src/peer_manager.rs:163-172 | the reply, and one entry changed |
| PeerManager.PeerManager.ProcessIncomingConnInfo | src/peer_manager.rs:178-181 | one entry changes by the claim; the answer says whether the stored edges did |
| PeerManager.PeerManager.ProcessIncomingPeerInfos | src/peer_manager.rs:187-212 | the loop computes the merge of the whole list and whether it held news |
| PeerManager.PeerManager.CleanupStalePeerConnections | src/peer_manager.rs:55-58 | one entry changes by the cleanup |
| RpcHandler.TakeInRequest | src/rpc_handler.rs:244-263 | greeting, merge and report composed, and whether the others are to be told |
| RpcHandler.HandleSyncRouteInfo | src/rpc_handler.rs:212-322 | the composed new state, the context's new role, and the exact list of actions; a body that does not decode changes and answers nothing |
| RpcHandler.HandleRpcResp | src/rpc_handler.rs:158-209 | an answer greets the session it names, unless that is 0 |
| Handshake.DigestRegistry.HandleHandshake | src/handlers.rs:21-102 | performs the check of a request against the registry; who is admitted to what, and the reply, are in `Admissions` |
| Handshake.DigestsNeverChange | src/handlers.rs:51-66 | over runs of handshakes a registered digest stays as it is |
| Handshake.GroupKeyIsInjective | src/handlers.rs:68-72 | "name:hex" determines name and digest, even when names contain colons |
| Handshake.SameGroupMeansSameName | src/handlers.rs:48-72 | two accepted handshakes of one run share a group iff they name the same network |
| Admissions.OutcomesShareGroup | src/handlers.rs:48-72 | whatever the registries, two admissions are to one group iff both name and digest agree |
| Admissions.OneGroupPerName | src/handlers.rs:48-72 | two admissions of one run are to one group iff the names agree |
| Admissions.AdmittedByLog | src/handlers.rs:43-66 | a request is admitted iff its magic number is right and its digest that of the first such request for its name |
| Admissions.RegistryFollowsLog | src/handlers.rs:51-66 | the digest on record for a name is that of the first request for it with the right magic number |
| Admissions.OutcomeIsAddressed | src/handlers.rs:68-102 | the id, name and group of an admission are those of the request, and every field of the reply and its addresses |
| Admissions.HexSpells | src/handlers.rs:49 | each byte of a digest is written as its two digits, the high one first |
| Admissions.SocketsShareGroups | src/relay_room.rs:225-232 | while the isolate lives, admitted sockets of a room are in one group iff they are of one network |
| Admissions.ArrivalFilesStub | src/relay_room.rs:234-263 | an arrival lists the peer, files its stub of version 1 unless it was described, and raises the version of the relay's own info by two |
| Admissions.NewcomerHasStub | src/relay_room.rs:220-311 | after its handshake, broadcast included, a peer not described before has the stub of version 1 on file |
| Admissions.NewcomerIsAnnounced | src/relay_room.rs:239-250 | a newcomer's first description of itself is announced to the others iff its version is 2 or more |
| RoomModel.BroadcastIsOps | src/relay_room.rs:545-573 | serving the sockets one after the other is a list of group operations |
| RoomModel.OpsAtIsRun | src/relay_room.rs:234-263 | operations on one key are a run of that group, and touch no other |
| RelayRoom.SendUpdates | src/relay_room.rs:545-573 | every socket of the group but the excluded peer's is sent the update built for it in turn, and the groups record it |
| RelayRoom.Welcome | src/relay_room.rs:234-288 | performs the operations of an accepted handshake up to the update that is thrown away; `Admissions.ArrivalFilesStub` says what they file |
| RelayRoom.ReceiveHandshake | src/relay_room.rs:220-311 | an accepted handshake rewrites the attachment, registers, welcomes, replies and broadcasts; a refused one only stamps the attachment |
| RelayRoom.Perform | src/relay_room.rs:342-399 | the actions of an RPC, carried out in order: the answers and the updates sent |
| RelayRoom.ReceiveSync | src/relay_room.rs:318-399 | a sync request handled, answered once, and its actions carried out |
| RelayRoom.Leave | src/relay_room.rs:431-467 | a closing socket's peer is removed and the group told, unless the id is 0 or a live socket with another session has it |
| RelayRoom.RestorePeers | src/relay_room.rs:57-73 | the peer of every socket not yet listed is added, the list being read anew each time |
| RelayRoom.AliveGroups | src/relay_room.rs:117-143 | exactly the groups that have a socket heard from in time, in ascending order |
| RelayRoom.Inserted | src/relay_room.rs:136-138 | inserting a key keeps the ordered set ordered and free of repetitions |
| RelayRoom.Refresh | src/relay_room.rs:149-170 | all cleanups, then all broadcasts |
| RelayRoom.RelayRoom.constructor | src/relay_room.rs:57-76 | a new room is empty |
| RelayRoom.RelayRoom.Fetch | src/relay_room.rs:78-111 | performs the accepting of a socket |
| RelayRoom.RelayRoom.OnHandshake | src/relay_room.rs:220-311 | performs the handshake step: new sockets, attachments, groups, registry, updates sent and the reply are those of the model |
| RelayRoom.RelayRoom.OnRpcRequest | src/relay_room.rs:318-404 | performs the sync step, with its answer |
| RelayRoom.RelayRoom.OnRpcResponse | src/relay_room.rs:406-418 | performs the answer step |
| RelayRoom.RelayRoom.OnOtherPacket | src/relay_room.rs:213-217 | stamps the attachment and changes nothing else |
| RelayRoom.RelayRoom.WebsocketClose | src/relay_room.rs:431-507 | performs the closing step, for close and error alike |
| RelayRoom.RelayRoom.OnAlarm | src/relay_room.rs:113-175 | performs the alarm step over the live groups in ascending order; `RoomAlarms.AlarmIsExact` says what goes |
| RelayRoom.RelayRoom.Restart | src/relay_room.rs:57-76 | performs the restart step, with or without the loss of the global state |
| RoomTheorems.PeersAfterStep | src/relay_room.rs:57-507 | whom each group lists after any step; only handshakes, closings and restarts change it |
| RoomTheorems.StepKeepsWellFormed | src/relay_room.rs:78-111 | sockets stay distinct with distinct session ids |
| RoomTheorems.StepKeepsListed | src/relay_room.rs:57-507 | no event unlists a peer while a live socket stands for it |
| RoomTheorems.ReachableRoomsAreListed | src/relay_room.rs:57-507 | in every reachable room each live socket with a non-zero id has it listed in its group |
| RoomTheorems.LateCloseEvictsNobody | src/relay_room.rs:431-467 | closing an old socket changes no group's list when another socket has the same id |
| RoomTheorems.PeersAfterRestart | src/relay_room.rs:57-73 | after a restart each group lists what it listed and every peer with a live socket |
| RoomTheorems.StepKeepsExact | src/relay_room.rs:220-507 | groups go on listing exactly the peers with live sockets if and only if the step is tidy, a guard on the handshake or close before it |
| RoomTheorems.TidyRunsAreExact | src/relay_room.rs:57-507 | over tidy runs a group lists a peer exactly while a live socket stands for it |
| RoomWitnesses.ZeroIdIsListed | src/relay_room.rs:227-237 | a run of accept and handshake with id 0 after which the lists are not exact |
| RoomWitnesses.OldIdentityIsLeftBehind | src/relay_room.rs:227-237 | a run with a second handshake under another id after which the lists are not exact |
| RoomWitnesses.OtherNetworkKeepsPeerListed | src/relay_room.rs:431-467 | a run with one id in two networks and one socket closing after which the lists are not exact |
| RoomWitnesses.ZeroEscapesCleanup | src/relay_room.rs:57-73 | a run in which id 0 joins, the isolate is lost, and a report of id 0 leaves an entry of a peer neither listed nor on record |
| RoomGroups.ReachableGroupsAreRuns | src/relay_room.rs:57-507 | in every reachable room every group is the result of a run of group operations and satisfies their invariant |
| RoomGroups.RoomStepRaisesOrKeeps | src/relay_room.rs:113-507 | while no socket uses the relay's id, a step of a room short of isolate loss raises a group's version or leaves its report as it was |
| RoomGroups.RoomVersionsAreFingerprints | src/relay_room.rs:113-507 | between two moments of a room's run, without isolate loss and without the relay's id as a client's, a group's version never falls and equal versions mean equal reports |
| RoomGroups.BroadcastReaches | src/relay_room.rs:545-573 | a broadcast sends to a socket iff it is in the group and does not stand for the excluded peer |
| RoomGroups.NewcomerGetsNoGraph | src/relay_room.rs:282-304 | on an accepted handshake the newcomer is sent an update on its socket iff its id is not 0, and none sent to it carries the graph |
| RoomGroups.NewSessionGetsGraph | src/relay_room.rs:358-381 | the first request of a new session is answered with the current graph |
| RoomEdges.ReachableSourcesAreAnchored | src/route_state.rs:312-317 | in every reachable room whoever has an entry of edges is listed or on record as removed, apart from id 0 (`ZeroEscapesCleanup` shows why) |
| RoomEdges.SourcesAreAnchoredInOneIsolate | src/route_state.rs:312-317 | without the loss of the isolate there is no exception |
| RoomEdges.CleanupReclaimsEntries | src/route_state.rs:514-541 | once all removals are old enough, cleanup leaves no entry of and no edge to an absent peer |
| RoomCoherence.SessionsDescribeWhatIsHeld | src/relay_room.rs:220-573 | over every run of a room a session names its peer's session, counts what was sent and lost, has recorded exactly the versions of the infos the peer holds, and the peer holds the last graph built for it unless it is behind; without losses all caches describe it (for id 0, which broadcasts pass over, infos are claimed without losses only) |
| RoomCurrency.GraphsSentAreCurrent | src/relay_room.rs:545-573 | whoever is sent an update in a step, with or without the graph in it, then holds the group's current graph, unless behind |
| RoomCurrency.GraphsSentAreCurrentExactly | src/relay_room.rs:545-573 | it holds the current graph if and only if it is not behind, for any real id, no client using the relay's |
| RoomCurrency.BehindMeansOlder | src/relay_room.rs:282-294 | a peer is behind iff it does not hold the last graph built for it; what it then holds shows an older version, or nothing |
| RoomCurrency.NextChangeBringsGraph | src/relay_room.rs:545-573 | once a peer is sent an update when the graph is not the last one built for it, other than by its own handshake, it is up to date |
| RoomCurrency.ArrivalSuppressesExactly | src/route_state.rs:640-650 | after any run, a session counts the graph of an arrival as sent iff the peer was listed and described and its session counted the graph of before |
| RoomCurrency.HandshakeLosesGraphExactly | src/relay_room.rs:282-294 | in any reachable room, the discarded update of a handshake carries the graph iff the peer was not listed, not described or not up to date in its session |
| RoomCurrency.HandshakeBringsNoGraph | src/relay_room.rs:282-304 | a handshake leaves the newcomer with the graph it held, and behind iff it was or the discarded update carried one |
| RoomCurrency.SoleSocketGetsAll | src/relay_room.rs:545-573 | while no other socket stands for the peer in its group, all that it is sent in a step arrives on its socket |
| RoomDeliveries.DeliveriesGoWhereDue | src/relay_room.rs:113-573 | each step sends one update to each of exactly these sockets: after an admission those of the group with a real id; after a request its own, and the group's others if something changed; after the last close of a peer the rest of its group; on an alarm those of live groups with a real id |
| RoomDeliveries.DeliveriesAreFull | src/relay_room.rs:545-573 | over every run each update sent is signed with the session of its socket, never as initiator, and has one info for each peer of the group, the relay and the addressee, equal to the one on record when the step is over |
| RoomDeliveries.StepServes | src/relay_room.rs:113-573 | each step changes the groups, then serves its sockets one after the other |
| RoomAlarms.AlarmVisitsLiveGroups | src/relay_room.rs:117-143 | an alarm visits exactly the groups that have a socket heard from in the last 120 seconds, each once |
| RoomAlarms.AlarmIsExact | src/relay_room.rs:149-158 | an alarm drops from every live group exactly the edges with an end removed more than 600 seconds ago, and their records; all other groups keep theirs |
| RoomAlarms.RemovalsFollowLog | src/relay_room.rs:57-507 | over every run of a room who is on record as removed, since when, is told by closes, admissions, restarts and alarms |
| RoomAlarms.EdgesSurviveByLog | src/relay_room.rs:149-158 | after any run, an alarm keeps an edge iff its group is not live or neither end left it more than 600 seconds ago |
| RoomSockets.LastSeenFollowsLog | src/relay_room.rs:213-217 | over every run a socket's last contact is its opening or the last message on it |
| RoomSockets.SocketsFollowLog | src/relay_room.rs:78-111 | the sockets of a room are those opened and not closed since |
| RoomSockets.SessionsAreKept | src/relay_room.rs:92-100 | a socket keeps the session id it was opened with |
| RoomSockets.RelayNeverInitiates | src/relay_room.rs:318-331 | no attachment ever makes the relay the initiator: the role that a request leaves it is set on a copy |
| RoomSockets.IdentitiesFollowLog | src/relay_room.rs:225-232 | a socket stands for the peer, network and group of the last handshake admitted on it |
| RoomSockets.AnswersAreFiled | src/relay_room.rs:406-418 | an answer is filed under its sender with its session id, the time and the role of the socket |
| SipHash.SipRoundInPlace | src/crypto.rs:15-33 | the fourteen assignments compute the round of the reference |
| SipHash.ReadWordLe | src/crypto.rs:35-40 | eight bytes as a little-endian word, zeros past the end |
| SipHash.AbsorbBlocks | src/crypto.rs:43-60 | the block loop absorbs the full blocks in order |
| SipHash.LastWord | src/crypto.rs:62-66 | the tail loop ors the remaining bytes under the length byte |
| SipHash.PaddedTail | src/crypto.rs:44-66 | the word put together byte by byte is the zero-padded tail with the length byte, read as a word |
| SipHash.LengthByteWraps | src/crypto.rs:44 | the length byte counts modulo 256 |
| SipHash.SipHash13 | src/crypto.rs:43-77 | for every message and key the loops compute the reference hash of the padded message |
| SipHash.LeWordHoldsBytes | src/crypto.rs:35-40 | a little-endian word holds each of its eight bytes |
| SipHash.RoundIsBijection | src/crypto.rs:15-33 | the round has an explicit inverse on both sides |
| SipHash.CompressTellsWords | src/crypto.rs:54-59 | from one state different words lead to different states |
| SipHash.OneBlockChangesState | src/crypto.rs:54-59 | messages that differ in one block lead to different states whatever blocks follow |
| SipHashFamily.HashIsOneThree | src/crypto.rs:43-77 | the reference hash is the member SipHash-1-3 of the family SipHash-c-d |
| SipHashFamily.PaperVector | src/crypto.rs:15-77 | the family, on the same constants, rounds, byte order and padding, gives the test vector of the paper's Appendix A for SipHash-2-4 |
| Digest.SipHashHasher.Write | src/crypto.rs:171-177 | what was written grows by the chunk, empty or not |
| Digest.SipHashHasher.Finish | src/crypto.rs:179-188 | the hash of the concatenation of all writes, however chunked |
| Digest.GenerateDigestFromStr | src/crypto.rs:83-101 | the loop with its growing feed computes the expanded digest of the two strings |
| Digest.DeriveKeys | src/crypto.rs:124-156 | computes the short and the long key; `Digest.TwoShards` and `Digest.FourShards` write them out |
| Digest.TwoShards | src/crypto.rs:127-136 | the two shards of the short key, written out |
| Digest.FourShards | src/crypto.rs:138-151 | the four shards of the long key, written out: tag, numbers, and the key so far |
| Digest.DigestByShard | src/crypto.rs:83-101 | every shard of a digest, read as a big-endian word, is the unkeyed SipHash-1-3 of the seed followed by the digests of all shorter lengths |
| Digest.ShorterDigestIsPrefix | src/crypto.rs:83-101 | a shorter digest of the same strings is a prefix of every longer one |
| Digest.FlattenConcat | src/crypto.rs:179-188 | chunk lists can be cut anywhere |
| Digest.BeBytesHoldTheWord | src/crypto.rs:103-114 | the eight bytes of a hash, read backwards as a little-endian word, give it back |
| PeerCenter.SortKeys | src/peer_center.rs:53-61 | the keys, all of them, ascending by source and then by destination; there is only one such list |
| PeerCenter.InsertRow | src/peer_center.rs:77-87 | all pairs of the report are stored, newer entries replacing older ones, others kept |
| PeerCenter.NestPairs | src/peer_center.rs:116-125 | the nested map holds exactly the pairs with their infos, and no empty inner map, whatever the order |
| PeerCenter.PeerCenter.CalcDigestInternal | src/peer_center.rs:53-61 | the hash of the sorted keys |
| Orders.SortingIsUnique | src/peer_center.rs:53-61 | two ascending lists of one set are the same, so the digest does not depend on the iteration order of the map |
| PeerCenter.PeerCenter.ReportPeers | src/peer_center.rs:66-95 | whole new state of a report; a missing list counts as empty |
| PeerCenter.PeerCenter.GetGlobalPeerMap | src/peer_center.rs:100-134 | an empty reply without a digest iff the asker's digest is the group's and not 0, else the nested map and the digest |
| PeerCenter.PeerCenter.CleanOutdated | src/peer_center.rs:137-146 | old reports and pairs go in every group, empty groups with them, and digests stay; nothing in the program calls it |
| PeerCenter.PeerCenter.CalcDigest | src/peer_center.rs:149-151 | the one digest, unless it is 0, with which asking for the map now is answered "not modified" |
| PeerCenterRuns.PairsFollowTheLog | src/peer_center.rs:66-146 | over any run an entry is what the last report naming its pair said, present just as long as no cleanup found it too old |
| PeerCenterRuns.ReportTimesFollowTheLog | src/peer_center.rs:66-146 | over any run a report time is that of the peer's last report, present just as long as no cleanup found it too old |
| PeerCenterRuns.DigestStaysCurrent | src/peer_center.rs:89-146 | each step keeps the digest that of the stored keys if and only if, for a cleanup, before it no pair was too old or else every pair and report was |
| PeerCenterRuns.DigestsFollowThePairs | src/peer_center.rs:66-134 | over runs without such cleanups the digest is a function of the key set |
| PeerCenterRuns.NotModifiedIsExact | src/peer_center.rs:107-112 | asking with an earlier digest is answered "not modified" iff the stored set of pairs is the earlier one, under a collision-free hash |
| PeerCenterRuns.OnlyNewPairsAreSeen | src/peer_center.rs:53-89 | a report changes the digest iff it names a pair not stored |
| PeerCenterRuns.PartialCleanupGoesUnseen | src/peer_center.rs:137-146 | a run of two reports and a cleanup that expires the first only: the old digest is answered "not modified" though a pair is gone |
| PeerCenterRuns.ReplyFlattensBack | src/peer_center.rs:114-125 | a nested reply flattens back to exactly the infos of the stored pairs |
| PeerCenterRuns.NestingIsUnique | src/peer_center.rs:114-125 | the nested reply is determined by the pairs |

## Left out

- Protobuf encoding and decoding: messages are values, and an undecodable one is `None`.
- AES-GCM, Web Crypto and gzip: foreign code; the relay's own packets go out unencrypted.
- PeerManager.PeerManager.BuildRouteUpdate: the RPC envelope around the request, with its random transaction id and the domain name.
- RelayRoom.RelayRoom.OnRpcRequest: route requests only; those to the peer center touch no group and are modelled in `PeerCenter`.
- Packet headers, text and short messages, ping and forwarding of opaque packets: a handler that does not touch groups appears as `OnOtherPacket`.
- RPC service dispatch: which service and method a packet names is taken as decided.
- Contents.ForeignNetworkIsCurrent: the constant fields of the entry (network name, key id, zero digest) are not part of the model.
- `set_my_info_field`: it would only add an easy member.
- Info fields that the relay stores and forwards without reading: together they are `profile`.
- Wrap-around of `u32` versions and counters.
- Several rooms sharing one isolate's state.
- Alarm scheduling, eventual delivery and other liveness: they depend on the platform. An alarm closes a dead socket by a later closing step.
- Failing sends: the program logs one in a broadcast and gives up the rest of the handler elsewhere.
- RoomModel.Deliveries: lists route updates only; replies to handshakes and requests are results of the methods of `RelayRoom`.
- SipHash.AsWord: the cast of the length to 64 bits is counting in 64-bit words; only for the byte that the hash keeps of it is the wrap-around stated (`SipHash.LengthByteWraps`).
