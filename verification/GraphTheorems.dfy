/** What the reported graph means, and what echoes, cleanups and reconnections do to it. */
module GraphTheorems {
  import opened Collections
  import opened Wire
  import opened BitMatrix
  import opened RouteModel
  import opened Invariants
  import opened Fingerprint

  // ---- the bitmap is exact ----

  /** Cell by cell: the diagonal, the relay's row and column, and the edges either end reports; nothing else. */
  lemma BitmapIsExact(g: Group, t: PeerId)
    ensures var ids, bytes := RelevantPeers(g, t), BitmapFor(g, t).bytes;
            && |bytes| == (|ids| * |ids| + 7) / 8
            && (forall r: nat, c: nat | r < |ids| && c < |ids| ::
                  && (CellAt(bytes, |ids|, r, c) <==> Linked(g.connections, ids[r], ids[c]))
                  && CellAt(bytes, |ids|, r, c) == CellAt(bytes, |ids|, c, r))
            && (forall k: nat | |ids| * |ids| <= k :: !BitAt(bytes, k))
  {
    var ids := RelevantPeers(g, t);
    assert MY_PEER_ID in ids;
    MatrixBytesEncode(MatrixBytes(ids, g.connections), ids, g.connections);
  }

  /** Decoding a row of a bitmap gives back exactly the peers linked to its owner. */
  lemma RowDecodesToNeighbours(g: Group, t: PeerId, row: nat)
    requires row < |RelevantPeers(g, t)|
    ensures DecodedRow(BitmapFor(g, t), row) ==
            set q | q in RelevantSet(g, t) && Linked(g.connections, RelevantPeers(g, t)[row], q)
  {
    var ids, b := RelevantPeers(g, t), BitmapFor(g, t);
    BitmapIsExact(g, t);
    var decoded := DecodedRow(b, row);
    forall q ensures q in decoded <==> q in RelevantSet(g, t) && Linked(g.connections, ids[row], q) {
      if q in decoded {
        var i :| 0 <= i < |ids| && CellAt(b.bytes, |ids|, row, i) && ids[i] == q;
        assert ids[i] in ids;
      }
      if q in RelevantSet(g, t) && Linked(g.connections, ids[row], q) {
        assert q in ids;
        var i :| 0 <= i < |ids| && ids[i] == q;
        assert CellAt(b.bytes, |ids|, row, i) && b.peerIds[i].peerId == q;
      }
    }
  }

  // ---- echoes ----

  function Neighbours(g: Group, p: PeerId): set<PeerId> {
    set q | q in g.peers && q != p && q != MY_PEER_ID && Linked(g.connections, p, q)
  }

  lemma EchoClaimsNeighbours(g: Group, t: PeerId, p: PeerId)
    requires p in g.peers
    ensures AcceptedConnections(g, p, Bitmap(BitmapFor(g, t))) == Neighbours(g, p)
  {
    hide MatrixBytes, BitAt, DecodedRow, Linked, RelevantPeers, BitmapFor;
    var row := PositionInBitmap(g, t, p);
    RowDecodesToNeighbours(g, t, row);
    assert ClaimedConnections(p, Bitmap(BitmapFor(g, t))) == DecodedRow(BitmapFor(g, t), row);
  }

  /** Every relevant peer has its place in the bitmap. */
  lemma PositionInBitmap(g: Group, t: PeerId, p: PeerId) returns (row: nat)
    requires p in g.peers
    ensures row < |RelevantPeers(g, t)| && RelevantPeers(g, t)[row] == p
    ensures PositionOf(BitmapFor(g, t).peerIds, p) == Some(row)
  {
    var ids, b := RelevantPeers(g, t), BitmapFor(g, t);
    assert p in ids;
    assert forall i | 0 <= i < |ids| :: b.peerIds[i].peerId == ids[i];
    row := PositionOf(b.peerIds, p).value;
  }

  /** The same report twice: the second one changes nothing and bumps nothing. */
  lemma ReportIsIdempotent(g: Group, p: PeerId, info: ConnInfo)
    ensures var g' := ConnsUpdated(g, p, info);
            !ConnsChange(g', p, info) && ConnsUpdated(g', p, info) == g'
  {
    var g' := ConnsUpdated(g, p, info);
    assert ConnectionsUpdated(g', p, info) == g'.connections;
  }

  /** The same edges, however they are stored. */
  ghost predicate SameEdges(conns: map<PeerId, set<PeerId>>, conns': map<PeerId, set<PeerId>>) {
    forall a, b :: Reports(conns, a, b) == Reports(conns', a, b)
  }

  /** A peer that claims nothing loses an entry that was empty already. */
  predicate DropsEmptyEntry(g: Group, p: PeerId, info: ConnInfo) {
    !info.NoConnInfo? && p in g.connections && g.connections[p] == {} && AcceptedConnections(g, p, info) == {}
  }

  /** A report counts as a change exactly when it changes an edge or drops an empty entry. */
  lemma ReportChangesExactly(g: Group, p: PeerId, info: ConnInfo)
    ensures ConnsChange(g, p, info) <==>
            !SameEdges(g.connections, ConnectionsUpdated(g, p, info)) || DropsEmptyEntry(g, p, info)
  {
    var conns, conns' := g.connections, ConnectionsUpdated(g, p, info);
    if SameEdges(conns, conns') && !info.NoConnInfo? {
      SameEdgesSameEntry(conns, conns', p);
      assert conns' == conns || DropsEmptyEntry(g, p, info);
    }
  }

  function Entry(conns: map<PeerId, set<PeerId>>, p: PeerId): set<PeerId> {
    if p in conns then conns[p] else {}
  }

  lemma SameEdgesSameEntry(conns: map<PeerId, set<PeerId>>, conns': map<PeerId, set<PeerId>>, p: PeerId)
    requires SameEdges(conns, conns')
    ensures Entry(conns, p) == Entry(conns', p)
  {
    forall q ensures q in Entry(conns, p) <==> q in Entry(conns', p) {
      assert Reports(conns, p, q) == Reports(conns', p, q);
    }
  }

  ghost predicate NoEmptyEntries(g: Group) {
    forall p | p in g.connections :: g.connections[p] != {}
  }

  /** Only cleanups leave empty entries. */
  lemma {:induction false} OnlyCleanupsLeaveEmptyEntries(routeId: nat, es: seq<Event>)
    requires forall e | e in es :: !e.Cleanup?
    ensures NoEmptyEntries(Run(NewGroup(routeId), es))
  {
    if es != [] {
      OnlyCleanupsLeaveEmptyEntries(routeId, es[..|es| - 1]);
      StepLeavesNoEmptyEntry(Run(NewGroup(routeId), es[..|es| - 1]), es[|es| - 1]);
    }
  }

  lemma StepLeavesNoEmptyEntry(g: Group, e: Event)
    requires NoEmptyEntries(g) && !e.Cleanup?
    ensures NoEmptyEntries(Apply(g, e))
  {
    if KeepsTopology(e) {
      StepKeepsConnections(g, e);
    }
  }

  /**
   * What a cleanup leaves behind: peer a reported b, which left for good; then a reports that it has no
   * connections. No edge changes, but the report counts as a change and every version is raised.
   */
  lemma EmptyEntryCountsAsChange(a: PeerId, b: PeerId, left: Millis, threshold: Millis, now: Millis)
    requires a != b && MY_PEER_ID !in {a, b} && now - left > threshold
    ensures var g := Run(NewGroup(0), EmptyEntryRun(a, b, left, threshold, now));
            var g' := ConnsUpdated(g, a, PeerList([]));
            && a in g.peers && ConnsChange(g, a, PeerList([])) && SameEdges(g.connections, g'.connections)
            && VersionIn(g'.connVersions, MY_PEER_ID) > VersionIn(g.connVersions, MY_PEER_ID)
  {
    hide PeerAdded, ConnsUpdated, PeerRemoved, CleanedUp, ConnsChange, DropsEmptyEntry, SameEdges, VersionIn;
    var es, g0 := EmptyEntryRun(a, b, left, threshold, now), NewGroup(0);
    UnrollRun(g0, es, 0);
    UnrollRun(g0, es, 1);
    UnrollRun(g0, es, 2);
    UnrollRun(g0, es, 3);
    UnrollRun(g0, es, 4);
    assert es[..5] == es;
    EmptyEntryAppears(a, b, left, threshold, now);
    ReportChangesExactly(Run(g0, es), a, PeerList([]));
    DroppingKeepsEdges(Run(g0, es), a, PeerList([]));
  }

  function EmptyEntryRun(a: PeerId, b: PeerId, left: Millis, threshold: Millis, now: Millis): seq<Event> {
    [AddPeer(a), AddPeer(b), UpdateConns(a, PeerList([ConnEntry(Some(a), [b])])), RemovePeer(b, left),
     Cleanup(threshold, now)]
  }

  lemma UnrollRun(g: Group, es: seq<Event>, i: nat)
    requires i < |es|
    ensures Run(g, es[..i + 1]) == Apply(Run(g, es[..i]), es[i])
    ensures Run(g, es[..0]) == g
  {
    assert es[..i + 1][..i] == es[..i];
  }

  lemma EmptyEntryAppears(a: PeerId, b: PeerId, left: Millis, threshold: Millis, now: Millis)
    requires a != b && MY_PEER_ID !in {a, b} && now - left > threshold
    ensures var g := PeerAdded(PeerAdded(NewGroup(0), a), b);
            var h := PeerRemoved(ConnsUpdated(g, a, PeerList([ConnEntry(Some(a), [b])])), b, left);
            var h' := CleanedUp(h, threshold, now);
            a in h'.peers && DropsEmptyEntry(h', a, PeerList([]))
  {
    var g := PeerAdded(PeerAdded(NewGroup(0), a), b);
    assert g.peers == {a, b} && g.removedAt == map[] && g.connections == map[];
    EdgeOfOne(g, a, b);
    var reported := ConnsUpdated(g, a, PeerList([ConnEntry(Some(a), [b])]));
    EdgeOfOneExpires(reported, a, b, left, threshold, now);
  }

  lemma EdgeOfOne(g: Group, a: PeerId, b: PeerId)
    requires a != b && MY_PEER_ID !in {a, b} && b in g.peers
    ensures var h := ConnsUpdated(g, a, PeerList([ConnEntry(Some(a), [b])]));
            h.peers == g.peers && h.removedAt == g.removedAt && a in h.connections && h.connections[a] == {b}
  {
    var info := PeerList([ConnEntry(Some(a), [b])]);
    assert ListedFor(info.entries, a) == [b];
    assert AcceptedConnections(g, a, info) == {b};
  }

  lemma EdgeOfOneExpires(g: Group, a: PeerId, b: PeerId, left: Millis, threshold: Millis, now: Millis)
    requires a != b && now - left > threshold && a in g.peers && a !in g.removedAt
    requires a in g.connections && g.connections[a] == {b}
    ensures var h := CleanedUp(PeerRemoved(g, b, left), threshold, now);
            a in h.peers && DropsEmptyEntry(h, a, PeerList([]))
  {
    var h := CleanedUp(PeerRemoved(g, b, left), threshold, now);
    assert h.connections[a] == {};
    assert AcceptedConnections(h, a, PeerList([])) == {};
  }

  lemma DroppingKeepsEdges(g: Group, p: PeerId, info: ConnInfo)
    requires DropsEmptyEntry(g, p, info)
    ensures SameEdges(g.connections, ConnsUpdated(g, p, info).connections)
    ensures VersionIn(ConnsUpdated(g, p, info).connVersions, MY_PEER_ID) > VersionIn(g.connVersions, MY_PEER_ID)
  {
    BumpRaisesAll(g.(connections := ConnectionsUpdated(g, p, info)));
  }

  lemma OneReportChanges(g: Group, p: PeerId, info: ConnInfo, a: PeerId, b: PeerId)
    requires !info.NoConnInfo?
    ensures Reports(ConnsUpdated(g, p, info).connections, a, b) <==>
            if a == p then b in AcceptedConnections(g, p, info) else Reports(g.connections, a, b)
  {
  }

  lemma EchoKeepsLink(g: Group, t: PeerId, p: PeerId, a: PeerId, b: PeerId)
    requires p in g.peers && a in g.peers && b in g.peers
    ensures Linked(ConnsUpdated(g, p, Bitmap(BitmapFor(g, t))).connections, a, b) == Linked(g.connections, a, b)
  {
    var echo := Bitmap(BitmapFor(g, t));
    EchoClaimsNeighbours(g, t, p);
    OneReportChanges(g, p, echo, a, b);
    OneReportChanges(g, p, echo, b, a);
  }

  /** A connected peer that echoes the graph it was sent adds and removes no edge among connected peers. */
  lemma EchoKeepsGraph(g: Group, t: PeerId, p: PeerId)
    requires p in g.peers && t in g.peers
    ensures var g' := ConnsUpdated(g, p, Bitmap(BitmapFor(g, t)));
            && g'.peers == g.peers
            && (forall a, b | a in g.peers && b in g.peers ::
                Linked(g'.connections, a, b) == Linked(g.connections, a, b))
            && BitmapFor(g', t).bytes == BitmapFor(g, t).bytes
  {
    var g', ids := ConnsUpdated(g, p, Bitmap(BitmapFor(g, t))), RelevantPeers(g, t);
    forall a, b | a in g.peers && b in g.peers ensures Linked(g'.connections, a, b) == Linked(g.connections, a, b) {
      EchoKeepsLink(g, t, p, a, b);
    }
    assert forall a | a in ids :: a in g.peers || a == MY_PEER_ID;
    SameEncoding(ids, g.connections, g'.connections);
  }

  // ---- cleanup ----

  /** Cleanup deletes the edges that touch a peer away for longer than the threshold, and no others. */
  lemma CleanupIsExact(g: Group, threshold: Millis, now: Millis)
    ensures var g' := CleanedUp(g, threshold, now);
            var stale := StalePeers(g, threshold, now);
            && (forall p, q ::
                  Reports(g'.connections, p, q) <==> Reports(g.connections, p, q) && p !in stale && q !in stale)
            && (forall p :: p in g'.removedAt <==> p in g.removedAt && now <= g.removedAt[p] + threshold)
  {
  }

  /** For a connected target the next update, and all that building it records, are as without the cleanup. */
  lemma CleanupIsInvisible(g: Group, threshold: Millis, now: Millis, t: PeerId, sid: SessionId, weAreInitiator: bool,
                           force: bool, later: Millis)
    requires Inv(g) && t in g.peers
    ensures var g' := CleanedUp(g, threshold, now);
            && Update(g', t, sid, weAreInitiator, force, later) == Update(g, t, sid, weAreInitiator, force, later)
            && Built(g', t, sid, force, later).sessions == Built(g, t, sid, force, later).sessions
            && Built(g', t, sid, force, later).peerInfos == Built(g, t, sid, force, later).peerInfos
  {
    CleanupKeepsReport(g, threshold, now);
    SameInputsSameBuild(g, CleanedUp(g, threshold, now), t, sid, weAreInitiator, force, later);
    SameInputsSameRecord(g, CleanedUp(g, threshold, now), t, sid, force, later);
  }

  /** A build reads the report, the infos and the target's session, and nothing else. */
  lemma SameInputsSameBuild(g: Group, h: Group, t: PeerId, sid: SessionId, weAreInitiator: bool, force: bool,
                            now: Millis)
    requires SameReport(g, h) && t in g.peers
    requires g.peerInfos == h.peerInfos && g.myInfo == h.myInfo && g.sessions == h.sessions
    ensures Update(g, t, sid, weAreInitiator, force, now) == Update(h, t, sid, weAreInitiator, force, now)
  {
    hide BitmapFor, DueInfos, Carried, ConnInfoFor, Foreign, Linked, VersionIn, SessionOf, RelevantPeers;
    SameReportSameBitmap(g, h, t);
    SameRelevantPeers(g, h, t);
  }

  lemma SameRelevantPeers(g: Group, h: Group, t: PeerId)
    ensures g.peers == h.peers ==> RelevantPeers(g, t) == RelevantPeers(h, t)
    ensures g.sessions == h.sessions ==> SessionOf(g, t) == SessionOf(h, t)
  {
    assert g.peers == h.peers ==> RelevantSet(g, t) == RelevantSet(h, t);
  }

  lemma SameInputsSameRecord(g: Group, h: Group, t: PeerId, sid: SessionId, force: bool, now: Millis)
    requires SameReport(g, h) && t in g.peers
    requires g.peerInfos == h.peerInfos && g.myInfo == h.myInfo && g.sessions == h.sessions
    ensures Built(g, t, sid, force, now).sessions == Built(h, t, sid, force, now).sessions
    ensures Built(g, t, sid, force, now).peerInfos == Built(h, t, sid, force, now).peerInfos
  {
    SameReportSameBitmap(g, h, t);
    assert StoreOf(g) == StoreOf(h) && RelevantSet(g, t) == RelevantSet(h, t);
    BuiltRest(g, t, sid, force, now);
    BuiltRest(h, t, sid, force, now);
    BuiltSessions(g, t, sid, force, now);
    BuiltSessions(h, t, sid, force, now);
  }

  /** Once every removal is older than the threshold, no edge to an absent peer is left. */
  lemma CleanupReclaims(g: Group, threshold: Millis, now: Millis)
    requires Inv(g) && forall p | p in g.removedAt :: now - g.removedAt[p] > threshold
    ensures var g' := CleanedUp(g, threshold, now);
            g'.removedAt == map[] && forall p, q | Reports(g'.connections, p, q) :: q in g.peers
  {
    var g' := CleanedUp(g, threshold, now);
    assert g'.removedAt.Keys == {};
  }

  // ---- reconnections ----

  predicate KeepsTopology(e: Event) {
    !e.UpdateConns? && !e.Cleanup?
  }

  lemma StepKeepsConnections(g: Group, e: Event)
    requires KeepsTopology(e)
    ensures Apply(g, e).connections == g.connections
  {
  }

  lemma {:induction false} RunKeepsConnections(g: Group, es: seq<Event>)
    requires forall e | e in es :: KeepsTopology(e)
    ensures Run(g, es).connections == g.connections
  {
    if es != [] {
      RunKeepsConnections(g, es[..|es| - 1]);
      StepKeepsConnections(Run(g, es[..|es| - 1]), es[|es| - 1]);
    }
  }

  /** Whoever comes and goes meanwhile, the matrix shown is the first one's edges between the peers now listed. */
  lemma TopologySurvivesFlaps(g: Group, es: seq<Event>, t: PeerId)
    requires forall e | e in es :: KeepsTopology(e)
    ensures var h := Run(g, es);
            Encodes(BitmapFor(h, t).bytes, RelevantPeers(h, t), g.connections)
  {
    RunKeepsConnections(g, es);
    var h := Run(g, es);
    MatrixBytesEncode(BitmapFor(h, t).bytes, RelevantPeers(h, t), h.connections);
  }

  /** A connected peer that drops out and comes back finds the same ids and the same bits, under a new version. */
  lemma FlapRestoresGraph(g: Group, p: PeerId, now: Millis, t: PeerId)
    requires p in g.peers && p != MY_PEER_ID && t in g.peers
    ensures var h := PeerAdded(PeerRemoved(g, p, now), p);
            && h.peers == g.peers
            && RelevantPeers(h, t) == RelevantPeers(g, t)
            && BitmapFor(h, t).bytes == BitmapFor(g, t).bytes
            && ServerVersion(h) > ServerVersion(g)
  {
    var away := g.(peers := g.peers - {p}, peerInfos := g.peerInfos - {p}, sessions := g.sessions - {p},
                   connVersions := g.connVersions - {p}, removedAt := g.removedAt[p := now]);
    BumpRaisesAll(away);
    var back := Bumped(away);
    BumpRaisesAll(back.(peers := back.peers + {p}, removedAt := back.removedAt - {p}));
    assert g.peers - {p} + {p} == g.peers;
  }

  // ---- which infos an update carries ----

  predicate ListsInfo(items: seq<PeerInfo>, p: PeerId) {
    exists i | 0 <= i < |items| :: items[i].peerId == p
  }

  /** The infos carried are those due, each once, in ascending order of id, each the relay's current one. */
  lemma {:induction false} InfosCarriedAreThoseDue(store: Store, sent: map<PeerId, Version>, full: bool,
                                                   ids: seq<PeerId>, now: Millis)
    requires StoreKeyed(store) && Ascending(ids)
    ensures var items := DueInfos(store, sent, full, ids, now);
            && (forall i, j | 0 <= i < j < |items| :: items[i].peerId < items[j].peerId)
            && (forall i | 0 <= i < |items| :: items[i] == InfoFor(store, items[i].peerId, now))
            && (forall p :: ListsInfo(items, p) <==> p in ids && IsDue(store, sent, full, p, now))
  {
    if ids != [] {
      var prefix, p := ids[..|ids| - 1], ids[|ids| - 1];
      var before, items := DueInfos(store, sent, full, prefix, now), DueInfos(store, sent, full, ids, now);
      InfosCarriedAreThoseDue(store, sent, full, prefix, now);
      SplitLast(ids);
      forall i | 0 <= i < |before| ensures before[i].peerId < p {
        assert ListsInfo(before, before[i].peerId);
      }
      forall q ensures ListsInfo(items, q) <==> q in ids && IsDue(store, sent, full, q, now) {
        ListsOneMore(before, items, q);
      }
    }
  }

  lemma ListsOneMore(before: seq<PeerInfo>, items: seq<PeerInfo>, q: PeerId)
    requires before == items || (items != [] && before == items[..|items| - 1])
    ensures ListsInfo(items, q) <==> ListsInfo(before, q) || (before != items && items[|items| - 1].peerId == q)
  {
  }

  /** A build that sends everything carries one info for each of the connected peers, the relay and the target. */
  lemma ForcedUpdateIsComplete(g: Group, t: PeerId, sid: SessionId, weAreInitiator: bool, force: bool, now: Millis)
    requires InfosKeyed(g) && SendsAll(SessionOf(g, t), force)
    ensures var items := ItemsOf(Update(g, t, sid, weAreInitiator, force, now));
            && (forall i, j | 0 <= i < j < |items| :: items[i].peerId < items[j].peerId)
            && (forall i | 0 <= i < |items| :: items[i] == InfoFor(StoreOf(g), items[i].peerId, now))
            && (forall p :: ListsInfo(items, p) <==> p in RelevantSet(g, t))
  {
    var s := SessionOf(g, t);
    InfosCarriedAreThoseDue(StoreOf(g), s.peerInfoVersions, true, RelevantPeers(g, t), now);
  }

  lemma NotDueAfterBuild(g: Group, t: PeerId, sid: SessionId, force: bool, now: Millis, p: PeerId, later: Millis)
    requires p in RelevantSet(g, t)
    ensures var g' := Built(g, t, sid, force, now);
            !IsDue(StoreOf(g'), SessionOf(g', t).peerInfoVersions, false, p, later)
  {
    hide Built, BitmapFor, BitmapOver, RelevantPeers;
    BuiltSession(g, t, sid, force, now);
    BuiltRest(g, t, sid, force, now);
    StubsStay(StoreOf(g), RelevantSet(g, t), p, now, later);
  }

  lemma StubsStay(store: Store, ps: set<PeerId>, p: PeerId, now: Millis, later: Millis)
    requires p in ps
    ensures InfoFor(Store(WithStubs(store, ps, now), store.mine), p, later) == InfoFor(store, p, now)
  {
  }

  /** In a session already greeted, a delta build right after any build carries no infos and no graph. */
  lemma RepeatedDeltaIsEmpty(g: Group, t: PeerId, sid: SessionId, force: bool, now: Millis,
                             sid': SessionId, weAreInitiator: bool, later: Millis)
    requires SessionOf(g, t).dstSessionId.Some?
    ensures var u := Update(Built(g, t, sid, force, now), t, sid', weAreInitiator, false, later);
            u.peerInfos == None && u.connInfo == NoConnInfo
  {
    var g' := Built(g, t, sid, force, now);
    BuiltSession(g, t, sid, force, now);
    assert BitmapFor(g', t) == BitmapFor(g, t);
    forall p | p in RelevantPeers(g', t)
      ensures !IsDue(StoreOf(g'), SessionOf(g', t).peerInfoVersions, false, p, later) {
      NotDueAfterBuild(g, t, sid, force, now, p, later);
    }
    NothingDue(StoreOf(g'), SessionOf(g', t).peerInfoVersions, RelevantPeers(g', t), later);
  }

  lemma {:induction false} NothingDue(store: Store, sent: map<PeerId, Version>, ids: seq<PeerId>, now: Millis)
    requires forall p | p in ids :: !IsDue(store, sent, false, p, now)
    ensures DueInfos(store, sent, false, ids, now) == []
  {
    if ids != [] {
      NothingDue(store, sent, ids[..|ids| - 1], now);
    }
  }

  // ---- connection versions ----

  /** Only its own removal lowers a peer's connection version. */
  lemma VersionsOnlyRise(g: Group, e: Event, p: PeerId)
    requires e.RemovePeer? ==> e.peer != p
    ensures VersionIn(Apply(g, e).connVersions, p) >= VersionIn(g.connVersions, p)
  {
    hide BumpedIf, Built, VersionIn;
    match e {
      case AddPeer(q) => BumpIfRaises(g.(peers := g.peers + {q}, removedAt := g.removedAt - {q}), q !in g.peers, p);
      case RemovePeer(q, now) => RemovalSparesOthers(g, q, now, p);
      case UpdateInfo(info) =>
        BumpIfRaises(g.(peerInfos := g.peerInfos[info.peerId := info]), info.peerId !in g.peerInfos, p);
      case UpdateConns(q, info) => BumpIfRaises(g.(connections := ConnectionsUpdated(g, q, info)),
                                                ConnsChange(g, q, info), p);
      case Build(t, sid, weAreInitiator, force, now) => BuiltRest(g, t, sid, force, now);
      case HandleSync(q, req, now) =>
        BumpIfRaises(g.(sessions := g.sessions[q := SessionAfterSync(SessionOf(g, q), req, now)],
                        peerInfos := Overwritten(g, q, ItemsOf(req), now)), BringsUnknown(g, q, ItemsOf(req)), p);
      case _ =>
    }
  }

  lemma BumpIfRaises(g: Group, condition: bool, p: PeerId)
    ensures var v, w := VersionIn(g.connVersions, p), VersionIn(BumpedIf(g, condition).connVersions, p);
            w >= v && (condition && p in g.peers ==> w > v)
    ensures !condition ==> BumpedIf(g, condition) == g
    ensures BumpedIf(g, condition).peers == g.peers
  {
    BumpRaisesAll(g);
  }

  lemma RemovalSparesOthers(g: Group, q: PeerId, now: Millis, p: PeerId)
    requires p != q
    ensures var v, w := VersionIn(g.connVersions, p), VersionIn(PeerRemoved(g, q, now).connVersions, p);
            w >= v && (q in g.peers && p in g.peers ==> w > v)
  {
    BumpRaisesAll(g.(peers := g.peers - {q}, peerInfos := g.peerInfos - {q}, sessions := g.sessions - {q},
                     connVersions := g.connVersions - {q}, removedAt := g.removedAt[q := now]));
  }

  /** A step that raises the relay's version raises that of every peer connected before and after it. */
  lemma BumpReachesEveryone(g: Group, e: Event, p: PeerId)
    requires SparesServerId(e) && ServerVersion(Apply(g, e)) != ServerVersion(g)
    requires p in g.peers && p in Apply(g, e).peers
    ensures VersionIn(Apply(g, e).connVersions, p) > VersionIn(g.connVersions, p)
  {
    hide BumpedIf, Built, VersionIn;
    match e {
      case AddPeer(q) => BumpIfRaises(g.(peers := g.peers + {q}, removedAt := g.removedAt - {q}), q !in g.peers, p);
      case RemovePeer(q, now) => RemovalReachesOthers(g, q, now, p);
      case UpdateInfo(info) =>
        BumpIfRaises(g.(peerInfos := g.peerInfos[info.peerId := info]), info.peerId !in g.peerInfos, p);
      case UpdateConns(q, info) => BumpIfRaises(g.(connections := ConnectionsUpdated(g, q, info)),
                                                ConnsChange(g, q, info), p);
      case Build(t, sid, weAreInitiator, force, now) => BuiltRest(g, t, sid, force, now);
      case HandleSync(q, req, now) =>
        BumpIfRaises(g.(sessions := g.sessions[q := SessionAfterSync(SessionOf(g, q), req, now)],
                        peerInfos := Overwritten(g, q, ItemsOf(req), now)), BringsUnknown(g, q, ItemsOf(req)), p);
      case _ =>
    }
  }

  lemma RemovalReachesOthers(g: Group, q: PeerId, now: Millis, p: PeerId)
    requires q != MY_PEER_ID && ServerVersion(PeerRemoved(g, q, now)) != ServerVersion(g)
    requires p in g.peers && p in PeerRemoved(g, q, now).peers
    ensures VersionIn(PeerRemoved(g, q, now).connVersions, p) > VersionIn(g.connVersions, p)
  {
    assert q in g.peers && p != q;
    RemovalSparesOthers(g, q, now, p);
  }
}
