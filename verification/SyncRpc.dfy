/**
 * The handling of one SyncRouteInfo request: greeting the session, merging the infos, storing the
 * connections, then taking the infos in a second time; and what all of it amounts to.
 */
module SyncRpc {
  import opened Collections
  import opened Wire
  import opened RouteModel
  import opened GraphTheorems
  import opened InfoMerge

  function Greeting(g: Group, p: PeerId, req: SyncRequest, now: Millis): Group {
    Acked(g, p, req.mySessionId, !req.isInitiator, now)
  }

  function InfosTaken(g: Group, p: PeerId, req: SyncRequest, now: Millis): Group {
    Merged(Greeting(g, p, req, now), ItemsOf(req))
  }

  function ConnsTaken(g: Group, p: PeerId, req: SyncRequest, now: Millis): Group {
    ConnsUpdated(InfosTaken(g, p, req, now), p, req.connInfo)
  }

  /** The group after the request. */
  function Synced(g: Group, p: PeerId, req: SyncRequest, now: Millis): Group {
    SyncHandled(ConnsTaken(g, p, req, now), p, req, now)
  }

  /** Whether the others are told. */
  predicate Broadcasts(g: Group, p: PeerId, req: SyncRequest, now: Millis) {
    SaysNews(Greeting(g, p, req, now), ItemsOf(req)) || ConnsChange(InfosTaken(g, p, req, now), p, req.connInfo)
  }

  // ---- as a run ----

  function MergeEvents(items: seq<PeerInfo>): seq<Event> {
    if items == [] then [] else MergeEvents(items[..|items| - 1]) + [UpdateInfo(items[|items| - 1])]
  }

  function SyncEvents(p: PeerId, req: SyncRequest, now: Millis): seq<Event> {
    [Ack(p, req.mySessionId, !req.isInitiator, now)] + MergeEvents(ItemsOf(req)) +
    [UpdateConns(p, req.connInfo)] + [HandleSync(p, req, now)]
  }

  lemma {:induction false} MergeIsRun(g: Group, items: seq<PeerInfo>)
    ensures Run(g, MergeEvents(items)) == Merged(g, items)
  {
    if items != [] {
      MergeIsRun(g, items[..|items| - 1]);
      RunAppend(g, MergeEvents(items[..|items| - 1]), UpdateInfo(items[|items| - 1]));
    }
  }

  /** Handling a request is a run of single operations, so all that holds of runs holds across it. */
  lemma SyncIsRun(g: Group, p: PeerId, req: SyncRequest, now: Millis)
    ensures Run(g, SyncEvents(p, req, now)) == Synced(g, p, req, now)
  {
    assert Run(g, []) == g;
    hide Run, Merged, MergeEvents, ConnsUpdated, Acked, SyncHandled;
    var ack, merge := [Ack(p, req.mySessionId, !req.isInitiator, now)], MergeEvents(ItemsOf(req));
    RunAppend(g, [], ack[0]);
    assert [] + ack == ack;
    RunConcat(g, ack, merge);
    MergeIsRun(Greeting(g, p, req, now), ItemsOf(req));
    RunAppend(g, ack + merge, UpdateConns(p, req.connInfo));
    RunAppend(g, ack + merge + [UpdateConns(p, req.connInfo)], HandleSync(p, req, now));
  }

  // ---- the outcome ----

  /** The last item of a list about a peer. */
  function LastFor(items: seq<PeerInfo>, q: PeerId): (info: PeerInfo)
    requires ListsInfo(items, q)
    ensures info.peerId == q && info in items
  {
    var last := items[|items| - 1];
    if last.peerId == q then last
    else
      ListsOneMore(items[..|items| - 1], items, q);
      LastFor(items[..|items| - 1], q)
  }

  predicate IsWelcomeId(g: Group, from: PeerId, q: PeerId) {
    q in g.peers || q == from
  }

  lemma {:induction false} LastItemWins(g: Group, from: PeerId, items: seq<PeerInfo>, now: Millis, q: PeerId)
    ensures var infos := Overwritten(g, from, items, now);
            if IsWelcomeId(g, from, q) && ListsInfo(items, q) then
              q in infos && infos[q] == Stamped(LastFor(items, q), now)
            else
              (q in infos <==> q in g.peerInfos) && (q in infos ==> infos[q] == g.peerInfos[q])
  {
    if items != [] {
      LastItemWins(g, from, items[..|items| - 1], now, q);
      ListsOneMore(items[..|items| - 1], items, q);
    }
  }

  lemma NothingUnknown(g: Group, p: PeerId, req: SyncRequest, now: Millis)
    ensures !BringsUnknown(ConnsTaken(g, p, req, now), p, ItemsOf(req))
  {
    var h, items := Greeting(g, p, req, now), ItemsOf(req);
    forall info | info in items ensures info.peerId in Merged(h, items).peerInfos {
      var i :| 0 <= i < |items| && items[i] == info;
      ItemsBoundedByMerge(h, items, i);
    }
  }

  /** The infos after a request: the last item for each connected peer and the sender, the join for everyone else. */
  lemma InfosAfterSync(g: Group, p: PeerId, req: SyncRequest, now: Millis, q: PeerId)
    ensures var infos, items := Synced(g, p, req, now).peerInfos, ItemsOf(req);
            if IsWelcomeId(g, p, q) && ListsInfo(items, q) then
              q in infos && infos[q] == LastFor(items, q).(lastUpdate := Some(now / 1000))
            else
              IsJoin(g.peerInfos, items, infos, q)
  {
    var items := ItemsOf(req);
    var taken := ConnsTaken(g, p, req, now);
    MergeKeepsRest(Greeting(g, p, req, now), items);
    NothingUnknown(g, p, req, now);
    LastItemWins(taken, p, items, now, q);
    MergeIsJoin(Greeting(g, p, req, now), items, q);
  }

  lemma ConnsTakenRest(g: Group, p: PeerId, req: SyncRequest, now: Millis)
    ensures var h := ConnsTaken(g, p, req, now);
            && h.peers == g.peers && h.removedAt == g.removedAt && h.myInfo == g.myInfo
            && h.sessions == Greeting(g, p, req, now).sessions
            && h.connections == ConnectionsUpdated(g, p, req.connInfo)
  {
    hide Merged;
    MergeKeepsRest(Greeting(g, p, req, now), ItemsOf(req));
  }

  lemma GreetedOnce(s: Session, req: SyncRequest, now: Millis)
    ensures SessionAfterSync(Greeted(s, req.mySessionId).(weAreInitiator := !req.isInitiator, lastTouch := now), req,
                             now) ==
            Greeted(s, req.mySessionId).(weAreInitiator := !req.isInitiator, lastTouch := now)
  {
  }

  /**
   * The rest of the group after a request: the session has been greeted once, the second pass over the
   * infos has bumped nothing, and peers, removals and the other sessions are as before.
   */
  lemma RestAfterSync(g: Group, p: PeerId, req: SyncRequest, now: Millis)
    ensures var h := Synced(g, p, req, now);
            && h.connVersions == ConnsTaken(g, p, req, now).connVersions
            && h.sessions == g.sessions[p := Greeted(SessionOf(g, p), req.mySessionId).(
                                               weAreInitiator := !req.isInitiator, lastTouch := now)]
            && h.peers == g.peers && h.removedAt == g.removedAt && h.myInfo == g.myInfo
            && h.connections == ConnectionsUpdated(g, p, req.connInfo)
  {
    var s := Greeted(SessionOf(g, p), req.mySessionId).(weAreInitiator := !req.isInitiator, lastTouch := now);
    ConnsTakenRest(g, p, req, now);
    NothingUnknown(g, p, req, now);
    GreetedOnce(SessionOf(g, p), req, now);
    OverwriteTwice(g.sessions, p, s, s);
  }

  /** In its reply the relay takes the role that the request leaves it, and that its session then records. */
  lemma ReplyTakesOtherRole(g: Group, p: PeerId, req: SyncRequest, now: Millis)
    ensures var reply := SyncReply(g, p, req);
            && reply.isInitiator == SessionOf(Synced(g, p, req, now), p).weAreInitiator
            && reply.isInitiator != req.isInitiator
  {
    RestAfterSync(g, p, req, now);
  }

  /** The others are told exactly when an item was news to the store, an edge changed, or an empty entry was dropped. */
  lemma BroadcastsOnChange(g: Group, p: PeerId, req: SyncRequest, now: Millis)
    ensures Broadcasts(g, p, req, now) <==>
            HasNews(g.peerInfos, ItemsOf(req)) || !SameEdges(g.connections, Synced(g, p, req, now).connections) ||
            DropsEmptyEntry(g, p, req.connInfo)
  {
    BroadcastsOnStoredChange(g, p, req, now);
    RestAfterSync(g, p, req, now);
    ReportChangesExactly(g, p, req.connInfo);
  }

  lemma BroadcastsOnStoredChange(g: Group, p: PeerId, req: SyncRequest, now: Millis)
    ensures Broadcasts(g, p, req, now) <==> HasNews(g.peerInfos, ItemsOf(req)) || ConnsChange(g, p, req.connInfo)
  {
    var greeting := Greeting(g, p, req, now);
    MergeKeepsRest(greeting, ItemsOf(req));
    NewsMeansNewToStore(greeting, ItemsOf(req));
    RestAfterSync(g, p, req, now);
  }

  /**
   * A request takes the stored info of a peer back to an older version exactly when that peer is
   * connected or the sender and the last item about it is older than what is stored.
   */
  lemma InfoGoesBackExactly(g: Group, p: PeerId, req: SyncRequest, now: Millis, q: PeerId)
    requires q in g.peerInfos
    ensures var infos, items := Synced(g, p, req, now).peerInfos, ItemsOf(req);
            && q in infos
            && (infos[q].version < g.peerInfos[q].version <==>
                IsWelcomeId(g, p, q) && ListsInfo(items, q) && LastFor(items, q).version < g.peerInfos[q].version)
  {
    InfosAfterSync(g, p, req, now, q);
  }

  /**
   * Such a step back is not announced: here a connected peer's info is replaced by an older one, and nobody
   * is told.
   */
  lemma InfoGoesBackSilently(g: Group, p: PeerId, q: PeerId, info: PeerInfo, sid: SessionId, now: Millis)
    requires q in g.peers && q in g.peerInfos && info.peerId == q && info.version < g.peerInfos[q].version
    ensures var req := SyncRequest(p, sid, false, Some([info]), NoConnInfo, None);
            && q in Synced(g, p, req, now).peerInfos
            && Synced(g, p, req, now).peerInfos[q].version < g.peerInfos[q].version
            && !Broadcasts(g, p, req, now)
  {
    var req := SyncRequest(p, sid, false, Some([info]), NoConnInfo, None);
    assert ListsInfo(ItemsOf(req), q) && LastFor(ItemsOf(req), q) == info by {
      assert ItemsOf(req)[0].peerId == q;
    }
    InfosAfterSync(g, p, req, now, q);
    BroadcastsOnStoredChange(g, p, req, now);
  }
}
