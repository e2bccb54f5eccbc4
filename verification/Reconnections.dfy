/** The connection version that a peer finds when it comes back. */
module Reconnections {
  import opened Wire
  import opened RouteModel
  import opened GraphTheorems

  /** An event between a peer's leaving and its return: others come and go, and no update is built for it. */
  predicate IsMeanwhile(e: Event, p: PeerId) {
    e.AddPeer? || e.RemovePeer? || e.Build? ==> e.peer != p
  }

  /** Somebody tells the relay about the peer. */
  predicate Tells(e: Event, p: PeerId) {
    (e.UpdateInfo? && e.info.peerId == p) || (e.HandleSync? && e.peer == p && ListsInfo(ItemsOf(e.req), p))
  }

  /** The peer is unlisted, and either nobody told of it and it has no version, or it is described and counted. */
  ghost predicate IsAway(g: Group, p: PeerId, told: bool) {
    && p !in g.peers
    && (if told then p in g.peerInfos && VersionIn(g.connVersions, p) >= 2
        else p !in g.peerInfos && p !in g.connVersions)
  }

  lemma {:induction false} OverwrittenOf(g: Group, from: PeerId, items: seq<PeerInfo>, now: Millis, p: PeerId)
    requires p !in g.peers
    ensures p in Overwritten(g, from, items, now) <==> p in g.peerInfos || (from == p && ListsInfo(items, p))
  {
    if items != [] {
      OverwrittenOf(g, from, items[..|items| - 1], now, p);
      ListsOneMore(items[..|items| - 1], items, p);
    }
  }

  lemma RequestKeepsAway(g: Group, from: PeerId, req: SyncRequest, now: Millis, p: PeerId, told: bool)
    requires IsAway(g, p, told) && p != MY_PEER_ID
    ensures IsAway(SyncHandled(g, from, req, now), p, told || (from == p && ListsInfo(ItemsOf(req), p)))
  {
    OverwrittenOf(g, from, ItemsOf(req), now, p);
    if !told && from == p && ListsInfo(ItemsOf(req), p) {
      var i :| 0 <= i < |ItemsOf(req)| && ItemsOf(req)[i].peerId == p;
      assert BringsUnknown(g, from, ItemsOf(req));
    }
  }

  lemma BuildKeepsAway(g: Group, t: PeerId, sid: SessionId, force: bool, now: Millis, p: PeerId, told: bool)
    requires IsAway(g, p, told) && p != MY_PEER_ID && t != p
    ensures IsAway(Built(g, t, sid, force, now), p, told)
  {
    hide Built;
    BuiltRest(g, t, sid, force, now);
  }

  lemma BumpIfKeepsAway(g: Group, condition: bool, p: PeerId, told: bool)
    requires IsAway(g, p, told) && p != MY_PEER_ID
    ensures IsAway(BumpedIf(g, condition), p, told)
  {
  }

  lemma LeavingKeepsAway(g: Group, q: PeerId, now: Millis, p: PeerId, told: bool)
    requires IsAway(g, p, told) && p != MY_PEER_ID && q != p
    ensures IsAway(PeerRemoved(g, q, now), p, told)
  {
  }

  lemma InfoKeepsAway(g: Group, info: PeerInfo, p: PeerId, told: bool)
    requires IsAway(g, p, told) && p != MY_PEER_ID
    ensures IsAway(InfoUpdated(g, info.peerId, info), p, told || info.peerId == p)
  {
  }

  lemma EventKeepsAway(g: Group, e: Event, p: PeerId, told: bool)
    requires IsAway(g, p, told) && p != MY_PEER_ID && IsMeanwhile(e, p)
    ensures IsAway(Apply(g, e), p, told || Tells(e, p))
  {
    hide Built, SyncHandled, PeerRemoved, InfoUpdated, BumpedIf, ListsInfo;
    match e {
      case AddPeer(q) => BumpIfKeepsAway(g.(peers := g.peers + {q}, removedAt := g.removedAt - {q}), q !in g.peers, p,
                                         told);
      case RemovePeer(q, now) => LeavingKeepsAway(g, q, now, p, told);
      case UpdateInfo(info) => InfoKeepsAway(g, info, p, told);
      case UpdateConns(q, info) =>
        BumpIfKeepsAway(g.(connections := ConnectionsUpdated(g, q, info)), ConnsChange(g, q, info), p, told);
      case HandleSync(from, req, now) => RequestKeepsAway(g, from, req, now, p, told);
      case Build(t, sid, weAreInitiator, force, now) => BuildKeepsAway(g, t, sid, force, now, p, told);
      case _ =>
    }
  }

  ghost predicate ToldOf(es: seq<Event>, p: PeerId) {
    exists e | e in es :: Tells(e, p)
  }

  lemma {:induction false} RunKeepsAway(g: Group, es: seq<Event>, p: PeerId)
    requires IsAway(g, p, false) && p != MY_PEER_ID && forall e | e in es :: IsMeanwhile(e, p)
    ensures IsAway(Run(g, es), p, ToldOf(es, p))
  {
    hide IsAway, Apply, Tells;
    if es != [] {
      var prefix, last := es[..|es| - 1], es[|es| - 1];
      assert es == prefix + [last];
      RunKeepsAway(g, prefix, p);
      EventKeepsAway(Run(g, prefix), last, p, ToldOf(prefix, p));
      assert ToldOf(es, p) <==> ToldOf(prefix, p) || Tells(last, p);
    }
  }

  lemma LeavingIsAway(g: Group, p: PeerId, now: Millis)
    requires p in g.peers && p != MY_PEER_ID
    ensures IsAway(PeerRemoved(g, p, now), p, false)
  {
  }

  lemma ReturnCountsOneMore(g: Group, p: PeerId)
    requires p !in g.peers && p != MY_PEER_ID
    ensures VersionIn(PeerAdded(g, p).connVersions, p) == VersionIn(g.connVersions, p) + 1
  {
  }

  /**
   * Whatever happens between a peer's leaving and its return, it comes back with version 2 exactly when
   * nobody told of it meanwhile, and with more otherwise. With 2 it has lost count once it had more than that.
   */
  lemma ReconnectRestartsVersion(g: Group, p: PeerId, now: Millis, es: seq<Event>)
    requires p in g.peers && p != MY_PEER_ID && forall e | e in es :: IsMeanwhile(e, p)
    ensures var away := Run(PeerRemoved(g, p, now), es);
            var before, after := VersionIn(g.connVersions, p), VersionIn(PeerAdded(away, p).connVersions, p);
            && after == VersionIn(away.connVersions, p) + 1 && after >= 2
            && (after == 2 <==> !ToldOf(es, p))
            && (!ToldOf(es, p) ==> (after >= before <==> before <= 2))
  {
    var away := Run(PeerRemoved(g, p, now), es);
    LeavingIsAway(g, p, now);
    RunKeepsAway(PeerRemoved(g, p, now), es, p);
    hide Run, PeerAdded, PeerRemoved, ToldOf;
    ReturnCountsOneMore(away, p);
  }
}
