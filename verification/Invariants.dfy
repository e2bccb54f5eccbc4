/** What every operation on a group keeps, and so what holds after every run. */
module Invariants {
  import opened Wire
  import opened RouteModel

  ghost predicate Anchored(peers: set<PeerId>, removedAt: map<PeerId, Millis>, conns: map<PeerId, set<PeerId>>) {
    && (forall p | p in peers :: p !in removedAt)
    && (forall p, q | p in conns && q in conns[p] :: (q in peers || q in removedAt) && q != MY_PEER_ID && q != p)
  }

  /** Every stored edge ends at a peer that is connected or whose removal is on record. */
  ghost predicate EdgesAnchored(g: Group) {
    Anchored(g.peers, g.removedAt, g.connections)
  }

  ghost predicate VersionDomain(g: Group) {
    g.peers <= g.connVersions.Keys <= g.peers + g.peerInfos.Keys + {MY_PEER_ID}
  }

  ghost predicate StoreKeyed(store: Store) {
    store.mine.peerId == MY_PEER_ID && forall p | p in store.infos :: store.infos[p].peerId == p
  }

  ghost predicate InfosKeyed(g: Group) {
    StoreKeyed(StoreOf(g))
  }

  ghost predicate Inv(g: Group) {
    EdgesAnchored(g) && VersionDomain(g) && InfosKeyed(g)
  }

  lemma BumpKeepsInv(g: Group)
    requires EdgesAnchored(g) && InfosKeyed(g)
    requires g.connVersions.Keys <= g.peers + g.peerInfos.Keys + {MY_PEER_ID}
    ensures Inv(Bumped(g))
  {
  }

  lemma AddKeepsInv(g: Group, p: PeerId)
    requires Inv(g)
    ensures Inv(PeerAdded(g, p))
  {
    var rest := g.(peers := g.peers + {p}, removedAt := g.removedAt - {p});
    assert EdgesAnchored(rest) && InfosKeyed(rest);
    BumpKeepsInv(rest);
  }

  lemma AnchoredAfterRemoval(peers: set<PeerId>, removedAt: map<PeerId, Millis>, conns: map<PeerId, set<PeerId>>,
                             p: PeerId, now: Millis)
    requires Anchored(peers, removedAt, conns)
    ensures Anchored(peers - {p}, removedAt[p := now], conns)
  {
    forall a, q | a in conns && q in conns[a]
      ensures (q in peers - {p} || q in removedAt[p := now]) && q != MY_PEER_ID && q != a
    {
      assert q in peers || q in removedAt;
    }
  }

  lemma RemoveKeepsInv(g: Group, p: PeerId, now: Millis)
    requires Inv(g)
    ensures Inv(PeerRemoved(g, p, now))
  {
    var rest := g.(peers := g.peers - {p}, peerInfos := g.peerInfos - {p}, sessions := g.sessions - {p},
                   connVersions := g.connVersions - {p}, removedAt := g.removedAt[p := now]);
    assert rest.removedAt.Keys == g.removedAt.Keys + {p};
    assert rest.peerInfos.Keys == g.peerInfos.Keys - {p};
    assert rest.connVersions.Keys == g.connVersions.Keys - {p};
    AnchoredAfterRemoval(g.peers, g.removedAt, g.connections, p, now);
    if p in g.peers {
      BumpKeepsInv(rest);
    } else {
      assert VersionDomain(rest);
    }
  }

  lemma ConnsKeepInv(g: Group, p: PeerId, info: ConnInfo)
    requires Inv(g)
    ensures Inv(ConnsUpdated(g, p, info))
  {
    var rest := g.(connections := ConnectionsUpdated(g, p, info));
    assert EdgesAnchored(rest) && InfosKeyed(rest) && VersionDomain(rest);
    BumpKeepsInv(rest);
  }

  lemma CleanupKeepsInv(g: Group, threshold: Millis, now: Millis)
    requires Inv(g)
    ensures Inv(CleanedUp(g, threshold, now))
  {
    var g' := CleanedUp(g, threshold, now);
    assert g'.removedAt.Keys == g.removedAt.Keys - StalePeers(g, threshold, now);
  }

  lemma {:induction false} OverwrittenFacts(g: Group, from: PeerId, items: seq<PeerInfo>, now: Millis)
    requires InfosKeyed(g)
    ensures var infos := Overwritten(g, from, items, now);
            && g.peerInfos.Keys <= infos.Keys
            && forall p | p in infos :: infos[p].peerId == p
  {
    if items != [] {
      OverwrittenFacts(g, from, items[..|items| - 1], now);
    }
  }

  lemma InfoKeepsInv(g: Group, info: PeerInfo)
    requires Inv(g)
    ensures Inv(InfoUpdated(g, info.peerId, info))
  {
    var rest := g.(peerInfos := g.peerInfos[info.peerId := info]);
    assert rest.peerInfos.Keys == g.peerInfos.Keys + {info.peerId};
    assert Inv(rest);
    BumpKeepsInv(rest);
  }

  lemma MoreInfosKeepInv(g: Group, g': Group)
    requires Inv(g)
    requires g'.peers == g.peers && g'.removedAt == g.removedAt && g'.connections == g.connections
    requires g'.connVersions == g.connVersions && g'.myInfo == g.myInfo
    requires forall p | p in g.peerInfos :: p in g'.peerInfos
    requires forall p | p in g'.peerInfos :: g'.peerInfos[p].peerId == p
    ensures Inv(g')
  {
    assert forall p | p in g.peers + g.peerInfos.Keys + {MY_PEER_ID} ::
           p in g'.peers + g'.peerInfos.Keys + {MY_PEER_ID};
  }

  lemma SyncKeepsInv(g: Group, p: PeerId, req: SyncRequest, now: Millis)
    requires Inv(g)
    ensures Inv(SyncHandled(g, p, req, now))
  {
    OverwrittenFacts(g, p, ItemsOf(req), now);
    var rest := g.(sessions := g.sessions[p := SessionAfterSync(SessionOf(g, p), req, now)],
                   peerInfos := Overwritten(g, p, ItemsOf(req), now));
    MoreInfosKeepInv(g, rest);
    BumpKeepsInv(rest);
  }

  lemma BuildKeepsInv(g: Group, p: PeerId, sid: SessionId, force: bool, now: Millis)
    requires Inv(g)
    ensures Inv(Built(g, p, sid, force, now))
  {
    BuiltRest(g, p, sid, force, now);
    hide Built;
    MoreInfosKeepInv(g, Built(g, p, sid, force, now));
  }

  lemma OthersKeepInv(g: Group, g': Group)
    requires Inv(g)
    requires g'.peers == g.peers && g'.removedAt == g.removedAt && g'.connections == g.connections
    requires g'.connVersions == g.connVersions && g'.peerInfos == g.peerInfos && g'.myInfo.peerId == g.myInfo.peerId
    ensures Inv(g')
  {
  }

  /** No operation breaks the invariant, whatever ids, lists, bitmaps and times it is given. */
  lemma StepKeepsInv(g: Group, e: Event)
    requires Inv(g)
    ensures Inv(Apply(g, e))
  {
    hide Inv, PeerAdded, PeerRemoved, InfoUpdated, ConnsUpdated, Built, SyncHandled, CleanedUp;
    match e {
      case AddPeer(p) => AddKeepsInv(g, p);
      case RemovePeer(p, now) => RemoveKeepsInv(g, p, now);
      case UpdateInfo(info) => InfoKeepsInv(g, info);
      case BumpMyInfo => OthersKeepInv(g, MyInfoBumped(g));
      case Ack(p, sid, weAreInitiator, now) => OthersKeepInv(g, Acked(g, p, sid, weAreInitiator, now));
      case UpdateConns(p, info) => ConnsKeepInv(g, p, info);
      case Build(p, sid, weAreInitiator, force, now) => BuildKeepsInv(g, p, sid, force, now);
      case HandleSync(p, req, now) => SyncKeepsInv(g, p, req, now);
      case Cleanup(threshold, now) => CleanupKeepsInv(g, threshold, now);
    }
  }

  lemma {:induction false} RunKeepsInv(routeId: nat, es: seq<Event>)
    ensures Inv(Run(NewGroup(routeId), es))
  {
    if es != [] {
      RunKeepsInv(routeId, es[..|es| - 1]);
      StepKeepsInv(Run(NewGroup(routeId), es[..|es| - 1]), es[|es| - 1]);
    }
  }
}
