/**
 * The merge of received peer infos into the store: a join by version, with the stored and the earlier item
 * winning ties.
 */
module InfoMerge {
  import opened Wire
  import opened RouteModel
  import opened GraphTheorems

  /** Received items, applied one after the other. */
  function Merged(g: Group, items: seq<PeerInfo>): Group {
    if items == [] then g
    else
      var last := items[|items| - 1];
      InfoUpdated(Merged(g, items[..|items| - 1]), last.peerId, last)
  }

  /** Whether any item about a peer other than the relay was news when its turn came. */
  predicate SaysNews(g: Group, items: seq<PeerInfo>) {
    if items == [] then false
    else
      var prefix, last := items[..|items| - 1], items[|items| - 1];
      SaysNews(g, prefix) || (last.peerId != MY_PEER_ID && IsNews(Merged(g, prefix).peerInfos, last.peerId, last))
  }

  lemma MergedOneMore(g: Group, items: seq<PeerInfo>, info: PeerInfo)
    ensures Merged(g, items + [info]) == InfoUpdated(Merged(g, items), info.peerId, info)
    ensures SaysNews(g, items + [info]) <==>
            SaysNews(g, items) || (info.peerId != MY_PEER_ID && IsNews(Merged(g, items).peerInfos, info.peerId, info))
  {
    assert (items + [info])[..|items|] == items;
  }

  /** Item i is the first to carry the greatest version received for its peer, and that exceeds the stored one. */
  ghost predicate IsFirstBest(infos: map<PeerId, PeerInfo>, items: seq<PeerInfo>, i: nat)
    requires i < |items|
  {
    && IsNews(infos, items[i].peerId, items[i])
    && (forall j | 0 <= j < i && items[j].peerId == items[i].peerId :: items[j].version < items[i].version)
    && (forall j | i < j < |items| && items[j].peerId == items[i].peerId :: items[j].version <= items[i].version)
  }

  /**
   * What the store holds of a peer after a merge: the stored record unless some item exceeds it, else the
   * first best item.
   */
  ghost predicate IsJoin(infos: map<PeerId, PeerInfo>, items: seq<PeerInfo>, merged: map<PeerId, PeerInfo>, p: PeerId) {
    && (p in merged <==> p in infos || ListsInfo(items, p))
    && (p in merged ==>
          || (p in infos && merged[p] == infos[p] &&
              forall i | 0 <= i < |items| && items[i].peerId == p :: items[i].version <= infos[p].version)
          || (exists i | 0 <= i < |items| ::
              items[i].peerId == p && merged[p] == items[i] && IsFirstBest(infos, items, i)))
  }

  lemma ListsLonger(items: seq<PeerInfo>, info: PeerInfo, p: PeerId)
    ensures ListsInfo(items + [info], p) <==> ListsInfo(items, p) || info.peerId == p
  {
    assert (items + [info])[..|items|] == items;
    ListsOneMore(items, items + [info], p);
  }

  lemma FirstBestStays(infos: map<PeerId, PeerInfo>, items: seq<PeerInfo>, i: nat, info: PeerInfo)
    requires i < |items| && IsFirstBest(infos, items, i)
    requires info.peerId == items[i].peerId ==> info.version <= items[i].version
    ensures IsFirstBest(infos, items + [info], i)
  {
  }

  lemma JoinGrows(infos: map<PeerId, PeerInfo>, items: seq<PeerInfo>, merged: map<PeerId, PeerInfo>, p: PeerId,
                  info: PeerInfo)
    requires IsJoin(infos, items, merged, p)
    ensures var merged' := if IsNews(merged, info.peerId, info) then merged[info.peerId := info] else merged;
            IsJoin(infos, items + [info], merged', p)
  {
    var longer := items + [info];
    ListsLonger(items, info, p);
    if info.peerId == p && IsNews(merged, p, info) {
      assert longer[|items|] == info && IsFirstBest(infos, longer, |items|);
    } else if p in merged && !(p in infos && merged[p] == infos[p]) {
      var i :| 0 <= i < |items| && items[i].peerId == p && merged[p] == items[i] && IsFirstBest(infos, items, i);
      FirstBestStays(infos, items, i, info);
      assert longer[i] == items[i];
    } else {
      assert forall i | 0 <= i < |longer| && longer[i].peerId == p && i < |items| :: longer[i] == items[i];
    }
  }

  /** Merging is a join: for every peer the greatest version wins, and of equals the stored, then the earliest. */
  lemma {:induction false} MergeIsJoin(g: Group, items: seq<PeerInfo>, p: PeerId)
    ensures IsJoin(g.peerInfos, items, Merged(g, items).peerInfos, p)
  {
    if items != [] {
      var prefix, last := items[..|items| - 1], items[|items| - 1];
      MergeIsJoin(g, prefix, p);
      JoinGrows(g.peerInfos, prefix, Merged(g, prefix).peerInfos, p, last);
      assert prefix + [last] == items;
    }
  }

  lemma ItemsBoundedByMerge(g: Group, items: seq<PeerInfo>, i: nat)
    requires i < |items|
    ensures !IsNews(Merged(g, items).peerInfos, items[i].peerId, items[i])
  {
    MergeIsJoin(g, items, items[i].peerId);
    assert ListsInfo(items, items[i].peerId);
  }

  ghost predicate HasNews(infos: map<PeerId, PeerInfo>, items: seq<PeerInfo>) {
    exists i | 0 <= i < |items| :: items[i].peerId != MY_PEER_ID && IsNews(infos, items[i].peerId, items[i])
  }

  /** A merge reports a change exactly when some item about another peer was news to the store it started from. */
  lemma {:induction false} NewsMeansNewToStore(g: Group, items: seq<PeerInfo>)
    ensures SaysNews(g, items) <==> HasNews(g.peerInfos, items)
  {
    if items != [] {
      var prefix, last := items[..|items| - 1], items[|items| - 1];
      NewsMeansNewToStore(g, prefix);
      MergeIsJoin(g, prefix, last.peerId);
      if last.peerId != MY_PEER_ID && IsNews(Merged(g, prefix).peerInfos, last.peerId, last) {
        assert items[|items| - 1] == last && IsNews(g.peerInfos, last.peerId, last);
      }
      assert HasNews(g.peerInfos, prefix) ==> HasNews(g.peerInfos, items) by {
        assert forall i | 0 <= i < |prefix| :: prefix[i] == items[i];
      }
      if last.peerId != MY_PEER_ID && IsNews(g.peerInfos, last.peerId, last) && !SaysNews(g, items) {
        LaterMeansEarlierNews(g, prefix, last);
      }
    }
  }

  /** An item that is news to the first store but not to the merged one was preceded by one that was news. */
  lemma LaterMeansEarlierNews(g: Group, prefix: seq<PeerInfo>, last: PeerInfo)
    requires last.peerId != MY_PEER_ID
    requires IsNews(g.peerInfos, last.peerId, last) && !IsNews(Merged(g, prefix).peerInfos, last.peerId, last)
    ensures HasNews(g.peerInfos, prefix)
  {
    var p := last.peerId;
    MergeIsJoin(g, prefix, p);
    var merged := Merged(g, prefix).peerInfos;
    assert p in merged && !(p in g.peerInfos && merged[p] == g.peerInfos[p]);
    var i :| 0 <= i < |prefix| && prefix[i].peerId == p && merged[p] == prefix[i] &&
      IsFirstBest(g.peerInfos, prefix, i);
  }

  lemma {:induction false} NothingNew(g: Group, items: seq<PeerInfo>)
    requires forall i | 0 <= i < |items| :: !IsNews(g.peerInfos, items[i].peerId, items[i])
    ensures Merged(g, items) == g && !SaysNews(g, items)
  {
    if items != [] {
      NothingNew(g, items[..|items| - 1]);
    }
  }

  /** The same list again changes nothing, bumps nothing and reports no change. */
  lemma MergeIsIdempotent(g: Group, items: seq<PeerInfo>)
    ensures Merged(Merged(g, items), items) == Merged(g, items)
    ensures !SaysNews(Merged(g, items), items)
  {
    forall i | 0 <= i < |items| ensures !IsNews(Merged(g, items).peerInfos, items[i].peerId, items[i]) {
      ItemsBoundedByMerge(g, items, i);
    }
    NothingNew(Merged(g, items), items);
  }

  /** A merge touches the infos and the connection versions only. */
  lemma {:induction false} MergeKeepsRest(g: Group, items: seq<PeerInfo>)
    ensures var h := Merged(g, items);
            h == g.(peerInfos := h.peerInfos, connVersions := h.connVersions)
  {
    if items != [] {
      MergeKeepsRest(g, items[..|items| - 1]);
    }
  }
}
