/**
 * All groups of one relay, created on demand, and the operations by group key. The value of the
 * manager is a map from keys to groups; an operation rewrites one entry of it.
 */
module PeerManager {
  import opened Collections
  import opened Wire
  import opened RouteModel
  import opened InfoMerge
  import opened RouteGroup

  type Groups = map<string, Group>

  /** The group of a key; `draws` says which random route id the relay would draw for it. */
  function Lookup(groups: Groups, draws: string -> nat, key: string): Group {
    Get(groups, key, NewGroup(draws(key)))
  }

  function MergedAt(groups: Groups, draws: string -> nat, key: string, items: seq<PeerInfo>): Groups {
    if items == [] then groups else groups[key := Merged(Lookup(groups, draws, key), items)]
  }

  function PeersAt(groups: Groups, key: string): set<PeerId> {
    if key in groups then groups[key].peers else {}
  }

  class PeerManager {
    const draws: string -> nat
    var groups: map<string, RouteGroup>
    ghost var Repr: set<object>

    ghost predicate Valid()
      reads this, Repr
    {
      && this in Repr
      && (forall k | k in groups :: groups[k] in Repr)
      && (forall k, k' | k in groups && k' in groups && k != k' :: groups[k] != groups[k'])
    }

    ghost function State(): Groups
      requires Valid()
      reads this, Repr
    {
      map k | k in groups :: groups[k].State()
    }

    constructor (draws: string -> nat)
      ensures Valid() && fresh(Repr) && State() == map[] && this.draws == draws
    {
      this.draws := draws;
      groups, Repr := map[], {this};
    }

    method EnsureGroup(key: string) returns (g: RouteGroup)
      requires Valid()
      modifies this
      ensures Valid() && fresh(Repr - old(Repr))
      ensures groups == old(groups)[key := g] && (key in old(groups) ==> g == old(groups)[key])
      ensures g.State() == Lookup(old(State()), draws, key)
      ensures g in Repr && (key !in old(groups) ==> fresh(g))
    {
      if key !in groups {
        var created := new RouteGroup(draws(key));
        groups := groups[key := created];
        Repr := Repr + {created};
      }
      g := groups[key];
    }

    /** When one group's object is all that was touched, one entry of the value is all that changed. */
    twostate lemma OneEntryChanged(new key: string)
      requires old(Valid()) && Valid() && key in groups && groups == old(groups)[key := groups[key]]
      requires forall k | k in old(groups) && k != key :: unchanged(old(groups)[k])
      ensures State() == old(State())[key := groups[key].State()]
    {
    }

    method AddPeer(key: string, peer: PeerId)
      requires Valid()
      modifies Repr
      ensures Valid() && fresh(Repr - old(Repr))
      ensures State() == old(State())[key := MyInfoBumped(PeerAdded(Lookup(old(State()), draws, key), peer))]
    {
      var g := EnsureGroup(key);
      g.AddPeer(peer);
      g.BumpMyInfoVersion();
      OneEntryChanged(key);
    }

    method BumpMyInfoVersion(key: string)
      requires Valid()
      modifies Repr
      ensures Valid() && fresh(Repr - old(Repr))
      ensures State() == old(State())[key := MyInfoBumped(Lookup(old(State()), draws, key))]
    {
      var g := EnsureGroup(key);
      g.BumpMyInfoVersion();
      OneEntryChanged(key);
    }

    /** Removes a peer; id 0 stands for a socket that has not shaken hands and is never removed. */
    method RemovePeer(key: string, peer: PeerId, now: Millis) returns (removed: bool)
      requires Valid()
      modifies Repr
      ensures Valid() && fresh(Repr - old(Repr))
      ensures removed == (peer != 0)
      ensures State() == if peer == 0 then old(State())
                         else old(State())[key := PeerRemoved(Lookup(old(State()), draws, key), peer, now)]
    {
      if peer == 0 {
        return false;
      }
      var g := EnsureGroup(key);
      g.RemovePeer(peer, now);
      OneEntryChanged(key);
      removed := true;
    }

    method ListPeerIdsInGroup(key: string) returns (ids: seq<PeerId>)
      requires Valid()
      ensures ids == Sorted(PeersAt(State(), key))
    {
      if key in groups {
        ids := SortedVec(groups[key].peers);
      } else {
        SortedOfNothing();
        ids := [];
      }
    }

    method CleanupStalePeerConnections(key: string, threshold: Millis, now: Millis)
      requires Valid()
      modifies Repr
      ensures Valid() && fresh(Repr - old(Repr))
      ensures State() == old(State())[key := CleanedUp(Lookup(old(State()), draws, key), threshold, now)]
    {
      var g := EnsureGroup(key);
      g.CleanupStalePeerConnections(threshold, now);
      OneEntryChanged(key);
    }

    method UpdatePeerInfo(key: string, peer: PeerId, info: PeerInfo) returns (changed: bool)
      requires Valid()
      modifies Repr
      ensures Valid() && fresh(Repr - old(Repr))
      ensures var g := Lookup(old(State()), draws, key);
              && State() == old(State())[key := InfoUpdated(g, peer, info)]
              && changed == IsNews(g.peerInfos, peer, info)
    {
      var g := EnsureGroup(key);
      changed := g.UpdatePeerInfo(peer, info);
      OneEntryChanged(key);
    }

    method OnRouteSessionAck(key: string, peer: PeerId, theirSessionId: SessionId, weAreInitiator: bool, now: Millis)
      requires Valid()
      modifies Repr
      ensures Valid() && fresh(Repr - old(Repr))
      ensures State() == old(State())[key :=
                                      Acked(Lookup(old(State()), draws, key), peer, theirSessionId, weAreInitiator,
                                            now)]
    {
      var g := EnsureGroup(key);
      g.OnRouteSessionAck(peer, theirSessionId, weAreInitiator, now);
      OneEntryChanged(key);
    }

    method BuildRouteUpdate(key: string, serverSessionId: SessionId, weAreInitiator: bool, target: PeerId,
                            forceFull: bool, now: Millis) returns (req: SyncRequest)
      requires Valid()
      modifies Repr
      ensures Valid() && fresh(Repr - old(Repr))
      ensures State() == old(State())[key :=
                                      Built(Lookup(old(State()), draws, key), target, serverSessionId, forceFull, now)]
      ensures req == Update(Lookup(old(State()), draws, key), target, serverSessionId, weAreInitiator, forceFull, now)
    {
      hide Built, Update;
      var g := EnsureGroup(key);
      req := g.BuildSyncRouteInfoRequest(target, serverSessionId, weAreInitiator, forceFull, now);
      OneEntryChanged(key);
    }

    method HandleSyncRouteInfo(key: string, from: PeerId, req: SyncRequest, now: Millis) returns (resp: SyncResponse)
      requires Valid()
      modifies Repr
      ensures Valid() && fresh(Repr - old(Repr))
      ensures var g := Lookup(old(State()), draws, key);
              && State() == old(State())[key := SyncHandled(g, from, req, now)]
              && resp == SyncReply(g, from, req)
    {
      var g := EnsureGroup(key);
      resp := g.HandleSyncRouteInfoRequest(from, req, now);
      OneEntryChanged(key);
    }

    method ProcessIncomingConnInfo(key: string, from: PeerId, connInfo: ConnInfo) returns (changed: bool)
      requires Valid()
      modifies Repr
      ensures Valid() && fresh(Repr - old(Repr))
      ensures var g := Lookup(old(State()), draws, key);
              && State() == old(State())[key := ConnsUpdated(g, from, connInfo)]
              && changed == ConnsChange(g, from, connInfo)
    {
      var g := EnsureGroup(key);
      changed := g.UpdatePeerConnections(from, connInfo);
      OneEntryChanged(key);
    }

    /** Merges the received infos one by one; tells whether one about another peer was news. */
    method ProcessIncomingPeerInfos(key: string, items: seq<PeerInfo>) returns (hasChange: bool)
      requires Valid()
      modifies Repr
      ensures Valid() && fresh(Repr - old(Repr))
      ensures State() == MergedAt(old(State()), draws, key, items)
      ensures hasChange == SaysNews(Lookup(old(State()), draws, key), items)
    {
      ghost var before := State();
      hasChange := false;
      for i := 0 to |items|
        invariant Valid() && fresh(Repr - old(Repr))
        invariant State() == MergedAt(before, draws, key, items[..i])
        invariant hasChange == SaysNews(Lookup(before, draws, key), items[..i])
      {
        var info := items[i];
        MergedAtOneMore(before, draws, key, items[..i], info);
        assert items[..i + 1] == items[..i] + [info];
        var changed := UpdatePeerInfo(key, info.peerId, info);
        if changed && info.peerId != MY_PEER_ID {
          hasChange := true;
        }
      }
      assert items[..|items|] == items;
    }
  }

  lemma MergedAtOneMore(groups: Groups, draws: string -> nat, key: string, items: seq<PeerInfo>, info: PeerInfo)
    ensures var g := Lookup(MergedAt(groups, draws, key, items), draws, key);
            && g == Merged(Lookup(groups, draws, key), items)
            && MergedAt(groups, draws, key, items + [info]) ==
               MergedAt(groups, draws, key, items)[key := InfoUpdated(g, info.peerId, info)]
            && (SaysNews(Lookup(groups, draws, key), items + [info]) <==>
                SaysNews(Lookup(groups, draws, key), items) ||
                (info.peerId != MY_PEER_ID && IsNews(g.peerInfos, info.peerId, info)))
  {
    var g := Lookup(groups, draws, key);
    MergedOneMore(g, items, info);
    OverwriteTwice(groups, key, Merged(g, items), Merged(g, items + [info]));
  }
}
