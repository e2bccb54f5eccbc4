/** The handlers of route RPCs: they change the relay's groups and say what is to be sent. */
module RpcHandler {
  import opened Collections
  import opened Wire
  import opened RouteModel
  import opened InfoMerge
  import opened SyncRpc
  import opened PeerManager

  datatype Context = Context(peerId: PeerId, groupKey: string, serverSessionId: SessionId, weAreInitiator: bool)

  datatype RpcAction =
    | SendTo(peerId: PeerId, response: SyncResponse)
    | PushRouteUpdate(peerId: PeerId, groupKey: string)
    | BroadcastRouteUpdate(groupKey: string, excludePeerId: PeerId)

  /** An answer and a push to the sender, and a broadcast to the others when something changed. */
  function SyncActions(g: Group, ctx: Context, req: SyncRequest, now: Millis): seq<RpcAction> {
    [SendTo(ctx.peerId, SyncReply(g, ctx.peerId, req)), PushRouteUpdate(ctx.peerId, ctx.groupKey)] +
    (if Broadcasts(g, ctx.peerId, req, now) then [BroadcastRouteUpdate(ctx.groupKey, ctx.peerId)] else [])
  }

  lemma ReplyIsStable(g: Group, p: PeerId, req: SyncRequest, now: Millis)
    ensures SyncReply(ConnsTaken(g, p, req, now), p, req) == SyncReply(g, p, req)
  {
    ConnsTakenRest(g, p, req, now);
  }

  /** The entry of the group after each stage of a request. */
  lemma SyncStages(groups: Groups, draws: string -> nat, key: string, p: PeerId, req: SyncRequest, now: Millis)
    ensures var g := Lookup(groups, draws, key);
            var greeted, infos := Greeting(g, p, req, now), InfosTaken(g, p, req, now);
            var conns, synced := ConnsTaken(g, p, req, now), Synced(g, p, req, now);
            && greeted == Acked(g, p, req.mySessionId, !req.isInitiator, now)
            && Lookup(groups[key := greeted], draws, key) == greeted
            && MergedAt(groups[key := greeted], draws, key, ItemsOf(req)) == groups[key := infos]
            && Lookup(groups[key := infos], draws, key) == infos
            && groups[key := infos][key := ConnsUpdated(infos, p, req.connInfo)] == groups[key := conns]
            && Lookup(groups[key := conns], draws, key) == conns
            && groups[key := conns][key := SyncHandled(conns, p, req, now)] == groups[key := synced]
            && SyncReply(conns, p, req) == SyncReply(g, p, req)
            && (Broadcasts(g, p, req, now) <==> SaysNews(greeted, ItemsOf(req)) || ConnsChange(infos, p, req.connInfo))
  {
    var g := Lookup(groups, draws, key);
    ReplyIsStable(g, p, req, now);
    hide Acked, ConnsUpdated, SyncHandled, SaysNews, ConnsChange, SyncReply;
    OverwriteTwice(groups, key, Greeting(g, p, req, now), InfosTaken(g, p, req, now));
    OverwriteTwice(groups, key, InfosTaken(g, p, req, now), ConnsTaken(g, p, req, now));
    OverwriteTwice(groups, key, ConnsTaken(g, p, req, now), Synced(g, p, req, now));
  }

  /** Greets the session, merges the infos, stores the connections; tells whether the others are to be told. */
  method TakeInRequest(pm: PeerManager, key: string, peer: PeerId, req: SyncRequest, now: Millis)
    returns (changed: bool)
    requires pm.Valid()
    modifies pm.Repr
    ensures pm.Valid() && fresh(pm.Repr - old(pm.Repr))
    ensures var g := Lookup(old(pm.State()), pm.draws, key);
            && pm.State() == old(pm.State())[key := ConnsTaken(g, peer, req, now)]
            && changed == Broadcasts(g, peer, req, now)
  {
    SyncStages(pm.State(), pm.draws, key, peer, req, now);
    hide Greeting, InfosTaken, ConnsTaken, Synced, Broadcasts, SyncReply, MergedAt, Lookup, SaysNews, ConnsChange,
      Acked,
      ConnsUpdated, SyncHandled;
    pm.OnRouteSessionAck(key, peer, req.mySessionId, !req.isInitiator, now);
    var infosChanged := pm.ProcessIncomingPeerInfos(key, ItemsOf(req));
    var connsChanged := pm.ProcessIncomingConnInfo(key, peer, req.connInfo);
    changed := infosChanged || connsChanged;
  }

  /** A request that does not decode changes nothing and is not answered. */
  method HandleSyncRouteInfo(ctx: Context, pm: PeerManager, body: Option<SyncRequest>, now: Millis)
    returns (ctx': Context, actions: seq<RpcAction>)
    requires pm.Valid()
    modifies pm.Repr
    ensures pm.Valid() && fresh(pm.Repr - old(pm.Repr))
    ensures body == None ==> pm.State() == old(pm.State()) && ctx' == ctx && actions == []
    ensures body.Some? ==>
              var g := Lookup(old(pm.State()), pm.draws, ctx.groupKey);
              && pm.State() == old(pm.State())[ctx.groupKey := Synced(g, ctx.peerId, body.value, now)]
              && ctx' == ctx.(weAreInitiator := !body.value.isInitiator)
              && actions == SyncActions(g, ctx, body.value, now)
  {
    if body == None {
      return ctx, [];
    }
    var req, key, peer := body.value, ctx.groupKey, ctx.peerId;
    SyncStages(pm.State(), pm.draws, key, peer, req, now);
    hide ConnsTaken, Synced, Broadcasts, SyncReply, Lookup, SyncHandled;
    ctx' := ctx.(weAreInitiator := !req.isInitiator);
    var changed := TakeInRequest(pm, key, peer, req, now);
    var response := pm.HandleSyncRouteInfo(key, peer, req, now);
    actions := [SendTo(peer, response), PushRouteUpdate(peer, key)];
    if changed {
      actions := actions + [BroadcastRouteUpdate(key, peer)];
    }
  }

  /** An answer to one of the relay's updates names the remote's session, unless it is 0. */
  method HandleRpcResp(ctx: Context, pm: PeerManager, from: PeerId, sid: SessionId, now: Millis)
    requires pm.Valid()
    modifies pm.Repr
    ensures pm.Valid() && fresh(pm.Repr - old(pm.Repr))
    ensures pm.State() ==
            if sid == 0 then old(pm.State())
            else old(pm.State())[ctx.groupKey := Acked(Lookup(old(pm.State()), pm.draws, ctx.groupKey), from, sid,
                                                       ctx.weAreInitiator, now)]
  {
    if sid != 0 {
      pm.OnRouteSessionAck(ctx.groupKey, from, sid, ctx.weAreInitiator, now);
    }
  }
}
