/** One room of the relay, updated in place by the events of its sockets. */
module RelayRoom {
  import opened Orders
  import opened Collections
  import opened Wire
  import opened RouteModel
  import opened PeerManager
  import opened Handshake
  import opened RpcHandler
  import opened RoomModel
  import opened RoomSteps

  // ---- what the events do to the groups ----

  /** Builds, records and sends an update for every socket that a broadcast reaches. */
  method SendUpdates(pm: PeerManager, sockets: seq<SocketId>, atts: map<SocketId, Attachment>,
                     key: string, excluded: PeerId, now: Millis) returns (sent: seq<Delivery>)
    requires pm.Valid() && forall s | s in sockets :: s in atts
    modifies pm.Repr
    ensures pm.Valid() && fresh(pm.Repr - old(pm.Repr))
    ensures pm.State() == BroadcastGroups(old(pm.State()), pm.draws, sockets, atts, key, excluded, now)
    ensures sent == BroadcastDeliveries(old(pm.State()), pm.draws, sockets, atts, key, excluded, now)
  {
    hide Built, Update;
    ghost var groups := pm.State();
    sent := [];
    for i := 0 to |sockets|
      invariant pm.Valid() && fresh(pm.Repr - old(pm.Repr))
      invariant pm.State() == BroadcastGroups(groups, pm.draws, sockets[..i], atts, key, excluded, now)
      invariant sent == BroadcastDeliveries(groups, pm.draws, sockets[..i], atts, key, excluded, now)
    {
      var s := sockets[i];
      var att := atts[s];
      BroadcastOneMore(groups, pm.draws, sockets, i, atts, key, excluded, now);
      if att.peerId != excluded && att.groupKey == key {
        var update := pm.BuildRouteUpdate(key, att.serverSessionId, att.weAreInitiator, att.peerId, true, now);
        sent := sent + [Delivery(s, att.peerId, update)];
      }
    }
    assert sockets[..|sockets|] == sockets;
  }

  /** Lists a peer that has shaken hands and stores its stub info. */
  method Arrive(pm: PeerManager, key: string, p: PeerId, now: Millis)
    requires pm.Valid()
    modifies pm.Repr
    ensures pm.Valid() && fresh(pm.Repr - old(pm.Repr))
    ensures pm.State() == old(pm.State())[key := Arrived(Lookup(old(pm.State()), pm.draws, key), p, now)]
  {
    ArrivalStages(pm.State(), pm.draws, key, p, now);
    pm.AddPeer(key, p);
    var changed := pm.UpdatePeerInfo(key, p, HandshakeInfo(p, now));
    pm.BumpMyInfoVersion(key);
  }

  /** Welcomes a peer: it is listed, and an update is built for it that nobody is sent. */
  method Welcome(pm: PeerManager, att: Attachment, now: Millis)
    requires pm.Valid()
    modifies pm.Repr
    ensures pm.Valid() && fresh(pm.Repr - old(pm.Repr))
    ensures pm.State() == ApplyOps(old(pm.State()), pm.draws, OpsAt(att.groupKey, WelcomeEvents(att, now)))
  {
    hide Built, Arrived, ApplyOps, OpsAt, WelcomeEvents;
    WelcomeStages(pm.State(), pm.draws, att, now);
    Arrive(pm, att.groupKey, att.peerId, now);
    var unsent := pm.BuildRouteUpdate(att.groupKey, att.serverSessionId, att.weAreInitiator, att.peerId, true, now);
  }

  /** Welcomes a peer, then tells everyone in its group. */
  method WelcomeAndTell(pm: PeerManager, sockets: seq<SocketId>, atts: map<SocketId, Attachment>, att: Attachment,
                        now: Millis)
    returns (sent: seq<Delivery>)
    requires pm.Valid() && forall s | s in sockets :: s in atts
    modifies pm.Repr
    ensures pm.Valid() && fresh(pm.Repr - old(pm.Repr))
    ensures var welcomed := ApplyOps(old(pm.State()), pm.draws, OpsAt(att.groupKey, WelcomeEvents(att, now)));
            && pm.State() == BroadcastGroups(welcomed, pm.draws, sockets, atts, att.groupKey, 0, now)
            && sent == BroadcastDeliveries(welcomed, pm.draws, sockets, atts, att.groupKey, 0, now)
  {
    Welcome(pm, att, now);
    sent := SendUpdates(pm, sockets, atts, att.groupKey, 0, now);
  }

  /** Checks a handshake; on success the socket stands for a peer, which is welcomed. */
  method ReceiveHandshake(pm: PeerManager, registry: DigestRegistry, sockets: seq<SocketId>,
                          atts: map<SocketId, Attachment>,
                          s: SocketId, shake: Option<HandshakeRequest>, now: Millis)
    returns (atts': map<SocketId, Attachment>, reply: Option<HandshakePacket>, sent: seq<Delivery>)
    requires pm.Valid() && registry !in pm.Repr && s in sockets && forall t | t in sockets :: t in atts
    modifies registry, pm.Repr
    ensures pm.Valid() && fresh(pm.Repr - old(pm.Repr))
    ensures ShakeResult(Room(sockets, atts, old(pm.State()), old(registry.digests)), pm.draws, s, shake, now,
                        Room(sockets, atts', pm.State(), registry.digests), sent)
    ensures reply == HandshakeReply(ShakeOutcome(Room(sockets, atts, old(pm.State()), old(registry.digests)), shake))
  {
    hide ApplyOps, OpsAt, WelcomeEvents, BroadcastGroups, BroadcastDeliveries, Registered, OutcomeOf;
    var outcome := registry.HandleHandshake(shake);
    var att := atts[s].(lastSeen := now);
    if outcome.Some? {
      att := att.(peerId := outcome.value.peerId, groupKey := outcome.value.groupKey,
                  domainName := outcome.value.domainName, weAreInitiator := false);
      atts', reply := atts[s := att], Some(outcome.value.reply);
      sent := WelcomeAndTell(pm, sockets, atts', att, now);
    } else {
      atts', reply, sent := atts[s := att], None, [];
    }
  }

  /** Lists the peer of every socket that its group does not list yet. */
  method RestorePeers(pm: PeerManager, sockets: seq<SocketId>, atts: map<SocketId, Attachment>)
    requires pm.Valid() && forall s | s in sockets :: s in atts
    modifies pm.Repr
    ensures pm.Valid() && fresh(pm.Repr - old(pm.Repr))
    ensures pm.State() == ApplyOps(old(pm.State()), pm.draws, RestartOps(old(pm.State()), pm.draws, sockets, atts))
  {
    hide PeerAdded, MyInfoBumped, ApplyOps, RestartOps;
    ghost var groups := pm.State();
    RestartNone(groups, pm.draws, atts);
    for i := 0 to |sockets|
      invariant pm.Valid() && fresh(pm.Repr - old(pm.Repr))
      invariant pm.State() == ApplyOps(groups, pm.draws, RestartOps(groups, pm.draws, sockets[..i], atts))
    {
      var att := atts[sockets[i]];
      RestartOneMore(groups, pm.draws, sockets, i, atts);
      if att.peerId != 0 {
        var existing := pm.ListPeerIdsInGroup(att.groupKey);
        if att.peerId !in existing {
          pm.AddPeer(att.groupKey, att.peerId);
        }
      }
    }
    assert sockets[..|sockets|] == sockets;
  }

  /** Carries out the actions that the RPC handler asked for, on behalf of one socket. */
  method Perform(pm: PeerManager, room: Caller, actions: seq<RpcAction>, now: Millis)
    returns (replies: seq<SyncResponse>, sent: seq<Delivery>)
    requires pm.Valid() && room.Valid()
    modifies pm.Repr
    ensures pm.Valid() && fresh(pm.Repr - old(pm.Repr))
    ensures pm.State() == GroupsAfterActions(old(pm.State()), pm.draws, room, actions, now)
    ensures sent == SentByActions(old(pm.State()), pm.draws, room, actions, now) && replies == RepliesIn(actions)
  {
    ghost var groups := pm.State();
    replies, sent := [], [];
    for i := 0 to |actions|
      invariant pm.Valid() && fresh(pm.Repr - old(pm.Repr))
      invariant pm.State() == GroupsAfterActions(groups, pm.draws, room, actions[..i], now)
      invariant sent == SentByActions(groups, pm.draws, room, actions[..i], now) && replies == RepliesIn(actions[..i])
    {
      ActionsOneMore(groups, pm.draws, room, actions, i, now);
      RepliesOneMore(actions, i);
      if actions[i].SendTo? {
        replies := replies + [actions[i].response];
      }
      var more := PerformOne(pm, room, actions[i], now);
      sent := sent + more;
    }
    assert actions[..|actions|] == actions;
  }

  method PerformOne(pm: PeerManager, room: Caller, action: RpcAction, now: Millis) returns (sent: seq<Delivery>)
    requires pm.Valid() && room.Valid()
    modifies pm.Repr
    ensures pm.Valid() && fresh(pm.Repr - old(pm.Repr))
    ensures pm.State() == GroupsAfterAction(old(pm.State()), pm.draws, room, action, now)
    ensures sent == SentByAction(old(pm.State()), pm.draws, room, action, now)
  {
    var att := room.atts[room.socket];
    match action
    case SendTo(_, _) =>
      sent := [];
    case PushRouteUpdate(p, _) =>
      var update := pm.BuildRouteUpdate(att.groupKey, att.serverSessionId, att.weAreInitiator, p, true, now);
      sent := [Delivery(room.socket, p, update)];
    case BroadcastRouteUpdate(key, excluded) =>
      sent := SendUpdates(pm, room.sockets, room.atts, key, excluded, now);
  }

  /** Cleans every group up, one after the other. */
  method CleanUpGroups(pm: PeerManager, keys: seq<string>, now: Millis)
    requires pm.Valid()
    modifies pm.Repr
    ensures pm.Valid() && fresh(pm.Repr - old(pm.Repr))
    ensures pm.State() == ApplyOps(old(pm.State()), pm.draws, CleanupOps(keys, now))
  {
    ghost var groups := pm.State();
    for i := 0 to |keys|
      invariant pm.Valid() && fresh(pm.Repr - old(pm.Repr))
      invariant pm.State() == ApplyOps(groups, pm.draws, CleanupOps(keys[..i], now))
    {
      CleanupOneMore(groups, pm.draws, keys, i, now);
      pm.CleanupStalePeerConnections(keys[i], STALE_P2P_THRESHOLD_MS, now);
    }
    assert keys[..|keys|] == keys;
  }

  /** Broadcasts to every group, one after the other. */
  method RefreshGroups(pm: PeerManager, sockets: seq<SocketId>, atts: map<SocketId, Attachment>, keys: seq<string>,
                       now: Millis)
    returns (sent: seq<Delivery>)
    requires pm.Valid() && forall s | s in sockets :: s in atts
    modifies pm.Repr
    ensures pm.Valid() && fresh(pm.Repr - old(pm.Repr))
    ensures pm.State() == ApplyOps(old(pm.State()), pm.draws, RefreshOps(sockets, atts, keys, now))
    ensures sent == RefreshDeliveries(old(pm.State()), pm.draws, sockets, atts, keys, now)
  {
    ghost var groups := pm.State();
    sent := [];
    for i := 0 to |keys|
      invariant pm.Valid() && fresh(pm.Repr - old(pm.Repr))
      invariant pm.State() == ApplyOps(groups, pm.draws, RefreshOps(sockets, atts, keys[..i], now))
      invariant sent == RefreshDeliveries(groups, pm.draws, sockets, atts, keys[..i], now)
    {
      RefreshOneMore(groups, pm.draws, sockets, atts, keys, i, now);
      var more := SendUpdates(pm, sockets, atts, keys[i], 0, now);
      sent := sent + more;
    }
    assert keys[..|keys|] == keys;
  }

  /** The groups that have a live socket, in order. */
  method AliveGroups(sockets: seq<SocketId>, atts: map<SocketId, Attachment>, now: Millis) returns (keys: seq<string>)
    requires forall s | s in sockets :: s in atts
    ensures InOrder(Precedes, keys) && forall k :: k in keys <==> k in AliveKeys(sockets, atts, now)
  {
    keys := [];
    for i := 0 to |sockets|
      invariant InOrder(Precedes, keys) && forall k :: k in keys <==> k in AliveKeys(sockets[..i], atts, now)
    {
      var att := atts[sockets[i]];
      assert sockets[..i + 1] == sockets[..i] + [sockets[i]];
      AliveOneMore(sockets[..i], sockets[i], atts, now);
      if att.lastSeen > 0 {
        var elapsed := now - att.lastSeen;
        if 0 <= elapsed <= SOCKET_TIMEOUT_MS && att.groupKey != "" {
          keys := Inserted(keys, att.groupKey);
        }
      }
    }
    assert sockets[..|sockets|] == sockets;
  }

  /** Inserts a key into an ordered set of keys. */
  method Inserted(keys: seq<string>, key: string) returns (more: seq<string>)
    requires InOrder(Precedes, keys)
    ensures InOrder(Precedes, more) && forall k :: k in more <==> k in keys || k == key
  {
    var i := 0;
    while i < |keys| && Precedes(keys[i], key)
      invariant i <= |keys| && forall j | 0 <= j < i :: Precedes(keys[j], key)
    {
      i := i + 1;
    }
    if i < |keys| && keys[i] == key {
      return keys;
    }
    InsertKeepsOrder(keys, i, key);
    more := keys[..i] + [key] + keys[i..];
    assert forall k :: k in keys <==> k in keys[..i] || k in keys[i..] by { assert keys == keys[..i] + keys[i..]; }
  }

  /** Handles a route RPC that came in on a socket and carries out what it asks for. */
  method ReceiveSync(pm: PeerManager, sockets: seq<SocketId>, atts: map<SocketId, Attachment>, s: SocketId,
                     req: Option<SyncRequest>, now: Millis) returns (replies: seq<SyncResponse>, sent: seq<Delivery>)
    requires pm.Valid() && s in sockets && forall t | t in sockets :: t in atts
    modifies pm.Repr
    ensures pm.Valid() && fresh(pm.Repr - old(pm.Repr))
    ensures SyncResult(old(pm.State()), pm.draws, Caller(s, sockets, atts), req, now, pm.State(), sent)
    ensures replies == SyncReplies(old(pm.State()), pm.draws, atts[s], req)
  {
    var att := atts[s];
    ghost var g := Lookup(pm.State(), pm.draws, att.groupKey);
    var ctx, actions := HandleSyncRouteInfo(ContextOf(att), pm, req, now);
    if req.Some? {
      SyncRepliesOnce(g, ContextOf(att), req.value, now);
    }
    replies, sent := Perform(pm, Caller(s, sockets, atts), actions, now);
  }

  /** Takes a closing socket's peer out of its group, unless another socket stands for the same peer. */
  method Leave(pm: PeerManager, sockets: seq<SocketId>, atts: map<SocketId, Attachment>, s: SocketId, now: Millis)
    returns (sent: seq<Delivery>)
    requires pm.Valid() && s in sockets && forall t | t in sockets :: t in atts
    modifies pm.Repr
    ensures pm.Valid() && fresh(pm.Repr - old(pm.Repr))
    ensures LeaveResult(old(pm.State()), pm.draws, Caller(s, sockets, atts), now, pm.State(), sent)
  {
    var att := atts[s];
    if att.peerId == 0 {
      return [];
    }
    var hasOther := false;
    for i := 0 to |sockets|
      invariant hasOther == StandsElsewhere(sockets[..i], atts, att)
    {
      assert sockets[..i + 1] == sockets[..i] + [sockets[i]];
      var other := atts[sockets[i]];
      if other.peerId == att.peerId && other.serverSessionId != att.serverSessionId {
        hasOther := true;
      }
    }
    assert sockets[..|sockets|] == sockets;
    if hasOther {
      return [];
    }
    var removed := pm.RemovePeer(att.groupKey, att.peerId, now);
    sent := SendUpdates(pm, sockets, atts, att.groupKey, att.peerId, now);
  }

  /** Cleans up and then refreshes the given groups. */
  method Refresh(pm: PeerManager, sockets: seq<SocketId>, atts: map<SocketId, Attachment>, keys: seq<string>,
                 now: Millis)
    returns (sent: seq<Delivery>)
    requires pm.Valid() && forall s | s in sockets :: s in atts
    modifies pm.Repr
    ensures pm.Valid() && fresh(pm.Repr - old(pm.Repr))
    ensures var cleaned := ApplyOps(old(pm.State()), pm.draws, CleanupOps(keys, now));
            && pm.State() == ApplyOps(cleaned, pm.draws, RefreshOps(sockets, atts, keys, now))
            && sent == RefreshDeliveries(cleaned, pm.draws, sockets, atts, keys, now)
  {
    CleanUpGroups(pm, keys, now);
    sent := RefreshGroups(pm, sockets, atts, keys, now);
  }

  // ---- the room ----

  class RelayRoom {
    const draws: string -> nat
    var sockets: seq<SocketId>
    var atts: map<SocketId, Attachment>
    var pm: PeerManager
    var registry: DigestRegistry

    ghost predicate Valid()
      reads this, pm, pm.Repr
    {
      pm.Valid() && pm.draws == draws && this !in pm.Repr && registry !in pm.Repr
    }

    ghost function State(): Room
      requires Valid()
      reads this, pm, pm.Repr, registry
    {
      Room(sockets, atts, pm.State(), registry.digests)
    }

    constructor (draws: string -> nat)
      ensures Valid() && fresh(pm.Repr) && fresh(registry) && this.draws == draws
      ensures State() == EMPTY_ROOM
    {
      this.draws := draws;
      sockets, atts := [], map[];
      pm := new PeerManager(draws);
      registry := new DigestRegistry();
    }

    /** A client has opened a socket. */
    method Fetch(s: SocketId, ssid: SessionId, now: Millis)
      requires Valid() && WellFormed(State()) && Enabled(State(), Accept(s, ssid, now))
      modifies this
      ensures Valid() && pm == old(pm) && registry == old(registry)
      ensures Performs(old(State()), draws, Accept(s, ssid, now), State(), [])
    {
      hide Performs;
      AcceptRoom(State(), draws, s, ssid, now);
      sockets := sockets + [s];
      atts := atts[s := Attachment(0, "", "", ssid, false, now)];
    }

    /** A handshake packet, decoded if it can be. */
    method OnHandshake(s: SocketId, shake: Option<HandshakeRequest>, now: Millis)
      returns (reply: Option<HandshakePacket>, sent: seq<Delivery>)
      requires Valid() && WellFormed(State()) && Enabled(State(), Shake(s, shake, now))
      modifies this, registry, pm.Repr
      ensures Valid() && pm == old(pm) && registry == old(registry) && fresh(pm.Repr - old(pm.Repr))
      ensures Performs(old(State()), draws, Shake(s, shake, now), State(), sent)
      ensures reply == HandshakeReply(ShakeOutcome(old(State()), shake))
    {
      hide Performs, ShakeResult;
      ghost var room := State();
      atts, reply, sent := ReceiveHandshake(pm, registry, sockets, atts, s, shake, now);
      ShakeRoom(room, draws, s, shake, now, State(), sent);
    }

    /** An RPC request to the relay itself; the body is None when it does not decode. */
    method OnRpcRequest(s: SocketId, req: Option<SyncRequest>, now: Millis)
      returns (replies: seq<SyncResponse>, sent: seq<Delivery>)
      requires Valid() && WellFormed(State()) && Enabled(State(), Sync(s, req, now))
      modifies this, pm.Repr
      ensures Valid() && pm == old(pm) && registry == old(registry) && fresh(pm.Repr - old(pm.Repr))
      ensures Performs(old(State()), draws, Sync(s, req, now), State(), sent)
      ensures replies == SyncReplies(old(State()).groups, draws, old(State()).atts[s], req)
    {
      hide Performs, SyncResult;
      ghost var room := State();
      replies, sent := ReceiveSync(pm, sockets, atts, s, req, now);
      atts := atts[s := atts[s].(lastSeen := now)];
      SyncRoom(room, draws, s, req, now, State(), sent);
    }

    /** An RPC response to the relay itself. */
    method OnRpcResponse(s: SocketId, from: PeerId, sid: SessionId, now: Millis)
      requires Valid() && WellFormed(State()) && Enabled(State(), SyncAnswer(s, from, sid, now))
      modifies this, pm.Repr
      ensures Valid() && pm == old(pm) && registry == old(registry) && fresh(pm.Repr - old(pm.Repr))
      ensures Performs(old(State()), draws, SyncAnswer(s, from, sid, now), State(), [])
    {
      hide Performs, Acked;
      ghost var room := State();
      var att := atts[s];
      HandleRpcResp(ContextOf(att), pm, from, sid, now);
      atts := atts[s := att.(lastSeen := now)];
      AnswerDone(room, draws, s, from, sid, now, pm.State());
    }

    /** Any other packet. */
    method OnOtherPacket(s: SocketId, now: Millis)
      requires Valid() && WellFormed(State()) && Enabled(State(), Hear(s, now))
      modifies this
      ensures Valid() && pm == old(pm) && registry == old(registry)
      ensures Performs(old(State()), draws, Hear(s, now), State(), [])
    {
      hide Performs;
      HearRoom(State(), draws, s, now);
      atts := atts[s := atts[s].(lastSeen := now)];
    }

    /** A socket was closed or failed; it is gone afterwards. */
    method WebsocketClose(s: SocketId, now: Millis) returns (sent: seq<Delivery>)
      requires Valid() && WellFormed(State()) && Enabled(State(), Close(s, now))
      modifies this, pm.Repr
      ensures Valid() && pm == old(pm) && registry == old(registry) && fresh(pm.Repr - old(pm.Repr))
      ensures Performs(old(State()), draws, Close(s, now), State(), sent)
    {
      hide Performs, LeaveResult, SocketsLeft;
      ghost var room := State();
      sent := Leave(pm, sockets, atts, s, now);
      sockets, atts := SocketsLeft(sockets, s), atts - {s};
      CloseRoom(room, draws, s, now, State(), sent);
    }

    /** The periodic alarm; `keys` are the groups it visits. */
    method OnAlarm(now: Millis) returns (keys: seq<string>, sent: seq<Delivery>)
      requires Valid() && WellFormed(State())
      modifies pm.Repr
      ensures Valid() && fresh(pm.Repr - old(pm.Repr)) && Enabled(old(State()), Alarm(keys, now))
      ensures Performs(old(State()), draws, Alarm(keys, now), State(), sent)
    {
      hide Performs, ApplyOps, RefreshOps, CleanupOps, RefreshDeliveries;
      ghost var room := State();
      keys := AliveGroups(sockets, atts, now);
      sent := Refresh(pm, sockets, atts, keys, now);
      AlarmDone(room, draws, keys, now, pm.State(), sent);
    }

    /** The object is set up again around the sockets it had; a new isolate has lost all else. */
    method Restart(isolateIsNew: bool)
      requires Valid() && WellFormed(State())
      modifies this, pm.Repr
      ensures Valid() && fresh(pm.Repr - old(pm.Repr)) && (registry == old(registry) || fresh(registry))
      ensures Performs(old(State()), draws, RoomModel.Restart(isolateIsNew), State(), [])
    {
      hide Performs, ApplyOps, RestartOps;
      RestartRoom(State(), draws, isolateIsNew);
      if isolateIsNew {
        pm := new PeerManager(draws);
        registry := new DigestRegistry();
      }
      RestorePeers(pm, sockets, atts);
    }
  }
}
