/** How the imperative steps of a room add up to the lists of group operations that describe them. */
module RoomSteps {
  import opened Orders
  import opened Collections
  import opened Wire
  import opened RouteModel
  import opened SyncRpc
  import opened PeerManager
  import opened Handshake
  import opened RpcHandler
  import opened RoomModel

  lemma BroadcastOneMore(groups: Groups, draws: string -> nat, sockets: seq<SocketId>, i: nat,
                         atts: map<SocketId, Attachment>,
                         key: string, excluded: PeerId, now: Millis)
    requires i < |sockets| && forall s | s in sockets :: s in atts
    ensures var s, before := sockets[i], BroadcastGroups(groups, draws, sockets[..i], atts, key, excluded, now);
            var sent := BroadcastDeliveries(groups, draws, sockets[..i], atts, key, excluded, now);
            && BroadcastGroups(groups, draws, sockets[..i + 1], atts, key, excluded, now) ==
               (if IsReached(atts[s], key, excluded) then UpdateBuilt(before, draws, atts[s], now) else before)
            && BroadcastDeliveries(groups, draws, sockets[..i + 1], atts, key, excluded, now) ==
               (if IsReached(atts[s], key, excluded)
                then sent + [Delivery(s, atts[s].peerId, UpdateFor(before, draws, atts[s], now))] else sent)
  {
    assert sockets[..i + 1][..i] == sockets[..i];
  }

  // ---- handshakes ----

  function Arrived(g: Group, p: PeerId, now: Millis): Group {
    MyInfoBumped(InfoUpdated(MyInfoBumped(PeerAdded(g, p)), p, HandshakeInfo(p, now)))
  }

  lemma ArrivalIsRun(g: Group, p: PeerId, now: Millis)
    ensures Run(g, ArrivalEvents(p, now)) == Arrived(g, p, now)
  {
    var added := Run(g, AddEvents(p));
    AddingIsRun(g, p);
    RunAppend(g, AddEvents(p), UpdateInfo(HandshakeInfo(p, now)));
    RunAppend(g, AddEvents(p) + [UpdateInfo(HandshakeInfo(p, now))], BumpMyInfo);
    assert AddEvents(p) + [UpdateInfo(HandshakeInfo(p, now))] + [BumpMyInfo] == ArrivalEvents(p, now);
  }

  lemma WelcomeIsRun(g: Group, att: Attachment, now: Millis)
    ensures Run(g, WelcomeEvents(att, now)) ==
            Built(Arrived(g, att.peerId, now), att.peerId, att.serverSessionId, true, now)
  {
    ArrivalIsRun(g, att.peerId, now);
    RunAppend(g, ArrivalEvents(att.peerId, now), Build(att.peerId, att.serverSessionId, att.weAreInitiator, true, now));
    ApplyBuild(Arrived(g, att.peerId, now), att.peerId, att.serverSessionId, att.weAreInitiator, true, now);
  }

  /** The entry of the group after each of the steps of an arrival. */
  lemma ArrivalStages(groups: Groups, draws: string -> nat, key: string, p: PeerId, now: Millis)
    ensures var g, info := Lookup(groups, draws, key), HandshakeInfo(p, now);
            var added := MyInfoBumped(PeerAdded(g, p));
            && Lookup(groups[key := added], draws, key) == added
            && groups[key := added][key := InfoUpdated(added, p, info)] == groups[key := InfoUpdated(added, p, info)]
            && Lookup(groups[key := InfoUpdated(added, p, info)], draws, key) == InfoUpdated(added, p, info)
            && groups[key := InfoUpdated(added, p, info)][key := Arrived(g, p, now)] ==
              groups[key := Arrived(g, p, now)]
  {
    var added := MyInfoBumped(PeerAdded(Lookup(groups, draws, key), p));
    var informed := InfoUpdated(added, p, HandshakeInfo(p, now));
    OverwriteTwice(groups, key, added, informed);
    OverwriteTwice(groups, key, informed, MyInfoBumped(informed));
  }

  lemma WelcomeStages(groups: Groups, draws: string -> nat, att: Attachment, now: Millis)
    ensures var arrived := Arrived(Lookup(groups, draws, att.groupKey), att.peerId, now);
            && Lookup(groups[att.groupKey := arrived], draws, att.groupKey) == arrived
            && groups[att.groupKey := arrived][att.groupKey :=
                                               Built(arrived, att.peerId, att.serverSessionId, true, now)] ==
               ApplyOps(groups, draws, OpsAt(att.groupKey, WelcomeEvents(att, now)))
  {
    var g := Lookup(groups, draws, att.groupKey);
    var arrived := Arrived(g, att.peerId, now);
    OverwriteTwice(groups, att.groupKey, arrived, Built(arrived, att.peerId, att.serverSessionId, true, now));
    WelcomeIsRun(g, att, now);
    OpsAtIsRun(groups, draws, att.groupKey, WelcomeEvents(att, now));
  }

  /** An accepted handshake: the newcomer's operations, then the broadcast. */
  lemma ShakeIsOps(room: Room, draws: string -> nat, s: SocketId, shake: Option<HandshakeRequest>, now: Millis)
    requires WellFormed(room) && s in room.sockets && ShakeOutcome(room, shake).Some?
    ensures var step := Shake(s, shake, now);
            var atts := AttsAfter(room, step);
            var welcomed := ApplyOps(room.groups, draws, OpsAt(atts[s].groupKey, WelcomeEvents(atts[s], now)));
            RoomAfter(room, draws, step).groups ==
            BroadcastGroups(welcomed, draws, room.sockets, atts, atts[s].groupKey, 0, now)
  {
    var atts := AttsAfter(room, Shake(s, shake, now));
    var welcome := OpsAt(atts[s].groupKey, WelcomeEvents(atts[s], now));
    ApplyConcat(room.groups, draws, welcome, BroadcastOps(room.sockets, atts, atts[s].groupKey, 0, now));
    BroadcastIsOps(ApplyOps(room.groups, draws, welcome), draws, room.sockets, atts, atts[s].groupKey, 0, now);
  }

  function HandshakeReply(outcome: Option<Outcome>): Option<HandshakePacket> {
    match outcome case None => None case Some(o) => Some(o.reply)
  }

  ghost predicate ShakeResult(room: Room, draws: string -> nat, s: SocketId, shake: Option<HandshakeRequest>,
                              now: Millis,
                              after: Room, sent: seq<Delivery>)
    requires s in room.sockets && forall t | t in room.sockets :: t in room.atts
  {
    var outcome, att := ShakeOutcome(room, shake), room.atts[s].(lastSeen := now);
    if outcome == None then
      after == Room(room.sockets, room.atts[s := att], room.groups, DigestsAt(room, Shake(s, shake, now))) && sent == []
    else
      var att' := ShakenAttachment(att, outcome.value, now);
      var atts := room.atts[s := att'];
      var welcomed := ApplyOps(room.groups, draws, OpsAt(att'.groupKey, WelcomeEvents(att', now)));
      && after == Room(room.sockets, atts, BroadcastGroups(welcomed, draws, room.sockets, atts, att'.groupKey, 0, now),
                       DigestsAt(room, Shake(s, shake, now)))
      && sent == BroadcastDeliveries(welcomed, draws, room.sockets, atts, att'.groupKey, 0, now)
  }

  lemma ShakeRoom(room: Room, draws: string -> nat, s: SocketId, shake: Option<HandshakeRequest>, now: Millis,
                  after: Room, sent: seq<Delivery>)
    requires WellFormed(room) && s in room.sockets && ShakeResult(room, draws, s, shake, now, after, sent)
    ensures Performs(room, draws, Shake(s, shake, now), after, sent)
  {
    if ShakeOutcome(room, shake).Some? {
      ShakeIsOps(room, draws, s, shake, now);
    }
  }

  // ---- restarts ----

  lemma AddingIsRun(g: Group, p: PeerId)
    ensures Run(g, AddEvents(p)) == MyInfoBumped(PeerAdded(g, p))
  {
    RunAppend(g, [], AddPeer(p));
    RunAppend(g, [AddPeer(p)], BumpMyInfo);
    assert [] + [AddPeer(p)] == [AddPeer(p)];
    assert [AddPeer(p)] + [BumpMyInfo] == AddEvents(p);
  }

  lemma RestartNone(groups: Groups, draws: string -> nat, atts: map<SocketId, Attachment>)
    ensures ApplyOps(groups, draws, RestartOps(groups, draws, [], atts)) == groups
  {
  }

  lemma RestartOneMore(groups: Groups, draws: string -> nat, sockets: seq<SocketId>, i: nat,
                       atts: map<SocketId, Attachment>)
    requires i < |sockets| && forall s | s in sockets :: s in atts
    ensures var att, before := atts[sockets[i]], ApplyOps(groups, draws, RestartOps(groups, draws, sockets[..i], atts));
            ApplyOps(groups, draws, RestartOps(groups, draws, sockets[..i + 1], atts)) ==
            if att.peerId != 0 && att.peerId !in PeersAt(before, att.groupKey)
            then before[att.groupKey := MyInfoBumped(PeerAdded(Lookup(before, draws, att.groupKey), att.peerId))]
            else before
  {
    var att, ops := atts[sockets[i]], RestartOps(groups, draws, sockets[..i], atts);
    var before := ApplyOps(groups, draws, ops);
    assert sockets[..i + 1][..i] == sockets[..i];
    ApplyConcat(groups, draws, ops, OpsAt(att.groupKey, AddEvents(att.peerId)));
    OpsAtIsRun(before, draws, att.groupKey, AddEvents(att.peerId));
    AddingIsRun(Lookup(before, draws, att.groupKey), att.peerId);
  }

  // ---- the actions of an RPC ----

  /** The socket that an RPC came in on, among the sockets of its room. */
  datatype Caller = Caller(socket: SocketId, sockets: seq<SocketId>, atts: map<SocketId, Attachment>) {
    predicate Valid() {
      socket in sockets && forall s | s in sockets :: s in atts
    }
  }

  ghost function GroupsAfterAction(groups: Groups, draws: string -> nat, room: Caller, action: RpcAction,
                                   now: Millis): Groups
    requires room.Valid()
  {
    match action
    case SendTo(_, _) => groups
    case PushRouteUpdate(p, _) => UpdateBuilt(groups, draws, room.atts[room.socket].(peerId := p), now)
    case BroadcastRouteUpdate(key, excluded) =>
      BroadcastGroups(groups, draws, room.sockets, room.atts, key, excluded, now)
  }

  ghost function SentByAction(groups: Groups, draws: string -> nat, room: Caller, action: RpcAction,
                              now: Millis): seq<Delivery>
    requires room.Valid()
  {
    match action
    case SendTo(_, _) => []
    case PushRouteUpdate(p, _) =>
      [Delivery(room.socket, p, UpdateFor(groups, draws, room.atts[room.socket].(peerId := p), now))]
    case BroadcastRouteUpdate(key, excluded) =>
      BroadcastDeliveries(groups, draws, room.sockets, room.atts, key, excluded, now)
  }

  ghost function GroupsAfterActions(groups: Groups, draws: string -> nat, room: Caller, actions: seq<RpcAction>,
                                    now: Millis): Groups
    requires room.Valid()
  {
    if actions == [] then groups
    else GroupsAfterAction(GroupsAfterActions(groups, draws, room, actions[..|actions| - 1], now), draws, room,
                           actions[|actions| - 1], now)
  }

  ghost function SentByActions(groups: Groups, draws: string -> nat, room: Caller, actions: seq<RpcAction>,
                               now: Millis): seq<Delivery>
    requires room.Valid()
  {
    if actions == [] then []
    else
      var before := actions[..|actions| - 1];
      SentByActions(groups, draws, room, before, now) +
      SentByAction(GroupsAfterActions(groups, draws, room, before, now), draws, room, actions[|actions| - 1], now)
  }

  lemma ActionsOneMore(groups: Groups, draws: string -> nat, room: Caller, actions: seq<RpcAction>, i: nat, now: Millis)
    requires room.Valid() && i < |actions|
    ensures var before := GroupsAfterActions(groups, draws, room, actions[..i], now);
            && GroupsAfterActions(groups, draws, room, actions[..i + 1], now) ==
               GroupsAfterAction(before, draws, room, actions[i], now)
            && SentByActions(groups, draws, room, actions[..i + 1], now) ==
               SentByActions(groups, draws, room, actions[..i], now) +
               SentByAction(before, draws, room, actions[i], now)
  {
    assert actions[..i + 1][..i] == actions[..i];
  }

  /** The answers among the actions of an RPC. */
  function RepliesIn(actions: seq<RpcAction>): seq<SyncResponse> {
    if actions == [] then []
    else
      var last := actions[|actions| - 1];
      RepliesIn(actions[..|actions| - 1]) + (if last.SendTo? then [last.response] else [])
  }

  lemma RepliesOneMore(actions: seq<RpcAction>, i: nat)
    requires i < |actions|
    ensures RepliesIn(actions[..i + 1]) ==
            RepliesIn(actions[..i]) + (if actions[i].SendTo? then [actions[i].response] else [])
  {
    assert actions[..i + 1][..i] == actions[..i];
  }

  /** A request that decodes is answered once. */
  lemma SyncRepliesOnce(g: Group, ctx: Context, req: SyncRequest, now: Millis)
    ensures RepliesIn(SyncActions(g, ctx, req, now)) == [SyncReply(g, ctx.peerId, req)]
  {
    hide Broadcasts, SyncReply;
    var actions := SyncActions(g, ctx, req, now);
    RepliesOneMore(actions, 0);
    RepliesOneMore(actions, 1);
    if Broadcasts(g, ctx.peerId, req, now) {
      RepliesOneMore(actions, 2);
      assert actions[..3] == actions;
    } else {
      assert actions[..2] == actions;
    }
  }

  // ---- steps that need no more than their definition ----

  lemma AcceptRoom(room: Room, draws: string -> nat, s: SocketId, ssid: SessionId, now: Millis)
    requires WellFormed(room) && Enabled(room, Accept(s, ssid, now))
    ensures Performs(room, draws, Accept(s, ssid, now),
                     room.(sockets := room.sockets + [s], atts :=
                           room.atts[s := Attachment(0, "", "", ssid, false, now)]), [])
  {
  }

  lemma HearRoom(room: Room, draws: string -> nat, s: SocketId, now: Millis)
    requires WellFormed(room) && s in room.sockets
    ensures Performs(room, draws, Hear(s, now), room.(atts := room.atts[s := room.atts[s].(lastSeen := now)]), [])
  {
  }

  lemma RestartRoom(room: Room, draws: string -> nat, isolateIsNew: bool)
    requires WellFormed(room)
    ensures var kept := if isolateIsNew then map[] else room.groups;
            Performs(room, draws, Restart(isolateIsNew),
                     room.(groups := ApplyOps(kept, draws, RestartOps(kept, draws, room.sockets, room.atts)),
                           digests := if isolateIsNew then map[] else room.digests), [])
  {
  }

  // ---- alarms ----

  lemma CleanupOneMore(groups: Groups, draws: string -> nat, keys: seq<string>, i: nat, now: Millis)
    requires i < |keys|
    ensures var before := ApplyOps(groups, draws, CleanupOps(keys[..i], now));
            ApplyOps(groups, draws, CleanupOps(keys[..i + 1], now)) ==
            before[keys[i] := CleanedUp(Lookup(before, draws, keys[i]), STALE_P2P_THRESHOLD_MS, now)]
  {
    assert keys[..i + 1][..i] == keys[..i];
    ApplyOneMore(groups, draws, CleanupOps(keys[..i], now), Op(keys[i], Cleanup(STALE_P2P_THRESHOLD_MS, now)));
  }

  lemma RefreshOneMore(groups: Groups, draws: string -> nat, sockets: seq<SocketId>, atts: map<SocketId, Attachment>,
                       keys: seq<string>, i: nat, now: Millis)
    requires i < |keys| && forall s | s in sockets :: s in atts
    ensures var before := ApplyOps(groups, draws, RefreshOps(sockets, atts, keys[..i], now));
            && ApplyOps(groups, draws, RefreshOps(sockets, atts, keys[..i + 1], now)) ==
               BroadcastGroups(before, draws, sockets, atts, keys[i], 0, now)
            && RefreshDeliveries(groups, draws, sockets, atts, keys[..i + 1], now) ==
               RefreshDeliveries(groups, draws, sockets, atts, keys[..i], now) +
               BroadcastDeliveries(before, draws, sockets, atts, keys[i], 0, now)
  {
    assert keys[..i + 1][..i] == keys[..i];
    var ops := RefreshOps(sockets, atts, keys[..i], now);
    ApplyConcat(groups, draws, ops, BroadcastOps(sockets, atts, keys[i], 0, now));
    BroadcastIsOps(ApplyOps(groups, draws, ops), draws, sockets, atts, keys[i], 0, now);
  }

  lemma {:induction false} PrecedesIsTransitive(a: string, b: string, c: string)
    requires Precedes(a, b) && Precedes(b, c)
    ensures Precedes(a, c)
  {
    if a != [] && a[0] == b[0] == c[0] {
      PrecedesIsTransitive(a[1..], b[1..], c[1..]);
    }
  }

  lemma {:induction false} PrecedesIsTotal(a: string, b: string)
    ensures a == b || Precedes(a, b) || Precedes(b, a)
  {
    if a != [] && b != [] && a[0] == b[0] {
      PrecedesIsTotal(a[1..], b[1..]);
      assert a[1..] == b[1..] ==> a == [a[0]] + a[1..] == [b[0]] + b[1..] == b;
    }
  }

  lemma InsertKeepsOrder(keys: seq<string>, i: nat, key: string)
    requires InOrder(Precedes, keys) && i <= |keys| && forall j | 0 <= j < i :: Precedes(keys[j], key)
    requires i < |keys| ==> keys[i] != key && !Precedes(keys[i], key)
    ensures InOrder(Precedes, keys[..i] + [key] + keys[i..])
  {
    hide Precedes;
    if i < |keys| {
      PrecedesIsTotal(keys[i], key);
    }
    forall j | i <= j < |keys| ensures Precedes(key, keys[j]) {
      if i < j {
        PrecedesIsTransitive(key, keys[i], keys[j]);
      }
    }
  }

  lemma AliveOneMore(sockets: seq<SocketId>, s: SocketId, atts: map<SocketId, Attachment>, now: Millis)
    requires s in atts
    ensures AliveKeys(sockets + [s], atts, now) ==
            AliveKeys(sockets, atts, now) +
            (if IsAlive(atts[s], now) && atts[s].groupKey != "" then {atts[s].groupKey} else {})
  {
  }

  lemma AlarmRoom(room: Room, draws: string -> nat, keys: seq<string>, now: Millis)
    requires WellFormed(room) && Enabled(room, Alarm(keys, now))
    ensures var cleaned := ApplyOps(room.groups, draws, CleanupOps(keys, now));
            RoomAfter(room, draws, Alarm(keys, now)) ==
            room.(groups := ApplyOps(cleaned, draws, RefreshOps(room.sockets, room.atts, keys, now)))
  {
    ApplyConcat(room.groups, draws, CleanupOps(keys, now), RefreshOps(room.sockets, room.atts, keys, now));
  }

  lemma AlarmDone(room: Room, draws: string -> nat, keys: seq<string>, now: Millis, after: Groups, sent: seq<Delivery>)
    requires WellFormed(room) && Enabled(room, Alarm(keys, now))
    requires var cleaned := ApplyOps(room.groups, draws, CleanupOps(keys, now));
             && after == ApplyOps(cleaned, draws, RefreshOps(room.sockets, room.atts, keys, now))
             && sent == RefreshDeliveries(cleaned, draws, room.sockets, room.atts, keys, now)
    ensures Performs(room, draws, Alarm(keys, now), room.(groups := after), sent)
  {
    AlarmRoom(room, draws, keys, now);
  }

  // ---- requests, answers and closings ----

  function ContextOf(att: Attachment): Context {
    Context(att.peerId, att.groupKey, att.serverSessionId, att.weAreInitiator)
  }

  /** The answers to a request: none if it does not decode. */
  function SyncReplies(groups: Groups, draws: string -> nat, att: Attachment,
                       body: Option<SyncRequest>): seq<SyncResponse> {
    match body
    case None => []
    case Some(req) => [SyncReply(Lookup(groups, draws, att.groupKey), att.peerId, req)]
  }

  ghost predicate SyncResult(groups: Groups, draws: string -> nat, room: Caller, body: Option<SyncRequest>, now: Millis,
                             after: Groups, sent: seq<Delivery>)
    requires room.Valid()
  {
    var att := room.atts[room.socket];
    if body == None then after == groups && sent == []
    else
      var g := Lookup(groups, draws, att.groupKey);
      var synced := groups[att.groupKey := Synced(g, att.peerId, body.value, now)];
      var actions := SyncActions(g, ContextOf(att), body.value, now);
      && after == GroupsAfterActions(synced, draws, room, actions, now)
      && sent == SentByActions(synced, draws, room, actions, now)
  }

  lemma OneAction(groups: Groups, draws: string -> nat, room: Caller, a: RpcAction, now: Millis)
    requires room.Valid()
    ensures GroupsAfterActions(groups, draws, room, [a], now) == GroupsAfterAction(groups, draws, room, a, now)
    ensures SentByActions(groups, draws, room, [a], now) == SentByAction(groups, draws, room, a, now)
  {
    assert [a][..0] == [];
  }

  /** An answer and a push send one update, to the sender. */
  lemma PushDone(groups: Groups, draws: string -> nat, room: Caller, reply: SyncResponse, now: Millis)
    requires room.Valid()
    ensures var att := room.atts[room.socket];
            var actions := [SendTo(att.peerId, reply), PushRouteUpdate(att.peerId, att.groupKey)];
            && GroupsAfterActions(groups, draws, room, actions, now) == UpdateBuilt(groups, draws, att, now)
            && SentByActions(groups, draws, room, actions, now) ==
               [Delivery(room.socket, att.peerId, UpdateFor(groups, draws, att, now))]
  {
    hide UpdateBuilt, UpdateFor;
    var att := room.atts[room.socket];
    assert att.(peerId := att.peerId) == att;
    OneAction(groups, draws, room, SendTo(att.peerId, reply), now);
    LastAction(groups, draws, room, [SendTo(att.peerId, reply)], PushRouteUpdate(att.peerId, att.groupKey), now);
  }

  /** The push to the sender is the only update, unless there is a broadcast. */
  lemma SyncActionsDone(groups: Groups, draws: string -> nat, room: Caller, g: Group, req: SyncRequest, now: Millis)
    requires room.Valid()
    ensures var att := room.atts[room.socket];
            var actions := SyncActions(g, ContextOf(att), req, now);
            var pushed := UpdateBuilt(groups, draws, att, now);
            && GroupsAfterActions(groups, draws, room, actions, now) ==
               (if Broadcasts(g, att.peerId, req, now)
                then BroadcastGroups(pushed, draws, room.sockets, room.atts, att.groupKey, att.peerId, now) else pushed)
            && SentByActions(groups, draws, room, actions, now) ==
               [Delivery(room.socket, att.peerId, UpdateFor(groups, draws, att, now))] +
               (if Broadcasts(g, att.peerId, req, now)
                then BroadcastDeliveries(pushed, draws, room.sockets, room.atts, att.groupKey, att.peerId, now) else [])
  {
    hide UpdateBuilt, UpdateFor, Broadcasts, GroupsAfterActions, SentByActions;
    var att := room.atts[room.socket];
    var reply := SyncReply(g, att.peerId, req);
    var pushing := [SendTo(att.peerId, reply), PushRouteUpdate(att.peerId, att.groupKey)];
    PushDone(groups, draws, room, reply, now);
    assert pushing + [] == pushing;
    LastAction(groups, draws, room, pushing, BroadcastRouteUpdate(att.groupKey, att.peerId), now);
  }

  lemma LastAction(groups: Groups, draws: string -> nat, room: Caller, actions: seq<RpcAction>, last: RpcAction,
                   now: Millis)
    requires room.Valid()
    ensures var before := GroupsAfterActions(groups, draws, room, actions, now);
            && GroupsAfterActions(groups, draws, room, actions + [last], now) ==
              GroupsAfterAction(before, draws, room, last, now)
            && SentByActions(groups, draws, room, actions + [last], now) ==
               SentByActions(groups, draws, room, actions, now) + SentByAction(before, draws, room, last, now)
  {
    assert (actions + [last])[..|actions|] == actions;
  }

  /** The operations of a request before any broadcast: handling it, and the push to the sender. */
  lemma SyncedAndPushed(groups: Groups, draws: string -> nat, att: Attachment, req: SyncRequest, now: Millis)
    ensures var handled := OpsAt(att.groupKey, SyncEvents(att.peerId, req, now));
            var synced := groups[att.groupKey := Synced(Lookup(groups, draws, att.groupKey), att.peerId, req, now)];
            && ApplyOps(groups, draws, handled) == synced
            && ApplyOps(groups, draws, handled + [UpdateOp(att, now)]) == UpdateBuilt(synced, draws, att, now)
  {
    var events := SyncEvents(att.peerId, req, now);
    SyncIsRun(Lookup(groups, draws, att.groupKey), att.peerId, req, now);
    OpsAtIsRun(groups, draws, att.groupKey, events);
    ApplyOneMore(groups, draws, OpsAt(att.groupKey, events), UpdateOp(att, now));
    AppliedUpdate(ApplyOps(groups, draws, OpsAt(att.groupKey, events)), draws, att, now);
  }

  lemma SyncIsOps(room: Room, draws: string -> nat, s: SocketId, req: SyncRequest, now: Millis)
    requires WellFormed(room) && s in room.sockets
    ensures var att := room.atts[s];
            var g := Lookup(room.groups, draws, att.groupKey);
            var pushed := UpdateBuilt(room.groups[att.groupKey := Synced(g, att.peerId, req, now)], draws, att, now);
            ApplyOps(room.groups, draws, Ops(room, draws, Sync(s, Some(req), now))) ==
            if Broadcasts(g, att.peerId, req, now)
            then BroadcastGroups(pushed, draws, room.sockets, room.atts, att.groupKey, att.peerId, now) else pushed
  {
    hide UpdateBuilt, Broadcasts, Synced, OpsAt, BroadcastOps, BroadcastGroups, SyncEvents, ApplyOps;
    var att := room.atts[s];
    var pushing := OpsAt(att.groupKey, SyncEvents(att.peerId, req, now)) + [UpdateOp(att, now)];
    SyncedAndPushed(room.groups, draws, att, req, now);
    ApplyConcat(room.groups, draws, pushing, BroadcastOps(room.sockets, room.atts, att.groupKey, att.peerId, now));
    BroadcastIsOps(ApplyOps(room.groups, draws, pushing), draws, room.sockets, room.atts, att.groupKey, att.peerId,
                   now);
    assert pushing + [] == pushing;
  }

  lemma SyncSends(room: Room, draws: string -> nat, s: SocketId, req: SyncRequest, now: Millis)
    requires WellFormed(room) && s in room.sockets
    ensures var att := room.atts[s];
            var g := Lookup(room.groups, draws, att.groupKey);
            var synced := room.groups[att.groupKey := Synced(g, att.peerId, req, now)];
            Deliveries(room, draws, Sync(s, Some(req), now)) ==
            [Delivery(s, att.peerId, UpdateFor(synced, draws, att, now))] +
            (if Broadcasts(g, att.peerId, req, now)
             then BroadcastDeliveries(UpdateBuilt(synced, draws, att, now), draws, room.sockets, room.atts,
                                      att.groupKey, att.peerId, now) else [])
  {
    hide UpdateBuilt, Broadcasts, Synced, OpsAt, SyncEvents, ApplyOps, BroadcastDeliveries, UpdateFor;
    SyncedAndPushed(room.groups, draws, room.atts[s], req, now);
  }

  lemma SyncParts(room: Room, draws: string -> nat, s: SocketId, body: Option<SyncRequest>, now: Millis,
                  after: Groups, sent: seq<Delivery>)
    requires WellFormed(room) && s in room.sockets
    requires SyncResult(room.groups, draws, Caller(s, room.sockets, room.atts), body, now, after, sent)
    ensures after == ApplyOps(room.groups, draws, Ops(room, draws, Sync(s, body, now)))
    ensures sent == Deliveries(room, draws, Sync(s, body, now))
  {
    if body.Some? {
      var att := room.atts[s];
      var g := Lookup(room.groups, draws, att.groupKey);
      SyncActionsDone(room.groups[att.groupKey := Synced(g, att.peerId, body.value, now)], draws,
                      Caller(s, room.sockets, room.atts), g, body.value, now);
      SyncIsOps(room, draws, s, body.value, now);
      SyncSends(room, draws, s, body.value, now);
    }
  }

  lemma SyncRoom(room: Room, draws: string -> nat, s: SocketId, body: Option<SyncRequest>, now: Millis, after: Room,
                 sent: seq<Delivery>)
    requires WellFormed(room) && s in room.sockets
    requires SyncResult(room.groups, draws, Caller(s, room.sockets, room.atts), body, now, after.groups, sent)
    requires after == room.(atts := room.atts[s := room.atts[s].(lastSeen := now)], groups := after.groups)
    ensures Performs(room, draws, Sync(s, body, now), after, sent)
  {
    SyncParts(room, draws, s, body, now, after.groups, sent);
  }

  lemma AckApplied(groups: Groups, draws: string -> nat, key: string, from: PeerId, sid: SessionId,
                   weAreInitiator: bool, now: Millis)
    ensures ApplyOps(groups, draws, [Op(key, Ack(from, sid, weAreInitiator, now))]) ==
            groups[key := Acked(Lookup(groups, draws, key), from, sid, weAreInitiator, now)]
  {
    var op := Op(key, Ack(from, sid, weAreInitiator, now));
    ApplyOneMore(groups, draws, [], op);
    assert [] + [op] == [op];
  }

  lemma AnswerRoom(room: Room, draws: string -> nat, s: SocketId, from: PeerId, sid: SessionId, now: Millis)
    requires WellFormed(room) && s in room.sockets
    ensures var att := room.atts[s];
            RoomAfter(room, draws, SyncAnswer(s, from, sid, now)) ==
            room.(atts := room.atts[s := att.(lastSeen := now)],
                  groups := if sid == 0 then room.groups
                            else room.groups[att.groupKey := Acked(Lookup(room.groups, draws, att.groupKey), from, sid,
                                                                   att.weAreInitiator, now)])
  {
    var att := room.atts[s];
    AckApplied(room.groups, draws, att.groupKey, from, sid, att.weAreInitiator, now);
  }

  lemma AnswerDone(room: Room, draws: string -> nat, s: SocketId, from: PeerId, sid: SessionId, now: Millis,
                   after: Groups)
    requires WellFormed(room) && s in room.sockets
    requires var att := room.atts[s];
             after == if sid == 0 then room.groups
                      else room.groups[att.groupKey := Acked(Lookup(room.groups, draws, att.groupKey), from, sid,
                                                             att.weAreInitiator, now)]
    ensures Performs(room, draws, SyncAnswer(s, from, sid, now),
                     room.(atts := room.atts[s := room.atts[s].(lastSeen := now)], groups := after), [])
  {
    AnswerRoom(room, draws, s, from, sid, now);
  }

  ghost predicate LeaveResult(groups: Groups, draws: string -> nat, room: Caller, now: Millis, after: Groups,
                              sent: seq<Delivery>)
    requires room.Valid()
  {
    var att := room.atts[room.socket];
    if att.peerId == 0 || StandsElsewhere(room.sockets, room.atts, att) then after == groups && sent == []
    else
      var left := groups[att.groupKey := PeerRemoved(Lookup(groups, draws, att.groupKey), att.peerId, now)];
      && after == BroadcastGroups(left, draws, room.sockets, room.atts, att.groupKey, att.peerId, now)
      && sent == BroadcastDeliveries(left, draws, room.sockets, room.atts, att.groupKey, att.peerId, now)
  }

  /** A closing that takes a peer out of its group: the removal, then the broadcast. */
  lemma CloseIsOps(room: Room, draws: string -> nat, s: SocketId, now: Millis)
    requires WellFormed(room) && s in room.sockets
    requires room.atts[s].peerId != 0 && !HasOtherConnection(room, room.atts[s])
    ensures var att := room.atts[s];
            var left := ApplyOps(room.groups, draws, [Op(att.groupKey, RemovePeer(att.peerId, now))]);
            && left == room.groups[att.groupKey :=
                                   PeerRemoved(Lookup(room.groups, draws, att.groupKey), att.peerId, now)]
            && RoomAfter(room, draws, Close(s, now)).groups ==
               BroadcastGroups(left, draws, room.sockets, room.atts, att.groupKey, att.peerId, now)
            && Deliveries(room, draws, Close(s, now)) ==
               BroadcastDeliveries(left, draws, room.sockets, room.atts, att.groupKey, att.peerId, now)
  {
    var att := room.atts[s];
    var leaving := Op(att.groupKey, RemovePeer(att.peerId, now));
    ApplyOneMore(room.groups, draws, [], leaving);
    assert [] + [leaving] == [leaving];
    ApplyConcat(room.groups, draws, [leaving], BroadcastOps(room.sockets, room.atts, att.groupKey, att.peerId, now));
    BroadcastIsOps(ApplyOp(room.groups, draws, leaving), draws, room.sockets, room.atts, att.groupKey, att.peerId, now);
  }

  lemma CloseOfNobody(room: Room, draws: string -> nat, s: SocketId, now: Millis)
    requires WellFormed(room) && s in room.sockets
    requires room.atts[s].peerId == 0 || HasOtherConnection(room, room.atts[s])
    ensures RoomAfter(room, draws, Close(s, now)).groups == room.groups && Deliveries(room, draws, Close(s, now)) == []
  {
  }

  lemma CloseRoom(room: Room, draws: string -> nat, s: SocketId, now: Millis, after: Room, sent: seq<Delivery>)
    requires WellFormed(room) && s in room.sockets
    requires LeaveResult(room.groups, draws, Caller(s, room.sockets, room.atts), now, after.groups, sent)
    requires after == Room(SocketsLeft(room.sockets, s), room.atts - {s}, after.groups, room.digests)
    ensures Performs(room, draws, Close(s, now), after, sent)
  {
    var att := room.atts[s];
    if att.peerId != 0 && !HasOtherConnection(room, att) {
      CloseIsOps(room, draws, s, now);
    }
  }
}
