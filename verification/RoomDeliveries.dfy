/**
 * Who is sent an update in each step of a room, once each, and what it says: the step first changes the
 * groups, then serves its recipients one after the other.
 */
module RoomDeliveries {
  import opened Collections
  import opened Wire
  import opened RouteModel
  import opened Invariants
  import opened GraphTheorems
  import opened SyncRpc
  import opened PeerManager
  import opened Handshake
  import opened RoomModel
  import opened RoomSteps
  import opened RoomTheorems
  import opened RoomGroups
  import opened RoomCoherence
  import opened RoomCurrency
  import opened RoomAlarms
  import opened RoomSockets

  // ---- serving a list of sockets ----

  function ServedOps(atts: map<SocketId, Attachment>, ss: seq<SocketId>, now: Millis): seq<Op>
    requires forall s | s in ss :: s in atts
  {
    if ss == [] then [] else ServedOps(atts, ss[..|ss| - 1], now) + [UpdateOp(atts[ss[|ss| - 1]], now)]
  }

  ghost function Served(groups: Groups, draws: string -> nat, atts: map<SocketId, Attachment>, ss: seq<SocketId>,
                        now: Millis): seq<Delivery>
    requires forall s | s in ss :: s in atts
  {
    if ss == [] then []
    else
      var before, s := ss[..|ss| - 1], ss[|ss| - 1];
      var groups' := ApplyOps(groups, draws, ServedOps(atts, before, now));
      Served(groups, draws, atts, before, now) +
      [Delivery(s, atts[s].peerId, UpdateFor(groups', draws, atts[s], now))]
  }

  lemma ServesNobody(groups: Groups, draws: string -> nat, atts: map<SocketId, Attachment>, now: Millis)
    ensures Served(groups, draws, atts, [], now) == [] && ServedOps(atts, [], now) == []
    ensures ApplyOps(groups, draws, []) == groups
  {
  }

  lemma ServedOneMore(groups: Groups, draws: string -> nat, atts: map<SocketId, Attachment>, ss: seq<SocketId>,
                      s: SocketId, now: Millis)
    requires forall t | t in ss + [s] :: t in atts
    ensures s in atts && forall t | t in ss :: t in atts
    ensures ServedOps(atts, ss + [s], now) == ServedOps(atts, ss, now) + [UpdateOp(atts[s], now)]
    ensures var groups' := ApplyOps(groups, draws, ServedOps(atts, ss, now));
            Served(groups, draws, atts, ss + [s], now) ==
            Served(groups, draws, atts, ss, now) +
            [Delivery(s, atts[s].peerId, UpdateFor(groups', draws, atts[s], now))]
  {
    hide UpdateOp, UpdateFor, ApplyOps;
    assert (ss + [s])[..|ss|] == ss;
    assert forall t | t in ss :: t in ss + [s];
    assert s in ss + [s];
  }

  lemma {:induction false} ServedConcat(groups: Groups, draws: string -> nat, atts: map<SocketId, Attachment>,
                                        a: seq<SocketId>, b: seq<SocketId>, now: Millis)
    requires forall s | s in a + b :: s in atts
    ensures (forall s | s in a :: s in atts) && forall s | s in b :: s in atts
    ensures ServedOps(atts, a + b, now) == ServedOps(atts, a, now) + ServedOps(atts, b, now)
    ensures Served(groups, draws, atts, a + b, now) ==
            Served(groups, draws, atts, a, now) +
            Served(ApplyOps(groups, draws, ServedOps(atts, a, now)), draws, atts, b, now)
  {
    hide UpdateOp, UpdateFor, ApplyOps, Served, ServedOps;
    assert forall s | s in b :: s in a + b;
    if b == [] {
      assert a + b == a;
      ServesNobody(ApplyOps(groups, draws, ServedOps(atts, a, now)), draws, atts, now);
    } else {
      var before, s := b[..|b| - 1], b[|b| - 1];
      assert a + b == a + before + [s] && b == before + [s];
      ServedConcat(groups, draws, atts, a, before, now);
      ServedOneMore(groups, draws, atts, a + before, s, now);
      ServedOneMore(ApplyOps(groups, draws, ServedOps(atts, a, now)), draws, atts, before, s, now);
      ApplyConcat(groups, draws, ServedOps(atts, a, now), ServedOps(atts, before, now));
    }
  }

  /** The sockets that a broadcast reaches, in order. */
  function ReachedAmong(sockets: seq<SocketId>, atts: map<SocketId, Attachment>, key: string,
                        excluded: PeerId): (ss: seq<SocketId>)
    requires forall s | s in sockets :: s in atts
    ensures forall s | s in ss :: s in sockets
  {
    if sockets == [] then []
    else
      var before, s := sockets[..|sockets| - 1], sockets[|sockets| - 1];
      ReachedAmong(before, atts, key, excluded) + (if IsReached(atts[s], key, excluded) then [s] else [])
  }

  lemma {:induction false} BroadcastServes(groups: Groups, draws: string -> nat, sockets: seq<SocketId>,
                                           atts: map<SocketId, Attachment>, key: string, excluded: PeerId, now: Millis)
    requires forall s | s in sockets :: s in atts
    ensures var ss := ReachedAmong(sockets, atts, key, excluded);
            && BroadcastOps(sockets, atts, key, excluded, now) == ServedOps(atts, ss, now)
            && BroadcastDeliveries(groups, draws, sockets, atts, key, excluded, now) ==
               Served(groups, draws, atts, ss, now)
  {
    hide UpdateOp, UpdateFor, ApplyOps, BroadcastGroups, IsReached;
    if sockets != [] {
      var before, s := sockets[..|sockets| - 1], sockets[|sockets| - 1];
      var ss := ReachedAmong(before, atts, key, excluded);
      BroadcastServes(groups, draws, before, atts, key, excluded, now);
      BroadcastIsOps(groups, draws, before, atts, key, excluded, now);
      if IsReached(atts[s], key, excluded) {
        assert (ss + [s])[..|ss|] == ss;
      } else {
        assert ss + [] == ss;
      }
    }
  }

  /** A broadcast reaches whom it should, each once. */
  lemma {:induction false} ReachedExactly(sockets: seq<SocketId>, atts: map<SocketId, Attachment>, key: string,
                                          excluded: PeerId)
    requires forall s | s in sockets :: s in atts
    requires AreDistinct(sockets)
    ensures var ss := ReachedAmong(sockets, atts, key, excluded);
            && (forall t :: t in ss <==> t in sockets && atts[t].groupKey == key && atts[t].peerId != excluded)
            && AreDistinct(ss)
  {
    if sockets != [] {
      var before, s := sockets[..|sockets| - 1], sockets[|sockets| - 1];
      ReachedExactly(before, atts, key, excluded);
      assert sockets == before + [s] && s !in before;
    }
  }

  /** The sockets that an alarm reaches, group by group. */
  function RefreshedAmong(sockets: seq<SocketId>, atts: map<SocketId, Attachment>,
                          keys: seq<string>): (ss: seq<SocketId>)
    requires forall s | s in sockets :: s in atts
    ensures forall s | s in ss :: s in sockets
  {
    if keys == [] then []
    else RefreshedAmong(sockets, atts, keys[..|keys| - 1]) + ReachedAmong(sockets, atts, keys[|keys| - 1], 0)
  }

  lemma {:induction false} RefreshServes(groups: Groups, draws: string -> nat, sockets: seq<SocketId>,
                                         atts: map<SocketId, Attachment>, keys: seq<string>, now: Millis)
    requires forall s | s in sockets :: s in atts
    ensures var ss := RefreshedAmong(sockets, atts, keys);
            && RefreshOps(sockets, atts, keys, now) == ServedOps(atts, ss, now)
            && RefreshDeliveries(groups, draws, sockets, atts, keys, now) == Served(groups, draws, atts, ss, now)
  {
    hide UpdateFor, ApplyOps, BroadcastOps, BroadcastDeliveries, ReachedAmong;
    if keys != [] {
      var before, key := keys[..|keys| - 1], keys[|keys| - 1];
      var ss := RefreshedAmong(sockets, atts, before);
      RefreshServes(groups, draws, sockets, atts, before, now);
      BroadcastServes(ApplyOps(groups, draws, ServedOps(atts, ss, now)), draws, sockets, atts, key, 0, now);
      ServedConcat(groups, draws, atts, ss, ReachedAmong(sockets, atts, key, 0), now);
    }
  }

  lemma {:induction false} RefreshedExactly(sockets: seq<SocketId>, atts: map<SocketId, Attachment>, keys: seq<string>)
    requires forall s | s in sockets :: s in atts
    requires AreDistinct(sockets)
    requires forall i, j | 0 <= i < j < |keys| :: keys[i] != keys[j]
    ensures var ss := RefreshedAmong(sockets, atts, keys);
            && (forall t :: t in ss <==> t in sockets && atts[t].groupKey in keys && atts[t].peerId != 0)
            && AreDistinct(ss)
  {
    hide ReachedAmong;
    if keys != [] {
      var before, key := keys[..|keys| - 1], keys[|keys| - 1];
      RefreshedExactly(sockets, atts, before);
      ReachedExactly(sockets, atts, key, 0);
      var ss := RefreshedAmong(sockets, atts, keys);
      assert keys == before + [key] && key !in before;
      forall t ensures t in ss <==> t in sockets && atts[t].groupKey in keys && atts[t].peerId != 0 {
        assert t in ss <==> t in RefreshedAmong(sockets, atts, before) || t in ReachedAmong(sockets, atts, key, 0);
      }
      ConcatIsDistinct(RefreshedAmong(sockets, atts, before), ReachedAmong(sockets, atts, key, 0));
    }
  }

  ghost predicate AreDistinct(ss: seq<SocketId>) {
    forall i, j | 0 <= i < j < |ss| :: ss[i] != ss[j]
  }

  lemma ConcatIsDistinct(a: seq<SocketId>, b: seq<SocketId>)
    requires AreDistinct(a) && AreDistinct(b) && forall t | t in a :: t !in b
    ensures AreDistinct(a + b)
  {
    forall i, j | 0 <= i < j < |a + b| ensures (a + b)[i] != (a + b)[j] {
      if i < |a| <= j {
        assert a[i] in a && b[j - |a|] in b;
      }
    }
  }

  // ---- who is served in a step ----

  ghost function Recipients(room: Room, draws: string -> nat, step: Step): (ss: seq<SocketId>)
    requires WellFormed(room) && Enabled(room, step)
    ensures forall s | s in ss :: s in room.sockets
  {
    match step
    case Shake(s, shake, now) =>
      (match ShakeOutcome(room, shake)
       case Some(outcome) => ReachedAmong(room.sockets, AttsAfter(room, step), outcome.groupKey, 0)
       case None => [])
    case Sync(s, Some(req), now) =>
      var att := room.atts[s];
      [s] +
      (if Broadcasts(Lookup(room.groups, draws, att.groupKey), att.peerId, req, now)
       then ReachedAmong(room.sockets, room.atts, att.groupKey, att.peerId) else [])
    case Close(s, now) =>
      var att := room.atts[s];
      if att.peerId == 0 || HasOtherConnection(room, att) then []
      else ReachedAmong(room.sockets, room.atts, att.groupKey, att.peerId)
    case Alarm(keys, now) => RefreshedAmong(room.sockets, room.atts, keys)
    case _ => []
  }

  /** The groups once a step has changed them, before anyone is served. */
  ghost function Changed(room: Room, draws: string -> nat, step: Step): Groups
    requires WellFormed(room) && Enabled(room, step)
  {
    match step
    case Shake(s, shake, now) =>
      (match ShakeOutcome(room, shake)
       case Some(_) =>
         var att := AttsAfter(room, step)[s];
         ApplyOps(room.groups, draws, OpsAt(att.groupKey, WelcomeEvents(att, now)))
       case None => room.groups)
    case Sync(s, Some(req), now) =>
      var att := room.atts[s];
      ApplyOps(room.groups, draws, OpsAt(att.groupKey, SyncEvents(att.peerId, req, now)))
    case Close(s, now) =>
      var att := room.atts[s];
      if att.peerId == 0 || HasOtherConnection(room, att) then room.groups
      else ApplyOps(room.groups, draws, [Op(att.groupKey, RemovePeer(att.peerId, now))])
    case Alarm(keys, now) => ApplyOps(room.groups, draws, CleanupOps(keys, now))
    case _ => RoomAfter(room, draws, step).groups
  }

  function TimeOf(step: Step): Millis {
    if step.Restart? then 0 else step.now
  }

  ghost predicate Serves(room: Room, draws: string -> nat, step: Step)
    requires WellFormed(room) && Enabled(room, step)
  {
    var ss, atts, groups := Recipients(room, draws, step), AddressedBy(room, step), Changed(room, draws, step);
    && Deliveries(room, draws, step) == Served(groups, draws, atts, ss, TimeOf(step))
    && RoomAfter(room, draws, step).groups == ApplyOps(groups, draws, ServedOps(atts, ss, TimeOf(step)))
  }

  lemma ShakeServes(room: Room, draws: string -> nat, s: SocketId, shake: Option<HandshakeRequest>, now: Millis)
    requires WellFormed(room) && s in room.sockets
    ensures Serves(room, draws, Shake(s, shake, now))
  {
    hide ApplyOps, OpsAt, BroadcastOps, BroadcastDeliveries, ReachedAmong, Served, ServedOps;
    var step := Shake(s, shake, now);
    ServesNobody(room.groups, draws, AddressedBy(room, step), now);
    if ShakeOutcome(room, shake).Some? {
      var atts := AttsAfter(room, step);
      var welcome := OpsAt(atts[s].groupKey, WelcomeEvents(atts[s], now));
      BroadcastServes(ApplyOps(room.groups, draws, welcome), draws, room.sockets, atts, atts[s].groupKey, 0, now);
      ApplyConcat(room.groups, draws, welcome, BroadcastOps(room.sockets, atts, atts[s].groupKey, 0, now));
    }
  }

  lemma CloseServes(room: Room, draws: string -> nat, s: SocketId, now: Millis)
    requires WellFormed(room) && s in room.sockets
    ensures Serves(room, draws, Close(s, now))
  {
    hide ApplyOps, BroadcastOps, BroadcastGroups, BroadcastDeliveries, ReachedAmong, Served, ServedOps,
      HasOtherConnection,
      SocketsAfter, RoomAfter, Deliveries;
    var att := room.atts[s];
    ServesNobody(room.groups, draws, room.atts, now);
    if att.peerId == 0 || HasOtherConnection(room, att) {
      CloseOfNobody(room, draws, s, now);
    } else {
      var left := ApplyOps(room.groups, draws, [Op(att.groupKey, RemovePeer(att.peerId, now))]);
      CloseIsOps(room, draws, s, now);
      BroadcastServes(left, draws, room.sockets, room.atts, att.groupKey, att.peerId, now);
      BroadcastIsOps(left, draws, room.sockets, room.atts, att.groupKey, att.peerId, now);
    }
  }

  lemma ServesOne(groups: Groups, draws: string -> nat, atts: map<SocketId, Attachment>, s: SocketId, now: Millis)
    requires s in atts
    ensures ServedOps(atts, [s], now) == [UpdateOp(atts[s], now)]
    ensures Served(groups, draws, atts, [s], now) ==
            [Delivery(s, atts[s].peerId, UpdateFor(groups, draws, atts[s], now))]
  {
    hide UpdateOp, UpdateFor;
    var before := [s][..0];
    assert before == [];
    assert ServedOps(atts, before, now) == [];
    assert Served(groups, draws, atts, before, now) == [];
  }

  lemma SyncServes(room: Room, draws: string -> nat, s: SocketId, req: SyncRequest, now: Millis)
    requires WellFormed(room) && s in room.sockets
    ensures Serves(room, draws, Sync(s, Some(req), now))
  {
    hide ApplyOps, OpsAt, SyncEvents, BroadcastOps, BroadcastDeliveries, ReachedAmong, Served, ServedOps, Broadcasts,
      UpdateFor, UpdateOp, UpdateBuilt;
    var att := room.atts[s];
    var handled := OpsAt(att.groupKey, SyncEvents(att.peerId, req, now));
    var synced := ApplyOps(room.groups, draws, handled);
    var pushed := ApplyOps(synced, draws, [UpdateOp(att, now)]);
    ServesOne(synced, draws, room.atts, s, now);
    OneOp(synced, draws, UpdateOp(att, now));
    AppliedUpdate(synced, draws, att, now);
    ApplyConcat(room.groups, draws, handled, [UpdateOp(att, now)]);
    if Broadcasts(Lookup(room.groups, draws, att.groupKey), att.peerId, req, now) {
      var ss := ReachedAmong(room.sockets, room.atts, att.groupKey, att.peerId);
      var broadcast := BroadcastOps(room.sockets, room.atts, att.groupKey, att.peerId, now);
      BroadcastServes(pushed, draws, room.sockets, room.atts, att.groupKey, att.peerId, now);
      ServedConcat(synced, draws, room.atts, [s], ss, now);
      ApplyConcat(room.groups, draws, handled, [UpdateOp(att, now)] + broadcast);
      assert handled + [UpdateOp(att, now)] + broadcast == handled + ([UpdateOp(att, now)] + broadcast);
    } else {
      assert handled + [UpdateOp(att, now)] + [] == handled + [UpdateOp(att, now)];
      assert [s] + [] == [s];
    }
  }

  lemma AlarmServes(room: Room, draws: string -> nat, keys: seq<string>, now: Millis)
    requires WellFormed(room) && Enabled(room, Alarm(keys, now))
    ensures Serves(room, draws, Alarm(keys, now))
  {
    hide ApplyOps, RefreshOps, RefreshDeliveries, CleanupOps, RefreshedAmong, Served, ServedOps;
    RefreshServes(ApplyOps(room.groups, draws, CleanupOps(keys, now)), draws, room.sockets, room.atts, keys, now);
    AlarmRoom(room, draws, keys, now);
  }

  /** Every step changes the groups and then serves its recipients in order. */
  lemma StepServes(room: Room, draws: string -> nat, step: Step)
    requires WellFormed(room) && Enabled(room, step)
    ensures Serves(room, draws, step)
  {
    hide Serves;
    match step {
      case Shake(s, shake, now) => ShakeServes(room, draws, s, shake, now);
      case Sync(s, Some(req), now) => SyncServes(room, draws, s, req, now);
      case Close(s, now) => CloseServes(room, draws, s, now);
      case Alarm(keys, now) => AlarmServes(room, draws, keys, now);
      case _ => OthersServeNobody(room, draws, step);
    }
  }

  lemma OthersServeNobody(room: Room, draws: string -> nat, step: Step)
    requires WellFormed(room) && Enabled(room, step)
    requires !step.Shake? && !step.Close? && !step.Alarm? && (step.Sync? ==> step.req == None)
    ensures Serves(room, draws, step)
  {
    hide RoomAfter;
    ServesNobody(Changed(room, draws, step), draws, AddressedBy(room, step), TimeOf(step));
    if step.Sync? {
      UndecodedChangesNothing(room, draws, step);
    }
  }

  lemma UndecodedChangesNothing(room: Room, draws: string -> nat, step: Step)
    requires WellFormed(room) && Enabled(room, step) && step.Sync? && step.req == None
    ensures RoomAfter(room, draws, step).groups == room.groups
  {
  }

  // ---- exactly whom ----

  predicate StandsAlone(room: Room, s: SocketId)
    requires s in room.sockets && forall t | t in room.sockets :: t in room.atts
  {
    forall t | t in room.sockets && t != s :: room.atts[t].peerId != room.atts[s].peerId
  }

  /** Whether a step tells a socket. */
  ghost predicate Tells(room: Room, draws: string -> nat, step: Step, t: SocketId)
    requires WellFormed(room) && Enabled(room, step)
  {
    t in room.sockets &&
    var att := room.atts[t];
    match step
    case Shake(s, shake, _) =>
      (match ShakeOutcome(room, shake)
       case Some(outcome) =>
         if t == s then outcome.peerId != 0 else att.groupKey == outcome.groupKey && att.peerId != 0
       case None => false)
    case Sync(s, Some(req), now) =>
      var from := room.atts[s];
      || t == s
      || (att.groupKey == from.groupKey && att.peerId != from.peerId &&
          Broadcasts(Lookup(room.groups, draws, from.groupKey), from.peerId, req, now))
    case Close(s, _) =>
      var left := room.atts[s];
      left.peerId != 0 && StandsAlone(room, s) && att.groupKey == left.groupKey && t != s
    case Alarm(_, now) => IsLive(room, att.groupKey, now) && att.peerId != 0
    case _ => false
  }

  lemma ElsewhereMeansAnother(room: Room, s: SocketId)
    requires WellFormed(room) && s in room.sockets
    ensures HasOtherConnection(room, room.atts[s]) <==> !StandsAlone(room, s)
  {
  }

  /** Told are exactly those that the step tells, each once. */
  lemma RecipientsAreTold(room: Room, draws: string -> nat, step: Step)
    requires WellFormed(room) && Enabled(room, step)
    ensures forall t :: t in Recipients(room, draws, step) <==> Tells(room, draws, step, t)
    ensures AreDistinct(Recipients(room, draws, step))
  {
    hide ReachedAmong, RefreshedAmong, Broadcasts, HasOtherConnection, StandsAlone, IsLive;
    match step {
      case Shake(s, shake, now) =>
        if ShakeOutcome(room, shake).Some? {
          ReachedExactly(room.sockets, AttsAfter(room, step), ShakeOutcome(room, shake).value.groupKey, 0);
        }
      case Sync(s, Some(req), now) =>
        ReachedExactly(room.sockets, room.atts, room.atts[s].groupKey, room.atts[s].peerId);
      case Close(s, now) =>
        ElsewhereMeansAnother(room, s);
        ReachedExactly(room.sockets, room.atts, room.atts[s].groupKey, room.atts[s].peerId);
        OthersDiffer(room, s);
      case Alarm(keys, now) =>
        AlarmVisitsLiveGroups(room, keys, now);
        RefreshedExactly(room.sockets, room.atts, keys);
      case _ =>
    }
  }

  lemma OthersDiffer(room: Room, s: SocketId)
    requires WellFormed(room) && s in room.sockets
    ensures StandsAlone(room, s) ==>
              forall t | t in room.sockets :: t != s <==> room.atts[t].peerId != room.atts[s].peerId
  {
  }

  lemma {:induction false} ServedInOrder(groups: Groups, draws: string -> nat, atts: map<SocketId, Attachment>,
                                         ss: seq<SocketId>, now: Millis)
    requires forall s | s in ss :: s in atts
    ensures var sent := Served(groups, draws, atts, ss, now);
            |sent| == |ss| && forall i | 0 <= i < |ss| :: sent[i].socket == ss[i] && sent[i].peer == atts[ss[i]].peerId
  {
    hide UpdateFor, ApplyOps, ServedOps;
    if ss != [] {
      ServedInOrder(groups, draws, atts, ss[..|ss| - 1], now);
    }
  }

  /** The updates of a step go to exactly the sockets that it tells, one to each. */
  lemma DeliveriesGoWhereDue(room: Room, draws: string -> nat, step: Step)
    requires WellFormed(room) && Enabled(room, step)
    ensures var sent := Deliveries(room, draws, step);
            && (forall t :: (exists i | 0 <= i < |sent| :: sent[i].socket == t) <==> Tells(room, draws, step, t))
            && (forall i, j | 0 <= i < j < |sent| :: sent[i].socket != sent[j].socket)
            && (forall i | 0 <= i < |sent| ::
                  sent[i].socket in AddressedBy(room, step) &&
                  sent[i].peer == AddressedBy(room, step)[sent[i].socket].peerId)
  {
    hide Deliveries, Tells, Recipients, Changed, Served, ServedOps, RoomAfter, AddressedBy;
    var ss := Recipients(room, draws, step);
    AddressesAreKept(room, step);
    StepServes(room, draws, step);
    RecipientsAreTold(room, draws, step);
    ServedInOrder(Changed(room, draws, step), draws, AddressedBy(room, step), ss, TimeOf(step));
    var sent := Deliveries(room, draws, step);
    forall t ensures (exists i | 0 <= i < |sent| :: sent[i].socket == t) <==> t in ss {
      if t in ss {
        var i :| 0 <= i < |ss| && ss[i] == t;
        assert sent[i].socket == t;
      }
    }
  }

  lemma AddressesAreKept(room: Room, step: Step)
    requires WellFormed(room) && Enabled(room, step)
    ensures forall s | s in room.sockets :: s in AddressedBy(room, step)
  {
  }

  // ---- what they say ----

  /**
   * An update in full: signed with the session and role of its socket, it has the group's own record of
   * every peer, the relay and the addressee, once each and in order, and nothing else.
   */
  ghost predicate IsFull(g: Group, att: Attachment, u: SyncRequest) {
    var items := ItemsOf(u);
    && u.myPeerId == 10000001 && u.mySessionId == att.serverSessionId && u.isInitiator == att.weAreInitiator
    && (forall i, j | 0 <= i < j < |items| :: items[i].peerId < items[j].peerId)
    && (forall p :: ListsInfo(items, p) <==> p in g.peers || p == 10000001 || p == att.peerId)
    && (forall i | 0 <= i < |items| :: Some(items[i]) == RecordOf(g, items[i].peerId))
  }

  function RecordOf(g: Group, p: PeerId): Option<PeerInfo> {
    if p == 10000001 then Some(g.myInfo) else if p in g.peerInfos then Some(g.peerInfos[p]) else None
  }

  lemma BuiltIsFull(g: Group, att: Attachment, now: Millis)
    requires InfosKeyed(g)
    ensures IsFull(Built(g, att.peerId, att.serverSessionId, true, now), att,
                   Update(g, att.peerId, att.serverSessionId, att.weAreInitiator, true, now))
  {
    hide Built, Update, InfoFor, WithStubs, RecordOf;
    var u := Update(g, att.peerId, att.serverSessionId, att.weAreInitiator, true, now);
    UpdateIsStamped(g, att, now);
    var h, items := Built(g, att.peerId, att.serverSessionId, true, now), ItemsOf(u);
    BuiltRest(g, att.peerId, att.serverSessionId, true, now);
    ForcedUpdateIsComplete(g, att.peerId, att.serverSessionId, att.weAreInitiator, true, now);
    forall i | 0 <= i < |items| ensures Some(items[i]) == RecordOf(h, items[i].peerId) {
      assert ListsInfo(items, items[i].peerId);
      KnownIsFiled(g, RelevantSet(g, att.peerId), items[i].peerId, now);
      RecordAfterBuild(g, h, WithStubs(StoreOf(g), RelevantSet(g, att.peerId), now), items[i].peerId);
    }
  }

  lemma UpdateIsStamped(g: Group, att: Attachment, now: Millis)
    ensures var u := Update(g, att.peerId, att.serverSessionId, att.weAreInitiator, true, now);
            u.myPeerId == 10000001 && u.mySessionId == att.serverSessionId && u.isInitiator == att.weAreInitiator
  {
    hide BitmapFor, RelevantPeers, DueInfos;
  }

  lemma RecordAfterBuild(g: Group, h: Group, infos: map<PeerId, PeerInfo>, p: PeerId)
    requires h.myInfo == g.myInfo && h.peerInfos == infos
    ensures RecordOf(h, p) == RecordOf(g.(peerInfos := infos), p)
  {
  }

  lemma KnownIsFiled(g: Group, ps: set<PeerId>, p: PeerId, now: Millis)
    requires p in ps
    ensures RecordOf(g.(peerInfos := WithStubs(StoreOf(g), ps, now)), p) == Some(InfoFor(StoreOf(g), p, now))
  {
  }

  lemma FullStays(g: Group, e: Event, att: Attachment, u: SyncRequest)
    requires e.Build? && IsFull(g, att, u)
    ensures IsFull(Apply(g, e), att, u)
  {
    hide Built;
    BuiltRest(g, e.peer, e.sid, e.force, e.now);
  }

  ghost predicate IsFullAt(groups: Groups, draws: string -> nat, att: Attachment, u: SyncRequest) {
    IsFull(Lookup(groups, draws, att.groupKey), att, u)
  }

  lemma FullStaysAt(groups: Groups, draws: string -> nat, op: Op, att: Attachment, u: SyncRequest)
    requires op.event.Build? && IsFullAt(groups, draws, att, u)
    ensures IsFullAt(ApplyOp(groups, draws, op), draws, att, u)
  {
    hide Apply, IsFull;
    if op.key == att.groupKey {
      FullStays(Lookup(groups, draws, op.key), op.event, att, u);
    }
  }

  lemma UpdateIsFull(groups: Groups, draws: string -> nat, att: Attachment, now: Millis)
    requires AllRuns(groups, draws)
    ensures IsFullAt(ApplyOp(groups, draws, UpdateOp(att, now)), draws, att, UpdateFor(groups, draws, att, now))
  {
    hide IsFull, Built, Update;
    GroupOfRuns(groups, draws, att.groupKey);
    AppliedUpdate(groups, draws, att, now);
    BuiltIsFull(Lookup(groups, draws, att.groupKey), att, now);
  }

  /** Once all are served, each has been sent what its group still has on record. */
  lemma {:induction false} ServedAreFull(groups: Groups, draws: string -> nat, atts: map<SocketId, Attachment>,
                                         ss: seq<SocketId>, now: Millis)
    requires AllRuns(groups, draws) && forall s | s in ss :: s in atts
    ensures var after, sent := ApplyOps(groups, draws, ServedOps(atts, ss, now)), Served(groups, draws, atts, ss, now);
            |sent| == |ss| && forall i | 0 <= i < |ss| :: IsFullAt(after, draws, atts[ss[i]], sent[i].update)
  {
    hide UpdateFor, UpdateOp, ApplyOp, IsFullAt, AllRuns, ApplyOps, Served, ServedOps;
    if ss == [] {
      ServesNobody(groups, draws, atts, now);
    } else {
      var before, s := ss[..|ss| - 1], ss[|ss| - 1];
      var ops, op := ServedOps(atts, before, now), UpdateOp(atts[s], now);
      assert ss == before + [s];
      ServedAreFull(groups, draws, atts, before, now);
      ServedOneMore(groups, draws, atts, before, s, now);
      ApplyOneMore(groups, draws, ops, op);
      OpsKeepRuns(groups, draws, ops);
      UpdateIsFull(ApplyOps(groups, draws, ops), draws, atts[s], now);
      OpIsBuild(atts[s], now);
      forall i | 0 <= i < |before|
        ensures IsFullAt(ApplyOp(ApplyOps(groups, draws, ops), draws, op), draws, atts[ss[i]],
                         Served(groups, draws, atts, before, now)[i].update)
      {
        assert ss[i] == before[i];
        FullStaysAt(ApplyOps(groups, draws, ops), draws, op, atts[ss[i]],
                    Served(groups, draws, atts, before, now)[i].update);
      }
    }
  }

  lemma OpIsBuild(att: Attachment, now: Millis)
    ensures UpdateOp(att, now).event.Build?
  {
  }

  lemma ChangedAreRuns(room: Room, draws: string -> nat, step: Step)
    requires WellFormed(room) && Enabled(room, step) && AllRuns(room.groups, draws)
    ensures step.Restart? || AllRuns(Changed(room, draws, step), draws)
  {
    hide ApplyOps, AllRuns, Ops, WelcomeEvents, SyncEvents, OpsAt, CleanupOps, HasOtherConnection;
    match step {
      case Shake(s, shake, now) =>
        if ShakeOutcome(room, shake).Some? {
          var att := AttsAfter(room, step)[s];
          OpsKeepRuns(room.groups, draws, OpsAt(att.groupKey, WelcomeEvents(att, now)));
        }
      case Sync(s, Some(req), now) =>
        OpsKeepRuns(room.groups, draws, OpsAt(room.atts[s].groupKey, SyncEvents(room.atts[s].peerId, req, now)));
      case Close(s, now) =>
        OpsKeepRuns(room.groups, draws, [Op(room.atts[s].groupKey, RemovePeer(room.atts[s].peerId, now))]);
      case Alarm(keys, now) => OpsKeepRuns(room.groups, draws, CleanupOps(keys, now));
      case _ => OpsKeepRuns(GroupsKept(room, step), draws, Ops(room, draws, step));
    }
  }

  /**
   * After any run, every update that a step sends is full, and agrees with what the group has on record once
   * the step is over; in none of them is the relay the initiator.
   */
  lemma DeliveriesAreFull(draws: string -> nat, steps: seq<Step>, step: Step, i: nat)
    requires RoomRun(draws, steps).Some? && WellFormed(RoomRun(draws, steps).value)
    requires Enabled(RoomRun(draws, steps).value, step) && i < |Deliveries(RoomRun(draws, steps).value, draws, step)|
    ensures var room := RoomRun(draws, steps).value;
            var d := Deliveries(room, draws, step)[i];
            && d.socket in AddressedBy(room, step)
            && IsFullAt(RoomAfter(room, draws, step).groups, draws, AddressedBy(room, step)[d.socket], d.update)
            && !d.update.isInitiator
  {
    hide RoomRun, RoomAfter, Deliveries, Recipients, Changed, Served, ServedOps, IsFullAt, AddressedBy;
    var room := RoomRun(draws, steps).value;
    var ss, atts, groups := Recipients(room, draws, step), AddressedBy(room, step), Changed(room, draws, step);
    ReachableGroupsAreRuns(draws, steps);
    ChangedAreRuns(room, draws, step);
    StepServes(room, draws, step);
    AddressesAreKept(room, step);
    ServedInOrder(groups, draws, atts, ss, TimeOf(step));
    if step.Restart? {
      RestartSendsNothing(room, draws, step);
    } else {
      ServedAreFull(groups, draws, atts, ss, TimeOf(step));
      RelayNeverInitiates(draws, steps);
      AddressesInitiateNothing(room, step);
      FullIsSigned(RoomAfter(room, draws, step).groups, draws, atts[ss[i]], Deliveries(room, draws, step)[i].update);
    }
  }

  lemma RestartSendsNothing(room: Room, draws: string -> nat, step: Step)
    requires WellFormed(room) && Enabled(room, step) && step.Restart?
    ensures Deliveries(room, draws, step) == []
  {
  }

  lemma AddressesInitiateNothing(room: Room, step: Step)
    requires WellFormed(room) && Enabled(room, step) && NobodyInitiates(room)
    ensures forall s | s in AddressedBy(room, step) :: !AddressedBy(room, step)[s].weAreInitiator
  {
  }

  lemma FullIsSigned(groups: Groups, draws: string -> nat, att: Attachment, u: SyncRequest)
    requires IsFullAt(groups, draws, att, u)
    ensures u.isInitiator == att.weAreInitiator
  {
  }
}
