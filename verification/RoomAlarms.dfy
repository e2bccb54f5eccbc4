/** What an alarm cleans up, told from the sockets and from the log of the room. */
module RoomAlarms {
  import opened Collections
  import opened Wire
  import opened RouteModel
  import opened Invariants
  import opened SyncRpc
  import opened PeerManager
  import opened RoomModel
  import opened RoomSteps
  import opened RoomTheorems
  import opened RoomGroups
  import opened RoomEdges
  import opened RoomCoherence
  import opened Records

  // ---- which groups ----

  /** A socket of the group was heard from in the last two minutes. */
  ghost predicate IsLive(room: Room, key: string, now: Millis) {
    key != "" && exists s | s in room.sockets && s in room.atts ::
      room.atts[s].groupKey == key && 0 < room.atts[s].lastSeen <= now && now - room.atts[s].lastSeen <= 120_000
  }

  /** An alarm visits exactly the live groups, each once. */
  lemma AlarmVisitsLiveGroups(room: Room, keys: seq<string>, now: Millis)
    requires WellFormed(room) && Enabled(room, Alarm(keys, now))
    ensures forall key :: key in keys <==> IsLive(room, key, now)
    ensures forall i, j | 0 <= i < j < |keys| :: keys[i] != keys[j]
  {
    forall key ensures key in keys <==> IsLive(room, key, now) {
      assert key in keys <==> key in AliveKeys(room.sockets, room.atts, now);
      if s :| s in room.sockets && s in room.atts && room.atts[s].groupKey == key &&
              0 < room.atts[s].lastSeen <= now && now - room.atts[s].lastSeen <= 120_000 {
        assert IsAlive(room.atts[s], now);
      }
    }
    forall i, j | 0 <= i < j < |keys| ensures keys[i] != keys[j] {
      PrecedesIsStrict(keys[i]);
    }
  }

  lemma {:induction false} PrecedesIsStrict(a: string)
    ensures !Precedes(a, a)
  {
    if a != [] {
      PrecedesIsStrict(a[1..]);
    }
  }

  // ---- what goes ----

  /** A peer that the relay has not seen for more than ten minutes. */
  predicate IsLongGone(g: Group, p: PeerId, now: Millis) {
    p in g.removedAt && now - g.removedAt[p] > 600_000
  }

  /** Cleaned up by an alarm: exactly the edges with a long gone end are dropped, and the records of the long gone. */
  ghost predicate IsAlarmed(g: Group, h: Group, now: Millis) {
    && (forall a, b :: Reports(h.connections, a, b) <==>
          Reports(g.connections, a, b) && !IsLongGone(g, a, now) && !IsLongGone(g, b, now))
    && (forall p :: p in h.removedAt <==> p in g.removedAt && !IsLongGone(g, p, now))
    && (forall p | p in h.removedAt :: h.removedAt[p] == g.removedAt[p])
    && h.peers == g.peers && h.connVersions == g.connVersions && h.myInfo == g.myInfo
  }

  /** Nothing that a cleanup could touch has changed. */
  ghost predicate SameRecords(g: Group, h: Group) {
    && h.peers == g.peers && h.connections == g.connections && h.removedAt == g.removedAt
    && h.connVersions == g.connVersions && h.myInfo == g.myInfo
  }

  lemma CleanupAlarms(g: Group, now: Millis)
    ensures IsAlarmed(g, CleanedUp(g, STALE_P2P_THRESHOLD_MS, now), now)
  {
  }

  lemma EventKeepsRecords(g: Group, e: Event)
    requires e.Build?
    ensures SameRecords(g, Apply(g, e))
  {
    hide Built;
    BuiltRest(g, e.peer, e.sid, e.force, e.now);
  }

  lemma {:induction false} BuildsKeepRecords(groups: Groups, draws: string -> nat, ops: seq<Op>, key: string)
    requires AllBuilds(ops)
    ensures SameRecords(Lookup(groups, draws, key), Lookup(ApplyOps(groups, draws, ops), draws, key))
  {
    hide Apply;
    if ops != [] {
      var prefix, op := ops[..|ops| - 1], ops[|ops| - 1];
      BuildsKeepRecords(groups, draws, prefix, key);
      if op.key == key {
        EventKeepsRecords(Lookup(ApplyOps(groups, draws, prefix), draws, key), op.event);
      }
    }
  }

  lemma {:induction false} RefreshOnlyBuilds(sockets: seq<SocketId>, atts: map<SocketId, Attachment>, keys: seq<string>,
                                             now: Millis)
    requires forall s | s in sockets :: s in atts
    ensures AllBuilds(RefreshOps(sockets, atts, keys, now))
  {
    if keys != [] {
      RefreshOnlyBuilds(sockets, atts, keys[..|keys| - 1], now);
      BroadcastOnlyBuilds(sockets, atts, keys[|keys| - 1], 0, now);
    }
  }

  /** Each group in the list is cleaned up once, and no other group is touched. */
  lemma {:induction false} CleanupsByKey(groups: Groups, draws: string -> nat, keys: seq<string>, now: Millis,
                                         key: string)
    requires forall i, j | 0 <= i < j < |keys| :: keys[i] != keys[j]
    ensures Lookup(ApplyOps(groups, draws, CleanupOps(keys, now)), draws, key) ==
            if key in keys then CleanedUp(Lookup(groups, draws, key), STALE_P2P_THRESHOLD_MS, now)
            else Lookup(groups, draws, key)
  {
    hide CleanedUp, ApplyOp;
    if keys != [] {
      var n := |keys| - 1;
      CleanupsByKey(groups, draws, keys[..n], now, key);
      CleanupOneMore(groups, draws, keys, n, now);
      assert keys[..n + 1] == keys;
      assert keys == keys[..n] + [keys[n]];
      assert keys[n] !in keys[..n];
    }
  }

  /**
   * An alarm drops, in every group with a live socket, exactly the edges with an end that was removed more
   * than ten minutes ago, and no edge of any other group.
   */
  lemma AlarmIsExact(room: Room, draws: string -> nat, keys: seq<string>, now: Millis, key: string)
    requires WellFormed(room) && Enabled(room, Alarm(keys, now))
    ensures var g := Lookup(room.groups, draws, key);
            var h := Lookup(RoomAfter(room, draws, Alarm(keys, now)).groups, draws, key);
            if IsLive(room, key, now) then IsAlarmed(g, h, now) else SameRecords(g, h)
  {
    hide RoomAfter, CleanedUp, SameRecords, IsAlarmed, ApplyOps, CleanupOps, RefreshOps, IsLive;
    var cleaned := ApplyOps(room.groups, draws, CleanupOps(keys, now));
    AlarmVisitsLiveGroups(room, keys, now);
    AlarmRoom(room, draws, keys, now);
    CleanupsByKey(room.groups, draws, keys, now, key);
    RefreshOnlyBuilds(room.sockets, room.atts, keys, now);
    BuildsKeepRecords(cleaned, draws, RefreshOps(room.sockets, room.atts, keys, now), key);
    CleanupAlarms(Lookup(room.groups, draws, key), now);
    if IsLive(room, key, now) {
      RecordsCarryOver(Lookup(room.groups, draws, key), Lookup(cleaned, draws, key),
                       Lookup(RoomAfter(room, draws, Alarm(keys, now)).groups, draws, key), now);
    }
  }

  lemma RecordsCarryOver(g: Group, cleaned: Group, h: Group, now: Millis)
    requires IsAlarmed(g, cleaned, now) && SameRecords(cleaned, h)
    ensures IsAlarmed(g, h, now)
  {
  }

  // ---- who is on record as removed ----

  ghost function RemovalAt(groups: Groups, draws: string -> nat, key: string, p: PeerId): Option<Millis> {
    FoundIn(Lookup(groups, draws, key).removedAt, p)
  }

  lemma OpRemoves(groups: Groups, draws: string -> nat, op: Op, key: string, p: PeerId)
    ensures RemovalAt(ApplyOp(groups, draws, op), draws, key, p) ==
            if op.key == key then RemovalAfter(RemovalAt(groups, draws, key, p), op.event, p)
            else RemovalAt(groups, draws, key, p)
  {
    hide Apply, RemovalAfter;
    EventRemoves(Lookup(groups, draws, op.key), op.event, p);
  }

  /** Neither comings nor goings nor cleanups. */
  ghost predicate AllIdle(ops: seq<Op>) {
    AllQuiet(ops) && forall i | 0 <= i < |ops| :: !ops[i].event.Cleanup?
  }

  lemma {:induction false} IdleOpsKeepRemovals(groups: Groups, draws: string -> nat, ops: seq<Op>, key: string,
                                               p: PeerId)
    requires AllIdle(ops)
    ensures RemovalAt(ApplyOps(groups, draws, ops), draws, key, p) == RemovalAt(groups, draws, key, p)
  {
    hide ApplyOp, RemovalAt;
    if ops != [] {
      var prefix, op := ops[..|ops| - 1], ops[|ops| - 1];
      IdleOpsKeepRemovals(groups, draws, prefix, key, p);
      OpRemoves(ApplyOps(groups, draws, prefix), draws, op, key, p);
    }
  }

  lemma BuildsAreIdle(ops: seq<Op>)
    requires AllBuilds(ops)
    ensures AllIdle(ops)
  {
  }

  lemma {:induction false} MergeEventsCleanNothing(items: seq<PeerInfo>)
    ensures forall i | 0 <= i < |MergeEvents(items)| :: !MergeEvents(items)[i].Cleanup?
  {
    if items != [] {
      MergeEventsCleanNothing(items[..|items| - 1]);
    }
  }

  lemma SyncIsIdle(key: string, p: PeerId, req: SyncRequest, now: Millis)
    ensures AllIdle(OpsAt(key, SyncEvents(p, req, now)))
  {
    SyncIsQuiet(key, p, req, now);
    MergeEventsCleanNothing(ItemsOf(req));
    OpsAtEvents(key, SyncEvents(p, req, now));
  }

  lemma IdleConcat(a: seq<Op>, b: seq<Op>)
    requires AllIdle(a) && AllIdle(b)
    ensures AllIdle(a + b)
  {
  }

  /** Adding a peer takes it off the record; what else an arrival does leaves the record alone. */
  lemma AddingTakesOffRecord(groups: Groups, draws: string -> nat, at: string, q: PeerId, rest: seq<Event>, key: string,
                             p: PeerId)
    requires forall i | 0 <= i < |rest| :: IsQuiet(rest[i]) && !rest[i].Cleanup?
    ensures RemovalAt(ApplyOps(groups, draws, OpsAt(at, [AddPeer(q)] + rest)), draws, key, p) ==
            if key == at && q == p then None else RemovalAt(groups, draws, key, p)
  {
    hide RemovalAt, ApplyOp, ApplyOps, OpsAt;
    var es := [AddPeer(q)] + rest;
    var ops := OpsAt(at, es);
    OpsAtEvents(at, es);
    assert ops == [ops[0]] + ops[1..];
    ApplyConcat(groups, draws, [ops[0]], ops[1..]);
    OneOp(groups, draws, ops[0]);
    OpRemoves(groups, draws, ops[0], key, p);
    assert forall i | 0 <= i < |ops[1..]| :: ops[1..][i] == Op(at, rest[i]);
    IdleOpsKeepRemovals(ApplyOps(groups, draws, [ops[0]]), draws, ops[1..], key, p);
  }

  /** A restart takes the peers that it adds off the record. */
  lemma {:induction false} RestartTakesOffRecord(groups: Groups, draws: string -> nat, sockets: seq<SocketId>,
                                                 atts: map<SocketId, Attachment>, key: string, p: PeerId)
    requires forall s | s in sockets :: s in atts
    ensures RemovalAt(ApplyOps(groups, draws, RestartOps(groups, draws, sockets, atts)), draws, key, p) ==
            if p in PeersStanding(sockets, atts, key) && p !in PeersAt(groups, key) then None
            else RemovalAt(groups, draws, key, p)
  {
    hide ApplyOp, RemovalAt, OpsAt, PeersStanding, PeersAt;
    if sockets == [] {
      NobodyStands(atts, key);
    } else {
      var before, att := sockets[..|sockets| - 1], atts[sockets[|sockets| - 1]];
      var ops := RestartOps(groups, draws, before, atts);
      RestartTakesOffRecord(groups, draws, before, atts, key, p);
      PeersAfterRestart(groups, draws, before, atts, key);
      StandingOneMore(sockets, atts, key);
      ApplyConcat(groups, draws, ops, OpsAt(att.groupKey, AddEvents(att.peerId)));
      assert AddEvents(att.peerId) == [AddPeer(att.peerId)] + [BumpMyInfo];
      AddingTakesOffRecord(ApplyOps(groups, draws, ops), draws, att.groupKey, att.peerId, [BumpMyInfo], key, p);
    }
  }

  lemma NobodyStands(atts: map<SocketId, Attachment>, key: string)
    ensures PeersStanding([], atts, key) == {}
  {
  }

  lemma ShakeTakesOffRecord(room: Room, draws: string -> nat, step: Step, key: string, p: PeerId)
    requires WellFormed(room) && Enabled(room, step) && step.Shake? && ShakeOutcome(room, step.shake).Some?
    ensures var outcome := ShakeOutcome(room, step.shake).value;
            RemovalAt(RoomAfter(room, draws, step).groups, draws, key, p) ==
            if key == outcome.groupKey && p == outcome.peerId then None else RemovalAt(room.groups, draws, key, p)
  {
    hide ApplyOps, OpsAt, BroadcastOps, RemovalAt;
    var atts := AttsAfter(room, step);
    var att := atts[step.socket];
    var welcome := OpsAt(att.groupKey, WelcomeEvents(att, step.now));
    var broadcast := BroadcastOps(room.sockets, atts, att.groupKey, 0, step.now);
    ApplyConcat(room.groups, draws, welcome, broadcast);
    BroadcastOnlyBuilds(room.sockets, atts, att.groupKey, 0, step.now);
    BuildsAreIdle(broadcast);
    IdleOpsKeepRemovals(ApplyOps(room.groups, draws, welcome), draws, broadcast, key, p);
    var es := WelcomeEvents(att, step.now);
    assert es == [AddPeer(att.peerId)] + es[1..];
    AddingTakesOffRecord(room.groups, draws, att.groupKey, att.peerId, es[1..], key, p);
  }

  lemma CloseRecords(room: Room, draws: string -> nat, s: SocketId, now: Millis, key: string, p: PeerId)
    requires WellFormed(room) && s in room.sockets
    ensures var att := room.atts[s];
            RemovalAt(RoomAfter(room, draws, Close(s, now)).groups, draws, key, p) ==
            if att.peerId != 0 && !HasOtherConnection(room, att) && key == att.groupKey && p == att.peerId
              then Some(now)
            else RemovalAt(room.groups, draws, key, p)
  {
    hide ApplyOps, ApplyOp, BroadcastOps, RemovalAt, HasOtherConnection, SocketsAfter;
    var att := room.atts[s];
    if att.peerId != 0 && !HasOtherConnection(room, att) {
      var remove := Op(att.groupKey, RemovePeer(att.peerId, now));
      var broadcast := BroadcastOps(room.sockets, room.atts, att.groupKey, att.peerId, now);
      ApplyConcat(room.groups, draws, [remove], broadcast);
      OneOp(room.groups, draws, remove);
      OpRemoves(room.groups, draws, remove, key, p);
      BroadcastOnlyBuilds(room.sockets, room.atts, att.groupKey, att.peerId, now);
      BuildsAreIdle(broadcast);
      IdleOpsKeepRemovals(ApplyOps(room.groups, draws, [remove]), draws, broadcast, key, p);
    } else {
      NoOps(room.groups, draws);
    }
  }

  lemma OtherStepsAreIdle(room: Room, draws: string -> nat, step: Step)
    requires WellFormed(room) && Enabled(room, step)
    requires !step.Close? && !step.Alarm? && !step.Restart? && (step.Shake? ==> ShakeOutcome(room, step.shake).None?)
    ensures AllIdle(Ops(room, draws, step))
  {
    hide ApplyOps, OpsAt, SyncEvents, BroadcastOps, Broadcasts, AllIdle;
    NothingIsIdle();
    match step {
      case Sync(s, Some(req), now) =>
        var att := room.atts[s];
        var handled := OpsAt(att.groupKey, SyncEvents(att.peerId, req, now));
        var broadcast := BroadcastOps(room.sockets, room.atts, att.groupKey, att.peerId, now);
        SyncIsIdle(att.groupKey, att.peerId, req, now);
        BuildsAreIdle([UpdateOp(att, now)]);
        IdleConcat(handled, [UpdateOp(att, now)]);
        BroadcastOnlyBuilds(room.sockets, room.atts, att.groupKey, att.peerId, now);
        BuildsAreIdle(broadcast);
        IdleConcat(handled + [UpdateOp(att, now)], broadcast);
        IdleConcat(handled + [UpdateOp(att, now)], []);
      case SyncAnswer(s, from, sid, now) =>
        AnswerIsIdle(Op(room.atts[s].groupKey, Ack(from, sid, room.atts[s].weAreInitiator, now)));
      case _ =>
    }
  }

  lemma NothingIsIdle()
    ensures AllIdle([])
  {
  }

  lemma AnswerIsIdle(op: Op)
    requires op.event.Ack?
    ensures AllIdle([op])
  {
  }

  /** When a peer was last taken out of a group, step by step. */
  ghost function RemovalAfterStep(before: Option<Millis>, room: Room, step: Step, key: string,
                                  p: PeerId): Option<Millis>
    requires WellFormed(room) && Enabled(room, step)
  {
    match step
    case Shake(_, shake, _) =>
      (match ShakeOutcome(room, shake)
       case Some(outcome) => if key == outcome.groupKey && p == outcome.peerId then None else before
       case None => before)
    case Close(s, now) =>
      var att := room.atts[s];
      if att.peerId != 0 && !HasOtherConnection(room, att) && key == att.groupKey && p == att.peerId then Some(now)
      else before
    case Alarm(_, now) =>
      if IsLive(room, key, now) && before.Some? && now - before.value > 600_000 then None else before
    case Restart(isolateIsNew) =>
      if isolateIsNew || p in PeersStanding(room.sockets, room.atts, key) then None else before
    case _ => before
  }

  lemma AlarmRecords(room: Room, draws: string -> nat, keys: seq<string>, now: Millis, key: string, p: PeerId)
    requires WellFormed(room) && Enabled(room, Alarm(keys, now))
    ensures RemovalAt(RoomAfter(room, draws, Alarm(keys, now)).groups, draws, key, p) ==
            RemovalAfterStep(RemovalAt(room.groups, draws, key, p), room, Alarm(keys, now), key, p)
  {
    hide RoomAfter, IsLive, Enabled;
    AlarmIsExact(room, draws, keys, now, key);
  }

  lemma RestartRecords(room: Room, draws: string -> nat, isolateIsNew: bool, key: string, p: PeerId)
    requires WellFormed(room) && Inv(Lookup(room.groups, draws, key))
    ensures RemovalAt(RoomAfter(room, draws, Restart(isolateIsNew)).groups, draws, key, p) ==
            RemovalAfterStep(RemovalAt(room.groups, draws, key, p), room, Restart(isolateIsNew), key, p)
  {
    hide ApplyOps, RestartOps, PeersStanding;
    var kept := if isolateIsNew then map[] else room.groups;
    RestartTakesOffRecord(kept, draws, room.sockets, room.atts, key, p);
  }

  lemma StepRecords(room: Room, draws: string -> nat, step: Step, key: string, p: PeerId)
    requires WellFormed(room) && Enabled(room, step) && Inv(Lookup(room.groups, draws, key))
    ensures RemovalAt(RoomAfter(room, draws, step).groups, draws, key, p) ==
            RemovalAfterStep(RemovalAt(room.groups, draws, key, p), room, step, key, p)
  {
    hide ApplyOps, Ops, RemovalAt, SocketsAfter;
    if step.Close? {
      CloseRecords(room, draws, step.socket, step.now, key, p);
    } else if step.Alarm? {
      AlarmRecords(room, draws, step.keys, step.now, key, p);
    } else if step.Restart? {
      RestartRecords(room, draws, step.isolateIsNew, key, p);
    } else if step.Shake? && ShakeOutcome(room, step.shake).Some? {
      ShakeTakesOffRecord(room, draws, step, key, p);
    } else {
      OtherStepsAreIdle(room, draws, step);
      IdleOpsKeepRemovals(room.groups, draws, Ops(room, draws, step), key, p);
    }
  }

  /** When a peer was last taken out of a group, told from the log of the room. */
  ghost function LastRemoval(draws: string -> nat, steps: seq<Step>, key: string, p: PeerId): Option<Millis>
    requires RoomRun(draws, steps).Some?
  {
    if steps == [] then None
    else
      var prefix := steps[..|steps| - 1];
      RemovalAfterStep(LastRemoval(draws, prefix, key, p), RoomRun(draws, prefix).value, steps[|steps| - 1], key, p)
  }

  /** Over every run of a room the removals on record are those of the log. */
  lemma {:induction false} RemovalsFollowLog(draws: string -> nat, steps: seq<Step>, key: string, p: PeerId)
    requires RoomRun(draws, steps).Some?
    ensures RemovalAt(RoomRun(draws, steps).value.groups, draws, key, p) == LastRemoval(draws, steps, key, p)
  {
    hide RoomAfter, Enabled, WellFormed, RemovalAfterStep;
    if steps != [] {
      var prefix := steps[..|steps| - 1];
      var room := RoomRun(draws, prefix).value;
      RemovalsFollowLog(draws, prefix, key, p);
      ReachableGroupsAreRuns(draws, prefix);
      GroupOfRuns(room.groups, draws, key);
      StepRecords(room, draws, steps[|steps| - 1], key, p);
    }
  }

  /**
   * After any run of a room, an alarm keeps an edge of a live group exactly when neither end was taken out of
   * it more than ten minutes ago.
   */
  lemma EdgesSurviveByLog(draws: string -> nat, steps: seq<Step>, keys: seq<string>, now: Millis, key: string,
                          a: PeerId,
                          b: PeerId)
    requires RoomRun(draws, steps).Some? && WellFormed(RoomRun(draws, steps).value)
    requires Enabled(RoomRun(draws, steps).value, Alarm(keys, now))
    ensures var room := RoomRun(draws, steps).value;
            var after := RoomAfter(room, draws, Alarm(keys, now));
            var left, left' := LastRemoval(draws, steps, key, a), LastRemoval(draws, steps, key, b);
            Reports(Lookup(after.groups, draws, key).connections, a, b) <==>
            && Reports(Lookup(room.groups, draws, key).connections, a, b)
            && (IsLive(room, key, now) ==> (left.Some? ==> now - left.value <= 600_000) &&
                                           (left'.Some? ==> now - left'.value <= 600_000))
  {
    hide RoomAfter, Enabled, WellFormed, LastRemoval, RoomRun, IsLive;
    RemovalsFollowLog(draws, steps, key, a);
    RemovalsFollowLog(draws, steps, key, b);
    AlarmIsExact(RoomRun(draws, steps).value, draws, keys, now, key);
  }
}
