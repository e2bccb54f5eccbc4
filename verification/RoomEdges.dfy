/** Who the stored edges of a room start from, and so what cleanup can reclaim. */
module RoomEdges {
  import opened Collections
  import opened Wire
  import opened RouteModel
  import opened Invariants
  import opened GraphTheorems
  import opened SyncRpc
  import opened PeerManager
  import opened RoomModel
  import opened RoomTheorems
  import opened RoomGroups

  /** Whoever has reported edges is connected or on record as removed, unless exempt. */
  ghost predicate SourcesAnchored(g: Group, exempt: set<PeerId>) {
    forall p | p in g.connections :: p in g.peers || p in g.removedAt || p in exempt
  }

  ghost predicate AllAnchored(groups: Groups, exempt: set<PeerId>) {
    forall key | key in groups :: SourcesAnchored(groups[key], exempt)
  }

  // ---- operations ----

  lemma EventKeepsSources(g: Group, e: Event, exempt: set<PeerId>)
    requires SourcesAnchored(g, exempt) && !e.UpdateConns?
    ensures SourcesAnchored(Apply(g, e), exempt)
  {
    hide Built;
    if e.Build? {
      BuiltRest(g, e.peer, e.sid, e.force, e.now);
    }
  }

  ghost predicate NoReports(ops: seq<Op>) {
    forall i | 0 <= i < |ops| :: !ops[i].event.UpdateConns?
  }

  lemma {:induction false} OpsKeepSources(groups: Groups, draws: string -> nat, ops: seq<Op>, exempt: set<PeerId>)
    requires AllAnchored(groups, exempt) && NoReports(ops)
    ensures AllAnchored(ApplyOps(groups, draws, ops), exempt)
  {
    hide Apply;
    if ops != [] {
      var prefix, op := ops[..|ops| - 1], ops[|ops| - 1];
      OpsKeepSources(groups, draws, prefix, exempt);
      EventKeepsSources(Lookup(ApplyOps(groups, draws, prefix), draws, op.key), op.event, exempt);
    }
  }

  ghost predicate AllBuilds(ops: seq<Op>) {
    forall i | 0 <= i < |ops| :: ops[i].event.Build?
  }

  lemma {:induction false} BroadcastOnlyBuilds(sockets: seq<SocketId>, atts: map<SocketId, Attachment>, key: string,
                                               excluded: PeerId, now: Millis)
    requires forall s | s in sockets :: s in atts
    ensures AllBuilds(BroadcastOps(sockets, atts, key, excluded, now))
  {
    if sockets != [] {
      BroadcastOnlyBuilds(sockets[..|sockets| - 1], atts, key, excluded, now);
    }
  }

  lemma BroadcastReportsNothing(sockets: seq<SocketId>, atts: map<SocketId, Attachment>, key: string,
                                                   excluded: PeerId, now: Millis)
    requires forall s | s in sockets :: s in atts
    ensures NoReports(BroadcastOps(sockets, atts, key, excluded, now))
  {
    BroadcastOnlyBuilds(sockets, atts, key, excluded, now);
  }

  lemma {:induction false} AlarmReportsNothing(sockets: seq<SocketId>, atts: map<SocketId, Attachment>,
                                               keys: seq<string>, now: Millis)
    requires forall s | s in sockets :: s in atts
    ensures NoReports(CleanupOps(keys, now)) && NoReports(RefreshOps(sockets, atts, keys, now))
  {
    if keys != [] {
      AlarmReportsNothing(sockets, atts, keys[..|keys| - 1], now);
      BroadcastReportsNothing(sockets, atts, keys[|keys| - 1], 0, now);
    }
  }

  lemma {:induction false} RestartReportsNothing(groups: Groups, draws: string -> nat, sockets: seq<SocketId>,
                                                 atts: map<SocketId, Attachment>)
    requires forall s | s in sockets :: s in atts
    ensures NoReports(RestartOps(groups, draws, sockets, atts))
  {
    if sockets != [] {
      var before, att := sockets[..|sockets| - 1], atts[sockets[|sockets| - 1]];
      RestartReportsNothing(groups, draws, before, atts);
      OpsAtEvents(att.groupKey, AddEvents(att.peerId));
    }
  }

  // ---- steps ----

  lemma OtherStepsReportNothing(room: Room, draws: string -> nat, step: Step)
    requires WellFormed(room) && Enabled(room, step) && !step.Sync?
    ensures NoReports(Ops(room, draws, step))
  {
    hide BroadcastOps, CleanupOps, RefreshOps, RestartOps, ApplyOps;
    match step {
      case Shake(s, shake, now) =>
        if ShakeOutcome(room, shake).Some? {
          var atts := AttsAfter(room, step);
          OpsAtEvents(atts[s].groupKey, WelcomeEvents(atts[s], now));
          BroadcastReportsNothing(room.sockets, atts, atts[s].groupKey, 0, now);
        }
      case Close(s, now) =>
        BroadcastReportsNothing(room.sockets, room.atts, room.atts[s].groupKey, room.atts[s].peerId, now);
      case Alarm(keys, now) => AlarmReportsNothing(room.sockets, room.atts, keys, now);
      case Restart(_) => RestartReportsNothing(GroupsKept(room, step), draws, room.sockets, room.atts);
      case _ =>
    }
  }

  /** A report is from a listed peer, an exempt one, or into a group that lists nobody. */
  predicate IsSettled(room: Room, att: Attachment, exempt: set<PeerId>) {
    att.peerId in PeersAt(room.groups, att.groupKey) + exempt || PeersAt(room.groups, att.groupKey) == {}
  }

  lemma ReportKeepsSources(g: Group, p: PeerId, req: SyncRequest, now: Millis, exempt: set<PeerId>)
    requires SourcesAnchored(g, exempt) && (p in g.peers + exempt || g.peers == {})
    ensures SourcesAnchored(Synced(g, p, req, now), exempt)
  {
    hide Synced;
    RestAfterSync(g, p, req, now);
  }

  lemma SyncSplits(room: Room, draws: string -> nat, s: SocketId, req: SyncRequest, now: Millis)
    returns (sending: seq<Op>)
    requires WellFormed(room) && s in room.sockets
    ensures var att := room.atts[s];
            Ops(room, draws, Sync(s, Some(req), now)) == OpsAt(att.groupKey, SyncEvents(att.peerId, req, now)) + sending
    ensures AllBuilds(sending)
  {
    hide SyncEvents, Broadcasts, OpsAt, BroadcastOps;
    var att := room.atts[s];
    BroadcastOnlyBuilds(room.sockets, room.atts, att.groupKey, att.peerId, now);
    sending := [UpdateOp(att, now)] +
               (if Broadcasts(Lookup(room.groups, draws, att.groupKey), att.peerId, req, now)
                then BroadcastOps(room.sockets, room.atts, att.groupKey, att.peerId, now) else []);
  }

  lemma SyncKeepsSources(room: Room, draws: string -> nat, s: SocketId, req: SyncRequest, now: Millis,
                         exempt: set<PeerId>)
    requires WellFormed(room) && s in room.sockets && AllAnchored(room.groups, exempt)
    requires IsSettled(room, room.atts[s], exempt)
    ensures AllAnchored(RoomAfter(room, draws, Sync(s, Some(req), now)).groups, exempt)
  {
    hide Synced, SyncEvents, Ops, OpsAt, ApplyOps;
    var att := room.atts[s];
    var g, events := Lookup(room.groups, draws, att.groupKey), SyncEvents(att.peerId, req, now);
    var handled := OpsAt(att.groupKey, events);
    var sending := SyncSplits(room, draws, s, req, now);
    SyncHasEvents(att.peerId, req, now);
    OpsAtIsRun(room.groups, draws, att.groupKey, events);
    SyncIsRun(g, att.peerId, req, now);
    ReportKeepsSources(g, att.peerId, req, now, exempt);
    ApplyConcat(room.groups, draws, handled, sending);
    OpsKeepSources(ApplyOps(room.groups, draws, handled), draws, sending, exempt);
  }

  lemma SyncHasEvents(p: PeerId, req: SyncRequest, now: Millis)
    ensures SyncEvents(p, req, now) != []
  {
  }

  lemma StepKeepsSources(room: Room, draws: string -> nat, step: Step, exempt: set<PeerId>)
    requires WellFormed(room) && Enabled(room, step) && AllAnchored(room.groups, exempt)
    requires step.Sync? ==> IsSettled(room, room.atts[step.socket], exempt)
    ensures AllAnchored(RoomAfter(room, draws, step).groups, exempt)
  {
    if step.Sync? {
      if step.req.Some? {
        SyncKeepsSources(room, draws, step.socket, step.req.value, step.now, exempt);
      }
    } else {
      OtherStepsReportNothing(room, draws, step);
      OpsKeepSources(GroupsKept(room, step), draws, Ops(room, draws, step), exempt);
    }
  }

  // ---- runs ----

  /** In every reachable room edges start from peers that are connected or on record, apart from id 0. */
  lemma {:induction false} ReachableSourcesAreAnchored(draws: string -> nat, steps: seq<Step>)
    requires RoomRun(draws, steps).Some?
    ensures AllAnchored(RoomRun(draws, steps).value.groups, {0})
  {
    hide RoomAfter, AllAnchored;
    if steps == [] {
      EmptyIsAnchored({0});
    } else {
      var prefix, step := steps[..|steps| - 1], steps[|steps| - 1];
      ReachableSourcesAreAnchored(draws, prefix);
      ReachableRoomsAreListed(draws, prefix);
      StepKeepsSources(RoomRun(draws, prefix).value, draws, step, {0});
    }
  }

  lemma EmptyIsAnchored(exempt: set<PeerId>)
    ensures AllAnchored(EMPTY_ROOM.groups, exempt)
  {
  }

  /**
   * No socket stands for anyone before it has shaken hands, and its group lists nobody; after that its peer
   * is listed.
   */
  ghost predicate IsPlaced(room: Room, att: Attachment) {
    if att.groupKey == "" then att.peerId == 0 else att.peerId in PeersAt(room.groups, att.groupKey)
  }

  ghost predicate AllPlaced(room: Room) {
    && PeersAt(room.groups, "") == {}
    && forall s | s in room.sockets && s in room.atts :: IsPlaced(room, room.atts[s])
  }

  lemma StepKeepsNobodyUnshaken(room: Room, draws: string -> nat, step: Step)
    requires WellFormed(room) && Enabled(room, step) && AllPlaced(room) && KeepsIsolate(step)
    ensures PeersAt(RoomAfter(room, draws, step).groups, "") == {}
  {
    hide RoomAfter;
    PeersAfterStep(room, draws, step, "");
    if step.Restart? {
      assert forall s | s in room.sockets && s in room.atts && room.atts[s].groupKey == "" ::
             IsPlaced(room, room.atts[s]);
    }
  }

  lemma StepKeepsPlaced(room: Room, draws: string -> nat, step: Step)
    requires WellFormed(room) && Enabled(room, step) && AllPlaced(room) && KeepsIsolate(step)
    ensures AllPlaced(RoomAfter(room, draws, step))
  {
    hide Ops, ApplyOps;
    var after := RoomAfter(room, draws, step);
    StepKeepsNobodyUnshaken(room, draws, step);
    forall s | s in after.sockets && s in after.atts ensures IsPlaced(after, after.atts[s]) {
      SocketStaysPlaced(room, draws, step, s);
    }
  }

  lemma SocketStaysPlaced(room: Room, draws: string -> nat, step: Step, s: SocketId)
    requires WellFormed(room) && Enabled(room, step) && AllPlaced(room) && KeepsIsolate(step)
    requires s in SocketsAfter(room, step) && s in AttsAfter(room, step)
    ensures IsPlaced(RoomAfter(room, draws, step), AttsAfter(room, step)[s])
  {
    hide Ops, ApplyOps;
    var att := AttsAfter(room, step)[s];
    PeersAfterStep(room, draws, step, att.groupKey);
    if step.Close? {
      WithoutElements(room.sockets, step.socket);
    }
    assert s in room.sockets ==> IsPlaced(room, room.atts[s]);
  }

  /** As long as the isolate lives on, there is no exception. */
  lemma {:induction false} SourcesAreAnchoredInOneIsolate(draws: string -> nat, steps: seq<Step>)
    requires RoomRun(draws, steps).Some? && forall step | step in steps :: KeepsIsolate(step)
    ensures AllAnchored(RoomRun(draws, steps).value.groups, {}) && AllPlaced(RoomRun(draws, steps).value)
  {
    hide RoomAfter, AllAnchored, AllPlaced;
    if steps == [] {
      EmptyIsAnchored({});
      EmptyIsPlaced();
    } else {
      var prefix, step := steps[..|steps| - 1], steps[|steps| - 1];
      var room := RoomRun(draws, prefix).value;
      SourcesAreAnchoredInOneIsolate(draws, prefix);
      if step.Sync? {
        PlacedIsSettled(room, step.socket);
      }
      StepKeepsSources(room, draws, step, {});
      StepKeepsPlaced(room, draws, step);
    }
  }

  lemma EmptyIsPlaced()
    ensures AllPlaced(EMPTY_ROOM)
  {
  }

  lemma PlacedIsSettled(room: Room, s: SocketId)
    requires WellFormed(room) && AllPlaced(room) && s in room.sockets
    ensures IsSettled(room, room.atts[s], {})
  {
    assert IsPlaced(room, room.atts[s]);
  }

  /** Once every removal is older than the threshold, cleanup leaves no entry of an absent peer, and no edge to one. */
  lemma CleanupReclaimsEntries(g: Group, threshold: Millis, now: Millis, exempt: set<PeerId>)
    requires Inv(g) && SourcesAnchored(g, exempt) && forall p | p in g.removedAt :: now - g.removedAt[p] > threshold
    ensures var g' := CleanedUp(g, threshold, now);
            && g'.removedAt == map[] && (forall p | p in g'.connections :: p in g.peers + exempt)
            && (forall p, q | Reports(g'.connections, p, q) :: q in g.peers)
  {
    CleanupReclaims(g, threshold, now);
  }
}
