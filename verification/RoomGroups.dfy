/** The groups of a room over its runs, and which of the updates built are really sent. */
module RoomGroups {
  import opened Collections
  import opened Wire
  import opened RouteModel
  import opened Invariants
  import opened Fingerprint
  import opened SyncRpc
  import opened PeerManager
  import opened Handshake
  import opened RoomModel
  import opened RoomTheorems

  // ---- every group of a room is a run of group operations ----

  ghost predicate IsRun(routeId: nat, g: Group) {
    exists es :: g == Run(NewGroup(routeId), es)
  }

  ghost predicate AllRuns(groups: Groups, draws: string -> nat) {
    forall key | key in groups :: IsRun(draws(key), groups[key])
  }

  lemma LookupIsRun(groups: Groups, draws: string -> nat, key: string)
    requires AllRuns(groups, draws)
    ensures IsRun(draws(key), Lookup(groups, draws, key))
  {
    assert NewGroup(draws(key)) == Run(NewGroup(draws(key)), []);
  }

  lemma {:induction false} OpsKeepRuns(groups: Groups, draws: string -> nat, ops: seq<Op>)
    requires AllRuns(groups, draws)
    ensures AllRuns(ApplyOps(groups, draws, ops), draws)
  {
    if ops != [] {
      var prefix, op := ops[..|ops| - 1], ops[|ops| - 1];
      OpsKeepRuns(groups, draws, prefix);
      LookupIsRun(ApplyOps(groups, draws, prefix), draws, op.key);
      var g := Lookup(ApplyOps(groups, draws, prefix), draws, op.key);
      var es :| g == Run(NewGroup(draws(op.key)), es);
      RunAppend(NewGroup(draws(op.key)), es, op.event);
    }
  }

  /** In every reachable room every group is reached by a run of group operations, and so satisfies their invariant. */
  lemma {:induction false} ReachableGroupsAreRuns(draws: string -> nat, steps: seq<Step>)
    requires RoomRun(draws, steps).Some?
    ensures var groups := RoomRun(draws, steps).value.groups;
            AllRuns(groups, draws) && forall key | key in groups :: Inv(groups[key])
  {
    if steps != [] {
      var prefix, step := steps[..|steps| - 1], steps[|steps| - 1];
      ReachableGroupsAreRuns(draws, prefix);
      var room := RoomRun(draws, prefix).value;
      OpsKeepRuns(GroupsKept(room, step), draws, Ops(room, draws, step));
    }
    var groups := RoomRun(draws, steps).value.groups;
    forall key | key in groups ensures Inv(groups[key]) {
      var es :| groups[key] == Run(NewGroup(draws(key)), es);
      RunKeepsInv(draws(key), es);
    }
  }

  // ---- the fingerprint, room by room ----

  ghost predicate AllSpare(ops: seq<Op>) {
    forall i | 0 <= i < |ops| :: SparesServerId(ops[i].event)
  }

  lemma {:induction false} OpsRaiseOrKeep(groups: Groups, draws: string -> nat, ops: seq<Op>, key: string)
    requires key in groups && Inv(groups[key])
    requires AllSpare(ops)
    ensures var after := ApplyOps(groups, draws, ops);
            && key in after && Inv(after[key])
            && ServerVersion(after[key]) >= ServerVersion(groups[key])
            && (ServerVersion(after[key]) == ServerVersion(groups[key]) ==> SameReport(groups[key], after[key]))
  {
    if ops != [] {
      var prefix, op := ops[..|ops| - 1], ops[|ops| - 1];
      OpsRaiseOrKeep(groups, draws, prefix, key);
      var g := ApplyOps(groups, draws, prefix)[key];
      if op.key == key {
        StepKeepsInv(g, op.event);
        StepRaisesOrKeeps(g, op.event);
        if SameReport(groups[key], g) && SameReport(g, Apply(g, op.event)) {
          SameReportIsTransitive(groups[key], g, Apply(g, op.event));
        }
      }
    }
  }

  /** No socket stands for the relay's own id. */
  ghost predicate ServerIdUnused(room: Room) {
    forall s | s in room.sockets && s in room.atts :: room.atts[s].peerId != MY_PEER_ID
  }

  lemma SpareConcat(a: seq<Op>, b: seq<Op>)
    requires AllSpare(a) && AllSpare(b)
    ensures AllSpare(a + b)
  {
  }

  lemma AddingSpares(key: string, p: PeerId)
    ensures AllSpare(OpsAt(key, AddEvents(p)))
  {
    OpsAtEvents(key, AddEvents(p));
  }

  lemma {:induction false} RestartSpares(groups: Groups, draws: string -> nat, sockets: seq<SocketId>,
                                         atts: map<SocketId, Attachment>)
    requires forall s | s in sockets :: s in atts
    ensures AllSpare(RestartOps(groups, draws, sockets, atts))
  {
    if sockets != [] {
      var before, att := sockets[..|sockets| - 1], atts[sockets[|sockets| - 1]];
      RestartSpares(groups, draws, before, atts);
      AddingSpares(att.groupKey, att.peerId);
      SpareConcat(RestartOps(groups, draws, before, atts), OpsAt(att.groupKey, AddEvents(att.peerId)));
    }
  }

  lemma WelcomeSpares(att: Attachment, now: Millis)
    ensures AllSpare(OpsAt(att.groupKey, WelcomeEvents(att, now)))
  {
    OpsAtEvents(att.groupKey, WelcomeEvents(att, now));
  }

  lemma OpsSpare(room: Room, draws: string -> nat, step: Step)
    requires WellFormed(room) && Enabled(room, step) && ServerIdUnused(room)
    ensures AllSpare(Ops(room, draws, step))
  {
    hide ApplyOps, BroadcastOps, RestartOps, WelcomeEvents, SyncEvents, CleanupOps, RefreshOps, OpsAt, Broadcasts;
    if step.Shake? {
      if ShakeOutcome(room, step.shake).Some? {
        var atts := AttsAfter(room, step);
        var att := atts[step.socket];
        WelcomeSpares(att, step.now);
        BroadcastIsQuiet(room.sockets, atts, att.groupKey, 0, step.now);
      }
    } else if step.Close? {
      var att := room.atts[step.socket];
      BroadcastIsQuiet(room.sockets, room.atts, att.groupKey, att.peerId, step.now);
    } else if step.Restart? {
      RestartSpares(GroupsKept(room, step), draws, room.sockets, room.atts);
    } else {
      QuietSteps(room, draws, step);
    }
  }

  /**
   * Whatever a room's next event, short of the loss of the isolate: each group's relay version rises,
   * or every connected peer of that group would still be reported the same graph.
   */
  lemma RoomStepRaisesOrKeeps(room: Room, draws: string -> nat, step: Step, key: string)
    requires WellFormed(room) && Enabled(room, step) && ServerIdUnused(room)
    requires key in room.groups && Inv(room.groups[key]) && !(step.Restart? && step.isolateIsNew)
    ensures var g, groups := room.groups[key], RoomAfter(room, draws, step).groups;
            && key in groups
            && (ServerVersion(groups[key]) > ServerVersion(g) ||
                (ServerVersion(groups[key]) == ServerVersion(g) && SameReport(g, groups[key])))
  {
    OpsSpare(room, draws, step);
    OpsRaiseOrKeep(room.groups, draws, Ops(room, draws, step), key);
  }

  // ---- the fingerprint, over runs of a room ----

  predicate SparesServerIdHere(step: Step) {
    step.Shake? && step.shake.Some? ==> step.shake.value.myPeerId != MY_PEER_ID
  }

  predicate KeepsIsolate(step: Step) {
    step.Restart? ==> !step.isolateIsNew
  }

  lemma {:induction false} PrefixesRun(draws: string -> nat, steps: seq<Step>, i: nat)
    requires RoomRun(draws, steps).Some? && i <= |steps|
    ensures RoomRun(draws, steps[..i]).Some?
  {
    hide RoomAfter, WellFormed, Enabled;
    if i == |steps| {
      assert steps[..i] == steps;
    } else {
      PrefixesRun(draws, steps[..|steps| - 1], i);
      assert steps[..|steps| - 1][..i] == steps[..i];
    }
  }

  lemma {:induction false} ServerIdStaysUnused(draws: string -> nat, steps: seq<Step>)
    requires RoomRun(draws, steps).Some? && forall step | step in steps :: SparesServerIdHere(step)
    ensures ServerIdUnused(RoomRun(draws, steps).value)
  {
    hide Ops, ApplyOps;
    if steps != [] {
      var prefix, step := steps[..|steps| - 1], steps[|steps| - 1];
      ServerIdStaysUnused(draws, prefix);
      StepLeavesServerIdUnused(RoomRun(draws, prefix).value, draws, step);
    }
  }

  lemma StepLeavesServerIdUnused(room: Room, draws: string -> nat, step: Step)
    requires WellFormed(room) && Enabled(room, step) && ServerIdUnused(room) && SparesServerIdHere(step)
    ensures ServerIdUnused(RoomAfter(room, draws, step))
  {
    hide Ops, ApplyOps;
    if step.Close? {
      WithoutElements(room.sockets, step.socket);
    }
  }

  /**
   * Between two moments of a room's run, the isolate living on and no client using the relay's id, the
   * relay's version of a group never falls, and while it stays the same so does the report.
   */
  lemma {:induction false} RoomVersionsAreFingerprints(draws: string -> nat, steps: seq<Step>, i: nat, key: string)
    requires i <= |steps| && RoomRun(draws, steps).Some? && RoomRun(draws, steps[..i]).Some?
    requires forall step | step in steps :: SparesServerIdHere(step)
    requires forall j | i <= j < |steps| :: KeepsIsolate(steps[j])
    requires key in RoomRun(draws, steps[..i]).value.groups
    ensures var g, groups := RoomRun(draws, steps[..i]).value.groups[key], RoomRun(draws, steps).value.groups;
            && key in groups
            && ServerVersion(g) <= ServerVersion(groups[key])
            && (ServerVersion(g) == ServerVersion(groups[key]) ==> SameReport(g, groups[key]))
  {
    hide RoomAfter, Inv, SameReport, ServerVersion;
    if i == |steps| {
      assert steps[..i] == steps;
      ReportIsReflexive(RoomRun(draws, steps).value.groups[key]);
    } else {
      var prefix, step := steps[..|steps| - 1], steps[|steps| - 1];
      assert prefix[..i] == steps[..i];
      RoomVersionsAreFingerprints(draws, prefix, i, key);
      ServerIdStaysUnused(draws, prefix);
      ReachableGroupsAreRuns(draws, prefix);
      var room := RoomRun(draws, prefix).value;
      RoomStepRaisesOrKeeps(room, draws, step, key);
      VersionsCompose(RoomRun(draws, steps[..i]).value.groups[key], room.groups[key],
                      RoomRun(draws, steps).value.groups[key]);
    }
  }

  lemma ReportIsReflexive(g: Group)
    ensures SameReport(g, g)
  {
  }

  lemma VersionsCompose(f: Group, g: Group, h: Group)
    requires ServerVersion(f) <= ServerVersion(g) && (ServerVersion(f) == ServerVersion(g) ==> SameReport(f, g))
    requires ServerVersion(h) > ServerVersion(g) || (ServerVersion(h) == ServerVersion(g) && SameReport(g, h))
    ensures ServerVersion(f) <= ServerVersion(h) && (ServerVersion(f) == ServerVersion(h) ==> SameReport(f, h))
  {
    if ServerVersion(f) == ServerVersion(h) {
      SameReportIsTransitive(f, g, h);
    }
  }

  // ---- runs that spare the relay's id ----

  ghost predicate IsSpareRun(routeId: nat, g: Group) {
    exists es :: g == Run(NewGroup(routeId), es) && forall e | e in es :: SparesServerId(e)
  }

  ghost predicate AllSpareRuns(groups: Groups, draws: string -> nat) {
    forall key | key in groups :: IsSpareRun(draws(key), groups[key])
  }

  lemma SpareLookup(groups: Groups, draws: string -> nat, key: string)
    requires AllSpareRuns(groups, draws)
    ensures IsSpareRun(draws(key), Lookup(groups, draws, key))
  {
    assert NewGroup(draws(key)) == Run(NewGroup(draws(key)), []);
  }

  lemma {:induction false} OpsKeepSpareRuns(groups: Groups, draws: string -> nat, ops: seq<Op>)
    requires AllSpareRuns(groups, draws) && AllSpare(ops)
    ensures AllSpareRuns(ApplyOps(groups, draws, ops), draws)
  {
    hide Apply;
    if ops != [] {
      var prefix, op := ops[..|ops| - 1], ops[|ops| - 1];
      OpsKeepSpareRuns(groups, draws, prefix);
      SpareLookup(ApplyOps(groups, draws, prefix), draws, op.key);
      var g := Lookup(ApplyOps(groups, draws, prefix), draws, op.key);
      var es :| g == Run(NewGroup(draws(op.key)), es) && forall e | e in es :: SparesServerId(e);
      RunAppend(NewGroup(draws(op.key)), es, op.event);
      assert forall e | e in es + [op.event] :: SparesServerId(e);
    }
  }

  lemma {:induction false} ReachableGroupsAreSpareRuns(draws: string -> nat, steps: seq<Step>)
    requires RoomRun(draws, steps).Some? && forall step | step in steps :: SparesServerIdHere(step)
    ensures AllSpareRuns(RoomRun(draws, steps).value.groups, draws)
  {
    hide Ops, ApplyOps, AllSpareRuns;
    if steps == [] {
      NoGroupsAreSpareRuns(draws);
    } else {
      var prefix, step := steps[..|steps| - 1], steps[|steps| - 1];
      var room := RoomRun(draws, prefix).value;
      ReachableGroupsAreSpareRuns(draws, prefix);
      ServerIdStaysUnused(draws, prefix);
      NoGroupsAreSpareRuns(draws);
      OpsSpare(room, draws, step);
      OpsKeepSpareRuns(GroupsKept(room, step), draws, Ops(room, draws, step));
    }
  }

  lemma NoGroupsAreSpareRuns(draws: string -> nat)
    ensures AllSpareRuns(map[], draws)
  {
  }

  // ---- what reaches a newcomer ----

  /** The session of a peer already counts the current graph as sent. */
  ghost predicate IsPrimed(g: Group, p: PeerId) {
    Suppressed(SessionOf(g, p).lastSig, BitmapFor(g, p))
  }

  lemma BuildPrimes(g: Group, p: PeerId, sid: SessionId, force: bool, now: Millis)
    ensures IsPrimed(Built(g, p, sid, force, now), p)
  {
    BuiltSession(g, p, sid, force, now);
    BuiltRest(g, p, sid, force, now);
  }

  lemma BuildKeepsPrimed(g: Group, p: PeerId, t: PeerId, sid: SessionId, force: bool, now: Millis)
    requires IsPrimed(g, p)
    ensures IsPrimed(Built(g, t, sid, force, now), p)
  {
    if t == p {
      BuildPrimes(g, p, sid, force, now);
    } else {
      BuiltRest(g, t, sid, force, now);
      BuiltSessions(g, t, sid, force, now);
    }
  }

  ghost predicate PrimedAt(groups: Groups, key: string, p: PeerId) {
    key in groups && IsPrimed(groups[key], p)
  }

  lemma UpdateKeepsPrimed(groups: Groups, draws: string -> nat, att: Attachment, now: Millis, p: PeerId)
    requires PrimedAt(groups, att.groupKey, p)
    ensures PrimedAt(UpdateBuilt(groups, draws, att, now), att.groupKey, p)
  {
    BuildKeepsPrimed(groups[att.groupKey], p, att.peerId, att.serverSessionId, true, now);
  }

  /** None of the messages to a peer carries the graph. */
  ghost predicate NoGraphFor(sent: seq<Delivery>, p: PeerId) {
    forall i | 0 <= i < |sent| && sent[i].peer == p :: sent[i].update.connInfo == NoConnInfo
  }

  lemma NoGraphForOneMore(groups: Groups, draws: string -> nat, sent: seq<Delivery>, s: SocketId, att: Attachment,
                          now: Millis, p: PeerId)
    requires NoGraphFor(sent, p) && PrimedAt(groups, att.groupKey, p)
    ensures NoGraphFor(sent + [Delivery(s, att.peerId, UpdateFor(groups, draws, att, now))], p)
  {
    if att.peerId == p {
      PrimedUpdateHasNoGraph(groups, draws, att, now);
    }
  }

  lemma PrimedUpdateHasNoGraph(groups: Groups, draws: string -> nat, att: Attachment, now: Millis)
    requires PrimedAt(groups, att.groupKey, att.peerId)
    ensures UpdateFor(groups, draws, att, now).connInfo == NoConnInfo
  {
  }

  lemma {:induction false} BroadcastKeepsPrimed(groups: Groups, draws: string -> nat, sockets: seq<SocketId>,
                                                atts: map<SocketId, Attachment>, key: string, excluded: PeerId,
                                                now: Millis, p: PeerId)
    requires forall s | s in sockets :: s in atts
    requires PrimedAt(groups, key, p)
    ensures PrimedAt(BroadcastGroups(groups, draws, sockets, atts, key, excluded, now), key, p)
  {
    if sockets != [] {
      var before, att := sockets[..|sockets| - 1], atts[sockets[|sockets| - 1]];
      BroadcastKeepsPrimed(groups, draws, before, atts, key, excluded, now, p);
      if IsReached(att, key, excluded) {
        UpdateKeepsPrimed(BroadcastGroups(groups, draws, before, atts, key, excluded, now), draws, att, now, p);
      }
    }
  }

  lemma {:induction false} PrimedGetsNoGraph(groups: Groups, draws: string -> nat, sockets: seq<SocketId>,
                                             atts: map<SocketId, Attachment>, key: string, excluded: PeerId,
                                             now: Millis, p: PeerId)
    requires forall s | s in sockets :: s in atts
    requires PrimedAt(groups, key, p)
    ensures NoGraphFor(BroadcastDeliveries(groups, draws, sockets, atts, key, excluded, now), p)
  {
    if sockets != [] {
      var before, s := sockets[..|sockets| - 1], sockets[|sockets| - 1];
      PrimedGetsNoGraph(groups, draws, before, atts, key, excluded, now, p);
      if IsReached(atts[s], key, excluded) {
        BroadcastKeepsPrimed(groups, draws, before, atts, key, excluded, now, p);
        NoGraphForOneMore(BroadcastGroups(groups, draws, before, atts, key, excluded, now), draws,
                          BroadcastDeliveries(groups, draws, before, atts, key, excluded, now), s, atts[s], now, p);
      }
    }
  }

  lemma WelcomePrimes(groups: Groups, draws: string -> nat, att: Attachment, now: Millis)
    ensures PrimedAt(ApplyOps(groups, draws, OpsAt(att.groupKey, WelcomeEvents(att, now))), att.groupKey, att.peerId)
  {
    var es, g := WelcomeEvents(att, now), Lookup(groups, draws, att.groupKey);
    OpsAtIsRun(groups, draws, att.groupKey, es);
    WelcomedPeerIsPrimed(g, att, now);
  }

  lemma WelcomedPeerIsPrimed(g: Group, att: Attachment, now: Millis)
    ensures IsPrimed(Run(g, WelcomeEvents(att, now)), att.peerId)
  {
    var arrived := Run(g, ArrivalEvents(att.peerId, now));
    RunAppend(g, ArrivalEvents(att.peerId, now), Build(att.peerId, att.serverSessionId, att.weAreInitiator, true, now));
    ApplyBuild(arrived, att.peerId, att.serverSessionId, att.weAreInitiator, true, now);
    BuildPrimes(arrived, att.peerId, att.serverSessionId, true, now);
  }

  ghost predicate Reaches(sent: seq<Delivery>, s: SocketId, p: PeerId) {
    exists i | 0 <= i < |sent| :: sent[i].socket == s && sent[i].peer == p
  }

  lemma ReachesOneMore(sent: seq<Delivery>, d: Delivery, s: SocketId, p: PeerId)
    ensures Reaches(sent + [d], s, p) <==> Reaches(sent, s, p) || (d.socket == s && d.peer == p)
  {
    var more := sent + [d];
    if Reaches(sent, s, p) {
      var i :| 0 <= i < |sent| && sent[i].socket == s && sent[i].peer == p;
      assert more[i] == sent[i];
    }
    assert more[|sent|] == d;
  }

  /** A broadcast reaches exactly the sockets of the group that do not stand for the excluded peer. */
  lemma {:induction false} BroadcastReaches(groups: Groups, draws: string -> nat, sockets: seq<SocketId>,
                                            atts: map<SocketId, Attachment>, key: string, excluded: PeerId, now: Millis,
                                            s: SocketId, p: PeerId)
    requires forall t | t in sockets :: t in atts
    ensures Reaches(BroadcastDeliveries(groups, draws, sockets, atts, key, excluded, now), s, p) <==>
            s in sockets && atts[s].peerId == p && IsReached(atts[s], key, excluded)
  {
    hide Reaches, UpdateFor, UpdateBuilt, BroadcastGroups;
    if sockets == [] {
      NothingReaches(s, p);
    } else {
      var before, last := sockets[..|sockets| - 1], sockets[|sockets| - 1];
      BroadcastReaches(groups, draws, before, atts, key, excluded, now, s, p);
      var sent, groups' := BroadcastDeliveries(groups, draws, before, atts, key, excluded, now),
                           BroadcastGroups(groups, draws, before, atts, key, excluded, now);
      ReachesOneMore(sent, Delivery(last, atts[last].peerId, UpdateFor(groups', draws, atts[last], now)), s, p);
      assert sent + [] == sent;
    }
  }

  lemma NothingReaches(s: SocketId, p: PeerId)
    ensures !Reaches([], s, p)
  {
  }

  /**
   * The update built right after an accepted handshake is thrown away, but the session counts its
   * graph as sent: the newcomer, unless it has id 0, is sent updates on its socket, and none of them
   * carries the graph.
   */
  lemma NewcomerGetsNoGraph(room: Room, draws: string -> nat, s: SocketId, req: HandshakeRequest, now: Millis)
    requires WellFormed(room) && s in room.sockets && Accepted(room.digests, req)
    ensures NoGraphFor(Deliveries(room, draws, Shake(s, Some(req), now)), req.myPeerId)
    ensures Reaches(Deliveries(room, draws, Shake(s, Some(req), now)), s, req.myPeerId) <==> req.myPeerId != 0
  {
    var atts := AttsAfter(room, Shake(s, Some(req), now));
    var att := atts[s];
    assert Deliveries(room, draws, Shake(s, Some(req), now)) == ShakeDeliveries(room, draws, atts, att, now);
    WelcomePrimes(room.groups, draws, att, now);
    PrimedGetsNoGraph(ApplyOps(room.groups, draws, OpsAt(att.groupKey, WelcomeEvents(att, now))), draws,
                      room.sockets, atts, att.groupKey, 0, now, req.myPeerId);
    BroadcastReaches(ApplyOps(room.groups, draws, OpsAt(att.groupKey, WelcomeEvents(att, now))), draws,
                     room.sockets, atts, att.groupKey, 0, now, s, req.myPeerId);
  }

  /** A peer's first request of a new session is answered with an update that carries the graph. */
  lemma NewSessionGetsGraph(room: Room, draws: string -> nat, s: SocketId, req: SyncRequest, now: Millis)
    requires WellFormed(room) && s in room.sockets
    requires var att := room.atts[s];
             SessionOf(Lookup(room.groups, draws, att.groupKey), att.peerId).dstSessionId != Some(req.mySessionId)
    ensures var att, sent := room.atts[s], Deliveries(room, draws, Sync(s, Some(req), now));
            var g := Synced(Lookup(room.groups, draws, att.groupKey), att.peerId, req, now);
            && sent != [] && sent[0].socket == s
            && sent[0].update.connInfo == Bitmap(BitmapFor(g, att.peerId))
  {
    var att := room.atts[s];
    var g := Lookup(room.groups, draws, att.groupKey);
    OpsAtIsRun(room.groups, draws, att.groupKey, SyncEvents(att.peerId, req, now));
    SyncIsRun(g, att.peerId, req, now);
    RestAfterSync(g, att.peerId, req, now);
  }
}
