/** The three ways in which a group comes to list a peer that no live socket stands for, each in a run of a room. */
module RoomWitnesses {
  import opened Collections
  import opened Wire
  import opened RouteModel
  import opened SyncRpc
  import opened PeerManager
  import opened Handshake
  import opened RoomModel
  import opened RoomTheorems
  import opened RoomEdges

  function Joins(s: SocketId, p: PeerId, network: string, now: Millis): Step {
    Shake(s, Some(HandshakeRequest(MAGIC, p, network, [])), now)
  }

  ghost predicate ReachesExactly(draws: string -> nat, steps: seq<Step>, room: Room) {
    RoomRun(draws, steps) == Some(room) && WellFormed(room) && Exact(room)
  }

  lemma StartsExact(draws: string -> nat)
    ensures ReachesExactly(draws, [], EMPTY_ROOM)
  {
  }

  /** One more step: the run goes on, and stays exact just when the step is tidy. */
  lemma OneMore(draws: string -> nat, steps: seq<Step>, room: Room, step: Step)
    requires ReachesExactly(draws, steps, room) && Enabled(room, step)
    ensures var after := RoomAfter(room, draws, step);
            && RoomRun(draws, steps + [step]) == Some(after) && WellFormed(after) &&
              (Exact(after) <==> IsTidy(room, step))
            && after.sockets == SocketsAfter(room, step) && after.atts == AttsAfter(room, step)
            && after.digests == DigestsAt(room, step)
  {
    hide Exact, IsTidy, Enabled, WellFormed;
    assert (steps + [step])[..|steps|] == steps;
    StepKeepsWellFormed(room, draws, step);
    StepKeepsExact(room, draws, step);
  }

  /** A room with one socket that has not shaken hands. */
  lemma OneSocket(draws: string -> nat, s: SocketId, ssid: SessionId, now: Millis) returns (room: Room)
    ensures ReachesExactly(draws, [Accept(s, ssid, now)], room)
    ensures room.sockets == [s] && room.atts == map[s := Attachment(0, "", "", ssid, false, now)] &&
            room.digests == map[]
  {
    hide RoomAfter, Exact;
    StartsExact(draws);
    OneMore(draws, [], EMPTY_ROOM, Accept(s, ssid, now));
    room := RoomAfter(EMPTY_ROOM, draws, Accept(s, ssid, now));
    assert [] + [Accept(s, ssid, now)] == [Accept(s, ssid, now)];
  }

  /** A handshake under id 0. */
  lemma ZeroIdIsListed(draws: string -> nat, s: SocketId, ssid: SessionId, network: string, t: Millis, now: Millis)
    ensures var run := RoomRun(draws, [Accept(s, ssid, t), Joins(s, 0, network, now)]);
            run.Some? && !Exact(run.value)
  {
    hide RoomAfter, Exact;
    var room := OneSocket(draws, s, ssid, t);
    var step := Joins(s, 0, network, now);
    assert ShakeOutcome(room, step.shake).Some?;
    OneMore(draws, [Accept(s, ssid, t)], room, step);
    assert [Accept(s, ssid, t)] + [step] == [Accept(s, ssid, t), step];
  }

  /** A socket that shakes hands a second time, under another id. */
  lemma OldIdentityIsLeftBehind(draws: string -> nat, s: SocketId, ssid: SessionId, p: PeerId, q: PeerId,
                                network: string,
                                t: Millis, now: Millis)
    requires p != q && 0 !in {p, q}
    ensures var run := RoomRun(draws, [Accept(s, ssid, t), Joins(s, p, network, t), Joins(s, q, network, now)]);
            run.Some? && !Exact(run.value)
  {
    hide RoomAfter, Exact;
    var room := OneSocket(draws, s, ssid, t);
    var first, second := Joins(s, p, network, t), Joins(s, q, network, now);
    assert ShakeOutcome(room, first.shake).Some?;
    OneMore(draws, [Accept(s, ssid, t)], room, first);
    var shaken := RoomAfter(room, draws, first);
    assert ShakeOutcome(shaken, second.shake).Some?;
    assert !IsTidy(shaken, second);
    assert [Accept(s, ssid, t)] + [first] == [Accept(s, ssid, t), first];
    OneMore(draws, [Accept(s, ssid, t), first], shaken, second);
    assert [Accept(s, ssid, t), first] + [second] == [Accept(s, ssid, t), first, second];
  }

  function TwoNetworks(s: SocketId, s': SocketId, ssid: SessionId, ssid': SessionId, p: PeerId, network: string,
                       network': string, t: Millis): seq<Step> {
    [Accept(s, ssid, t), Accept(s', ssid', t), Joins(s, p, network, t), Joins(s', p, network', t)]
  }

  /** A room with two sockets that stand for one id in two networks. */
  lemma OneIdTwice(draws: string -> nat, s: SocketId, s': SocketId, ssid: SessionId, ssid': SessionId, p: PeerId,
                   network: string, network': string, t: Millis) returns (room: Room)
    requires s != s' && ssid != ssid' && p != 0 && network != network'
    ensures ReachesExactly(draws, TwoNetworks(s, s', ssid, ssid', p, network, network', t), room)
    ensures room.sockets == [s, s'] && s in room.atts && s' in room.atts
    ensures room.atts[s].peerId == room.atts[s'].peerId == p
    ensures room.atts[s].serverSessionId == ssid && room.atts[s'].serverSessionId == ssid'
    ensures room.atts[s].groupKey == GroupKey(network, "") && room.atts[s'].groupKey == GroupKey(network', "")
  {
    hide RoomAfter, Exact;
    var es := TwoNetworks(s, s', ssid, ssid', p, network, network', t);
    var one := OneSocket(draws, s, ssid, t);
    OneMore(draws, es[..1], one, es[1]);
    var two := RoomAfter(one, draws, es[1]);
    assert ShakeOutcome(two, es[2].shake).Some?;
    assert es[..1] + [es[1]] == es[..2] && es[..2] + [es[2]] == es[..3] && es[..3] + [es[3]] == es;
    OneMore(draws, es[..2], two, es[2]);
    var three := RoomAfter(two, draws, es[2]);
    assert ShakeOutcome(three, es[3].shake).Some?;
    OneMore(draws, es[..3], three, es[3]);
    room := RoomAfter(three, draws, es[3]);
  }

  /** One id in two networks: when one socket closes, the peer stays listed there. */
  lemma OtherNetworkKeepsPeerListed(draws: string -> nat, s: SocketId, s': SocketId, ssid: SessionId, ssid': SessionId,
                                    p: PeerId, network: string, network': string, t: Millis, now: Millis)
    requires s != s' && ssid != ssid' && p != 0 && network != network'
    ensures var run := RoomRun(draws, TwoNetworks(s, s', ssid, ssid', p, network, network', t) + [Close(s, now)]);
            run.Some? && !Exact(run.value)
  {
    hide RoomAfter, Exact, TwoNetworks;
    var room := OneIdTwice(draws, s, s', ssid, ssid', p, network, network', t);
    OneMore(draws, TwoNetworks(s, s', ssid, ssid', p, network, network', t), room, Close(s, now));
    KeysDiffer(network, network');
    assert HasOtherConnection(room, room.atts[s]);
    assert !AnotherStandsFor(room, s, p, room.atts[s].groupKey);
  }

  lemma KeysDiffer(network: string, network': string)
    requires network != network'
    ensures GroupKey(network, "") != GroupKey(network', "")
  {
    if GroupKey(network, "") == GroupKey(network', "") {
      GroupKeyIsInjective(network, [], network', []);
    }
  }

  // ---- id 0 after the loss of the isolate ----

  ghost predicate Reaches(draws: string -> nat, steps: seq<Step>, room: Room) {
    RoomRun(draws, steps) == Some(room) && WellFormed(room)
  }

  lemma AnyOneMore(draws: string -> nat, steps: seq<Step>, room: Room, step: Step)
    requires Reaches(draws, steps, room) && Enabled(room, step)
    ensures Reaches(draws, steps + [step], RoomAfter(room, draws, step))
    ensures var after := RoomAfter(room, draws, step);
            after.sockets == SocketsAfter(room, step) && after.atts == AttsAfter(room, step) &&
            after.digests == DigestsAt(room, step)
  {
    hide Enabled, WellFormed;
    assert (steps + [step])[..|steps|] == steps;
    StepKeepsWellFormed(room, draws, step);
  }

  ghost predicate NoRemovals(groups: Groups) {
    forall key | key in groups :: groups[key].removedAt == map[]
  }

  ghost predicate OnlyAdds(ops: seq<Op>) {
    forall i | 0 <= i < |ops| :: ops[i].event.AddPeer? || ops[i].event.BumpMyInfo?
  }

  lemma {:induction false} AddingsLeaveNoRemovals(groups: Groups, draws: string -> nat, ops: seq<Op>)
    requires NoRemovals(groups) && OnlyAdds(ops)
    ensures NoRemovals(ApplyOps(groups, draws, ops))
  {
    hide Apply;
    if ops != [] {
      var prefix, op := ops[..|ops| - 1], ops[|ops| - 1];
      AddingsLeaveNoRemovals(groups, draws, prefix);
      AddingLeavesNoRemoval(Lookup(ApplyOps(groups, draws, prefix), draws, op.key), op.event);
    }
  }

  lemma AddingLeavesNoRemoval(g: Group, e: Event)
    requires g.removedAt == map[] && (e.AddPeer? || e.BumpMyInfo?)
    ensures Apply(g, e).removedAt == map[]
  {
  }

  lemma {:induction false} RestartOnlyAdds(groups: Groups, draws: string -> nat, sockets: seq<SocketId>,
                                           atts: map<SocketId, Attachment>)
    requires forall s | s in sockets :: s in atts
    ensures OnlyAdds(RestartOps(groups, draws, sockets, atts))
  {
    if sockets != [] {
      var before, att := sockets[..|sockets| - 1], atts[sockets[|sockets| - 1]];
      RestartOnlyAdds(groups, draws, before, atts);
      OpsAtEvents(att.groupKey, AddEvents(att.peerId));
    }
  }

  lemma {:induction false} BuildsKeepEdges(groups: Groups, draws: string -> nat, ops: seq<Op>, key: string)
    requires AllBuilds(ops) && key in groups
    ensures var after := ApplyOps(groups, draws, ops);
            && key in after && after[key].connections == groups[key].connections
            && after[key].peers == groups[key].peers && after[key].removedAt == groups[key].removedAt
  {
    hide Apply;
    if ops != [] {
      var op := ops[|ops| - 1];
      BuildsKeepEdges(groups, draws, ops[..|ops| - 1], key);
      var before := ApplyOps(groups, draws, ops[..|ops| - 1]);
      BuildKeepsEdges(Lookup(before, draws, op.key), op.event);
    }
  }

  lemma BuildKeepsEdges(g: Group, e: Event)
    requires e.Build?
    ensures Apply(g, e).connections == g.connections && Apply(g, e).peers == g.peers &&
            Apply(g, e).removedAt == g.removedAt
  {
    hide Built;
    BuiltRest(g, e.peer, e.sid, e.force, e.now);
  }

  function ReportOf(p: PeerId, q: PeerId, sid: SessionId): SyncRequest {
    SyncRequest(p, sid, true, None, PeerList([ConnEntry(Some(p), [q])]), None)
  }

  /** A report of id 0, of one listed peer, in a group that does not list id 0 itself. */
  lemma ReportOfZero(room: Room, draws: string -> nat, s: SocketId, q: PeerId, sid: SessionId, now: Millis)
    requires WellFormed(room) && s in room.sockets && room.atts[s].peerId == 0 && q !in {0, MY_PEER_ID}
    requires PeersAt(room.groups, room.atts[s].groupKey) == {q} && NoRemovals(room.groups)
    ensures !AllAnchored(RoomAfter(room, draws, Sync(s, Some(ReportOf(0, q, sid)), now)).groups, {})
  {
    hide Ops, Synced, OpsAt, SyncEvents, ApplyOps;
    var att, req := room.atts[s], ReportOf(0, q, sid);
    var g := Lookup(room.groups, draws, att.groupKey);
    var handled := OpsAt(att.groupKey, SyncEvents(0, req, now));
    var sending := SyncSplits(room, draws, s, req, now);
    SyncHasEvents(0, req, now);
    OpsAtIsRun(room.groups, draws, att.groupKey, SyncEvents(0, req, now));
    SyncIsRun(g, 0, req, now);
    RestAfterSync(g, 0, req, now);
    ApplyConcat(room.groups, draws, handled, sending);
    BuildsKeepEdges(ApplyOps(room.groups, draws, handled), draws, sending, att.groupKey);
    assert q in AcceptedConnections(g, 0, req.connInfo);
    var after := RoomAfter(room, draws, Sync(s, Some(req), now)).groups[att.groupKey];
    assert 0 in after.connections && after.peers == {q} && after.removedAt == map[];
  }

  function ZeroReportsRun(s: SocketId, s': SocketId, ssid: SessionId, ssid': SessionId, q: PeerId, network: string,
                          t: Millis): seq<Step> {
    [Accept(s, ssid, t), Accept(s', ssid', t), Joins(s, 0, network, t), Joins(s', q, network, t), Restart(true)]
  }

  lemma ZeroAndAnotherJoin(draws: string -> nat, s: SocketId, s': SocketId, ssid: SessionId, ssid': SessionId,
                           q: PeerId,
                           network: string, t: Millis) returns (room: Room)
    requires s != s' && ssid != ssid'
    ensures Reaches(draws, ZeroReportsRun(s, s', ssid, ssid', q, network, t)[..4], room)
    ensures room.sockets == [s, s'] && s in room.atts && s' in room.atts
    ensures room.atts[s].peerId == 0 && room.atts[s'].peerId == q
    ensures room.atts[s].groupKey == room.atts[s'].groupKey == GroupKey(network, "")
  {
    hide RoomAfter, Exact;
    var es := ZeroReportsRun(s, s', ssid, ssid', q, network, t);
    var one := OneSocket(draws, s, ssid, t);
    assert es[..1] + [es[1]] == es[..2] && es[..2] + [es[2]] == es[..3] && es[..3] + [es[3]] == es[..4];
    AnyOneMore(draws, es[..1], one, es[1]);
    var two := RoomAfter(one, draws, es[1]);
    assert ShakeOutcome(two, es[2].shake).Some?;
    AnyOneMore(draws, es[..2], two, es[2]);
    var three := RoomAfter(two, draws, es[2]);
    assert ShakeOutcome(three, es[3].shake).Some?;
    AnyOneMore(draws, es[..3], three, es[3]);
    room := RoomAfter(three, draws, es[3]);
  }

  /** Id 0 joins and the isolate is lost: the group is set up again without it. */
  lemma ZeroIsForgotten(draws: string -> nat, s: SocketId, s': SocketId, ssid: SessionId, ssid': SessionId, q: PeerId,
                        network: string, t: Millis) returns (room: Room)
    requires s != s' && ssid != ssid' && q != 0
    ensures Reaches(draws, ZeroReportsRun(s, s', ssid, ssid', q, network, t), room)
    ensures s in room.sockets && s in room.atts && room.atts[s].peerId == 0
    ensures PeersAt(room.groups, room.atts[s].groupKey) == {q} && NoRemovals(room.groups)
  {
    hide RoomAfter, NoRemovals;
    var es := ZeroReportsRun(s, s', ssid, ssid', q, network, t);
    var joined := ZeroAndAnotherJoin(draws, s, s', ssid, ssid', q, network, t);
    assert es[..4] + [es[4]] == es;
    AnyOneMore(draws, es[..4], joined, es[4]);
    room := RoomAfter(joined, draws, es[4]);
    RestartForgets(joined, draws, GroupKey(network, ""));
    assert PeersStanding(joined.sockets, joined.atts, GroupKey(network, "")) == {q};
  }

  lemma RestartForgets(room: Room, draws: string -> nat, key: string)
    requires WellFormed(room)
    ensures var after := RoomAfter(room, draws, Restart(true));
            PeersAt(after.groups, key) == PeersStanding(room.sockets, room.atts, key) && NoRemovals(after.groups)
  {
    hide ApplyOps, RestartOps;
    PeersAfterRestart(map[], draws, room.sockets, room.atts, key);
    RestartOnlyAdds(map[], draws, room.sockets, room.atts);
    AddingsLeaveNoRemovals(map[], draws, RestartOps(map[], draws, room.sockets, room.atts));
  }

  /** When id 0 then reports a listed peer, it has an entry of edges and is neither listed nor on record. */
  lemma ZeroEscapesCleanup(draws: string -> nat, s: SocketId, s': SocketId, ssid: SessionId, ssid': SessionId,
                           q: PeerId,
                           network: string, sid: SessionId, t: Millis, now: Millis)
    requires s != s' && ssid != ssid' && q !in {0, MY_PEER_ID}
    ensures var run := RoomRun(draws, ZeroReportsRun(s, s', ssid, ssid', q, network, t) +
                                      [Sync(s, Some(ReportOf(0, q, sid)), now)]);
            run.Some? && !AllAnchored(run.value.groups, {})
  {
    hide RoomAfter, ZeroReportsRun, AllAnchored;
    var room := ZeroIsForgotten(draws, s, s', ssid, ssid', q, network, t);
    AnyOneMore(draws, ZeroReportsRun(s, s', ssid, ssid', q, network, t), room, Sync(s, Some(ReportOf(0, q, sid)), now));
    ReportOfZero(room, draws, s, q, sid, now);
  }
}
