/** The connection lifecycle: which peers a group lists, over every order of a room's events. */
module RoomTheorems {
  import opened Collections
  import opened Wire
  import opened RouteModel
  import opened SyncRpc
  import opened PeerManager
  import opened RoomModel

  // ---- which operations touch the list of peers ----

  predicate IsQuiet(e: Event) {
    !e.AddPeer? && !e.RemovePeer?
  }

  ghost predicate AllQuiet(ops: seq<Op>) {
    forall i | 0 <= i < |ops| :: IsQuiet(ops[i].event)
  }

  lemma QuietEventKeepsPeers(g: Group, e: Event)
    requires IsQuiet(e)
    ensures Apply(g, e).peers == g.peers
  {
  }

  lemma {:induction false} QuietOpsKeepPeers(groups: Groups, draws: string -> nat, ops: seq<Op>, key: string)
    requires AllQuiet(ops)
    ensures PeersAt(ApplyOps(groups, draws, ops), key) == PeersAt(groups, key)
  {
    if ops != [] {
      var prefix, op := ops[..|ops| - 1], ops[|ops| - 1];
      QuietOpsKeepPeers(groups, draws, prefix, key);
      QuietEventKeepsPeers(Lookup(ApplyOps(groups, draws, prefix), draws, op.key), op.event);
    }
  }

  lemma {:induction false} BroadcastIsQuiet(sockets: seq<SocketId>, atts: map<SocketId, Attachment>, key: string,
                                            excluded: PeerId, now: Millis)
    requires forall s | s in sockets :: s in atts
    ensures AllQuiet(BroadcastOps(sockets, atts, key, excluded, now))
  {
    if sockets != [] {
      BroadcastIsQuiet(sockets[..|sockets| - 1], atts, key, excluded, now);
    }
  }

  lemma {:induction false} OpsAtEvents(key: string, es: seq<Event>)
    ensures |OpsAt(key, es)| == |es|
    ensures forall i | 0 <= i < |es| :: OpsAt(key, es)[i] == Op(key, es[i])
  {
    if es != [] {
      OpsAtEvents(key, es[..|es| - 1]);
    }
  }

  lemma {:induction false} MergeEventsAreQuiet(items: seq<PeerInfo>)
    ensures forall i | 0 <= i < |MergeEvents(items)| :: IsQuiet(MergeEvents(items)[i])
  {
    if items != [] {
      MergeEventsAreQuiet(items[..|items| - 1]);
    }
  }

  lemma SyncIsQuiet(key: string, p: PeerId, req: SyncRequest, now: Millis)
    ensures AllQuiet(OpsAt(key, SyncEvents(p, req, now)))
  {
    MergeEventsAreQuiet(ItemsOf(req));
    OpsAtEvents(key, SyncEvents(p, req, now));
  }

  lemma {:induction false} AlarmIsQuiet(room: Room, keys: seq<string>, now: Millis)
    requires forall s | s in room.sockets :: s in room.atts
    ensures AllQuiet(CleanupOps(keys, now)) && AllQuiet(RefreshOps(room.sockets, room.atts, keys, now))
  {
    if keys != [] {
      AlarmIsQuiet(room, keys[..|keys| - 1], now);
      BroadcastIsQuiet(room.sockets, room.atts, keys[|keys| - 1], 0, now);
    }
  }

  lemma PeersAfterWelcome(groups: Groups, draws: string -> nat, att: Attachment, now: Millis, key: string)
    ensures PeersAt(ApplyOps(groups, draws, OpsAt(att.groupKey, WelcomeEvents(att, now))), key) ==
            PeersAt(groups, key) + (if key == att.groupKey then {att.peerId} else {})
  {
    var es := WelcomeEvents(att, now);
    var first, rest := OpsAt(att.groupKey, es)[..1], OpsAt(att.groupKey, es)[1..];
    OpsAtEvents(att.groupKey, es);
    assert OpsAt(att.groupKey, es) == first + rest;
    ApplyConcat(groups, draws, first, rest);
    assert first == [] + [Op(att.groupKey, AddPeer(att.peerId))];
    ApplyOneMore(groups, draws, [], first[0]);
    QuietOpsKeepPeers(ApplyOps(groups, draws, first), draws, rest, key);
  }

  lemma PeersAfterAdding(groups: Groups, draws: string -> nat, p: PeerId, at: string, key: string)
    ensures PeersAt(ApplyOps(groups, draws, OpsAt(at, AddEvents(p))), key) ==
            PeersAt(groups, key) + (if key == at then {p} else {})
  {
    var es := AddEvents(p);
    OpsAtEvents(at, es);
    assert OpsAt(at, es) == [Op(at, AddPeer(p))] + [Op(at, BumpMyInfo)];
    ApplyOneMore(groups, draws, [Op(at, AddPeer(p))], Op(at, BumpMyInfo));
    ApplyOneMore(groups, draws, [], Op(at, AddPeer(p)));
    assert [] + [Op(at, AddPeer(p))] == [Op(at, AddPeer(p))];
  }

  /** The peers, other than 0, that the given sockets stand for in a group. */
  function PeersStanding(sockets: seq<SocketId>, atts: map<SocketId, Attachment>, key: string): set<PeerId> {
    set s | s in sockets && s in atts && atts[s].groupKey == key && atts[s].peerId != 0 :: atts[s].peerId
  }

  lemma StandingOneMore(sockets: seq<SocketId>, atts: map<SocketId, Attachment>, key: string)
    requires sockets != [] && forall s | s in sockets :: s in atts
    ensures var att := atts[sockets[|sockets| - 1]];
            PeersStanding(sockets, atts, key) ==
            PeersStanding(sockets[..|sockets| - 1], atts, key) +
            (if att.groupKey == key && att.peerId != 0 then {att.peerId} else {})
  {
    assert sockets == sockets[..|sockets| - 1] + [sockets[|sockets| - 1]];
  }

  /** After a restart each group lists what it listed before and every peer with a live socket. */
  lemma {:induction false} PeersAfterRestart(groups: Groups, draws: string -> nat, sockets: seq<SocketId>,
                                             atts: map<SocketId, Attachment>, key: string)
    requires forall s | s in sockets :: s in atts
    ensures PeersAt(ApplyOps(groups, draws, RestartOps(groups, draws, sockets, atts)), key) ==
            PeersAt(groups, key) + PeersStanding(sockets, atts, key)
  {
    hide AddEvents, OpsAt, ApplyOp;
    if sockets != [] {
      var before, att := sockets[..|sockets| - 1], atts[sockets[|sockets| - 1]];
      var ops := RestartOps(groups, draws, before, atts);
      PeersAfterRestart(groups, draws, before, atts, key);
      PeersAfterRestart(groups, draws, before, atts, att.groupKey);
      StandingOneMore(sockets, atts, key);
      ApplyConcat(groups, draws, ops, OpsAt(att.groupKey, AddEvents(att.peerId)));
      PeersAfterAdding(ApplyOps(groups, draws, ops), draws, att.peerId, att.groupKey, key);
    }
  }

  // ---- one step ----

  /** The only steps that change whom a group lists are accepted handshakes, closings and restarts. */
  ghost function PeersAfter(room: Room, step: Step, key: string): set<PeerId>
    requires WellFormed(room) && Enabled(room, step)
  {
    match step
    case Shake(_, shake, _) =>
      (match ShakeOutcome(room, shake)
       case Some(outcome) => PeersAt(room.groups, key) + (if key == outcome.groupKey then {outcome.peerId} else {})
       case None => PeersAt(room.groups, key))
    case Close(s, _) =>
      var att := room.atts[s];
      if att.peerId == 0 || HasOtherConnection(room, att) || att.groupKey != key then PeersAt(room.groups, key)
      else PeersAt(room.groups, key) - {att.peerId}
    case Restart(_) => PeersAt(GroupsKept(room, step), key) + PeersStanding(room.sockets, room.atts, key)
    case _ => PeersAt(room.groups, key)
  }

  lemma PeersAfterShake(room: Room, draws: string -> nat, step: Step, key: string)
    requires WellFormed(room) && Enabled(room, step) && step.Shake?
    ensures PeersAt(RoomAfter(room, draws, step).groups, key) == PeersAfter(room, step, key)
  {
    var outcome := ShakeOutcome(room, step.shake);
    if outcome.Some? {
      var atts := AttsAfter(room, step);
      var att := atts[step.socket];
      var welcome := OpsAt(att.groupKey, WelcomeEvents(att, step.now));
      var broadcast := BroadcastOps(room.sockets, atts, att.groupKey, 0, step.now);
      ApplyConcat(room.groups, draws, welcome, broadcast);
      PeersAfterWelcome(room.groups, draws, att, step.now, key);
      BroadcastIsQuiet(room.sockets, atts, att.groupKey, 0, step.now);
      QuietOpsKeepPeers(ApplyOps(room.groups, draws, welcome), draws, broadcast, key);
    }
  }

  lemma NoOps(groups: Groups, draws: string -> nat)
    ensures ApplyOps(groups, draws, []) == groups
  {
  }

  lemma OneOp(groups: Groups, draws: string -> nat, op: Op)
    ensures ApplyOps(groups, draws, [op]) == ApplyOp(groups, draws, op)
  {
    ApplyOneMore(groups, draws, [], op);
    assert [] + [op] == [op];
  }

  lemma PeersAfterClose(room: Room, draws: string -> nat, step: Step, key: string)
    requires WellFormed(room) && Enabled(room, step) && step.Close?
    ensures PeersAt(RoomAfter(room, draws, step).groups, key) == PeersAfter(room, step, key)
  {
    hide BroadcastOps, HasOtherConnection, ApplyOps;
    var att := room.atts[step.socket];
    NoOps(room.groups, draws);
    if att.peerId != 0 && !HasOtherConnection(room, att) {
      var remove := [Op(att.groupKey, RemovePeer(att.peerId, step.now))];
      var broadcast := BroadcastOps(room.sockets, room.atts, att.groupKey, att.peerId, step.now);
      ApplyConcat(room.groups, draws, remove, broadcast);
      OneOp(room.groups, draws, remove[0]);
      BroadcastIsQuiet(room.sockets, room.atts, att.groupKey, att.peerId, step.now);
      QuietOpsKeepPeers(ApplyOps(room.groups, draws, remove), draws, broadcast, key);
    }
  }

  lemma QuietSteps(room: Room, draws: string -> nat, step: Step)
    requires WellFormed(room) && Enabled(room, step) && !step.Shake? && !step.Close? && !step.Restart?
    ensures AllQuiet(Ops(room, draws, step))
  {
    match step {
      case Sync(s, Some(req), now) =>
        var att := room.atts[s];
        SyncIsQuiet(att.groupKey, att.peerId, req, now);
        BroadcastIsQuiet(room.sockets, room.atts, att.groupKey, att.peerId, now);
      case Alarm(keys, now) => AlarmIsQuiet(room, keys, now);
      case _ =>
    }
  }

  lemma PeersAfterStep(room: Room, draws: string -> nat, step: Step, key: string)
    requires WellFormed(room) && Enabled(room, step)
    ensures PeersAt(RoomAfter(room, draws, step).groups, key) == PeersAfter(room, step, key)
  {
    if step.Shake? {
      PeersAfterShake(room, draws, step, key);
    } else if step.Close? {
      PeersAfterClose(room, draws, step, key);
    } else if step.Restart? {
      PeersAfterRestart(GroupsKept(room, step), draws, room.sockets, room.atts, key);
    } else {
      QuietSteps(room, draws, step);
      QuietOpsKeepPeers(room.groups, draws, Ops(room, draws, step), key);
    }
  }

  // ---- safety ----

  /** Every live socket that has shaken hands stands for a peer its group lists. */
  ghost predicate Listed(room: Room) {
    forall s | s in room.sockets && s in room.atts && room.atts[s].peerId != 0 ::
      room.atts[s].peerId in PeersAt(room.groups, room.atts[s].groupKey)
  }

  lemma DistinctOneMore(kept: seq<SocketId>, last: SocketId)
    requires last !in kept && forall i, j | 0 <= i < j < |kept| :: kept[i] != kept[j]
    ensures var rest := kept + [last]; forall i, j | 0 <= i < j < |rest| :: rest[i] != rest[j]
  {
  }

  lemma {:induction false} WithoutElements(sockets: seq<SocketId>, s: SocketId)
    requires forall i, j | 0 <= i < j < |sockets| :: sockets[i] != sockets[j]
    ensures var rest := SocketsLeft(sockets, s);
            && (forall x :: x in rest <==> x in sockets && x != s)
            && (forall i, j | 0 <= i < j < |rest| :: rest[i] != rest[j])
  {
    if sockets != [] {
      var before, last := sockets[..|sockets| - 1], sockets[|sockets| - 1];
      assert sockets == before + [last];
      WithoutElements(before, s);
      assert last !in before;
      var kept := SocketsLeft(before, s);
      assert last !in kept;
      DistinctOneMore(kept, last);
      assert SocketsLeft(sockets, s) == if last == s then kept + [] else kept + [last];
      assert kept + [] == kept;
    }
  }

  lemma StepKeepsWellFormed(room: Room, draws: string -> nat, step: Step)
    requires WellFormed(room) && Enabled(room, step)
    ensures WellFormed(RoomAfter(room, draws, step))
  {
    hide ApplyOps, Ops, SocketsLeft;
    if step.Close? {
      WithoutElements(room.sockets, step.socket);
    }
  }

  /** No event of a room takes a peer off its group's list while a socket still stands for it. */
  lemma StepKeepsListed(room: Room, draws: string -> nat, step: Step)
    requires WellFormed(room) && Enabled(room, step) && Listed(room)
    ensures Listed(RoomAfter(room, draws, step))
  {
    hide ApplyOps, Ops;
    var after := RoomAfter(room, draws, step);
    if step.Close? {
      WithoutElements(room.sockets, step.socket);
    }
    forall s | s in after.sockets && s in after.atts && after.atts[s].peerId != 0
      ensures after.atts[s].peerId in PeersAt(after.groups, after.atts[s].groupKey)
    {
      PeersAfterStep(room, draws, step, after.atts[s].groupKey);
    }
  }

  /** A late close of an old socket changes no list when another live socket stands for the same peer. */
  lemma LateCloseEvictsNobody(room: Room, draws: string -> nat, old': SocketId, other: SocketId, now: Millis,
                              key: string)
    requires WellFormed(room) && Listed(room)
    requires old' in room.sockets && other in room.sockets && old' != other
    requires room.atts[other].peerId == room.atts[old'].peerId != 0
    ensures var after := RoomAfter(room, draws, Close(old', now));
            && PeersAt(after.groups, key) == PeersAt(room.groups, key)
            && other in after.sockets && after.atts[other] == room.atts[other]
            && room.atts[other].peerId in PeersAt(after.groups, room.atts[other].groupKey)
  {
    var step := Close(old', now);
    assert HasOtherConnection(room, room.atts[old']);
    PeersAfterStep(room, draws, step, key);
    PeersAfterStep(room, draws, step, room.atts[other].groupKey);
    WithoutElements(room.sockets, old');
  }

  // ---- runs of a room ----

  /** The room after a run from an empty one, if every step was enabled. */
  ghost function RoomRun(draws: string -> nat, steps: seq<Step>): Option<Room> {
    if steps == [] then Some(EMPTY_ROOM)
    else
      match RoomRun(draws, steps[..|steps| - 1])
      case None => None
      case Some(room) =>
        var step := steps[|steps| - 1];
        if WellFormed(room) && Enabled(room, step) then Some(RoomAfter(room, draws, step)) else None
  }

  /** In every reachable room every live socket that has shaken hands stands for a peer its group lists. */
  lemma {:induction false} ReachableRoomsAreListed(draws: string -> nat, steps: seq<Step>)
    requires RoomRun(draws, steps).Some?
    ensures WellFormed(RoomRun(draws, steps).value) && Listed(RoomRun(draws, steps).value)
  {
    if steps != [] {
      var prefix, step := steps[..|steps| - 1], steps[|steps| - 1];
      ReachableRoomsAreListed(draws, prefix);
      StepKeepsWellFormed(RoomRun(draws, prefix).value, draws, step);
      StepKeepsListed(RoomRun(draws, prefix).value, draws, step);
    }
  }

  // ---- exactness ----

  /** Each group lists exactly the peers that live sockets stand for. */
  ghost predicate Exact(room: Room) {
    forall key :: PeersAt(room.groups, key) == PeersStanding(room.sockets, room.atts, key)
  }

  predicate AnotherStandsFor(room: Room, s: SocketId, p: PeerId, key: string) {
    exists other | other in room.sockets :: other != s && other in room.atts &&
                                            room.atts[other].peerId == p && room.atts[other].groupKey == key
  }

  /**
   * A handshake is tidy when it gives a real id and does not leave an old one behind; a closing, when
   * a connection of the same id elsewhere does not keep the peer listed here.
   */
  ghost predicate IsTidy(room: Room, step: Step)
    requires WellFormed(room) && Enabled(room, step)
  {
    match step
    case Shake(s, shake, _) =>
      (match ShakeOutcome(room, shake)
       case Some(outcome) =>
         var att := room.atts[s];
         && outcome.peerId != 0
         && (att.peerId == 0 || (att.peerId == outcome.peerId && att.groupKey == outcome.groupKey) ||
             AnotherStandsFor(room, s, att.peerId, att.groupKey))
       case None => true)
    case Close(s, _) =>
      var att := room.atts[s];
      att.peerId == 0 || !HasOtherConnection(room, att) || AnotherStandsFor(room, s, att.peerId, att.groupKey)
    case _ => true
  }

  lemma StandingAfterShake(room: Room, step: Step, key: string)
    requires WellFormed(room) && Enabled(room, step) && step.Shake? && ShakeOutcome(room, step.shake).Some?
    ensures var s, outcome := step.socket, ShakeOutcome(room, step.shake).value;
            forall p :: p in PeersStanding(room.sockets, AttsAfter(room, step), key) <==>
                        p != 0 && ((p == outcome.peerId && key == outcome.groupKey) ||
                                   AnotherStandsFor(room, s, p, key))
  {
    var s, outcome, atts := step.socket, ShakeOutcome(room, step.shake).value, AttsAfter(room, step);
    assert atts[s].peerId == outcome.peerId && atts[s].groupKey == outcome.groupKey;
    forall p
      ensures p in PeersStanding(room.sockets, atts, key) <==>
              p != 0 && ((p == outcome.peerId && key == outcome.groupKey) || AnotherStandsFor(room, s, p, key))
    {
      if AnotherStandsFor(room, s, p, key) {
        var other :| other in room.sockets && other != s && other in room.atts &&
                     room.atts[other].peerId == p && room.atts[other].groupKey == key;
        assert atts[other] == room.atts[other];
      }
    }
  }

  lemma StandingBefore(room: Room, s: SocketId, key: string)
    requires WellFormed(room) && s in room.sockets
    ensures forall p :: p in PeersStanding(room.sockets, room.atts, key) <==>
                        p != 0 && ((p == room.atts[s].peerId && key == room.atts[s].groupKey) ||
                                   AnotherStandsFor(room, s, p, key))
  {
  }

  lemma StandingAfterClose(room: Room, s: SocketId, now: Millis, key: string)
    requires WellFormed(room) && s in room.sockets
    ensures forall p :: p in PeersStanding(SocketsAfter(room, Close(s, now)), AttsAfter(room, Close(s, now)), key) <==>
                        p != 0 && AnotherStandsFor(room, s, p, key)
  {
    WithoutElements(room.sockets, s);
  }

  /** Whom a group lists, and for whom sockets stand, after an accepted handshake of an exact room. */
  lemma MemberAfterShake(room: Room, draws: string -> nat, step: Step, key: string, p: PeerId)
    requires WellFormed(room) && Enabled(room, step) && Exact(room)
    requires step.Shake? && ShakeOutcome(room, step.shake).Some?
    ensures var s, outcome, after := step.socket, ShakeOutcome(room, step.shake).value, RoomAfter(room, draws, step);
            var isNew := p == outcome.peerId && key == outcome.groupKey;
            var wasOwn := p == room.atts[s].peerId && key == room.atts[s].groupKey;
            && (p in PeersAt(after.groups, key) <==> isNew || (p != 0 && (wasOwn || AnotherStandsFor(room, s, p, key))))
            && (p in PeersStanding(after.sockets, after.atts, key) <==>
                p != 0 && (isNew || AnotherStandsFor(room, s, p, key)))
  {
    PeersAfterStep(room, draws, step, key);
    StandingBefore(room, step.socket, key);
    StandingAfterShake(room, step, key);
  }

  /** An accepted handshake keeps an exact room exact just when it is tidy. */
  lemma ShakeKeepsExact(room: Room, draws: string -> nat, step: Step)
    requires WellFormed(room) && Enabled(room, step) && Exact(room)
    requires step.Shake? && ShakeOutcome(room, step.shake).Some?
    ensures Exact(RoomAfter(room, draws, step)) <==> IsTidy(room, step)
  {
    var outcome, after, att :=
      ShakeOutcome(room, step.shake).value, RoomAfter(room, draws, step), room.atts[step.socket];
    MemberAfterShake(room, draws, step, outcome.groupKey, outcome.peerId);
    MemberAfterShake(room, draws, step, att.groupKey, att.peerId);
    if IsTidy(room, step) {
      forall key ensures PeersAt(after.groups, key) == PeersStanding(after.sockets, after.atts, key) {
        forall p ensures p in PeersAt(after.groups, key) <==> p in PeersStanding(after.sockets, after.atts, key) {
          MemberAfterShake(room, draws, step, key, p);
        }
      }
    }
  }

  lemma MemberAfterClose(room: Room, draws: string -> nat, s: SocketId, now: Millis, key: string, p: PeerId)
    requires WellFormed(room) && s in room.sockets && Exact(room)
    ensures var after, att := RoomAfter(room, draws, Close(s, now)), room.atts[s];
            var wasOwn := p == att.peerId && key == att.groupKey;
            && (p in PeersAt(after.groups, key) <==>
                p != 0 && (if wasOwn then HasOtherConnection(room, att) else AnotherStandsFor(room, s, p, key)))
            && (p in PeersStanding(after.sockets, after.atts, key) <==> p != 0 && AnotherStandsFor(room, s, p, key))
  {
    PeersAfterStep(room, draws, Close(s, now), key);
    StandingBefore(room, s, key);
    StandingAfterClose(room, s, now, key);
  }

  /** A closing keeps an exact room exact just when it is tidy. */
  lemma CloseKeepsExact(room: Room, draws: string -> nat, s: SocketId, now: Millis)
    requires WellFormed(room) && s in room.sockets && Exact(room)
    ensures Exact(RoomAfter(room, draws, Close(s, now))) <==> IsTidy(room, Close(s, now))
  {
    var after, att := RoomAfter(room, draws, Close(s, now)), room.atts[s];
    OtherIsAnotherSocket(room, s);
    MemberAfterClose(room, draws, s, now, att.groupKey, att.peerId);
    if IsTidy(room, Close(s, now)) {
      forall key ensures PeersAt(after.groups, key) == PeersStanding(after.sockets, after.atts, key) {
        forall p ensures p in PeersAt(after.groups, key) <==> p in PeersStanding(after.sockets, after.atts, key) {
          MemberAfterClose(room, draws, s, now, key, p);
        }
      }
    }
  }

  lemma OtherIsAnotherSocket(room: Room, s: SocketId)
    requires WellFormed(room) && s in room.sockets
    ensures AnotherStandsFor(room, s, room.atts[s].peerId, room.atts[s].groupKey) ==>
            HasOtherConnection(room, room.atts[s])
  {
  }

  lemma OthersKeepStanding(room: Room, step: Step, key: string)
    requires WellFormed(room) && Enabled(room, step) && !step.Close?
    requires step.Shake? ==> ShakeOutcome(room, step.shake).None?
    ensures PeersStanding(SocketsAfter(room, step), AttsAfter(room, step), key) ==
            PeersStanding(room.sockets, room.atts, key)
  {
    var sockets, atts := SocketsAfter(room, step), AttsAfter(room, step);
    forall s | s in room.sockets
      ensures s in sockets && s in atts && atts[s].peerId == room.atts[s].peerId &&
              atts[s].groupKey == room.atts[s].groupKey
    {
    }
    forall s | s in sockets && s in atts && atts[s].peerId != 0 ensures s in room.sockets {
    }
  }

  lemma OthersKeepExact(room: Room, draws: string -> nat, step: Step)
    requires WellFormed(room) && Enabled(room, step) && Exact(room) && !step.Close?
    requires step.Shake? ==> ShakeOutcome(room, step.shake).None?
    ensures Exact(RoomAfter(room, draws, step))
  {
    var after := RoomAfter(room, draws, step);
    forall key ensures PeersAt(after.groups, key) == PeersStanding(after.sockets, after.atts, key) {
      PeersAfterStep(room, draws, step, key);
      OthersKeepStanding(room, step, key);
    }
  }

  /**
   * Groups list exactly the peers with live sockets for as long as every step is tidy; the first step
   * that is not leaves a peer listed without a socket, or lists the id 0.
   */
  lemma StepKeepsExact(room: Room, draws: string -> nat, step: Step)
    requires WellFormed(room) && Enabled(room, step) && Exact(room)
    ensures Exact(RoomAfter(room, draws, step)) <==> IsTidy(room, step)
  {
    match step {
      case Shake(_, shake, _) =>
        if ShakeOutcome(room, shake).Some? {
          ShakeKeepsExact(room, draws, step);
        } else {
          OthersKeepExact(room, draws, step);
        }
      case Close(s, now) => CloseKeepsExact(room, draws, s, now);
      case _ => OthersKeepExact(room, draws, step);
    }
  }

  ghost predicate TidyRun(draws: string -> nat, steps: seq<Step>)
    requires RoomRun(draws, steps).Some?
  {
    steps == [] ||
    (TidyRun(draws, steps[..|steps| - 1]) && IsTidy(RoomRun(draws, steps[..|steps| - 1]).value, steps[|steps| - 1]))
  }

  /** Over tidy runs a group lists a peer exactly while some live socket stands for it. */
  lemma {:induction false} TidyRunsAreExact(draws: string -> nat, steps: seq<Step>)
    requires RoomRun(draws, steps).Some? && TidyRun(draws, steps)
    ensures Exact(RoomRun(draws, steps).value)
  {
    if steps != [] {
      TidyRunsAreExact(draws, steps[..|steps| - 1]);
      StepKeepsExact(RoomRun(draws, steps[..|steps| - 1]).value, draws, steps[|steps| - 1]);
    }
  }
}
