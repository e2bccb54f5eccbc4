/** What a room keeps of each of its sockets, told from the log of its events. */
module RoomSockets {
  import opened Collections
  import opened Wire
  import opened Signature
  import opened RouteModel
  import opened PeerManager
  import opened Handshake
  import opened RoomModel
  import opened RoomSteps
  import opened RoomTheorems

  // ---- when a socket was last heard from ----

  /** When the socket was opened, or a message of any kind came in on it. */
  function HeardBy(steps: seq<Step>, s: SocketId): Option<Millis> {
    if steps == [] then None
    else
      var before := HeardBy(steps[..|steps| - 1], s);
      match steps[|steps| - 1]
      case Alarm(_, _) => before
      case Restart(_) => before
      case Close(t, _) => if t == s then None else before
      case step => if step.socket == s then Some(step.now) else before
  }

  function LastSeen(room: Room, s: SocketId): Option<Millis> {
    if s in room.atts then Some(room.atts[s].lastSeen) else None
  }

  lemma StepHears(room: Room, draws: string -> nat, step: Step, s: SocketId)
    requires WellFormed(room) && Enabled(room, step)
    ensures LastSeen(RoomAfter(room, draws, step), s) ==
            match step
            case Alarm(_, _) => LastSeen(room, s)
            case Restart(_) => LastSeen(room, s)
            case Close(t, _) => if t == s then None else LastSeen(room, s)
            case _ => if step.socket == s then Some(step.now) else LastSeen(room, s)
  {
    hide Ops, ApplyOps, SocketsAfter, DigestsAt;
  }

  /** Over every run of a room the last contact of a socket is that of the log. */
  lemma {:induction false} LastSeenFollowsLog(draws: string -> nat, steps: seq<Step>, s: SocketId)
    requires RoomRun(draws, steps).Some?
    ensures LastSeen(RoomRun(draws, steps).value, s) == HeardBy(steps, s)
  {
    hide RoomAfter, Enabled, WellFormed;
    if steps != [] {
      LastSeenFollowsLog(draws, steps[..|steps| - 1], s);
      StepHears(RoomRun(draws, steps[..|steps| - 1]).value, draws, steps[|steps| - 1], s);
    }
  }

  // ---- which sockets there are ----

  ghost predicate KeepsItsSockets(room: Room) {
    forall s :: s in room.sockets <==> s in room.atts
  }

  lemma StepKeepsSockets(room: Room, draws: string -> nat, step: Step)
    requires WellFormed(room) && Enabled(room, step) && KeepsItsSockets(room)
    ensures KeepsItsSockets(RoomAfter(room, draws, step))
  {
    hide Ops, ApplyOps, DigestsAt, SocketsLeft;
    if step.Close? {
      WithoutElements(room.sockets, step.socket);
    }
  }

  /** The sockets of a room are those that were opened and have not closed since. */
  lemma {:induction false} SocketsFollowLog(draws: string -> nat, steps: seq<Step>, s: SocketId)
    requires RoomRun(draws, steps).Some?
    ensures KeepsItsSockets(RoomRun(draws, steps).value)
    ensures s in RoomRun(draws, steps).value.sockets <==> HeardBy(steps, s).Some?
  {
    hide RoomAfter, Enabled, WellFormed;
    LastSeenFollowsLog(draws, steps, s);
    if steps != [] {
      SocketsFollowLog(draws, steps[..|steps| - 1], s);
      StepKeepsSockets(RoomRun(draws, steps[..|steps| - 1]).value, draws, steps[|steps| - 1]);
    }
  }

  // ---- their sessions and roles ----

  /** The session id drawn when the socket was opened. */
  function OpenedWith(steps: seq<Step>, s: SocketId): Option<SessionId> {
    if steps == [] then None
    else
      var before := OpenedWith(steps[..|steps| - 1], s);
      match steps[|steps| - 1]
      case Accept(t, ssid, _) => if t == s then Some(ssid) else before
      case Close(t, _) => if t == s then None else before
      case _ => before
  }

  function SessionIdOf(room: Room, s: SocketId): Option<SessionId> {
    if s in room.atts then Some(room.atts[s].serverSessionId) else None
  }

  lemma StepKeepsSession(room: Room, draws: string -> nat, step: Step, s: SocketId)
    requires WellFormed(room) && Enabled(room, step)
    ensures SessionIdOf(RoomAfter(room, draws, step), s) ==
            match step
            case Accept(t, ssid, _) => if t == s then Some(ssid) else SessionIdOf(room, s)
            case Close(t, _) => if t == s then None else SessionIdOf(room, s)
            case _ => SessionIdOf(room, s)
  {
    hide Ops, ApplyOps, SocketsAfter, DigestsAt;
  }

  /** A socket keeps the session id it was opened with. */
  lemma {:induction false} SessionsAreKept(draws: string -> nat, steps: seq<Step>, s: SocketId)
    requires RoomRun(draws, steps).Some?
    ensures SessionIdOf(RoomRun(draws, steps).value, s) == OpenedWith(steps, s)
  {
    hide RoomAfter, Enabled, WellFormed;
    if steps != [] {
      SessionsAreKept(draws, steps[..|steps| - 1], s);
      StepKeepsSession(RoomRun(draws, steps[..|steps| - 1]).value, draws, steps[|steps| - 1], s);
    }
  }

  ghost predicate NobodyInitiates(room: Room) {
    forall s | s in room.atts :: !room.atts[s].weAreInitiator
  }

  lemma StepInitiatesNothing(room: Room, draws: string -> nat, step: Step)
    requires WellFormed(room) && Enabled(room, step) && NobodyInitiates(room)
    ensures NobodyInitiates(RoomAfter(room, draws, step))
  {
    hide Ops, ApplyOps, SocketsAfter, DigestsAt;
  }

  /** No attachment ever says that the relay is the initiator, whatever role its replies take. */
  lemma {:induction false} RelayNeverInitiates(draws: string -> nat, steps: seq<Step>)
    requires RoomRun(draws, steps).Some?
    ensures NobodyInitiates(RoomRun(draws, steps).value)
  {
    hide RoomAfter, Enabled, WellFormed;
    if steps != [] {
      RelayNeverInitiates(draws, steps[..|steps| - 1]);
      StepInitiatesNothing(RoomRun(draws, steps[..|steps| - 1]).value, draws, steps[|steps| - 1]);
    }
  }

  /** An answer that names a session is filed under its sender, with the time and the role of the socket. */
  lemma AnswersAreFiled(room: Room, draws: string -> nat, s: SocketId, from: PeerId, sid: SessionId, now: Millis)
    requires WellFormed(room) && s in room.sockets && sid != 0
    ensures var att, after := room.atts[s], RoomAfter(room, draws, SyncAnswer(s, from, sid, now));
            var session := SessionOf(Lookup(after.groups, draws, att.groupKey), from);
            session.dstSessionId == Some(sid) && session.weAreInitiator == att.weAreInitiator &&
              session.lastTouch == now
  {
    hide RoomAfter;
    AnswerRoom(room, draws, s, from, sid, now);
  }

  // ---- whom they stand for ----

  /** The peer, the network and the group of a socket. */
  datatype Identity = Identity(peer: PeerId, network: string, group: string)

  ghost function IdentityAfter(before: Option<Identity>, room: Room, step: Step, s: SocketId): Option<Identity> {
    match step
    case Accept(t, _, _) => if t == s then Some(Identity(0, "", "")) else before
    case Close(t, _) => if t == s then None else before
    case Shake(t, Some(req), _) =>
      if t == s && OutcomeOf(room.digests, req).Some? then
        Some(Identity(req.myPeerId, req.networkName, req.networkName + ":" + Hex(req.digest)))
      else before
    case _ => before
  }

  /** What the last admission on the socket said. */
  ghost function AdmittedAs(draws: string -> nat, steps: seq<Step>, s: SocketId): Option<Identity>
    requires RoomRun(draws, steps).Some?
  {
    if steps == [] then None
    else
      var prefix := steps[..|steps| - 1];
      IdentityAfter(AdmittedAs(draws, prefix, s), RoomRun(draws, prefix).value, steps[|steps| - 1], s)
  }

  function IdentityOf(room: Room, s: SocketId): Option<Identity> {
    if s in room.atts then Some(Identity(room.atts[s].peerId, room.atts[s].domainName, room.atts[s].groupKey)) else None
  }

  lemma StepIdentifies(room: Room, draws: string -> nat, step: Step, s: SocketId)
    requires WellFormed(room) && Enabled(room, step)
    ensures IdentityOf(RoomAfter(room, draws, step), s) == IdentityAfter(IdentityOf(room, s), room, step, s)
  {
    hide Ops, ApplyOps, SocketsAfter, DigestsAt;
  }

  /** A socket stands for the peer of the last handshake admitted on it, in the group of that handshake. */
  lemma {:induction false} IdentitiesFollowLog(draws: string -> nat, steps: seq<Step>, s: SocketId)
    requires RoomRun(draws, steps).Some?
    ensures IdentityOf(RoomRun(draws, steps).value, s) == AdmittedAs(draws, steps, s)
  {
    hide RoomAfter, Enabled, WellFormed, IdentityAfter;
    if steps != [] {
      IdentitiesFollowLog(draws, steps[..|steps| - 1], s);
      StepIdentifies(RoomRun(draws, steps[..|steps| - 1]).value, draws, steps[|steps| - 1], s);
    }
  }
}
