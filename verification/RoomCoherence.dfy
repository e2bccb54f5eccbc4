/**
 * What the peers of a room really hold. Each update a room sends is taken in by the peer it is sent to,
 * and the discarded update of a handshake is lost; the relay's sessions are compared with that.
 */
module RoomCoherence {
  import opened Collections
  import opened Wire
  import opened RouteModel
  import opened Invariants
  import opened Fingerprint
  import opened Coherence
  import opened Holdings
  import opened SyncRpc
  import opened PeerManager
  import opened RoomModel
  import opened RoomSteps
  import opened RoomTheorems
  import opened RoomGroups

  predicate IsFor(d: Delivery, atts: map<SocketId, Attachment>, key: string, p: PeerId) {
    d.peer == p && d.socket in atts && atts[d.socket].groupKey == key
  }

  /** What the peer holds once it has taken in the updates among `sent` that go to it. */
  function TakenIn(h: Held, sent: seq<Delivery>, atts: map<SocketId, Attachment>, key: string, p: PeerId): Held {
    if sent == [] then h
    else
      var last := sent[|sent| - 1];
      var h' := TakenIn(h, sent[..|sent| - 1], atts, key, p);
      if IsFor(last, atts, key, p) then Takes(h', last.update) else h'
  }

  predicate StandsFor(att: Attachment, key: string, p: PeerId) {
    att.groupKey == key && att.peerId == p
  }

  /** The update that an accepted handshake builds for the newcomer and throws away. */
  ghost function Discarded(groups: Groups, draws: string -> nat, att: Attachment, now: Millis): SyncRequest {
    Update(Arrived(Lookup(groups, draws, att.groupKey), att.peerId, now), att.peerId, att.serverSessionId,
           att.weAreInitiator, true, now)
  }

  /** What the peer holds after a step: what it says, what it loses and what it is sent, in the order of the step. */
  ghost function HeldAfter(h: Held, room: Room, draws: string -> nat, step: Step, key: string, p: PeerId): Held
    requires WellFormed(room) && Enabled(room, step)
  {
    var sent := Deliveries(room, draws, step);
    match step
    case Shake(s, shake, now) =>
      (match ShakeOutcome(room, shake)
       case Some(_) =>
         var atts := AttsAfter(room, step);
         var h' := if StandsFor(atts[s], key, p) then Misses(h, Discarded(room.groups, draws, atts[s], now)) else h;
         TakenIn(h', sent, atts, key, p)
       case None => h)
    case Sync(s, Some(req), now) =>
      TakenIn(if StandsFor(room.atts[s], key, p) then Greets(h, req.mySessionId) else h, sent, room.atts, key, p)
    case SyncAnswer(s, from, sid, now) =>
      if sid != 0 && room.atts[s].groupKey == key && from == p then Greets(h, sid) else h
    case Close(s, now) =>
      var att := room.atts[s];
      var leaves := att.peerId != 0 && !HasOtherConnection(room, att) && StandsFor(att, key, p);
      TakenIn(if leaves then HOLDS_NOTHING else h, sent, room.atts, key, p)
    case Alarm(keys, now) => TakenIn(h, sent, room.atts, key, p)
    case Restart(isolateIsNew) => if isolateIsNew then HOLDS_NOTHING else h
    case _ => h
  }

  /** What the peer holds after a run. */
  ghost function HeldOf(draws: string -> nat, steps: seq<Step>, key: string, p: PeerId): Held
    requires RoomRun(draws, steps).Some?
  {
    if steps == [] then HOLDS_NOTHING
    else
      var prefix := steps[..|steps| - 1];
      HeldAfter(HeldOf(draws, prefix, key, p), RoomRun(draws, prefix).value, draws, steps[|steps| - 1], key, p)
  }

  // ---- updates that reach a peer ----

  lemma TakenOneMore(h: Held, sent: seq<Delivery>, d: Delivery, atts: map<SocketId, Attachment>, key: string, p: PeerId)
    ensures TakenIn(h, sent + [d], atts, key, p) ==
            if IsFor(d, atts, key, p) then Takes(TakenIn(h, sent, atts, key, p), d.update)
            else TakenIn(h, sent, atts, key, p)
  {
    assert (sent + [d])[..|sent|] == sent;
  }

  lemma {:induction false} TakenConcat(h: Held, a: seq<Delivery>, b: seq<Delivery>, atts: map<SocketId, Attachment>,
                                       key: string, p: PeerId)
    ensures TakenIn(h, a + b, atts, key, p) == TakenIn(TakenIn(h, a, atts, key, p), b, atts, key, p)
  {
    hide Takes;
    if b == [] {
      assert a + b == a;
    } else {
      var prefix, last := b[..|b| - 1], b[|b| - 1];
      TakenConcat(h, a, prefix, atts, key, p);
      assert a + b == a + prefix + [last];
      TakenOneMore(h, a + prefix, last, atts, key, p);
    }
  }

  ghost predicate Reached(sent: seq<Delivery>, atts: map<SocketId, Attachment>, key: string, p: PeerId) {
    exists i | 0 <= i < |sent| :: IsFor(sent[i], atts, key, p)
  }

  lemma ReachedConcat(a: seq<Delivery>, b: seq<Delivery>, atts: map<SocketId, Attachment>, key: string, p: PeerId)
    ensures Reached(a + b, atts, key, p) <==> Reached(a, atts, key, p) || Reached(b, atts, key, p)
  {
    if Reached(a + b, atts, key, p) {
      var i :| 0 <= i < |a + b| && IsFor((a + b)[i], atts, key, p);
      assert i < |a| ==> IsFor(a[i], atts, key, p);
      assert i >= |a| ==> IsFor(b[i - |a|], atts, key, p);
    }
    if Reached(a, atts, key, p) {
      var i :| 0 <= i < |a| && IsFor(a[i], atts, key, p);
      assert (a + b)[i] == a[i];
    }
    if Reached(b, atts, key, p) {
      var i :| 0 <= i < |b| && IsFor(b[i], atts, key, p);
      assert (a + b)[|a| + i] == b[i];
    }
  }

  lemma ReachedOne(d: Delivery, atts: map<SocketId, Attachment>, key: string, p: PeerId)
    ensures Reached([d], atts, key, p) <==> IsFor(d, atts, key, p)
    ensures !Reached([], atts, key, p)
  {
    assert [d][0] == d;
  }

  // ---- a session and what its peer holds ----

  ghost predicate MatchesAt(groups: Groups, draws: string -> nat, key: string, p: PeerId, h: Held, pending: set<PeerId>,
                            ordered: bool)
  {
    Matches(Lookup(groups, draws, key), p, h, pending, ordered)
  }

  ghost function RelevantAt(groups: Groups, draws: string -> nat, key: string, p: PeerId): set<PeerId> {
    RelevantSet(Lookup(groups, draws, key), p)
  }

  lemma GroupOfRuns(groups: Groups, draws: string -> nat, key: string)
    requires AllRuns(groups, draws)
    ensures Inv(Lookup(groups, draws, key))
  {
    LookupIsRun(groups, draws, key);
    var es :| Lookup(groups, draws, key) == Run(NewGroup(draws(key)), es);
    RunKeepsInv(draws(key), es);
  }

  lemma UpdateKeepsPeers(groups: Groups, draws: string -> nat, att: Attachment, now: Millis, key: string)
    ensures Lookup(UpdateBuilt(groups, draws, att, now), draws, key).peers == Lookup(groups, draws, key).peers
  {
    hide Built;
    BuiltRest(Lookup(groups, draws, att.groupKey), att.peerId, att.serverSessionId, true, now);
  }

  /** An update built for a socket and sent to it. */
  lemma UpdateMatches(groups: Groups, draws: string -> nat, s: SocketId, atts: map<SocketId, Attachment>, now: Millis,
                      key: string, p: PeerId, h: Held, pending: set<PeerId>, ordered: bool)
    requires s in atts && AllRuns(groups, draws) && MatchesAt(groups, draws, key, p, h, pending, ordered)
    requires pending <= RelevantAt(groups, draws, key, p)
    requires ordered && StandsFor(atts[s], key, p) ==> p in Lookup(groups, draws, key).peers
    ensures var d := Delivery(s, atts[s].peerId, UpdateFor(groups, draws, atts[s], now));
            var takes := IsFor(d, atts, key, p);
            MatchesAt(UpdateBuilt(groups, draws, atts[s], now), draws, key, p, if takes then Takes(h, d.update) else h,
                      if takes then {} else pending, ordered)
  {
    hide Built, Update, Matches, Takes;
    var att := atts[s];
    var g := Lookup(groups, draws, att.groupKey);
    GroupOfRuns(groups, draws, att.groupKey);
    if att.groupKey == key {
      if att.peerId == p {
        TakenBuildMatches(g, h, p, att.serverSessionId, att.weAreInitiator, now, pending, ordered);
      } else {
        OthersBuildMatches(g, att.peerId, att.serverSessionId, now, p, h, pending, ordered);
      }
    }
  }

  lemma BroadcastKeepsRuns(groups: Groups, draws: string -> nat, sockets: seq<SocketId>,
                           atts: map<SocketId, Attachment>,
                           key: string, excluded: PeerId, now: Millis)
    requires AllRuns(groups, draws) && forall s | s in sockets :: s in atts
    ensures AllRuns(BroadcastGroups(groups, draws, sockets, atts, key, excluded, now), draws)
  {
    BroadcastIsOps(groups, draws, sockets, atts, key, excluded, now);
    OpsKeepRuns(groups, draws, BroadcastOps(sockets, atts, key, excluded, now));
  }

  lemma {:induction false} BroadcastKeepsPeers(groups: Groups, draws: string -> nat, sockets: seq<SocketId>,
                                               atts: map<SocketId, Attachment>, to: string, excluded: PeerId,
                                               now: Millis, key: string)
    requires forall s | s in sockets :: s in atts
    ensures Lookup(BroadcastGroups(groups, draws, sockets, atts, to, excluded, now), draws, key).peers ==
            Lookup(groups, draws, key).peers
  {
    hide UpdateBuilt;
    if sockets != [] {
      var before, s := sockets[..|sockets| - 1], sockets[|sockets| - 1];
      BroadcastKeepsPeers(groups, draws, before, atts, to, excluded, now, key);
      UpdateKeepsPeers(BroadcastGroups(groups, draws, before, atts, to, excluded, now), draws, atts[s], now, key);
    }
  }

  /** The peer is listed if a broadcast is to reach it. */
  predicate ListedIfReached(groups: Groups, draws: string -> nat, sockets: seq<SocketId>,
                            atts: map<SocketId, Attachment>,
                            to: string, excluded: PeerId, key: string, p: PeerId)
  {
    forall s | s in sockets && s in atts && IsReached(atts[s], to, excluded) && StandsFor(atts[s], key, p) ::
      p in Lookup(groups, draws, key).peers
  }

  lemma {:induction false} BroadcastMatches(groups: Groups, draws: string -> nat, sockets: seq<SocketId>,
                                            atts: map<SocketId, Attachment>, to: string, excluded: PeerId, now: Millis,
                                            key: string, p: PeerId, h: Held, pending: set<PeerId>, ordered: bool)
    requires AllRuns(groups, draws) && (forall s | s in sockets :: s in atts)
    requires MatchesAt(groups, draws, key, p, h, pending, ordered) && pending <= RelevantAt(groups, draws, key, p)
    requires ordered ==> ListedIfReached(groups, draws, sockets, atts, to, excluded, key, p)
    ensures var sent := BroadcastDeliveries(groups, draws, sockets, atts, to, excluded, now);
            MatchesAt(BroadcastGroups(groups, draws, sockets, atts, to, excluded, now), draws, key, p,
                      TakenIn(h, sent, atts, key, p), if Reached(sent, atts, key, p) then {} else pending, ordered)
  {
    hide MatchesAt, AllRuns, UpdateBuilt, UpdateFor, Takes, Reached, Lookup;
    if sockets == [] {
      NobodyIsReached(atts, key, p);
    } else {
      var before, s := sockets[..|sockets| - 1], sockets[|sockets| - 1];
      var groups' := BroadcastGroups(groups, draws, before, atts, to, excluded, now);
      var sent := BroadcastDeliveries(groups, draws, before, atts, to, excluded, now);
      BroadcastMatches(groups, draws, before, atts, to, excluded, now, key, p, h, pending, ordered);
      BroadcastKeepsRuns(groups, draws, before, atts, to, excluded, now);
      BroadcastKeepsPeers(groups, draws, before, atts, to, excluded, now, key);
      if IsReached(atts[s], to, excluded) {
        var d := Delivery(s, atts[s].peerId, UpdateFor(groups', draws, atts[s], now));
        UpdateMatches(groups', draws, s, atts, now, key, p, TakenIn(h, sent, atts, key, p),
                      if Reached(sent, atts, key, p) then {} else pending, ordered);
        TakenOneMore(h, sent, d, atts, key, p);
        ReachedConcat(sent, [d], atts, key, p);
        ReachedOne(d, atts, key, p);
      } else {
        assert sent + [] == sent;
      }
    }
  }

  lemma NobodyIsReached(atts: map<SocketId, Attachment>, key: string, p: PeerId)
    ensures !Reached([], atts, key, p)
  {
  }

  // ---- operations that leave sessions alone ----

  predicate KeepsSessions(e: Event) {
    !e.Ack? && !e.Build? && !e.HandleSync? && !e.RemovePeer?
  }

  ghost predicate AllKeepSessions(ops: seq<Op>) {
    forall i | 0 <= i < |ops| :: KeepsSessions(ops[i].event)
  }

  lemma EventKeepsSessions(g: Group, e: Event)
    requires KeepsSessions(e)
    ensures Apply(g, e).sessions == g.sessions
  {
  }

  lemma {:induction false} OpsKeepSessions(groups: Groups, draws: string -> nat, ops: seq<Op>, key: string, p: PeerId)
    requires AllKeepSessions(ops)
    ensures SessionOf(Lookup(ApplyOps(groups, draws, ops), draws, key), p) == SessionOf(Lookup(groups, draws, key), p)
  {
    hide Apply;
    if ops != [] {
      var prefix, op := ops[..|ops| - 1], ops[|ops| - 1];
      OpsKeepSessions(groups, draws, prefix, key, p);
      EventKeepsSessions(Lookup(ApplyOps(groups, draws, prefix), draws, op.key), op.event);
    }
  }

  lemma {:induction false} RestartKeepsSessions(groups: Groups, draws: string -> nat, sockets: seq<SocketId>,
                                                atts: map<SocketId, Attachment>)
    requires forall s | s in sockets :: s in atts
    ensures AllKeepSessions(RestartOps(groups, draws, sockets, atts))
  {
    if sockets != [] {
      var before, att := sockets[..|sockets| - 1], atts[sockets[|sockets| - 1]];
      RestartKeepsSessions(groups, draws, before, atts);
      OpsAtEvents(att.groupKey, AddEvents(att.peerId));
    }
  }

  lemma {:induction false} CleanupsKeepSessions(keys: seq<string>, now: Millis)
    ensures AllKeepSessions(CleanupOps(keys, now))
  {
    if keys != [] {
      CleanupsKeepSessions(keys[..|keys| - 1], now);
    }
  }

  lemma MovesCompose(f: Group, g: Group, h: Group)
    requires Moves(f, g) && Moves(g, h)
    ensures Moves(f, h)
  {
    if SameReport(f, g) && SameReport(g, h) {
      SameReportIsTransitive(f, g, h);
    }
  }

  lemma {:induction false} RunMoves(g: Group, es: seq<Event>)
    requires Inv(g) && forall e | e in es :: SparesServerId(e)
    ensures Inv(Run(g, es)) && Moves(g, Run(g, es))
  {
    hide Moves, Inv, Apply;
    if es == [] {
      GroupMovesToItself(g);
    } else {
      RunMoves(g, es[..|es| - 1]);
      EventMoves(Run(g, es[..|es| - 1]), es[|es| - 1]);
      MovesCompose(g, Run(g, es[..|es| - 1]), Run(g, es));
    }
  }

  lemma GroupMovesToItself(g: Group)
    ensures Moves(g, g)
  {
  }

  lemma EventMoves(g: Group, e: Event)
    requires Inv(g) && SparesServerId(e)
    ensures Inv(Apply(g, e)) && Moves(g, Apply(g, e))
  {
    hide Apply, Inv, Linked;
    StepKeepsInv(g, e);
    StepRaisesOrKeeps(g, e);
  }

  lemma {:induction false} OpsMove(groups: Groups, draws: string -> nat, ops: seq<Op>, key: string)
    requires Inv(Lookup(groups, draws, key)) && AllSpare(ops)
    ensures Inv(Lookup(ApplyOps(groups, draws, ops), draws, key))
    ensures Moves(Lookup(groups, draws, key), Lookup(ApplyOps(groups, draws, ops), draws, key))
  {
    hide Moves, Inv, Apply;
    var g := Lookup(groups, draws, key);
    if ops == [] {
      GroupMovesToItself(g);
    } else {
      var prefix, op := ops[..|ops| - 1], ops[|ops| - 1];
      OpsMove(groups, draws, prefix, key);
      var g' := Lookup(ApplyOps(groups, draws, prefix), draws, key);
      if op.key == key {
        EventMoves(g', op.event);
        MovesCompose(g, g', Apply(g', op.event));
      }
    }
  }

  lemma ListedAt(groups: Groups, draws: string -> nat, key: string)
    ensures Lookup(groups, draws, key).peers == PeersAt(groups, key)
  {
  }

  /** Operations that leave sessions alone and unlist nobody keep the match. */
  lemma OpsKeepMatch(groups: Groups, draws: string -> nat, ops: seq<Op>, key: string, p: PeerId, h: Held, ordered: bool)
    requires AllRuns(groups, draws) && AllKeepSessions(ops) && MatchesAt(groups, draws, key, p, h, {}, ordered)
    requires ordered ==> PeersAt(groups, key) <= PeersAt(ApplyOps(groups, draws, ops), key)
    ensures MatchesAt(ApplyOps(groups, draws, ops), draws, key, p, h, {}, ordered)
  {
    hide Moves, Inv, ApplyOps, Matches;
    OpsKeepSessions(groups, draws, ops, key, p);
    GroupOfRuns(groups, draws, key);
    assert AllSpare(ops);
    OpsMove(groups, draws, ops, key);
    ListedAt(groups, draws, key);
    ListedAt(ApplyOps(groups, draws, ops), draws, key);
    MoveKeepsMatch(Lookup(groups, draws, key), Lookup(ApplyOps(groups, draws, ops), draws, key), p, h, {}, ordered);
  }

  // ---- step by step ----

  /** Wherever the order is claimed: a real id, every socket's peer listed, and nobody using the relay's id. */
  ghost predicate IsOrderly(room: Room, p: PeerId) {
    p != 0 && Listed(room) && ServerIdUnused(room)
  }

  predicate StandingIsListed(groups: Groups, sockets: seq<SocketId>, atts: map<SocketId, Attachment>, key: string,
                             p: PeerId) {
    forall s | s in sockets && s in atts && StandsFor(atts[s], key, p) :: p in PeersAt(groups, key)
  }

  lemma StandingIsListedIfReached(groups: Groups, draws: string -> nat, sockets: seq<SocketId>,
                                  atts: map<SocketId, Attachment>, to: string, excluded: PeerId, key: string, p: PeerId)
    requires StandingIsListed(groups, sockets, atts, key, p)
    ensures ListedIfReached(groups, draws, sockets, atts, to, excluded, key, p)
  {
    ListedAt(groups, draws, key);
  }

  lemma {:induction false} RefreshMatches(groups: Groups, draws: string -> nat, sockets: seq<SocketId>,
                                          atts: map<SocketId, Attachment>, keys: seq<string>, now: Millis, key: string,
                                          p: PeerId, h: Held, ordered: bool)
    requires AllRuns(groups, draws) && (forall s | s in sockets :: s in atts)
    requires MatchesAt(groups, draws, key, p, h, {}, ordered)
    requires ordered ==> StandingIsListed(groups, sockets, atts, key, p)
    ensures var after := ApplyOps(groups, draws, RefreshOps(sockets, atts, keys, now));
            && MatchesAt(after, draws, key, p,
                         TakenIn(h, RefreshDeliveries(groups, draws, sockets, atts, keys, now), atts, key, p), {},
                           ordered)
            && PeersAt(after, key) == PeersAt(groups, key)
  {
    hide MatchesAt, AllRuns, BroadcastGroups, BroadcastDeliveries, Takes, Reached, ListedIfReached, PeersAt;
    if keys != [] {
      var n := |keys| - 1;
      var before := ApplyOps(groups, draws, RefreshOps(sockets, atts, keys[..n], now));
      var sent := RefreshDeliveries(groups, draws, sockets, atts, keys[..n], now);
      RefreshMatches(groups, draws, sockets, atts, keys[..n], now, key, p, h, ordered);
      OpsKeepRuns(groups, draws, RefreshOps(sockets, atts, keys[..n], now));
      if ordered {
        StandingIsListedIfReached(before, draws, sockets, atts, keys[n], 0, key, p);
      }
      BroadcastMatches(before, draws, sockets, atts, keys[n], 0, now, key, p, TakenIn(h, sent, atts, key, p), {},
                       ordered);
      BroadcastKeepsPeers(before, draws, sockets, atts, keys[n], 0, now, key);
      RefreshOneMore(groups, draws, sockets, atts, keys, n, now);
      ListedAt(before, draws, key);
      ListedAt(BroadcastGroups(before, draws, sockets, atts, keys[n], 0, now), draws, key);
      TakenConcat(h, sent, BroadcastDeliveries(before, draws, sockets, atts, keys[n], 0, now), atts, key, p);
      assert keys[..n + 1] == keys;
    }
  }

  lemma AlarmMatches(room: Room, draws: string -> nat, keys: seq<string>, now: Millis, key: string, p: PeerId, h: Held,
                     ordered: bool)
    requires WellFormed(room) && Enabled(room, Alarm(keys, now)) && AllRuns(room.groups, draws)
    requires MatchesAt(room.groups, draws, key, p, h, {}, ordered) && (ordered ==> IsOrderly(room, p))
    ensures MatchesAt(RoomAfter(room, draws, Alarm(keys, now)).groups, draws, key, p,
                      HeldAfter(h, room, draws, Alarm(keys, now), key, p), {}, ordered)
  {
    hide ApplyOps, RefreshOps, CleanupOps, RefreshDeliveries, MatchesAt, AllRuns, Takes, PeersAt;
    var cleaned := ApplyOps(room.groups, draws, CleanupOps(keys, now));
    AlarmRoom(room, draws, keys, now);
    CleanupsKeepSessions(keys, now);
    AlarmIsQuiet(room, keys, now);
    QuietOpsKeepPeers(room.groups, draws, CleanupOps(keys, now), key);
    OpsKeepMatch(room.groups, draws, CleanupOps(keys, now), key, p, h, ordered);
    OpsKeepRuns(room.groups, draws, CleanupOps(keys, now));
    RefreshMatches(cleaned, draws, room.sockets, room.atts, keys, now, key, p, h, ordered);
  }

  lemma RestartMatches(room: Room, draws: string -> nat, isolateIsNew: bool, key: string, p: PeerId, h: Held,
                       ordered: bool)
    requires WellFormed(room) && AllRuns(room.groups, draws) && MatchesAt(room.groups, draws, key, p, h, {}, ordered)
    ensures MatchesAt(RoomAfter(room, draws, Restart(isolateIsNew)).groups, draws, key, p,
                      HeldAfter(h, room, draws, Restart(isolateIsNew), key, p), {}, ordered)
  {
    hide ApplyOps, RestartOps, Matches;
    var kept := GroupsKept(room, Restart(isolateIsNew));
    RestartKeepsSessions(kept, draws, room.sockets, room.atts);
    PeersAfterRestart(kept, draws, room.sockets, room.atts, key);
    if isolateIsNew {
      NothingMatches(NewGroup(draws(key)), p, ordered);
    }
    OpsKeepMatch(kept, draws, RestartOps(kept, draws, room.sockets, room.atts), key, p,
                 if isolateIsNew then HOLDS_NOTHING else h, ordered);
  }

  // ---- handshakes ----

  lemma ArrivalKeepsSessions(g: Group, p: PeerId, now: Millis)
    ensures Arrived(g, p, now).sessions == g.sessions
  {
  }

  lemma ArrivalMoves(g: Group, q: PeerId, now: Millis)
    requires Inv(g)
    ensures Inv(Arrived(g, q, now)) && Moves(g, Arrived(g, q, now))
    ensures Arrived(g, q, now).peers == g.peers + {q}
  {
    ArrivalIsRun(g, q, now);
    ArrivalLists(g, q, now);
    hide Arrived, Moves, Inv, Run;
    RunMoves(g, ArrivalEvents(q, now));
  }

  lemma ArrivalLists(g: Group, q: PeerId, now: Millis)
    ensures Arrived(g, q, now).peers == g.peers + {q}
  {
  }

  ghost function PendingAfterWelcome(groups: Groups, draws: string -> nat, att: Attachment, key: string,
                                     p: PeerId): set<PeerId> {
    if StandsFor(att, key, p) then RelevantAt(groups, draws, key, p) else {}
  }

  ghost function AfterWelcome(h: Held, groups: Groups, draws: string -> nat, att: Attachment, now: Millis, key: string,
                              p: PeerId): Held {
    if StandsFor(att, key, p) then Misses(h, Discarded(groups, draws, att, now)) else h
  }

  lemma WelcomedMatches(g: Group, att: Attachment, now: Millis, p: PeerId, h: Held, ordered: bool)
    requires Inv(g) && Matches(g, p, h, {}, ordered)
    ensures var arrived := Arrived(g, att.peerId, now);
            var u := Update(arrived, att.peerId, att.serverSessionId, att.weAreInitiator, true, now);
            var own := att.peerId == p;
            Matches(Built(arrived, att.peerId, att.serverSessionId, true, now), p, if own then Misses(h, u) else h,
                    if own then RelevantSet(arrived, p) else {}, ordered)
  {
    hide Built, Arrived, Matches, Misses, Update, Moves, Inv;
    var arrived := Arrived(g, att.peerId, now);
    ArrivalKeepsSessions(g, att.peerId, now);
    ArrivalMoves(g, att.peerId, now);
    MoveKeepsMatch(g, arrived, p, h, {}, ordered);
    if att.peerId == p {
      MissedBuildMatches(arrived, h, p, att.serverSessionId, att.weAreInitiator, now, ordered);
    } else {
      OthersBuildMatches(arrived, att.peerId, att.serverSessionId, now, p, h, {}, ordered);
    }
  }

  lemma WelcomeMatches(groups: Groups, draws: string -> nat, att: Attachment, now: Millis, key: string, p: PeerId,
                       h: Held,
                       ordered: bool)
    requires AllRuns(groups, draws) && MatchesAt(groups, draws, key, p, h, {}, ordered)
    ensures var welcomed := ApplyOps(groups, draws, OpsAt(att.groupKey, WelcomeEvents(att, now)));
            MatchesAt(welcomed, draws, key, p, AfterWelcome(h, groups, draws, att, now, key, p),
                      PendingAfterWelcome(welcomed, draws, att, key, p), ordered)
  {
    hide Built, Arrived, WelcomeEvents, ApplyOps, OpsAt, Matches, Misses, Update;
    WelcomeStages(groups, draws, att, now);
    GroupOfRuns(groups, draws, att.groupKey);
    if att.groupKey == key {
      var arrived := Arrived(Lookup(groups, draws, key), att.peerId, now);
      WelcomedMatches(Lookup(groups, draws, key), att, now, p, h, ordered);
      BuiltRest(arrived, att.peerId, att.serverSessionId, true, now);
    }
  }

  /** The newcomer is told, unless it has id 0, for which nothing is claimed about the infos. */
  lemma NothingStaysPending(g: Group, p: PeerId, h: Held, pending: set<PeerId>, ordered: bool)
    requires Matches(g, p, h, pending, ordered) && p == 0 && h.lost > 0
    ensures Matches(g, p, h, {}, ordered)
  {
    hide Ordered;
  }

  lemma {:induction false} TakingLosesNothing(h: Held, sent: seq<Delivery>, atts: map<SocketId, Attachment>,
                                              key: string, p: PeerId)
    ensures TakenIn(h, sent, atts, key, p).lost == h.lost
  {
    if sent != [] {
      TakingLosesNothing(h, sent[..|sent| - 1], atts, key, p);
    }
  }

  lemma BroadcastReachesPeer(groups: Groups, draws: string -> nat, sockets: seq<SocketId>,
                             atts: map<SocketId, Attachment>,
                             key: string, now: Millis, s: SocketId)
    requires (forall t | t in sockets :: t in atts) && s in sockets && atts[s].groupKey == key && atts[s].peerId != 0
    ensures Reached(BroadcastDeliveries(groups, draws, sockets, atts, key, 0, now), atts, key, atts[s].peerId)
  {
    hide BroadcastDeliveries;
    var sent := BroadcastDeliveries(groups, draws, sockets, atts, key, 0, now);
    BroadcastReaches(groups, draws, sockets, atts, key, 0, now, s, atts[s].peerId);
    var i :| 0 <= i < |sent| && sent[i].socket == s && sent[i].peer == atts[s].peerId;
    assert IsFor(sent[i], atts, key, atts[s].peerId);
  }

  lemma WelcomedAreListed(room: Room, draws: string -> nat, step: Step, key: string, p: PeerId)
    requires WellFormed(room) && Enabled(room, step) && step.Shake? && ShakeOutcome(room, step.shake).Some?
    requires IsOrderly(room, p)
    ensures var atts := AttsAfter(room, step);
            var att := atts[step.socket];
            StandingIsListed(ApplyOps(room.groups, draws, OpsAt(att.groupKey, WelcomeEvents(att, step.now))),
                             room.sockets, atts, key, p)
  {
    hide ApplyOps, OpsAt, WelcomeEvents;
    var atts := AttsAfter(room, step);
    PeersAfterWelcome(room.groups, draws, atts[step.socket], step.now, key);
  }

  lemma ShakeMatches(room: Room, draws: string -> nat, step: Step, key: string, p: PeerId, h: Held, ordered: bool)
    requires WellFormed(room) && Enabled(room, step) && step.Shake? && AllRuns(room.groups, draws)
    requires ShakeOutcome(room, step.shake).Some?
    requires MatchesAt(room.groups, draws, key, p, h, {}, ordered) && (ordered ==> IsOrderly(room, p))
    ensures MatchesAt(RoomAfter(room, draws, step).groups, draws, key, p, HeldAfter(h, room, draws, step, key, p), {},
                      ordered)
  {
    hide ApplyOps, OpsAt, WelcomeEvents, BroadcastDeliveries, BroadcastGroups, Matches, AllRuns, Discarded, Misses,
      Takes,
      IsOrderly, StandingIsListed, ListedIfReached, Reached;
    var atts := AttsAfter(room, step);
    var s, now := step.socket, step.now;
    var att := atts[s];
    var welcome := OpsAt(att.groupKey, WelcomeEvents(att, now));
    var welcomed := ApplyOps(room.groups, draws, welcome);
    var pending, h' := PendingAfterWelcome(welcomed, draws, att, key, p),
                       AfterWelcome(h, room.groups, draws, att, now, key, p);
    ShakeIsOps(room, draws, s, step.shake, now);
    WelcomeMatches(room.groups, draws, att, now, key, p, h, ordered);
    OpsKeepRuns(room.groups, draws, welcome);
    if ordered {
      WelcomedAreListed(room, draws, step, key, p);
      StandingIsListedIfReached(welcomed, draws, room.sockets, atts, att.groupKey, 0, key, p);
    }
    BroadcastMatches(welcomed, draws, room.sockets, atts, att.groupKey, 0, now, key, p, h', pending, ordered);
    NewcomerIsTold(welcomed, draws, room.sockets, atts, s, now, key, p, h', h, room.groups, ordered);
  }

  /** After the broadcast nothing is pending: the newcomer was reached, or has id 0 and has lost an update. */
  lemma NewcomerIsTold(welcomed: Groups, draws: string -> nat, sockets: seq<SocketId>, atts: map<SocketId, Attachment>,
                       s: SocketId, now: Millis, key: string, p: PeerId, h': Held, h: Held, groups: Groups,
                         ordered: bool)
    requires (forall t | t in sockets :: t in atts) && s in sockets
    requires h' == AfterWelcome(h, groups, draws, atts[s], now, key, p)
    requires var sent := BroadcastDeliveries(welcomed, draws, sockets, atts, atts[s].groupKey, 0, now);
             var pending := PendingAfterWelcome(welcomed, draws, atts[s], key, p);
             MatchesAt(BroadcastGroups(welcomed, draws, sockets, atts, atts[s].groupKey, 0, now), draws, key, p,
                       TakenIn(h', sent, atts, key, p), if Reached(sent, atts, key, p) then {} else pending, ordered)
    ensures var sent := BroadcastDeliveries(welcomed, draws, sockets, atts, atts[s].groupKey, 0, now);
            MatchesAt(BroadcastGroups(welcomed, draws, sockets, atts, atts[s].groupKey, 0, now), draws, key, p,
                      TakenIn(h', sent, atts, key, p), {}, ordered)
  {
    hide BroadcastDeliveries, BroadcastGroups, Matches, Takes, TakenIn, Reached, Discarded;
    var sent := BroadcastDeliveries(welcomed, draws, sockets, atts, atts[s].groupKey, 0, now);
    if StandsFor(atts[s], key, p) {
      if p != 0 {
        BroadcastReachesPeer(welcomed, draws, sockets, atts, key, now, s);
      } else {
        TakingLosesNothing(h', sent, atts, key, p);
        if !Reached(sent, atts, key, p) {
          NothingStaysPending(Lookup(BroadcastGroups(welcomed, draws, sockets, atts, atts[s].groupKey, 0, now), draws,
                                     key), p,
                              TakenIn(h', sent, atts, key, p), PendingAfterWelcome(welcomed, draws, atts[s], key, p),
                                ordered);
        }
      }
    }
  }

  // ---- requests, answers and closings ----

  lemma {:induction false} MergeSpares(items: seq<PeerInfo>)
    ensures forall e | e in MergeEvents(items) :: SparesServerId(e)
  {
    if items != [] {
      MergeSpares(items[..|items| - 1]);
    }
  }

  lemma SyncMoves(g: Group, q: PeerId, req: SyncRequest, now: Millis)
    requires Inv(g)
    ensures Moves(g, Synced(g, q, req, now))
  {
    hide Moves, Inv, Synced, Run;
    MergeSpares(ItemsOf(req));
    SyncIsRun(g, q, req, now);
    RunMoves(g, SyncEvents(q, req, now));
  }

  lemma SyncedMatches(g: Group, q: PeerId, req: SyncRequest, now: Millis, p: PeerId, h: Held, ordered: bool)
    requires Inv(g) && Matches(g, p, h, {}, ordered)
    ensures Matches(Synced(g, q, req, now), p, if q == p then Greets(h, req.mySessionId) else h, {}, ordered)
  {
    hide Synced, Matches, Moves, Inv;
    RestAfterSync(g, q, req, now);
    SyncMoves(g, q, req, now);
    if q == p {
      GreetingMatches(g, Synced(g, q, req, now), p, h, req.mySessionId, ordered);
    } else {
      MoveKeepsMatch(g, Synced(g, q, req, now), p, h, {}, ordered);
    }
  }

  lemma SyncKeepsPeers(groups: Groups, draws: string -> nat, att: Attachment, req: SyncRequest, now: Millis,
                       key: string)
    ensures var synced := groups[att.groupKey := Synced(Lookup(groups, draws, att.groupKey), att.peerId, req, now)];
            Lookup(synced, draws, key).peers == PeersAt(groups, key)
  {
    hide Synced;
    RestAfterSync(Lookup(groups, draws, att.groupKey), att.peerId, req, now);
  }

  /** The state after the request itself: whoever sent it has greeted. */
  lemma RequestMatches(groups: Groups, draws: string -> nat, att: Attachment, req: SyncRequest, now: Millis,
                       key: string,
                       p: PeerId, h: Held, ordered: bool)
    requires AllRuns(groups, draws) && MatchesAt(groups, draws, key, p, h, {}, ordered)
    ensures var synced := groups[att.groupKey := Synced(Lookup(groups, draws, att.groupKey), att.peerId, req, now)];
            MatchesAt(synced, draws, key, p, if StandsFor(att, key, p) then Greets(h, req.mySessionId)
                      else h, {}, ordered)
  {
    hide Synced, Matches, AllRuns, Greets;
    if att.groupKey == key {
      GroupOfRuns(groups, draws, key);
      SyncedMatches(Lookup(groups, draws, key), att.peerId, req, now, p, h, ordered);
    }
  }

  lemma SyncKeepsRuns(groups: Groups, draws: string -> nat, att: Attachment, req: SyncRequest, now: Millis)
    requires AllRuns(groups, draws)
    ensures var synced := groups[att.groupKey := Synced(Lookup(groups, draws, att.groupKey), att.peerId, req, now)];
            AllRuns(synced, draws) && AllRuns(UpdateBuilt(synced, draws, att, now), draws)
  {
    hide Synced, AllRuns, ApplyOps, OpsAt, UpdateBuilt, SyncEvents;
    var handled := OpsAt(att.groupKey, SyncEvents(att.peerId, req, now));
    SyncedAndPushed(groups, draws, att, req, now);
    OpsKeepRuns(groups, draws, handled);
    OpsKeepRuns(groups, draws, handled + [UpdateOp(att, now)]);
  }

  lemma SyncMatches(room: Room, draws: string -> nat, s: SocketId, req: SyncRequest, now: Millis, key: string,
                    p: PeerId,
                    h: Held, ordered: bool)
    requires WellFormed(room) && s in room.sockets && AllRuns(room.groups, draws)
    requires MatchesAt(room.groups, draws, key, p, h, {}, ordered) && (ordered ==> IsOrderly(room, p))
    ensures MatchesAt(RoomAfter(room, draws, Sync(s, Some(req), now)).groups, draws, key, p,
                      HeldAfter(h, room, draws, Sync(s, Some(req), now), key, p), {}, ordered)
  {
    hide Synced, MatchesAt, AllRuns, Broadcasts, UpdateBuilt, UpdateFor, Ops, ApplyOps, BroadcastGroups,
      BroadcastDeliveries,
      Takes, Greets, ListedIfReached, Reached, Deliveries, Lookup;
    var att := room.atts[s];
    var g := Lookup(room.groups, draws, att.groupKey);
    var synced := room.groups[att.groupKey := Synced(g, att.peerId, req, now)];
    var h' := if StandsFor(att, key, p) then Greets(h, req.mySessionId) else h;
    var push := Delivery(s, att.peerId, UpdateFor(synced, draws, att, now));
    var pushed := UpdateBuilt(synced, draws, att, now);
    SyncIsOps(room, draws, s, req, now);
    SyncSends(room, draws, s, req, now);
    RequestMatches(room.groups, draws, att, req, now, key, p, h, ordered);
    SyncKeepsRuns(room.groups, draws, att, req, now);
    SyncKeepsPeers(room.groups, draws, att, req, now, key);
    UpdateMatches(synced, draws, s, room.atts, now, key, p, h', {}, ordered);
    TakenOneMore(h', [], push, room.atts, key, p);
    assert [] + [push] == [push] && [push] + [] == [push];
    if Broadcasts(g, att.peerId, req, now) {
      UpdateKeepsPeers(synced, draws, att, now, key);
      if ordered {
        ListedRoomIsReached(room, pushed, draws, att.groupKey, att.peerId, key, p);
      }
      BroadcastMatches(pushed, draws, room.sockets, room.atts, att.groupKey, att.peerId, now, key, p,
                       TakenIn(h', [push], room.atts, key, p), {}, ordered);
      TakenConcat(h', [push],
                  BroadcastDeliveries(pushed, draws, room.sockets, room.atts, att.groupKey, att.peerId, now),
                  room.atts, key, p);
    }
  }

  lemma ListedRoomIsReached(room: Room, groups: Groups, draws: string -> nat, to: string, excluded: PeerId,
                            key: string, p: PeerId)
    requires IsOrderly(room, p)
    requires forall q | q in PeersAt(room.groups, key) && q != excluded :: q in Lookup(groups, draws, key).peers
    ensures ListedIfReached(groups, draws, room.sockets, room.atts, to, excluded, key, p)
  {
  }

  lemma AckedMatches(g: Group, from: PeerId, sid: SessionId, weAreInitiator: bool, now: Millis, p: PeerId, h: Held,
                     ordered: bool)
    requires Matches(g, p, h, {}, ordered)
    ensures Matches(Acked(g, from, sid, weAreInitiator, now), p, if from == p then Greets(h, sid) else h, {}, ordered)
  {
    hide Matches, Moves, Greets;
    var g' := Acked(g, from, sid, weAreInitiator, now);
    assert Moves(g, g') by { AckMoves(g, from, sid, weAreInitiator, now); }
    if from == p {
      GreetingMatches(g, g', p, h, sid, ordered);
    } else {
      MoveKeepsMatch(g, g', p, h, {}, ordered);
    }
  }

  lemma AckMoves(g: Group, from: PeerId, sid: SessionId, weAreInitiator: bool, now: Millis)
    ensures Moves(g, Acked(g, from, sid, weAreInitiator, now))
  {
  }

  lemma AnswerMatches(room: Room, draws: string -> nat, step: Step, key: string, p: PeerId, h: Held, ordered: bool)
    requires WellFormed(room) && Enabled(room, step) && step.SyncAnswer?
    requires MatchesAt(room.groups, draws, key, p, h, {}, ordered)
    ensures MatchesAt(RoomAfter(room, draws, step).groups, draws, key, p, HeldAfter(h, room, draws, step, key, p), {},
                      ordered)
  {
    hide ApplyOps, Matches, Greets, Acked;
    AnswerRoom(room, draws, step.socket, step.from, step.sid, step.now);
    AckedMatches(Lookup(room.groups, draws, key), step.from, step.sid, room.atts[step.socket].weAreInitiator,
                 step.now, p, h, ordered);
  }

  lemma RemovedMatches(g: Group, q: PeerId, now: Millis, p: PeerId, h: Held, ordered: bool)
    requires Inv(g) && Matches(g, p, h, {}, ordered) && (ordered ==> q != MY_PEER_ID)
    ensures Matches(PeerRemoved(g, q, now), p, if q == p then HOLDS_NOTHING else h, {}, ordered)
  {
    hide Matches, Moves, Inv, SameReport, ServerVersion;
    if q == p {
      NothingMatches(PeerRemoved(g, q, now), p, ordered);
    } else {
      if ordered {
        RemovalMoves(g, q, now);
      }
      MoveKeepsMatch(g, PeerRemoved(g, q, now), p, h, {}, ordered);
    }
  }

  lemma RemovalMoves(g: Group, q: PeerId, now: Millis)
    requires Inv(g) && q != MY_PEER_ID
    ensures Moves(g, PeerRemoved(g, q, now))
  {
    hide Moves, Inv, PeerRemoved;
    EventMoves(g, RemovePeer(q, now));
  }

  lemma CloseMatches(room: Room, draws: string -> nat, s: SocketId, now: Millis, key: string, p: PeerId, h: Held,
                     ordered: bool)
    requires WellFormed(room) && s in room.sockets && AllRuns(room.groups, draws)
    requires MatchesAt(room.groups, draws, key, p, h, {}, ordered) && (ordered ==> IsOrderly(room, p))
    ensures MatchesAt(RoomAfter(room, draws, Close(s, now)).groups, draws, key, p,
                      HeldAfter(h, room, draws, Close(s, now), key, p), {}, ordered)
  {
    hide MatchesAt, AllRuns, ApplyOps, Ops, BroadcastGroups, BroadcastDeliveries, Takes, ListedIfReached, Reached;
    var att := room.atts[s];
    if att.peerId != 0 && !HasOtherConnection(room, att) {
      var left := ApplyOps(room.groups, draws, [Op(att.groupKey, RemovePeer(att.peerId, now))]);
      CloseIsOps(room, draws, s, now);
      OpsKeepRuns(room.groups, draws, [Op(att.groupKey, RemovePeer(att.peerId, now))]);
      LeavingMatches(room.groups, draws, att, now, key, p, h, ordered);
      if ordered {
        ListedRoomIsReached(room, left, draws, att.groupKey, att.peerId, key, p);
      }
      BroadcastMatches(left, draws, room.sockets, room.atts, att.groupKey, att.peerId, now, key, p,
                       if StandsFor(att, key, p) then HOLDS_NOTHING else h, {}, ordered);
    } else {
      CloseOfNobody(room, draws, s, now);
    }
  }

  lemma LeavingMatches(groups: Groups, draws: string -> nat, att: Attachment, now: Millis, key: string, p: PeerId,
                       h: Held,
                       ordered: bool)
    requires AllRuns(groups, draws) && MatchesAt(groups, draws, key, p, h, {}, ordered)
    requires ordered ==> att.peerId != MY_PEER_ID
    ensures var g := Lookup(groups, draws, att.groupKey);
            var left := groups[att.groupKey := PeerRemoved(g, att.peerId, now)];
            && MatchesAt(left, draws, key, p, if StandsFor(att, key, p) then HOLDS_NOTHING else h, {}, ordered)
            && (forall q | q in PeersAt(groups, key) && q != att.peerId :: q in Lookup(left, draws, key).peers)
  {
    hide Matches, AllRuns;
    if att.groupKey == key {
      GroupOfRuns(groups, draws, key);
      RemovedMatches(Lookup(groups, draws, key), att.peerId, now, p, h, ordered);
    }
  }

  // ---- runs of a room ----

  lemma StepOfNothingMatches(room: Room, draws: string -> nat, step: Step, key: string, p: PeerId, h: Held)
    requires WellFormed(room) && Enabled(room, step)
    requires step.Accept? || step.Hear? || (step.Sync? && step.req.None?) ||
             (step.Shake? && ShakeOutcome(room, step.shake).None?)
    ensures RoomAfter(room, draws, step).groups == room.groups && HeldAfter(h, room, draws, step, key, p) == h
  {
  }

  lemma StepMatches(room: Room, draws: string -> nat, step: Step, key: string, p: PeerId, h: Held, ordered: bool)
    requires WellFormed(room) && Enabled(room, step) && AllRuns(room.groups, draws)
    requires MatchesAt(room.groups, draws, key, p, h, {}, ordered) && (ordered ==> IsOrderly(room, p))
    ensures MatchesAt(RoomAfter(room, draws, step).groups, draws, key, p, HeldAfter(h, room, draws, step, key, p), {},
                      ordered)
  {
    hide MatchesAt, AllRuns, IsOrderly, HeldAfter, RoomAfter;
    match step {
      case Shake(_, shake, _) =>
        if ShakeOutcome(room, shake).Some? {
          ShakeMatches(room, draws, step, key, p, h, ordered);
        } else {
          StepOfNothingMatches(room, draws, step, key, p, h);
        }
      case Sync(s, Some(req), now) => SyncMatches(room, draws, s, req, now, key, p, h, ordered);
      case SyncAnswer(_, _, _, _) => AnswerMatches(room, draws, step, key, p, h, ordered);
      case Close(s, now) => CloseMatches(room, draws, s, now, key, p, h, ordered);
      case Alarm(keys, now) => AlarmMatches(room, draws, keys, now, key, p, h, ordered);
      case Restart(isolateIsNew) => RestartMatches(room, draws, isolateIsNew, key, p, h, ordered);
      case _ => StepOfNothingMatches(room, draws, step, key, p, h);
    }
  }

  lemma {:induction false} RunMatches(draws: string -> nat, steps: seq<Step>, key: string, p: PeerId, ordered: bool)
    requires RoomRun(draws, steps).Some?
    requires ordered ==> p != 0 && forall step | step in steps :: SparesServerIdHere(step)
    ensures MatchesAt(RoomRun(draws, steps).value.groups, draws, key, p, HeldOf(draws, steps, key, p), {}, ordered)
  {
    hide RoomAfter, HeldAfter, Matches;
    if steps == [] {
      NothingMatches(NewGroup(draws(key)), p, ordered);
    } else {
      var prefix, step := steps[..|steps| - 1], steps[|steps| - 1];
      RunMatches(draws, prefix, key, p, ordered);
      ReachableGroupsAreRuns(draws, prefix);
      ReachableRoomsAreListed(draws, prefix);
      if ordered {
        ServerIdStaysUnused(draws, prefix);
      }
      StepMatches(RoomRun(draws, prefix).value, draws, step, key, p, HeldOf(draws, prefix, key, p), ordered);
    }
  }

  /**
   * After every run of a room each session names its peer's session and counts what was sent and lost; the
   * versions on record are those of the infos the peer holds; and the peer holds the last graph built for it
   * unless it is behind. (For id 0, which broadcasts pass over, the infos agree while nothing was lost.)
   */
  lemma SessionsDescribeWhatIsHeld(draws: string -> nat, steps: seq<Step>, key: string, p: PeerId)
    requires RoomRun(draws, steps).Some?
    ensures var s, h := SessionOf(Lookup(RoomRun(draws, steps).value.groups, draws, key), p),
                        HeldOf(draws, steps, key, p);
            && s.dstSessionId == h.view.sid
            && s.foreignVersion == h.view.updates + h.lost
            && s.lastSig == SigOf(h.believed)
            && (!h.behind ==> h.view.bitmap == h.believed)
            && (p != 0 ==> s.peerInfoVersions == VersionsOf(h.view.infos))
            && (h.lost == 0 ==> !h.behind && Describes(s, h.view))
  {
    var s, h := SessionOf(Lookup(RoomRun(draws, steps).value.groups, draws, key), p), HeldOf(draws, steps, key, p);
    RunMatches(draws, steps, key, p, false);
    hide HeldOf, RoomRun, Describes;
    if h.lost == 0 {
      NoLossDescribes(s, h, p);
    }
    if p != 0 {
      InfosAgree(s, h, p);
    }
  }
}
