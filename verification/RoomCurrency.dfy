/**
 * Which of a room's peers hold the current graph: whoever is sent an update, unless a handshake has left it
 * behind; how far behind; what a handshake loses; and what brings a peer up to date again.
 */
module RoomCurrency {
  import opened Collections
  import opened Wire
  import opened Signature
  import opened RouteModel
  import opened Fingerprint
  import opened Coherence
  import opened Holdings
  import opened SyncRpc
  import opened PeerManager
  import opened Handshake
  import opened RoomModel
  import opened RoomSteps
  import opened RoomTheorems
  import opened RoomGroups
  import opened RoomCoherence

  // ---- graphs sent are current ----

  lemma UpdatePrimes(groups: Groups, draws: string -> nat, att: Attachment, now: Millis, key: string, p: PeerId)
    requires PrimedAt(groups, key, p) || StandsFor(att, key, p)
    ensures PrimedAt(UpdateBuilt(groups, draws, att, now), key, p)
  {
    hide Built, IsPrimed;
    var g := Lookup(groups, draws, att.groupKey);
    if StandsFor(att, key, p) {
      BuildPrimes(g, p, att.serverSessionId, true, now);
    } else if att.groupKey == key {
      BuildKeepsPrimed(g, p, att.peerId, att.serverSessionId, true, now);
    }
  }

  lemma {:induction false} BroadcastPrimes(groups: Groups, draws: string -> nat, sockets: seq<SocketId>,
                                           atts: map<SocketId, Attachment>, to: string, excluded: PeerId, now: Millis,
                                           key: string, p: PeerId)
    requires forall s | s in sockets :: s in atts
    requires PrimedAt(groups, key, p) ||
             Reached(BroadcastDeliveries(groups, draws, sockets, atts, to, excluded, now), atts, key, p)
    ensures PrimedAt(BroadcastGroups(groups, draws, sockets, atts, to, excluded, now), key, p)
  {
    hide PrimedAt, UpdateBuilt, UpdateFor;
    if sockets != [] {
      var before, s := sockets[..|sockets| - 1], sockets[|sockets| - 1];
      var groups' := BroadcastGroups(groups, draws, before, atts, to, excluded, now);
      var sent := BroadcastDeliveries(groups, draws, before, atts, to, excluded, now);
      if IsReached(atts[s], to, excluded) {
        ReachedConcat(sent, [Delivery(s, atts[s].peerId, UpdateFor(groups', draws, atts[s], now))], atts, key, p);
        if PrimedAt(groups, key, p) || Reached(sent, atts, key, p) {
          BroadcastPrimes(groups, draws, before, atts, to, excluded, now, key, p);
        }
        UpdatePrimes(groups', draws, atts[s], now, key, p);
      } else {
        assert sent + [] == sent;
        BroadcastPrimes(groups, draws, before, atts, to, excluded, now, key, p);
      }
    }
  }

  lemma {:induction false} RefreshPrimes(groups: Groups, draws: string -> nat, sockets: seq<SocketId>,
                                         atts: map<SocketId, Attachment>,
                                         keys: seq<string>, now: Millis, key: string, p: PeerId)
    requires forall s | s in sockets :: s in atts
    requires PrimedAt(groups, key, p) ||
             Reached(RefreshDeliveries(groups, draws, sockets, atts, keys, now), atts, key, p)
    ensures PrimedAt(ApplyOps(groups, draws, RefreshOps(sockets, atts, keys, now)), key, p)
  {
    hide PrimedAt, BroadcastGroups, BroadcastDeliveries;
    if keys != [] {
      var n := |keys| - 1;
      var before := ApplyOps(groups, draws, RefreshOps(sockets, atts, keys[..n], now));
      var sent := RefreshDeliveries(groups, draws, sockets, atts, keys[..n], now);
      RefreshOneMore(groups, draws, sockets, atts, keys, n, now);
      assert keys[..n + 1] == keys;
      ReachedConcat(sent, BroadcastDeliveries(before, draws, sockets, atts, keys[n], 0, now), atts, key, p);
      if PrimedAt(groups, key, p) || Reached(sent, atts, key, p) {
        RefreshPrimes(groups, draws, sockets, atts, keys[..n], now, key, p);
      }
      BroadcastPrimes(before, draws, sockets, atts, keys[n], 0, now, key, p);
    }
  }

  /** The attachments that the updates of a step are addressed by. */
  function AddressedBy(room: Room, step: Step): map<SocketId, Attachment>
    requires step.Accept? || step.Alarm? || step.Restart? || step.socket in room.atts
  {
    if step.Shake? then AttsAfter(room, step) else room.atts
  }

  /** Whoever is sent an update in a step has a session that counts the graph of after the step as sent. */
  lemma StepPrimes(room: Room, draws: string -> nat, step: Step, key: string, p: PeerId)
    requires WellFormed(room) && Enabled(room, step)
    requires Reached(Deliveries(room, draws, step), AddressedBy(room, step), key, p)
    ensures PrimedAt(RoomAfter(room, draws, step).groups, key, p)
  {
    hide PrimedAt, BroadcastGroups, BroadcastDeliveries, RefreshDeliveries, RefreshOps, CleanupOps, ApplyOps, Ops,
      Reached;
    match step {
      case Shake(s, shake, now) =>
        NobodyIsReached(AddressedBy(room, step), key, p);
        if ShakeOutcome(room, shake).Some? {
          var atts := AttsAfter(room, step);
          ShakeIsOps(room, draws, s, shake, now);
          BroadcastPrimes(ApplyOps(room.groups, draws, OpsAt(atts[s].groupKey, WelcomeEvents(atts[s], now))), draws,
                          room.sockets, atts, atts[s].groupKey, 0, now, key, p);
        }
      case Sync(s, Some(req), now) => SyncPrimes(room, draws, s, req, now, key, p);
      case Close(s, now) =>
        if room.atts[s].peerId != 0 && !HasOtherConnection(room, room.atts[s]) {
          CloseIsOps(room, draws, s, now);
          var leaving := Op(room.atts[s].groupKey, RemovePeer(room.atts[s].peerId, now));
          BroadcastPrimes(ApplyOps(room.groups, draws, [leaving]), draws, room.sockets, room.atts,
                          room.atts[s].groupKey,
                          room.atts[s].peerId, now, key, p);
        } else {
          CloseOfNobody(room, draws, s, now);
          NobodyIsReached(AddressedBy(room, step), key, p);
        }
      case Alarm(keys, now) =>
        AlarmRoom(room, draws, keys, now);
        RefreshPrimes(ApplyOps(room.groups, draws, CleanupOps(keys, now)), draws, room.sockets, room.atts, keys, now,
                      key, p);
      case _ => NobodyIsReached(AddressedBy(room, step), key, p);
    }
  }

  lemma SyncPrimes(room: Room, draws: string -> nat, s: SocketId, req: SyncRequest, now: Millis, key: string, p: PeerId)
    requires WellFormed(room) && s in room.sockets
    requires Reached(Deliveries(room, draws, Sync(s, Some(req), now)), room.atts, key, p)
    ensures PrimedAt(RoomAfter(room, draws, Sync(s, Some(req), now)).groups, key, p)
  {
    hide PrimedAt, BroadcastGroups, BroadcastDeliveries, ApplyOps, Ops, Reached, Synced, Broadcasts, UpdateBuilt,
      UpdateFor;
    var att := room.atts[s];
    var g := Lookup(room.groups, draws, att.groupKey);
    var synced := room.groups[att.groupKey := Synced(g, att.peerId, req, now)];
    var push := Delivery(s, att.peerId, UpdateFor(synced, draws, att, now));
    var pushed := UpdateBuilt(synced, draws, att, now);
    SyncIsOps(room, draws, s, req, now);
    SyncSends(room, draws, s, req, now);
    ReachedOne(push, room.atts, key, p);
    if StandsFor(att, key, p) {
      UpdatePrimes(synced, draws, att, now, key, p);
    }
    if Broadcasts(g, att.peerId, req, now) {
      ReachedConcat([push], BroadcastDeliveries(pushed, draws, room.sockets, room.atts, att.groupKey, att.peerId, now),
                    room.atts, key, p);
      BroadcastPrimes(pushed, draws, room.sockets, room.atts, att.groupKey, att.peerId, now, key, p);
    } else {
      assert [push] + [] == [push];
    }
  }

  lemma ReachedAreMatched(draws: string -> nat, steps: seq<Step>, step: Step, key: string, p: PeerId, ordered: bool)
    requires RoomRun(draws, steps + [step]).Some? && RoomRun(draws, steps).Some?
    requires WellFormed(RoomRun(draws, steps).value) && Enabled(RoomRun(draws, steps).value, step)
    requires Reached(Deliveries(RoomRun(draws, steps).value, draws, step),
                     AddressedBy(RoomRun(draws, steps).value, step), key, p)
    requires ordered ==> p != 0 && SparesServerIdHere(step) && forall step' | step' in steps ::
             SparesServerIdHere(step')
    ensures var groups := RoomRun(draws, steps + [step]).value.groups;
            PrimedAt(groups, key, p) && Matches(groups[key], p, HeldOf(draws, steps + [step], key, p), {}, ordered)
  {
    hide RoomAfter, HeldOf, Enabled, AddressedBy, Reached, Deliveries, Matches, IsPrimed;
    assert (steps + [step])[..|steps|] == steps;
    StepPrimes(RoomRun(draws, steps).value, draws, step, key, p);
    RunMatches(draws, steps + [step], key, p, ordered);
  }

  /**
   * Whoever is sent an update in a step, with the graph in it or without, then holds the group's current
   * graph, unless it is behind.
   */
  lemma GraphsSentAreCurrent(draws: string -> nat, steps: seq<Step>, step: Step, key: string, p: PeerId)
    requires RoomRun(draws, steps + [step]).Some? && RoomRun(draws, steps).Some?
    requires WellFormed(RoomRun(draws, steps).value) && Enabled(RoomRun(draws, steps).value, step)
    requires Reached(Deliveries(RoomRun(draws, steps).value, draws, step),
                     AddressedBy(RoomRun(draws, steps).value, step), key, p)
    ensures var h, groups := HeldOf(draws, steps + [step], key, p), RoomRun(draws, steps + [step]).value.groups;
            !h.behind ==> key in groups && h.view.bitmap == Some(BitmapFor(groups[key], p))
  {
    hide RoomRun, HeldOf, Enabled, AddressedBy, Reached, Deliveries, BitmapFor;
    ReachedAreMatched(draws, steps, step, key, p, false);
    var h, groups := HeldOf(draws, steps + [step], key, p), RoomRun(draws, steps + [step]).value.groups;
    SameSigSameBitmap(h.believed, BitmapFor(groups[key], p));
  }

  /** It holds the current graph exactly when it is not behind, no client using the relay's id. */
  lemma GraphsSentAreCurrentExactly(draws: string -> nat, steps: seq<Step>, step: Step, key: string, p: PeerId)
    requires RoomRun(draws, steps + [step]).Some? && RoomRun(draws, steps).Some?
    requires WellFormed(RoomRun(draws, steps).value) && Enabled(RoomRun(draws, steps).value, step)
    requires Reached(Deliveries(RoomRun(draws, steps).value, draws, step),
                     AddressedBy(RoomRun(draws, steps).value, step), key, p)
    requires p != 0 && SparesServerIdHere(step) && forall step' | step' in steps :: SparesServerIdHere(step')
    ensures var h, groups := HeldOf(draws, steps + [step], key, p), RoomRun(draws, steps + [step]).value.groups;
            key in groups && (h.view.bitmap == Some(BitmapFor(groups[key], p)) <==> !h.behind)
  {
    hide RoomRun, HeldOf, Enabled, AddressedBy, Reached, Deliveries, BitmapFor, Matches;
    ReachedAreMatched(draws, steps, step, key, p, true);
    CurrentUnlessBehind(RoomRun(draws, steps + [step]).value.groups[key], p, HeldOf(draws, steps + [step], key, p));
  }

  /** A peer that is behind holds an older graph than the last one built for it, or none; else it holds that one. */
  lemma BehindMeansOlder(draws: string -> nat, steps: seq<Step>, key: string, p: PeerId)
    requires RoomRun(draws, steps).Some? && p != 0 && forall step | step in steps :: SparesServerIdHere(step)
    ensures var h := HeldOf(draws, steps, key, p);
            && (h.behind <==> h.view.bitmap != h.believed)
            && (h.behind ==> h.believed.Some? &&
                             (h.view.bitmap.Some? ==>
                              GraphVersion(h.view.bitmap.value) < GraphVersion(h.believed.value)))
  {
    hide RoomRun, HeldOf, GraphVersion, BitmapFor;
    RunMatches(draws, steps, key, p, true);
  }

  // ---- catching up ----

  /** The peer is not behind, or nothing about its graph has changed. */
  predicate CatchesUp(h: Held, h': Held) {
    !h'.behind || (h'.behind == h.behind && h'.believed == h.believed)
  }

  lemma {:induction false} TakingCatchesUp(h: Held, sent: seq<Delivery>, atts: map<SocketId, Attachment>, key: string,
                                           p: PeerId)
    ensures CatchesUp(h, TakenIn(h, sent, atts, key, p))
  {
    if sent != [] {
      TakingCatchesUp(h, sent[..|sent| - 1], atts, key, p);
    }
  }

  predicate IsOwnHandshake(room: Room, step: Step, key: string, p: PeerId) {
    step.Shake? && ShakeOutcome(room, step.shake).Some? && step.socket in room.atts &&
    StandsFor(AttsAfter(room, step)[step.socket], key, p)
  }

  lemma StepCatchesUp(room: Room, draws: string -> nat, step: Step, key: string, p: PeerId, h: Held)
    requires WellFormed(room) && Enabled(room, step) && !IsOwnHandshake(room, step, key, p)
    ensures CatchesUp(h, HeldAfter(h, room, draws, step, key, p))
  {
    hide Deliveries, TakenIn;
    var sent := Deliveries(room, draws, step);
    match step {
      case Shake(_, _, _) => TakingCatchesUp(h, sent, AttsAfter(room, step), key, p);
      case Sync(s, Some(req), now) =>
        TakingCatchesUp(if StandsFor(room.atts[s], key, p) then Greets(h, req.mySessionId)
                        else h, sent, room.atts, key, p);
      case Close(s, now) =>
        TakingCatchesUp(HOLDS_NOTHING, sent, room.atts, key, p);
        TakingCatchesUp(h, sent, room.atts, key, p);
      case Alarm(_, _) => TakingCatchesUp(h, sent, room.atts, key, p);
      case _ =>
    }
  }

  /**
   * The next change of the graph brings a peer up to date: once it is sent an update, other than by a
   * handshake of its own, when the graph is not the last one built for it, it holds the current graph.
   */
  lemma NextChangeBringsGraph(draws: string -> nat, steps: seq<Step>, step: Step, key: string, p: PeerId)
    requires RoomRun(draws, steps + [step]).Some? && RoomRun(draws, steps).Some?
    requires WellFormed(RoomRun(draws, steps).value) && Enabled(RoomRun(draws, steps).value, step)
    requires Reached(Deliveries(RoomRun(draws, steps).value, draws, step),
                     AddressedBy(RoomRun(draws, steps).value, step), key, p)
    requires !IsOwnHandshake(RoomRun(draws, steps).value, step, key, p)
    ensures var h, h' := HeldOf(draws, steps, key, p), HeldOf(draws, steps + [step], key, p);
            var groups := RoomRun(draws, steps + [step]).value.groups;
            && key in groups
            && (h.believed != Some(BitmapFor(groups[key], p)) ==>
                !h'.behind && h'.view.bitmap == Some(BitmapFor(groups[key], p)))
  {
    hide RoomAfter, HeldAfter, Enabled, AddressedBy, Reached, Deliveries, BitmapFor, IsOwnHandshake;
    assert (steps + [step])[..|steps|] == steps;
    var h, groups := HeldOf(draws, steps + [step], key, p), RoomRun(draws, steps + [step]).value.groups;
    ReachedAreMatched(draws, steps, step, key, p, false);
    SameSigSameBitmap(h.believed, BitmapFor(groups[key], p));
    StepCatchesUp(RoomRun(draws, steps).value, draws, step, key, p, HeldOf(draws, steps, key, p));
  }

  // ---- what a handshake loses ----

  lemma ArrivalOfKnown(g: Group, p: PeerId, now: Millis)
    requires p in g.peers && p in g.peerInfos
    ensures IsPrimed(Arrived(g, p, now), p) <==> IsPrimed(g, p)
  {
    ArrivalKeepsSessions(g, p, now);
    ArrivalOfKnownKeepsGraph(g, p, now);
    hide Arrived, BitmapFor;
  }

  lemma ArrivalOfKnownKeepsGraph(g: Group, p: PeerId, now: Millis)
    requires p in g.peers && p in g.peerInfos
    ensures BitmapFor(Arrived(g, p, now), p) == BitmapFor(g, p)
  {
    var h := Arrived(g, p, now);
    assert h.peers == g.peers && h.connVersions == g.connVersions && h.connections == g.connections;
  }

  lemma ArrivalOfNew(g: Group, p: PeerId, now: Millis)
    requires p !in g.peers || p !in g.peerInfos
    ensures ServerVersion(Arrived(g, p, now)) > ServerVersion(g)
  {
    var added := PeerAdded(g, p);
    BumpRaisesAll(g.(peers := g.peers + {p}, removedAt := g.removedAt - {p}));
    var listed := MyInfoBumped(added);
    BumpRaisesAll(listed.(peerInfos := listed.peerInfos[p := HandshakeInfo(p, now)]));
  }

  /** A graph that a session counts as sent is no newer than the group. */
  lemma SessionGraphIsOld(routeId: nat, es: seq<Event>, p: PeerId, b: ConnBitmap)
    requires forall e | e in es :: SparesServerId(e)
    requires SessionOf(Run(NewGroup(routeId), es), p).lastSig == Some(Sig(b))
    ensures GraphVersion(b) <= ServerVersion(Run(NewGroup(routeId), es))
  {
    hide Run, ViewOf, GraphVersion;
    SessionsDescribeViews(routeId, es, p);
    SameSigSameBitmap(ViewOf(routeId, es, p).bitmap, b);
    var i := GraphsHeldWereTrue(routeId, es, p);
    VersionIsFingerprint(routeId, es, i);
    GraphVersionOf(Run(NewGroup(routeId), es[..i]), p);
  }

  /**
   * The session of a newcomer counts the graph of its arrival as sent exactly when the peer was listed and
   * described before, and its session counted the graph of then.
   */
  lemma ArrivalSuppressesExactly(routeId: nat, es: seq<Event>, p: PeerId, now: Millis)
    requires forall e | e in es :: SparesServerId(e)
    ensures var g := Run(NewGroup(routeId), es);
            IsPrimed(Arrived(g, p, now), p) <==> p in g.peers && p in g.peerInfos && IsPrimed(g, p)
  {
    hide Run, BitmapFor, Arrived, GraphVersion;
    var g := Run(NewGroup(routeId), es);
    if p in g.peers && p in g.peerInfos {
      ArrivalOfKnown(g, p, now);
    } else {
      ArrivalOfNew(g, p, now);
      ArrivalKeepsSessions(g, p, now);
      GraphVersionOf(Arrived(g, p, now), p);
      if IsPrimed(Arrived(g, p, now), p) {
        SessionGraphIsOld(routeId, es, p, BitmapFor(Arrived(g, p, now), p));
      }
    }
  }

  /**
   * So a handshake leaves a peer behind exactly when it was not listed, not described, or its session did not
   * count the current graph as sent; a peer that comes back while its old socket is still open loses nothing.
   */
  lemma HandshakeLosesGraphExactly(draws: string -> nat, steps: seq<Step>, att: Attachment, now: Millis)
    requires RoomRun(draws, steps).Some? && forall step | step in steps :: SparesServerIdHere(step)
    ensures var groups := RoomRun(draws, steps).value.groups;
            var g := Lookup(groups, draws, att.groupKey);
            Discarded(groups, draws, att, now).connInfo.Bitmap? <==>
            !(att.peerId in g.peers && att.peerId in g.peerInfos && IsPrimed(g, att.peerId))
  {
    hide RoomRun, Run, Arrived, BitmapFor;
    var groups := RoomRun(draws, steps).value.groups;
    ReachableGroupsAreSpareRuns(draws, steps);
    SpareLookup(groups, draws, att.groupKey);
    var es :| Lookup(groups, draws, att.groupKey) == Run(NewGroup(draws(att.groupKey)), es) &&
              forall e | e in es :: SparesServerId(e);
    ArrivalSuppressesExactly(draws(att.groupKey), es, att.peerId, now);
  }

  /** What an accepted handshake makes of the newcomer: no update sent to it carries the graph. */
  lemma HandshakeBringsNoGraph(room: Room, draws: string -> nat, s: SocketId, req: HandshakeRequest, now: Millis,
                               h: Held)
    requires WellFormed(room) && s in room.sockets && Accepted(room.digests, req)
    ensures var step, key := Shake(s, Some(req), now), OutcomeOf(room.digests, req).value.groupKey;
            var h' := HeldAfter(h, room, draws, step, key, req.myPeerId);
            && h'.view.bitmap == h.view.bitmap
            && (h'.behind <==>
                (h.behind || Discarded(room.groups, draws, AttsAfter(room, step)[s], now).connInfo.Bitmap?))
            && PrimedAt(RoomAfter(room, draws, step).groups, key, req.myPeerId)
  {
    hide Deliveries, RoomAfter, PrimedAt, Discarded;
    var step, key := Shake(s, Some(req), now), OutcomeOf(room.digests, req).value.groupKey;
    var lost := Misses(h, Discarded(room.groups, draws, AttsAfter(room, step)[s], now));
    NewcomerGetsNoGraph(room, draws, s, req, now);
    TakenWithoutGraph(lost, Deliveries(room, draws, step), AttsAfter(room, step), key, req.myPeerId);
    HandshakePrimes(room, draws, s, req, now);
  }

  lemma HandshakePrimes(room: Room, draws: string -> nat, s: SocketId, req: HandshakeRequest, now: Millis)
    requires WellFormed(room) && s in room.sockets && Accepted(room.digests, req)
    ensures PrimedAt(RoomAfter(room, draws, Shake(s, Some(req), now)).groups,
                     OutcomeOf(room.digests, req).value.groupKey, req.myPeerId)
  {
    hide PrimedAt, ApplyOps, OpsAt, WelcomeEvents, BroadcastGroups, Ops;
    var step := Shake(s, Some(req), now);
    var atts := AttsAfter(room, step);
    ShakeIsOps(room, draws, s, Some(req), now);
    WelcomePrimes(room.groups, draws, atts[s], now);
    BroadcastPrimes(ApplyOps(room.groups, draws, OpsAt(atts[s].groupKey, WelcomeEvents(atts[s], now))), draws,
                    room.sockets, atts, atts[s].groupKey, 0, now, atts[s].groupKey, req.myPeerId);
  }

  lemma {:induction false} TakenWithoutGraph(h: Held, sent: seq<Delivery>, atts: map<SocketId, Attachment>, key: string,
                                             p: PeerId)
    requires NoGraphFor(sent, p)
    ensures TakenIn(h, sent, atts, key, p).view.bitmap == h.view.bitmap &&
            TakenIn(h, sent, atts, key, p).behind == h.behind
  {
    if sent != [] {
      TakenWithoutGraph(h, sent[..|sent| - 1], atts, key, p);
    }
  }

  // ---- peers with one socket ----

  ghost predicate AllAddressed(sent: seq<Delivery>, sockets: seq<SocketId>, atts: map<SocketId, Attachment>) {
    forall i | 0 <= i < |sent| ::
      sent[i].socket in sockets && sent[i].socket in atts && sent[i].peer == atts[sent[i].socket].peerId
  }

  lemma {:induction false} BroadcastIsAddressed(groups: Groups, draws: string -> nat, sockets: seq<SocketId>,
                                                atts: map<SocketId, Attachment>, to: string, excluded: PeerId,
                                                  now: Millis)
    requires forall s | s in sockets :: s in atts
    ensures AllAddressed(BroadcastDeliveries(groups, draws, sockets, atts, to, excluded, now), sockets, atts)
  {
    hide UpdateFor, BroadcastGroups;
    if sockets != [] {
      BroadcastIsAddressed(groups, draws, sockets[..|sockets| - 1], atts, to, excluded, now);
    }
  }

  lemma {:induction false} RefreshIsAddressed(groups: Groups, draws: string -> nat, sockets: seq<SocketId>,
                                              atts: map<SocketId, Attachment>, keys: seq<string>, now: Millis)
    requires forall s | s in sockets :: s in atts
    ensures AllAddressed(RefreshDeliveries(groups, draws, sockets, atts, keys, now), sockets, atts)
  {
    hide ApplyOps, BroadcastDeliveries;
    if keys != [] {
      var before := ApplyOps(groups, draws, RefreshOps(sockets, atts, keys[..|keys| - 1], now));
      RefreshIsAddressed(groups, draws, sockets, atts, keys[..|keys| - 1], now);
      BroadcastIsAddressed(before, draws, sockets, atts, keys[|keys| - 1], 0, now);
    }
  }

  lemma StepIsAddressed(room: Room, draws: string -> nat, step: Step)
    requires WellFormed(room) && Enabled(room, step)
    ensures AllAddressed(Deliveries(room, draws, step), room.sockets, AddressedBy(room, step))
  {
    hide ApplyOps, ApplyOp, OpsAt, BroadcastDeliveries, RefreshDeliveries, UpdateFor, UpdateBuilt, Broadcasts,
      SyncEvents,
      WelcomeEvents, CleanupOps;
    match step {
      case Shake(s, shake, now) =>
        if ShakeOutcome(room, shake).Some? {
          var atts := AttsAfter(room, step);
          BroadcastIsAddressed(ApplyOps(room.groups, draws, OpsAt(atts[s].groupKey, WelcomeEvents(atts[s], now))),
                               draws,
                               room.sockets, atts, atts[s].groupKey, 0, now);
        }
      case Sync(s, Some(req), now) =>
        var att := room.atts[s];
        var groups := ApplyOps(room.groups, draws, OpsAt(att.groupKey, SyncEvents(att.peerId, req, now)));
        BroadcastIsAddressed(UpdateBuilt(groups, draws, att, now), draws, room.sockets, room.atts, att.groupKey,
                             att.peerId, now);
      case Close(s, now) =>
        var att := room.atts[s];
        BroadcastIsAddressed(ApplyOp(room.groups, draws, Op(att.groupKey, RemovePeer(att.peerId, now))), draws,
                             room.sockets, room.atts, att.groupKey, att.peerId, now);
      case Alarm(keys, now) =>
        RefreshIsAddressed(ApplyOps(room.groups, draws, CleanupOps(keys, now)), draws, room.sockets, room.atts, keys,
                           now);
      case _ =>
    }
  }

  /** While no other socket stands for the peer in its group, all that the peer is sent arrives on its socket. */
  lemma SoleSocketGetsAll(room: Room, draws: string -> nat, step: Step, key: string, p: PeerId, s: SocketId)
    requires WellFormed(room) && Enabled(room, step)
    requires forall t | t in room.sockets && StandsFor(AddressedBy(room, step)[t], key, p) :: t == s
    ensures var sent := Deliveries(room, draws, step);
            forall i | 0 <= i < |sent| && IsFor(sent[i], AddressedBy(room, step), key, p) :: sent[i].socket == s
  {
    hide Deliveries, AddressedBy;
    StepIsAddressed(room, draws, step);
  }
}
