/** What an update says, field by field, told from the run that leads to it. */
module Contents {
  import opened Collections
  import opened Wire
  import opened Signature
  import opened RouteModel
  import opened Invariants
  import opened Coherence
  import opened GraphTheorems
  import opened Announcements

  // ---- the relay's own info ----

  function Bumps(es: seq<Event>): nat {
    if es == [] then 0 else Bumps(es[..|es| - 1]) + (if es[|es| - 1].BumpMyInfo? then 1 else 0)
  }

  /** Over every run the relay's own info is the one it started with, at a version that counts the bumps. */
  lemma {:induction false} OwnInfoIsFixed(routeId: nat, es: seq<Event>)
    ensures Run(NewGroup(routeId), es).myInfo ==
            PeerInfo(10000001, 1 + Bumps(es), None, 24, routeId, "cf-easytier-wsrelay")
  {
    if es != [] {
      OwnInfoIsFixed(routeId, es[..|es| - 1]);
      RunKeepsCount(routeId, es[..|es| - 1]);
      EventKeepsOwnInfo(Run(NewGroup(routeId), es[..|es| - 1]), es[|es| - 1]);
    }
  }

  lemma EventKeepsOwnInfo(g: Group, e: Event)
    requires OwnInfoCounts(g)
    ensures Apply(g, e).myInfo == if e.BumpMyInfo? then g.myInfo.(version := g.myInfo.version + 1) else g.myInfo
  {
    hide Built;
    if e.Build? {
      BuiltRest(g, e.peer, e.sid, e.force, e.now);
    }
  }

  // ---- what is sent ----

  /** What the relay knows of a peer at a time: its own info, the one stored, or a stub made up then. */
  function KnownOf(g: Group, p: PeerId, now: Millis): PeerInfo {
    if p == 10000001 then g.myInfo
    else if p in g.peerInfos then g.peerInfos[p]
    else PeerInfo(p, 1, Some(now / 1000), 24, 0, "cf-2.6")
  }

  /** Version 0 counts as 1. */
  function Counted1(v: Version): Version {
    if v == 0 then 1 else v
  }

  lemma InfosAreKnown(routeId: nat, es: seq<Event>, p: PeerId, now: Millis)
    ensures var g := Run(NewGroup(routeId), es);
            InfoFor(StoreOf(g), p, now) == KnownOf(g, p, now)
  {
    OwnInfoIsFixed(routeId, es);
  }

  /** The stamp of an update: who sends it, in which session, in which role; and how many it is the last of. */
  lemma UpdateIsSigned(routeId: nat, es: seq<Event>, t: PeerId, sid: SessionId, weAreInitiator: bool, force: bool,
                       now: Millis)
    ensures var u := Update(Run(NewGroup(routeId), es), t, sid, weAreInitiator, force, now);
            && u.myPeerId == 10000001 && u.mySessionId == sid && u.isInitiator == weAreInitiator
            && u.peerInfos != Some([]) && u.foreign.Some?
  {
  }

  /** The session that an update names is the one that the next reply to its target names. */
  lemma NextReplyNamesUpdate(routeId: nat, es: seq<Event>, t: PeerId, sid: SessionId, weAreInitiator: bool, force: bool,
                             now: Millis, req: SyncRequest)
    ensures var u := Update(Run(NewGroup(routeId), es), t, sid, weAreInitiator, force, now);
            var after := Run(NewGroup(routeId), es + [Build(t, sid, weAreInitiator, force, now)]);
            SyncReply(after, t, req).sessionId == u.mySessionId
  {
    hide Update, SyncReply, Run;
    UpdateIsSigned(routeId, es, t, sid, weAreInitiator, force, now);
    RepliesNameLastSession(routeId, es + [Build(t, sid, weAreInitiator, force, now)], t, req);
  }

  /** The group as a foreign network: its ids, the number of updates since the last reset, and the time in seconds. */
  lemma ForeignNetworkIsCurrent(routeId: nat, es: seq<Event>, t: PeerId, sid: SessionId, weAreInitiator: bool,
                                force: bool,
                                now: Millis)
    ensures var g, e := Run(NewGroup(routeId), es), Build(t, sid, weAreInitiator, force, now);
            var u := Update(g, t, sid, weAreInitiator, force, now);
            && u.foreign.Some?
            && u.foreign.value.version == ViewOf(routeId, es + [e], t).updates
            && u.foreign.value.lastUpdate * 1000 <= now < u.foreign.value.lastUpdate * 1000 + 1000
            && (forall i, j | 0 <= i < j < |u.foreign.value.peerIds| ::
                  u.foreign.value.peerIds[i] < u.foreign.value.peerIds[j])
            && (forall p :: p in u.foreign.value.peerIds <==> p in g.peers || p == 10000001 || p == t)
  {
    hide Run, ViewOf;
    var g := Run(NewGroup(routeId), es);
    SessionsDescribeViews(routeId, es, t);
    ViewAppend(routeId, es, Build(t, sid, weAreInitiator, force, now), t);
    ForeignNames(g, t, sid, weAreInitiator, force, now);
  }

  lemma ForeignNames(g: Group, t: PeerId, sid: SessionId, weAreInitiator: bool, force: bool, now: Millis)
    ensures var u := Update(g, t, sid, weAreInitiator, force, now);
            && u.foreign.Some? && u.foreign.value.peerIds == RelevantPeers(g, t)
            && u.foreign.value.version == SessionOf(g, t).foreignVersion + 1
            && u.foreign.value.lastUpdate == now / 1000
            && forall p :: p in u.foreign.value.peerIds <==> p in g.peers || p == 10000001 || p == t
  {
  }

  /** The graph travels exactly when the target does not hold it already. */
  lemma GraphTravelsWhenNew(routeId: nat, es: seq<Event>, t: PeerId, sid: SessionId, weAreInitiator: bool, force: bool,
                            now: Millis)
    ensures var g, v := Run(NewGroup(routeId), es), ViewOf(routeId, es, t);
            Update(g, t, sid, weAreInitiator, force, now).connInfo ==
            if v.bitmap == Some(BitmapFor(g, t)) then NoConnInfo else Bitmap(BitmapFor(g, t))
  {
    hide Run, ViewOf, BitmapFor;
    var g, v := Run(NewGroup(routeId), es), ViewOf(routeId, es, t);
    SessionsDescribeViews(routeId, es, t);
    if SessionOf(g, t).lastSig == Some(Sig(BitmapFor(g, t))) {
      SameSigSameBitmap(v.bitmap, BitmapFor(g, t));
    }
  }

  /**
   * An update carries what the relay knows of exactly those peers of which the target holds nothing, or
   * something older; and of everyone if it is forced, or the target has not named its session.
   */
  lemma UpdateCarriesWhatIsNewer(routeId: nat, es: seq<Event>, t: PeerId, sid: SessionId, weAreInitiator: bool,
                                 force: bool,
                                 now: Millis)
    ensures var g, v := Run(NewGroup(routeId), es), ViewOf(routeId, es, t);
            var items := ItemsOf(Update(g, t, sid, weAreInitiator, force, now));
            && (forall i | 0 <= i < |items| :: items[i] == KnownOf(g, items[i].peerId, now))
            && (forall i, j | 0 <= i < j < |items| :: items[i].peerId < items[j].peerId)
            && (forall p :: (exists i | 0 <= i < |items| :: items[i].peerId == p) <==>
                  && (p in g.peers || p == 10000001 || p == t)
                  && (force || v.sid == None || p !in v.infos ||
                      Counted1(v.infos[p].version) < Counted1(KnownOf(g, p, now).version)))
  {
    hide Run, ViewOf;
    var g, v, s := Run(NewGroup(routeId), es), ViewOf(routeId, es, t), SessionOf(Run(NewGroup(routeId), es), t);
    SessionsDescribeViews(routeId, es, t);
    RunKeepsInv(routeId, es);
    ItemsOfUpdate(g, t, sid, weAreInitiator, force, now);
    var items := ItemsOf(Update(g, t, sid, weAreInitiator, force, now));
    InfosCarriedAreThoseDue(StoreOf(g), s.peerInfoVersions, SendsAll(s, force), RelevantPeers(g, t), now);
    hide Update, DueInfos;
    forall p ensures InfoFor(StoreOf(g), p, now) == KnownOf(g, p, now) {
      InfosAreKnown(routeId, es, p, now);
    }
    forall p
      ensures ListsInfo(items, p) <==>
              && (p in g.peers || p == 10000001 || p == t)
              && (force || v.sid == None || p !in v.infos ||
                  Counted1(v.infos[p].version) < Counted1(KnownOf(g, p, now).version))
    {
      DueMeansNewer(g, v, t, force, p, now);
    }
  }

  lemma DueMeansNewer(g: Group, v: View, t: PeerId, force: bool, p: PeerId, now: Millis)
    requires Describes(SessionOf(g, t), v) && InfoFor(StoreOf(g), p, now) == KnownOf(g, p, now)
    ensures var s := SessionOf(g, t);
            p in RelevantPeers(g, t) && IsDue(StoreOf(g), s.peerInfoVersions, SendsAll(s, force), p, now) <==>
            && (p in g.peers || p == 10000001 || p == t)
            && (force || v.sid == None || p !in v.infos ||
                Counted1(v.infos[p].version) < Counted1(KnownOf(g, p, now).version))
  {
    hide KnownOf;
    assert p in RelevantPeers(g, t) <==> p in RelevantSet(g, t);
  }

  /** A build files a stub for every peer of the update of which nothing was known, and touches no other info. */
  lemma BuildFilesStubs(routeId: nat, es: seq<Event>, t: PeerId, sid: SessionId, force: bool, now: Millis, p: PeerId)
    ensures var g := Run(NewGroup(routeId), es);
            var infos := Built(g, t, sid, force, now).peerInfos;
            && (p in infos <==> p in g.peerInfos || (p != 10000001 && (p in g.peers || p == t)))
            && (p in infos ==> infos[p] == if p in g.peerInfos then g.peerInfos[p] else KnownOf(g, p, now))
  {
    hide Run, Built;
    InfosAreKnown(routeId, es, p, now);
    BuiltRest(Run(NewGroup(routeId), es), t, sid, force, now);
  }
}
