/**
 * What a remote peer holds when some of the updates built for it are never sent. The relay's session is
 * compared with it: where they part is told by the updates that were taken in and those that were lost.
 */
module Holdings {
  import opened Collections
  import opened Wire
  import opened Signature
  import opened RouteModel
  import opened Invariants
  import opened Fingerprint
  import opened Coherence

  /**
   * The remote's view; the last graph built for it in its session; whether that graph was lost, none having
   * been sent since; and how many updates were lost in the session.
   */
  datatype Held = Held(view: View, believed: Option<ConnBitmap>, behind: bool, lost: nat)

  const HOLDS_NOTHING := Held(NOTHING, None, false, 0)

  function BelievedAfter(h: Held, u: SyncRequest): Option<ConnBitmap> {
    if u.connInfo.Bitmap? then Some(u.connInfo.bitmap) else h.believed
  }

  /** An update is taken in: a graph in it brings the remote up to date. */
  function Takes(h: Held, u: SyncRequest): Held {
    Held(Received(h.view, u), BelievedAfter(h, u), h.behind && !u.connInfo.Bitmap?, h.lost)
  }

  /** An update is lost: a graph in it leaves the remote behind. */
  function Misses(h: Held, u: SyncRequest): Held {
    Held(h.view, BelievedAfter(h, u), h.behind || u.connInfo.Bitmap?, h.lost + 1)
  }

  /** The remote names its session: a new one empties the view, and the relay's cache with it. */
  function Greets(h: Held, sid: SessionId): Held {
    if h.view.sid == Some(sid) then h else Held(Renewed(h.view, sid), None, false, 0)
  }

  // ---- what a session knows ----

  /** The versions on record are those of the infos held, but for the given peers. */
  ghost predicate AgreesOutside(sent: map<PeerId, Version>, infos: map<PeerId, PeerInfo>, pending: set<PeerId>) {
    forall q | q !in pending :: (q in sent <==> q in infos) && (q in sent ==> sent[q] == SentVersion(infos[q]))
  }

  /**
   * The session names the remote's session, counts the updates sent and lost, and has the signature of the
   * last graph built; the remote holds that graph unless it is behind. The versions on record are those of
   * the infos held, but for `pending` ones; for id 0, which broadcasts pass over, once nothing was lost.
   */
  ghost predicate Tracks(s: Session, h: Held, p: PeerId, pending: set<PeerId>) {
    && s.dstSessionId == h.view.sid
    && s.foreignVersion == h.view.updates + h.lost
    && s.lastSig == SigOf(h.believed)
    && (!h.behind ==> h.view.bitmap == h.believed)
    && (h.behind ==> h.lost > 0)
    && (p != 0 || h.lost == 0 ==> AgreesOutside(s.peerInfoVersions, h.view.infos, pending))
  }

  /** The relay's version as a bitmap shows it. */
  function GraphVersion(b: ConnBitmap): Version {
    match PositionOf(b.peerIds, MY_PEER_ID)
    case None => 0
    case Some(i) => b.peerIds[i].version
  }

  lemma GraphVersionOf(g: Group, t: PeerId)
    ensures GraphVersion(BitmapFor(g, t)) == ServerVersion(g)
  {
    var b := BitmapFor(g, t);
    BitmapShowsVersion(g, t, MY_PEER_ID, ServerVersion(g));
    var i := PositionOf(b.peerIds, MY_PEER_ID);
    assert i.Some? by {
      var j :| 0 <= j < |b.peerIds| && b.peerIds[j] == PeerIdVersion(MY_PEER_ID, ServerVersion(g));
    }
    BitmapShowsVersion(g, t, MY_PEER_ID, b.peerIds[i.value].version);
    assert b.peerIds[i.value] == PeerIdVersion(MY_PEER_ID, b.peerIds[i.value].version);
  }

  /**
   * The last graph built is of a listed peer, no newer than the group, and the group's own if as new; what a
   * remote that is behind holds is older than that.
   */
  ghost predicate Ordered(g: Group, p: PeerId, h: Held) {
    && (h.believed.Some? ==>
          && p in g.peers
          && GraphVersion(h.believed.value) <= ServerVersion(g)
          && (GraphVersion(h.believed.value) == ServerVersion(g) ==> h.believed.value == BitmapFor(g, p)))
    && (h.behind ==>
          && h.believed.Some?
          && (h.view.bitmap.Some? ==> GraphVersion(h.view.bitmap.value) < GraphVersion(h.believed.value)))
    && (!h.behind ==> h.view.bitmap == h.believed)
  }

  ghost predicate Matches(g: Group, p: PeerId, h: Held, pending: set<PeerId>, ordered: bool) {
    Tracks(SessionOf(g, p), h, p, pending) && (ordered ==> Ordered(g, p, h))
  }

  /** The relay's version has risen, or the report is the same. */
  ghost predicate Moves(g: Group, g': Group) {
    ServerVersion(g') > ServerVersion(g) || (ServerVersion(g') == ServerVersion(g) && SameReport(g, g'))
  }

  // ---- builds ----

  lemma FullBuildRecords(sent: map<PeerId, Version>, infos: map<PeerId, PeerInfo>, store: Store, ps: set<PeerId>,
                         now: Millis,
                         pending: set<PeerId>)
    requires AgreesOutside(sent, infos, pending)
    ensures var recorded, due := RecordedVersions(store, sent, true, ps, now), DueMap(store, sent, true, ps, now);
            && AgreesOutside(recorded, infos + due, pending - ps)
            && AgreesOutside(recorded, infos, pending + ps)
  {
    var recorded, due := RecordedVersions(store, sent, true, ps, now), DueMap(store, sent, true, ps, now);
    RecordedIsVersionsOf(store, sent, true, ps, now);
    assert due.Keys == ps;
    forall q | q !in pending - ps
      ensures (q in recorded <==> q in infos + due) && (q in recorded ==> recorded[q] == SentVersion((infos + due)[q]))
    {
    }
  }

  lemma OwnBuildCarries(g: Group, h: Held, t: PeerId, sid: SessionId, weAreInitiator: bool, now: Millis)
    requires SessionOf(g, t).lastSig == SigOf(h.believed)
    ensures var u, b := Update(g, t, sid, weAreInitiator, true, now), BitmapFor(g, t);
            && (u.connInfo.Bitmap? <==> h.believed != Some(b)) && (u.connInfo.Bitmap? ==> u.connInfo == Bitmap(b))
            && BelievedAfter(h, u) == Some(b)
  {
    var b := BitmapFor(g, t);
    if Suppressed(SessionOf(g, t).lastSig, b) {
      SameSigSameBitmap(h.believed, b);
    }
  }

  /** A full build that is sent: nothing about the infos is pending any more. */
  lemma TakenBuildTracks(g: Group, h: Held, t: PeerId, sid: SessionId, weAreInitiator: bool, now: Millis,
                         pending: set<PeerId>)
    requires Inv(g) && Tracks(SessionOf(g, t), h, t, pending) && pending <= RelevantSet(g, t)
    ensures Tracks(SessionOf(Built(g, t, sid, true, now), t), Takes(h, Update(g, t, sid, weAreInitiator, true, now)),
                   t, {})
  {
    hide Built, Update, RecordedVersions, BitmapFor, Sig;
    OwnBuildCarries(g, h, t, sid, weAreInitiator, now);
    BuiltSession(g, t, sid, true, now);
    TakenInfos(g, h.view, t, sid, weAreInitiator, now);
    if t != 0 || h.lost == 0 {
      FullBuildRecords(SessionOf(g, t).peerInfoVersions, h.view.infos, StoreOf(g), RelevantSet(g, t), now, pending);
    }
  }

  lemma TakenInfos(g: Group, v: View, t: PeerId, sid: SessionId, weAreInitiator: bool, now: Millis)
    requires InfosKeyed(g)
    ensures Received(v, Update(g, t, sid, weAreInitiator, true, now)).infos ==
            v.infos + DueMap(StoreOf(g), SessionOf(g, t).peerInfoVersions, true, RelevantSet(g, t), now)
  {
    ItemsOfUpdate(g, t, sid, weAreInitiator, true, now);
    LearnedDue(StoreOf(g), v.infos, SessionOf(g, t).peerInfoVersions, true, RelevantPeers(g, t), now);
    assert Elements(RelevantPeers(g, t)) == RelevantSet(g, t);
  }

  /** A full build that is lost: the infos it carried are pending. */
  lemma MissedBuildTracks(g: Group, h: Held, t: PeerId, sid: SessionId, weAreInitiator: bool, now: Millis)
    requires Tracks(SessionOf(g, t), h, t, {})
    ensures Tracks(SessionOf(Built(g, t, sid, true, now), t), Misses(h, Update(g, t, sid, weAreInitiator, true, now)),
                   t,
                   RelevantSet(g, t))
  {
    hide Built, Update, RecordedVersions, BitmapFor, Sig;
    OwnBuildCarries(g, h, t, sid, weAreInitiator, now);
    BuiltSession(g, t, sid, true, now);
    if t != 0 || h.lost == 0 {
      FullBuildRecords(SessionOf(g, t).peerInfoVersions, h.view.infos, StoreOf(g), RelevantSet(g, t), now, {});
    }
  }

  lemma BuildKeepsBitmap(g: Group, t: PeerId, sid: SessionId, now: Millis, p: PeerId)
    ensures var g' := Built(g, t, sid, true, now);
            BitmapFor(g', p) == BitmapFor(g, p) && ServerVersion(g') == ServerVersion(g) && g'.peers == g.peers
  {
    hide Built;
    BuiltRest(g, t, sid, true, now);
  }

  lemma TakenBuildIsOrdered(g: Group, h: Held, t: PeerId, sid: SessionId, weAreInitiator: bool, now: Millis)
    requires SessionOf(g, t).lastSig == SigOf(h.believed) && Ordered(g, t, h) && t in g.peers
    ensures Ordered(Built(g, t, sid, true, now), t, Takes(h, Update(g, t, sid, weAreInitiator, true, now)))
  {
    hide Built, Update, BitmapFor, GraphVersion;
    OwnBuildCarries(g, h, t, sid, weAreInitiator, now);
    BuildKeepsBitmap(g, t, sid, now, t);
    GraphVersionOf(g, t);
  }

  lemma MissedBuildIsOrdered(g: Group, h: Held, t: PeerId, sid: SessionId, weAreInitiator: bool, now: Millis)
    requires SessionOf(g, t).lastSig == SigOf(h.believed) && Ordered(g, t, h) && t in g.peers
    ensures Ordered(Built(g, t, sid, true, now), t, Misses(h, Update(g, t, sid, weAreInitiator, true, now)))
  {
    hide Built, Update, BitmapFor, GraphVersion;
    OwnBuildCarries(g, h, t, sid, weAreInitiator, now);
    BuildKeepsBitmap(g, t, sid, now, t);
    GraphVersionOf(g, t);
  }

  lemma TakenBuildMatches(g: Group, h: Held, t: PeerId, sid: SessionId, weAreInitiator: bool, now: Millis,
                          pending: set<PeerId>, ordered: bool)
    requires Inv(g) && Matches(g, t, h, pending, ordered) && pending <= RelevantSet(g, t) && (ordered ==> t in g.peers)
    ensures Matches(Built(g, t, sid, true, now), t, Takes(h, Update(g, t, sid, weAreInitiator, true, now)), {}, ordered)
  {
    hide Built, Update, Ordered, Takes;
    TakenBuildTracks(g, h, t, sid, weAreInitiator, now, pending);
    if ordered {
      TakenBuildIsOrdered(g, h, t, sid, weAreInitiator, now);
    }
  }

  lemma MissedBuildMatches(g: Group, h: Held, t: PeerId, sid: SessionId, weAreInitiator: bool, now: Millis,
                           ordered: bool)
    requires Matches(g, t, h, {}, ordered) && (ordered ==> t in g.peers)
    ensures Matches(Built(g, t, sid, true, now), t, Misses(h, Update(g, t, sid, weAreInitiator, true, now)),
                    RelevantSet(g, t), ordered)
  {
    hide Built, Update, Ordered, Misses;
    MissedBuildTracks(g, h, t, sid, weAreInitiator, now);
    if ordered {
      MissedBuildIsOrdered(g, h, t, sid, weAreInitiator, now);
    }
  }

  // ---- everything else ----

  /** What leaves the session alone, and the peer listed, keeps the match. */
  lemma MoveKeepsMatch(g: Group, g': Group, p: PeerId, h: Held, pending: set<PeerId>, ordered: bool)
    requires Matches(g, p, h, pending, ordered) && SessionOf(g', p) == SessionOf(g, p)
    requires ordered ==> Moves(g, g') && (p in g.peers ==> p in g'.peers)
    ensures Matches(g', p, h, pending, ordered)
  {
    hide BitmapFor, Tracks, SameReport, GraphVersion;
    if ordered && h.believed.Some? && ServerVersion(g') == ServerVersion(g) {
      SameReportSameBitmap(g, g', p);
    }
  }

  lemma OthersBuildMatches(g: Group, t: PeerId, sid: SessionId, now: Millis, p: PeerId, h: Held, pending: set<PeerId>,
                           ordered: bool)
    requires p != t && Matches(g, p, h, pending, ordered)
    ensures Matches(Built(g, t, sid, true, now), p, h, pending, ordered)
  {
    hide Built;
    BuiltSessions(g, t, sid, true, now);
    BuildKeepsReport(g, t, sid, true, now);
    MoveKeepsMatch(g, Built(g, t, sid, true, now), p, h, pending, ordered);
  }

  lemma GreetingTracks(s: Session, h: Held, p: PeerId, sid: SessionId)
    requires Tracks(s, h, p, {})
    ensures Tracks(Greeted(s, sid), Greets(h, sid), p, {})
  {
  }

  /** The peer names its session, and the group moves otherwise. */
  lemma GreetingMatches(g: Group, g': Group, p: PeerId, h: Held, sid: SessionId, ordered: bool)
    requires Matches(g, p, h, {}, ordered)
    requires ordered ==> Moves(g, g') && (p in g.peers ==> p in g'.peers)
    requires var s, s' := Greeted(SessionOf(g, p), sid), SessionOf(g', p);
             && s'.dstSessionId == s.dstSessionId && s'.foreignVersion == s.foreignVersion
             && s'.lastSig == s.lastSig && s'.peerInfoVersions == s.peerInfoVersions
    ensures Matches(g', p, Greets(h, sid), {}, ordered)
  {
    hide BitmapFor, SameReport, GraphVersion;
    GreetingTracks(SessionOf(g, p), h, p, sid);
    if ordered && h.believed.Some? && ServerVersion(g') == ServerVersion(g) {
      SameReportSameBitmap(g, g', p);
    }
  }

  lemma NothingMatches(g: Group, p: PeerId, ordered: bool)
    requires SessionOf(g, p) == NO_SESSION
    ensures Matches(g, p, HOLDS_NOTHING, {}, ordered)
  {
  }

  // ---- what a match means ----

  /** Without losses the session describes the view. */
  lemma NoLossDescribes(s: Session, h: Held, p: PeerId)
    requires Tracks(s, h, p, {}) && h.lost == 0
    ensures Describes(s, h.view)
  {
    assert s.peerInfoVersions == VersionsOf(h.view.infos);
  }

  /** Losses leave no trace in the infos, but for id 0. */
  lemma InfosAgree(s: Session, h: Held, p: PeerId)
    requires Tracks(s, h, p, {}) && p != 0
    ensures s.peerInfoVersions == VersionsOf(h.view.infos)
  {
  }

  /** When the session counts the current graph as sent, the remote holds it exactly when it is not behind. */
  lemma CurrentUnlessBehind(g: Group, p: PeerId, h: Held)
    requires Matches(g, p, h, {}, true) && Suppressed(SessionOf(g, p).lastSig, BitmapFor(g, p))
    ensures h.view.bitmap == Some(BitmapFor(g, p)) <==> !h.behind
  {
    hide BitmapFor, GraphVersion;
    SameSigSameBitmap(h.believed, BitmapFor(g, p));
  }
}
