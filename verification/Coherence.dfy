/**
 * What a remote peer knows. A remote that applies every update returned for it, and forgets
 * everything when it opens a new session, is compared with the relay's caches: they agree
 * after every run, so an update that leaves the graph out never leaves the remote behind.
 */
module Coherence {
  import opened Collections
  import opened Wire
  import opened Signature
  import opened RouteModel
  import opened Invariants
  import opened Fingerprint

  datatype View = View(
    sid: Option<SessionId>,
    bitmap: Option<ConnBitmap>,
    infos: map<PeerId, PeerInfo>,
    updates: nat)

  const NOTHING := View(None, None, map[], 0)

  function Renewed(v: View, sid: SessionId): View {
    if v.sid == Some(sid) then v else View(Some(sid), None, map[], 0)
  }

  function Learned(infos: map<PeerId, PeerInfo>, items: seq<PeerInfo>): map<PeerId, PeerInfo> {
    if items == [] then infos
    else
      var last := items[|items| - 1];
      Learned(infos, items[..|items| - 1])[last.peerId := last]
  }

  function Received(v: View, u: SyncRequest): View {
    View(v.sid, if u.connInfo.Bitmap? then Some(u.connInfo.bitmap) else v.bitmap,
         Learned(v.infos, ItemsOf(u)), v.updates + 1)
  }

  /** The target's view after one more event, the group being `g` when it happens. */
  ghost function Seen(v: View, g: Group, e: Event, t: PeerId): View {
    match e
    case RemovePeer(p, _) => if p == t then NOTHING else v
    case Ack(p, sid, _, _) => if p == t then Renewed(v, sid) else v
    case HandleSync(p, req, _) => if p == t then Renewed(v, req.mySessionId) else v
    case Build(p, sid, weAreInitiator, force, now) =>
      if p == t then Received(v, Update(g, t, sid, weAreInitiator, force, now)) else v
    case _ => v
  }

  /** The target's view after a run from a fresh group. */
  ghost function ViewOf(routeId: nat, es: seq<Event>, t: PeerId): View {
    if es == [] then NOTHING
    else
      var prefix := es[..|es| - 1];
      Seen(ViewOf(routeId, prefix, t), Run(NewGroup(routeId), prefix), es[|es| - 1], t)
  }

  // ---- the session cache describes the view ----

  function SigOf(b: Option<ConnBitmap>): Option<string> {
    match b case None => None case Some(bitmap) => Some(Sig(bitmap))
  }

  function VersionsOf(infos: map<PeerId, PeerInfo>): map<PeerId, Version> {
    map p | p in infos :: SentVersion(infos[p])
  }

  ghost predicate Describes(s: Session, v: View) {
    && s.dstSessionId == v.sid
    && s.lastSig == SigOf(v.bitmap)
    && s.foreignVersion == v.updates
    && s.peerInfoVersions == VersionsOf(v.infos)
  }

  function DueMap(store: Store, sent: map<PeerId, Version>, full: bool, ps: set<PeerId>,
                  now: Millis): map<PeerId, PeerInfo> {
    map p | p in ps && IsDue(store, sent, full, p, now) :: InfoFor(store, p, now)
  }

  lemma LearnOneMore(infos: map<PeerId, PeerInfo>, items: seq<PeerInfo>, info: PeerInfo)
    ensures Learned(infos, items + [info]) == Learned(infos, items)[info.peerId := info]
  {
    assert (items + [info])[..|items|] == items;
  }

  lemma SumThenUpdate<K, V>(m: map<K, V>, n: map<K, V>, k: K, v: V)
    ensures m + n[k := v] == (m + n)[k := v]
  {
  }

  lemma DueMapGrows(store: Store, sent: map<PeerId, Version>, full: bool, ps: set<PeerId>, p: PeerId, now: Millis)
    ensures DueMap(store, sent, full, ps + {p}, now) ==
            if IsDue(store, sent, full, p, now) then DueMap(store, sent, full, ps, now)[p := InfoFor(store, p, now)]
            else DueMap(store, sent, full, ps, now)
  {
  }

  lemma InfoIsFiled(store: Store, p: PeerId, now: Millis)
    requires StoreKeyed(store)
    ensures InfoFor(store, p, now).peerId == p
  {
  }

  lemma LearnedDueStep(store: Store, infos: map<PeerId, PeerInfo>, sent: map<PeerId, Version>, full: bool,
                       prefix: seq<PeerId>, p: PeerId, now: Millis)
    requires StoreKeyed(store)
    requires Learned(infos, DueInfos(store, sent, full, prefix, now)) ==
             infos + DueMap(store, sent, full, Elements(prefix), now)
    ensures Learned(infos, DueInfos(store, sent, full, prefix + [p], now)) ==
            infos + DueMap(store, sent, full, Elements(prefix) + {p}, now)
  {
    var items, due := DueInfos(store, sent, full, prefix, now), DueMap(store, sent, full, Elements(prefix), now);
    DueOneMore(store, sent, full, prefix, p, now);
    DueMapGrows(store, sent, full, Elements(prefix), p, now);
    InfoIsFiled(store, p, now);
    hide DueMap, DueInfos, IsDue, InfoFor, Learned, Elements, StoreKeyed;
    if IsDue(store, sent, full, p, now) {
      var info := InfoFor(store, p, now);
      LearnOneMore(infos, items, info);
      SumThenUpdate(infos, due, p, info);
    } else {
      assert items + [] == items;
    }
  }

  lemma {:induction false} LearnedDue(store: Store, infos: map<PeerId, PeerInfo>, sent: map<PeerId, Version>,
                                      full: bool,
                                      ids: seq<PeerId>, now: Millis)
    requires StoreKeyed(store)
    ensures Learned(infos, DueInfos(store, sent, full, ids, now)) ==
            infos + DueMap(store, sent, full, Elements(ids), now)
  {
    if ids == [] {
      assert infos + DueMap(store, sent, full, {}, now) == infos;
    } else {
      var prefix, p := ids[..|ids| - 1], ids[|ids| - 1];
      LearnedDue(store, infos, sent, full, prefix, now);
      LearnedDueStep(store, infos, sent, full, prefix, p, now);
      SplitLast(ids);
    }
  }

  lemma VersionsOfSum(m: map<PeerId, PeerInfo>, n: map<PeerId, PeerInfo>)
    ensures VersionsOf(m + n) == VersionsOf(m) + VersionsOf(n)
  {
  }

  lemma RecordedIsVersionsOf(store: Store, sent: map<PeerId, Version>, full: bool, ps: set<PeerId>, now: Millis)
    ensures RecordedVersions(store, sent, full, ps, now) == sent + VersionsOf(DueMap(store, sent, full, ps, now))
  {
  }

  lemma RecordsDescribe(g: Group, infos: map<PeerId, PeerInfo>, full: bool, t: PeerId, now: Millis)
    requires InfosKeyed(g)
    ensures var items := DueInfos(StoreOf(g), VersionsOf(infos), full, RelevantPeers(g, t), now);
            VersionsOf(Learned(infos, items)) ==
              RecordedVersions(StoreOf(g), VersionsOf(infos), full, RelevantSet(g, t), now)
  {
    var ids, ps, sent := RelevantPeers(g, t), RelevantSet(g, t), VersionsOf(infos);
    assert Elements(ids) == ps;
    LearnedDue(StoreOf(g), infos, sent, full, ids, now);
    VersionsOfSum(infos, DueMap(StoreOf(g), sent, full, ps, now));
    RecordedIsVersionsOf(StoreOf(g), sent, full, ps, now);
  }

  lemma RenewalDescribes(s: Session, v: View, sid: SessionId)
    requires Describes(s, v)
    ensures Describes(Greeted(s, sid), Renewed(v, sid))
  {
    assert VersionsOf(map[]) == map[];
  }

  lemma ItemsOfUpdate(g: Group, t: PeerId, sid: SessionId, weAreInitiator: bool, force: bool, now: Millis)
    ensures var s := SessionOf(g, t);
            ItemsOf(Update(g, t, sid, weAreInitiator, force, now)) ==
            DueInfos(StoreOf(g), s.peerInfoVersions, SendsAll(s, force), RelevantPeers(g, t), now)
  {
  }

  lemma BuildDescribes(g: Group, v: View, t: PeerId, sid: SessionId, weAreInitiator: bool, force: bool, now: Millis)
    requires InfosKeyed(g) && Describes(SessionOf(g, t), v)
    ensures Describes(SessionOf(Built(g, t, sid, force, now), t),
                      Received(v, Update(g, t, sid, weAreInitiator, force, now)))
  {
    var s := SessionOf(g, t);
    BuiltSession(g, t, sid, force, now);
    ItemsOfUpdate(g, t, sid, weAreInitiator, force, now);
    RecordsDescribe(g, v.infos, SendsAll(s, force), t, now);
  }

  /** Events that the target has no part in leave its session alone. */
  lemma OthersLeaveSession(g: Group, e: Event, t: PeerId)
    requires e.RemovePeer? || e.Ack? || e.Build? || e.HandleSync? ==> e.peer != t
    ensures SessionOf(Apply(g, e), t) == SessionOf(g, t)
  {
  }

  lemma OwnEventDescribes(g: Group, v: View, e: Event)
    requires e.RemovePeer? || e.Ack? || e.Build? || e.HandleSync?
    requires Inv(g) && Describes(SessionOf(g, e.peer), v)
    ensures Describes(SessionOf(Apply(g, e), e.peer), Seen(v, g, e, e.peer))
  {
    hide Describes, PeerRemoved, Acked, Built, SyncHandled, Renewed, Received, Update;
    match e {
      case RemovePeer(p, now) => RemovalDescribes(g, p, now);
      case Ack(p, sid, weAreInitiator, now) => AckDescribes(g, v, p, sid, weAreInitiator, now);
      case Build(p, sid, weAreInitiator, force, now) => BuildDescribes(g, v, p, sid, weAreInitiator, force, now);
      case HandleSync(p, req, now) => SyncDescribes(g, v, p, req, now);
    }
  }

  lemma RemovalDescribes(g: Group, p: PeerId, now: Millis)
    ensures Describes(SessionOf(PeerRemoved(g, p, now), p), NOTHING)
  {
    assert VersionsOf(map[]) == map[];
  }

  lemma AckDescribes(g: Group, v: View, p: PeerId, sid: SessionId, weAreInitiator: bool, now: Millis)
    requires Describes(SessionOf(g, p), v)
    ensures Describes(SessionOf(Acked(g, p, sid, weAreInitiator, now), p), Renewed(v, sid))
  {
    RenewalDescribes(SessionOf(g, p), v, sid);
  }

  lemma SyncDescribes(g: Group, v: View, p: PeerId, req: SyncRequest, now: Millis)
    requires Describes(SessionOf(g, p), v)
    ensures Describes(SessionOf(SyncHandled(g, p, req, now), p), Renewed(v, req.mySessionId))
  {
    RenewalDescribes(SessionOf(g, p), v, req.mySessionId);
  }

  /** After every run each session records exactly what its remote holds. */
  lemma {:induction false} SessionsDescribeViews(routeId: nat, es: seq<Event>, t: PeerId)
    ensures Describes(SessionOf(Run(NewGroup(routeId), es), t), ViewOf(routeId, es, t))
  {
    if es == [] {
      assert VersionsOf(map[]) == map[];
    } else {
      var prefix := es[..|es| - 1];
      SessionsDescribeViews(routeId, prefix, t);
      RunKeepsInv(routeId, prefix);
      var g, v, e := Run(NewGroup(routeId), prefix), ViewOf(routeId, prefix, t), es[|es| - 1];
      if (e.RemovePeer? || e.Ack? || e.Build? || e.HandleSync?) && e.peer == t {
        OwnEventDescribes(g, v, e);
      } else {
        OthersLeaveSession(g, e, t);
      }
    }
  }

  // ---- main results ----

  lemma ViewAppend(routeId: nat, es: seq<Event>, e: Event, t: PeerId)
    ensures ViewOf(routeId, es + [e], t) == Seen(ViewOf(routeId, es, t), Run(NewGroup(routeId), es), e, t)
  {
    assert (es + [e])[..|es|] == es;
  }

  lemma SameSigSameBitmap(a: Option<ConnBitmap>, b: ConnBitmap)
    requires SigOf(a) == Some(Sig(b))
    ensures a == Some(b)
  {
    SigIsInjective(a.value, b);
  }

  /** After any build, whether it carried the graph or left it out, the target holds the current graph. */
  lemma BuildLeavesGraphCurrent(routeId: nat, es: seq<Event>, t: PeerId, sid: SessionId, weAreInitiator: bool,
                                force: bool, now: Millis)
    ensures var es' := es + [Build(t, sid, weAreInitiator, force, now)];
            ViewOf(routeId, es', t).bitmap == Some(BitmapFor(Run(NewGroup(routeId), es'), t))
  {
    var e := Build(t, sid, weAreInitiator, force, now);
    var g, v := Run(NewGroup(routeId), es), ViewOf(routeId, es, t);
    RunAppend(NewGroup(routeId), es, e);
    ViewAppend(routeId, es, e, t);
    SessionsDescribeViews(routeId, es, t);
    BuildKeepsReport(g, t, sid, force, now);
    assert BitmapFor(Apply(g, e), t) == BitmapFor(g, t);
    if Suppressed(SessionOf(g, t).lastSig, BitmapFor(g, t)) {
      SameSigSameBitmap(v.bitmap, BitmapFor(g, t));
    }
  }

  lemma InfosReceived(g: Group, v: View, t: PeerId, sid: SessionId, weAreInitiator: bool, force: bool, now: Millis)
    requires InfosKeyed(g) && Describes(SessionOf(g, t), v)
    ensures Received(v, Update(g, t, sid, weAreInitiator, force, now)).infos ==
            v.infos + DueMap(StoreOf(g), VersionsOf(v.infos), SendsAll(SessionOf(g, t), force), RelevantSet(g, t), now)
  {
    ItemsOfUpdate(g, t, sid, weAreInitiator, force, now);
    LearnedDue(StoreOf(g), v.infos, VersionsOf(v.infos), SendsAll(SessionOf(g, t), force), RelevantPeers(g, t), now);
    assert Elements(RelevantPeers(g, t)) == RelevantSet(g, t);
  }

  lemma DueOrAlreadyHeld(store: Store, held: map<PeerId, PeerInfo>, full: bool, ps: set<PeerId>, p: PeerId, now: Millis)
    requires p in ps
    ensures var infos := held + DueMap(store, VersionsOf(held), full, ps, now);
            && p in infos && SentVersion(infos[p]) >= SentVersion(InfoFor(store, p, now))
            && (full ==> infos[p] == InfoFor(store, p, now))
  {
  }

  /**
   * After any build the target holds an info for the relay, for itself and for every connected
   * peer, none older than the relay's; after a build that sends everything they are the relay's own.
   */
  lemma BuildLeavesInfosCurrent(routeId: nat, es: seq<Event>, t: PeerId, sid: SessionId, weAreInitiator: bool,
                                force: bool, now: Millis)
    ensures var g, es' := Run(NewGroup(routeId), es), es + [Build(t, sid, weAreInitiator, force, now)];
            var infos := ViewOf(routeId, es', t).infos;
            forall p | p in RelevantSet(g, t) ::
              && p in infos
              && SentVersion(infos[p]) >= SentVersion(InfoFor(StoreOf(g), p, now))
              && (SendsAll(SessionOf(g, t), force) ==> infos[p] == InfoFor(StoreOf(g), p, now))
  {
    hide Run, ViewOf, Describes, DueMap, VersionsOf, Received, Update, RelevantPeers, InfoFor, SentVersion;
    var g, v := Run(NewGroup(routeId), es), ViewOf(routeId, es, t);
    ViewAppend(routeId, es, Build(t, sid, weAreInitiator, force, now), t);
    SessionsDescribeViews(routeId, es, t);
    RunKeepsInv(routeId, es);
    InfosReceived(g, v, t, sid, weAreInitiator, force, now);
    forall p | p in RelevantSet(g, t) {
      DueOrAlreadyHeld(StoreOf(g), v.infos, SendsAll(SessionOf(g, t), force), RelevantSet(g, t), p, now);
    }
  }

  /** Whatever graph a target holds was the relay's graph for it at some earlier moment of the run. */
  lemma {:induction false} GraphsHeldWereTrue(routeId: nat, es: seq<Event>, t: PeerId) returns (i: nat)
    requires ViewOf(routeId, es, t).bitmap.Some?
    ensures i <= |es| && ViewOf(routeId, es, t).bitmap.value == BitmapFor(Run(NewGroup(routeId), es[..i]), t)
  {
    var prefix, e := es[..|es| - 1], es[|es| - 1];
    assert es == prefix + [e];
    if e.Build? && e.peer == t {
      BuildLeavesGraphCurrent(routeId, prefix, t, e.sid, e.weAreInitiator, e.force, e.now);
      i := |es|;
      assert es[..i] == es;
    } else {
      i := GraphsHeldWereTrue(routeId, prefix, t);
      assert prefix[..i] == es[..i];
    }
  }

  /**
   * A connected target can tell from one number whether the graph it holds is still the relay's:
   * it is exactly when the version it shows for the relay is the relay's current one.
   */
  lemma ServerVersionTellsCurrency(routeId: nat, es: seq<Event>, t: PeerId)
    requires forall e | e in es :: SparesServerId(e)
    requires t in Run(NewGroup(routeId), es).peers && ViewOf(routeId, es, t).bitmap.Some?
    ensures var g, b := Run(NewGroup(routeId), es), ViewOf(routeId, es, t).bitmap.value;
            b == BitmapFor(g, t) <==> ShowsVersion(b, MY_PEER_ID, ServerVersion(g))
  {
    var g := Run(NewGroup(routeId), es);
    var i := GraphsHeldWereTrue(routeId, es, t);
    var h := Run(NewGroup(routeId), es[..i]);
    BitmapShowsVersion(g, t, MY_PEER_ID, ServerVersion(g));
    BitmapShowsVersion(h, t, MY_PEER_ID, ServerVersion(g));
    VersionIsFingerprint(routeId, es, i);
    if ServerVersion(h) == ServerVersion(g) {
      SameReportSameBitmap(h, g, t);
    }
  }
}
