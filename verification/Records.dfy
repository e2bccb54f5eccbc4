/** What a group has on record, each time the same as reading the log of its events from the end. */
module Records {
  import opened Collections
  import opened Wire
  import opened RouteModel
  import opened Fingerprint
  import opened Coherence
  import opened GraphTheorems

  // ---- who is listed, and who was removed when ----

  function IsListedBy(es: seq<Event>, p: PeerId): bool {
    if es == [] then false
    else
      match es[|es| - 1]
      case AddPeer(q) => q == p || IsListedBy(es[..|es| - 1], p)
      case RemovePeer(q, _) => q != p && IsListedBy(es[..|es| - 1], p)
      case _ => IsListedBy(es[..|es| - 1], p)
  }

  function RemovalAfter(before: Option<Millis>, e: Event, p: PeerId): Option<Millis> {
    match e
    case AddPeer(q) => if q == p then None else before
    case RemovePeer(q, now) => if q == p then Some(now) else before
    case Cleanup(threshold, now) => if before.Some? && now - before.value > threshold then None else before
    case _ => before
  }

  /** When the peer was last removed, if it has not come back and no cleanup found that too long ago. */
  function RemovedBy(es: seq<Event>, p: PeerId): Option<Millis> {
    if es == [] then None else RemovalAfter(RemovedBy(es[..|es| - 1], p), es[|es| - 1], p)
  }

  function FoundIn<V>(m: map<PeerId, V>, p: PeerId): Option<V> {
    if p in m then Some(m[p]) else None
  }

  lemma EventLists(g: Group, e: Event, p: PeerId)
    ensures p in Apply(g, e).peers <==>
            match e case AddPeer(q) => q == p || p in g.peers
                    case RemovePeer(q, _) => q != p && p in g.peers
                    case _ => p in g.peers
  {
    hide Built, Raised, ConnectionsUpdated, ConnsChange, Overwritten, BringsUnknown, SessionAfterSync, IsNews;
    if e.Build? {
      BuiltRest(g, e.peer, e.sid, e.force, e.now);
    }
  }

  lemma EventRemoves(g: Group, e: Event, p: PeerId)
    ensures FoundIn(Apply(g, e).removedAt, p) == RemovalAfter(FoundIn(g.removedAt, p), e, p)
  {
    hide Built, Raised, ConnectionsUpdated, ConnsChange, Overwritten, BringsUnknown, SessionAfterSync, IsNews, Without;
    if e.Build? {
      BuiltRest(g, e.peer, e.sid, e.force, e.now);
    }
  }

  /** Over every run the list and the removal times are those of the log. */
  lemma {:induction false} ListFollowsLog(routeId: nat, es: seq<Event>, p: PeerId)
    ensures var g := Run(NewGroup(routeId), es);
            (p in g.peers <==> IsListedBy(es, p)) && FoundIn(g.removedAt, p) == RemovedBy(es, p)
  {
    hide Apply, RemovalAfter;
    if es != [] {
      ListFollowsLog(routeId, es[..|es| - 1], p);
      EventLists(Run(NewGroup(routeId), es[..|es| - 1]), es[|es| - 1], p);
      EventRemoves(Run(NewGroup(routeId), es[..|es| - 1]), es[|es| - 1], p);
    }
  }

  // ---- last contact, and the role in it ----

  /** The last time the peer's session was touched, and whether the relay was the initiator then. */
  datatype Contact = Contact(time: Millis, role: bool)

  function ContactAfter(c: Option<Contact>, e: Event, p: PeerId): Option<Contact> {
    var role := c.Some? && c.value.role;
    match e
    case RemovePeer(q, _) => if q == p then None else c
    case Ack(q, _, weAreInitiator, now) => if q == p then Some(Contact(now, weAreInitiator)) else c
    case Build(q, _, _, _, now) => if q == p then Some(Contact(now, role)) else c
    case HandleSync(q, req, now) => if q == p then Some(Contact(now, if req.isInitiator then false else role)) else c
    case _ => c
  }

  function ContactBy(es: seq<Event>, p: PeerId): Option<Contact> {
    if es == [] then None else ContactAfter(ContactBy(es[..|es| - 1], p), es[|es| - 1], p)
  }

  function ContactIn(g: Group, p: PeerId): Option<Contact> {
    if p in g.sessions then Some(Contact(g.sessions[p].lastTouch, g.sessions[p].weAreInitiator)) else None
  }

  lemma BuildContacts(g: Group, t: PeerId, sid: SessionId, force: bool, now: Millis, p: PeerId)
    ensures ContactIn(Built(g, t, sid, force, now), p) ==
            if t == p then Some(Contact(now, ContactIn(g, p).Some? && ContactIn(g, p).value.role)) else ContactIn(g, p)
  {
    hide Built, BitmapFor, RelevantPeers, RecordedVersions;
    BuiltSessions(g, t, sid, force, now);
  }

  lemma EventContacts(g: Group, e: Event, p: PeerId)
    ensures ContactIn(Apply(g, e), p) == ContactAfter(ContactIn(g, p), e, p)
  {
    hide Built, Raised, ConnectionsUpdated, ConnsChange, Overwritten, BringsUnknown, StalePeers, Without, IsNews;
    if e.Build? {
      BuildContacts(g, e.peer, e.sid, e.force, e.now, p);
    }
  }

  /** Over every run a session's time and role are those of the last contact. */
  lemma {:induction false} ContactFollowsLog(routeId: nat, es: seq<Event>, p: PeerId)
    ensures ContactIn(Run(NewGroup(routeId), es), p) == ContactBy(es, p)
  {
    hide Apply, ContactAfter;
    if es != [] {
      ContactFollowsLog(routeId, es[..|es| - 1], p);
      EventContacts(Run(NewGroup(routeId), es[..|es| - 1]), es[|es| - 1], p);
    }
  }

  // ---- versions count changes ----

  /** The relay's version has not moved, or risen by one; the peer's has risen with it if it is listed or described. */
  ghost predicate CountsOn(g: Group, g': Group, p: PeerId) {
    && ServerVersion(g) <= ServerVersion(g') <= ServerVersion(g) + 1
    && VersionIn(g'.connVersions, p) ==
       VersionIn(g.connVersions, p) +
       (if ServerVersion(g') > ServerVersion(g) && (p in g'.peers || p in g'.peerInfos) then 1 else 0)
  }

  lemma BumpIfCounts(g: Group, x: Group, condition: bool, p: PeerId)
    requires ServerVersion(x) == ServerVersion(g) && VersionIn(x.connVersions, p) == VersionIn(g.connVersions, p)
    requires MY_PEER_ID !in x.peers + x.peerInfos.Keys && p != MY_PEER_ID
    ensures CountsOn(g, BumpedIf(x, condition), p)
  {
  }

  /** A bump touches the versions only. */
  lemma BumpIfKeepsRest(g: Group, condition: bool)
    ensures BumpedIf(g, condition) == g.(connVersions := BumpedIf(g, condition).connVersions)
  {
  }

  lemma RemovalCounts(g: Group, q: PeerId, now: Millis, p: PeerId)
    requires MY_PEER_ID !in PeerRemoved(g, q, now).peers + PeerRemoved(g, q, now).peerInfos.Keys
    requires q !in {p, MY_PEER_ID} && p != MY_PEER_ID
    ensures CountsOn(g, PeerRemoved(g, q, now), p)
  {
    var x := g.(peers := g.peers - {q}, peerInfos := g.peerInfos - {q}, sessions := g.sessions - {q},
                connVersions := g.connVersions - {q}, removedAt := g.removedAt[q := now]);
    BumpIfKeepsRest(x, q in g.peers);
    BumpIfCounts(g, x, q in g.peers, p);
  }

  /** Every change counts one, for the relay and for every peer while it is listed or described. */
  lemma VersionsCountChanges(g: Group, e: Event, p: PeerId)
    requires MY_PEER_ID !in Apply(g, e).peers + Apply(g, e).peerInfos.Keys && p != MY_PEER_ID
    requires e.RemovePeer? ==> e.peer !in {p, MY_PEER_ID}
    ensures CountsOn(g, Apply(g, e), p)
  {
    hide Built, BumpedIf, PeerRemoved, CountsOn, VersionIn, ServerVersion;
    match e {
      case AddPeer(q) =>
        var x := g.(peers := g.peers + {q}, removedAt := g.removedAt - {q});
        BumpIfKeepsRest(x, q !in g.peers);
        SameVersionsCount(g, x, q !in g.peers, p);
      case RemovePeer(q, now) => RemovalCounts(g, q, now, p);
      case UpdateInfo(info) =>
        var x := g.(peerInfos := g.peerInfos[info.peerId := info]);
        BumpIfKeepsRest(x, info.peerId !in g.peerInfos);
        if IsNews(g.peerInfos, info.peerId, info) {
          SameVersionsCount(g, x, info.peerId !in g.peerInfos, p);
        } else {
          NothingCounts(g, g, p);
        }
      case UpdateConns(q, info) =>
        var x := g.(connections := ConnectionsUpdated(g, q, info));
        BumpIfKeepsRest(x, ConnsChange(g, q, info));
        SameVersionsCount(g, x, ConnsChange(g, q, info), p);
      case Build(t, sid, weAreInitiator, force, now) =>
        BuiltRest(g, t, sid, force, now);
        NothingCounts(g, Built(g, t, sid, force, now), p);
      case HandleSync(q, req, now) =>
        var x := g.(sessions := g.sessions[q := SessionAfterSync(SessionOf(g, q), req, now)],
                    peerInfos := Overwritten(g, q, ItemsOf(req), now));
        BumpIfKeepsRest(x, BringsUnknown(g, q, ItemsOf(req)));
        SameVersionsCount(g, x, BringsUnknown(g, q, ItemsOf(req)), p);
      case _ => NothingCounts(g, Apply(g, e), p);
    }
  }

  lemma SameVersionsCount(g: Group, x: Group, condition: bool, p: PeerId)
    requires x.connVersions == g.connVersions && MY_PEER_ID !in x.peers + x.peerInfos.Keys && p != MY_PEER_ID
    ensures CountsOn(g, BumpedIf(x, condition), p)
  {
    BumpIfCounts(g, x, condition, p);
  }

  lemma NothingCounts(g: Group, g': Group, p: PeerId)
    requires g'.connVersions == g.connVersions
    ensures CountsOn(g, g', p)
  {
  }

  /** What a group counts as a change. */
  ghost predicate IsChange(g: Group, e: Event) {
    match e
    case AddPeer(p) => p !in g.peers
    case RemovePeer(p, _) => p in g.peers
    case UpdateInfo(info) => info.peerId !in g.peerInfos
    case UpdateConns(p, info) =>
      !SameEdges(g.connections, Apply(g, e).connections) || DropsEmptyEntry(g, p, info)
    case HandleSync(p, req, _) =>
      exists item | item in ItemsOf(req) :: (item.peerId in g.peers || item.peerId == p) && item.peerId !in g.peerInfos
    case _ => false
  }

  lemma BumpRaises(g: Group, condition: bool)
    ensures ServerVersion(BumpedIf(g, condition)) > ServerVersion(g) <==> condition
    ensures ServerVersion(BumpedIf(g, condition)) >= ServerVersion(g)
  {
  }

  /**
   * The version rises exactly with a change: a peer newly listed, taken off, or described, or an edge
   * reported anew.
   */
  lemma VersionRisesExactly(g: Group, e: Event)
    requires e.RemovePeer? ==> e.peer != MY_PEER_ID
    ensures ServerVersion(Apply(g, e)) > ServerVersion(g) <==> IsChange(g, e)
  {
    hide BumpedIf, ServerVersion, Built, ConnectionsUpdated, DropsEmptyEntry, SameEdges, Overwritten;
    match e {
      case AddPeer(p) =>
        RaiseFrom(g, g.(peers := g.peers + {p}, removedAt := g.removedAt - {p}), p !in g.peers);
      case RemovePeer(p, now) => RemovalRaises(g, p, now);
      case UpdateInfo(info) =>
        RaiseFrom(g, g.(peerInfos := g.peerInfos[info.peerId := info]), info.peerId !in g.peerInfos);
      case UpdateConns(p, info) =>
        ReportRaises(g, p, info);
      case Build(t, sid, weAreInitiator, force, now) =>
        BuiltRest(g, t, sid, force, now);
        SameVersion(g, Built(g, t, sid, force, now));
      case HandleSync(p, req, now) =>
        var x := g.(sessions := g.sessions[p := SessionAfterSync(SessionOf(g, p), req, now)],
                    peerInfos := Overwritten(g, p, ItemsOf(req), now));
        RaiseFrom(g, x, BringsUnknown(g, p, ItemsOf(req)));
      case _ => SameVersion(g, Apply(g, e));
    }
  }

  lemma SameVersion(g: Group, g': Group)
    requires g'.connVersions == g.connVersions
    ensures ServerVersion(g') == ServerVersion(g)
  {
  }

  lemma RaiseFrom(g: Group, x: Group, condition: bool)
    requires x.connVersions == g.connVersions
    ensures ServerVersion(BumpedIf(x, condition)) > ServerVersion(g) <==> condition
  {
    BumpRaises(x, condition);
  }

  lemma ReportRaises(g: Group, p: PeerId, info: ConnInfo)
    ensures ServerVersion(ConnsUpdated(g, p, info)) > ServerVersion(g) <==>
            !SameEdges(g.connections, ConnsUpdated(g, p, info).connections) || DropsEmptyEntry(g, p, info)
  {
    hide BumpedIf, ServerVersion, ConnectionsUpdated, DropsEmptyEntry, SameEdges, ConnsChange;
    var x := g.(connections := ConnectionsUpdated(g, p, info));
    RaiseFrom(g, x, ConnsChange(g, p, info));
    BumpIfKeepsRest(x, ConnsChange(g, p, info));
    ReportChangesExactly(g, p, info);
  }

  lemma RemovalRaises(g: Group, p: PeerId, now: Millis)
    requires p != MY_PEER_ID
    ensures ServerVersion(PeerRemoved(g, p, now)) > ServerVersion(g) <==> p in g.peers
  {
    hide BumpedIf;
    var x := g.(peers := g.peers - {p}, peerInfos := g.peerInfos - {p}, sessions := g.sessions - {p},
                connVersions := g.connVersions - {p}, removedAt := g.removedAt[p := now]);
    BumpRaises(x, p in g.peers);
  }

  /** A fresh group starts its count at 1. */
  lemma CountsStartAtOne(routeId: nat, p: PeerId)
    ensures VersionIn(NewGroup(routeId).connVersions, p) == 1
  {
  }

  // ---- the version kept of the first graph ----

  /** The first graph built for the peer in its session. */
  ghost function FirstGraphBy(routeId: nat, es: seq<Event>, t: PeerId): Option<ConnBitmap> {
    if es == [] then None
    else
      var prefix := es[..|es| - 1];
      var before, g := FirstGraphBy(routeId, prefix, t), Run(NewGroup(routeId), prefix);
      match es[|es| - 1]
      case RemovePeer(p, _) => if p == t then None else before
      case Ack(p, sid, _, _) => if p == t && ViewOf(routeId, prefix, t).sid != Some(sid) then None else before
      case HandleSync(p, req, _) =>
        if p == t && ViewOf(routeId, prefix, t).sid != Some(req.mySessionId) then None else before
      case Build(p, sid, weAreInitiator, force, now) =>
        var u := Update(g, t, sid, weAreInitiator, force, now);
        if p == t && before == None && u.connInfo.Bitmap? then Some(u.connInfo.bitmap) else before
      case _ => before
  }

  /** The greatest version a graph shows. */
  ghost predicate IsGreatestShown(b: ConnBitmap, v: Version) {
    (exists e | e in b.peerIds :: e.version == v) && forall e | e in b.peerIds :: e.version <= v
  }

  lemma {:induction false} GreatestIsShown(ids: seq<PeerIdVersion>)
    requires ids != []
    ensures exists e | e in ids :: e.version == MaxVersion(ids)
    ensures forall e | e in ids :: e.version <= MaxVersion(ids)
  {
    if |ids| > 1 {
      var before, last := ids[..|ids| - 1], ids[|ids| - 1];
      assert ids == before + [last];
      GreatestIsShown(before);
      var e :| e in before && e.version == MaxVersion(before);
      assert e in ids && last in ids;
    } else {
      assert ids == [ids[0]] && ids[0] in ids && ids[0].version == MaxVersion(ids);
    }
  }

  ghost predicate VersionsArePositive(g: Group) {
    forall p | p in g.connVersions :: g.connVersions[p] >= 1
  }

  lemma EventKeepsPositive(g: Group, e: Event)
    requires VersionsArePositive(g)
    ensures VersionsArePositive(Apply(g, e))
  {
    hide Built, ConnectionsUpdated, ConnsChange, Overwritten, BringsUnknown, StalePeers, Without, SessionAfterSync,
      IsNews;
    if e.Build? {
      BuiltRest(g, e.peer, e.sid, e.force, e.now);
    }
  }

  lemma {:induction false} RunKeepsPositive(routeId: nat, es: seq<Event>)
    ensures VersionsArePositive(Run(NewGroup(routeId), es))
  {
    hide Apply;
    if es != [] {
      RunKeepsPositive(routeId, es[..|es| - 1]);
      EventKeepsPositive(Run(NewGroup(routeId), es[..|es| - 1]), es[|es| - 1]);
    }
  }

  lemma GraphsShowPositive(g: Group, t: PeerId)
    requires VersionsArePositive(g)
    ensures IsGreatestShown(BitmapFor(g, t), MaxVersion(BitmapFor(g, t).peerIds)) &&
            MaxVersion(BitmapFor(g, t).peerIds) >= 1
  {
    var b := BitmapFor(g, t);
    BitmapShowsVersion(g, t, MY_PEER_ID, ServerVersion(g));
    GreatestIsShown(b.peerIds);
  }

  /** A session keeps the greatest version of the first graph built in it, under its peer's id. */
  ghost predicate KeepsFirst(versions: map<PeerId, Version>, t: PeerId, first: Option<ConnBitmap>) {
    match first
    case None => versions == map[]
    case Some(b) =>
      t in versions && versions == map[t := versions[t]] && IsGreatestShown(b, versions[t]) && versions[t] >= 1
  }

  lemma BuildKeepsFirst(g: Group, t: PeerId, sid: SessionId, weAreInitiator: bool, force: bool, now: Millis,
                        first: Option<ConnBitmap>)
    requires VersionsArePositive(g) && KeepsFirst(SessionOf(g, t).connBitmapVersions, t, first)
    ensures var u := Update(g, t, sid, weAreInitiator, force, now);
            KeepsFirst(SessionOf(Built(g, t, sid, force, now), t).connBitmapVersions, t,
                       if first == None && u.connInfo.Bitmap? then Some(u.connInfo.bitmap) else first)
  {
    hide BitmapFor, RelevantPeers, Built, RecordedVersions, IsGreatestShown, DueInfos;
    BuiltSessions(g, t, sid, force, now);
    GraphsShowPositive(g, t);
  }

  lemma {:induction false} FirstGraphFollowsLog(routeId: nat, es: seq<Event>, t: PeerId)
    ensures KeepsFirst(SessionOf(Run(NewGroup(routeId), es), t).connBitmapVersions, t, FirstGraphBy(routeId, es, t))
  {
    hide Apply, KeepsFirst, Update, ViewOf, Built;
    if es == [] {
      NothingFirst(t);
    } else {
      var prefix, e := es[..|es| - 1], es[|es| - 1];
      var g := Run(NewGroup(routeId), prefix);
      FirstGraphFollowsLog(routeId, prefix, t);
      RunKeepsPositive(routeId, prefix);
      SessionsDescribeViews(routeId, prefix, t);
      if e.Build? && e.peer == t {
        BuildKeepsFirst(g, t, e.sid, e.weAreInitiator, e.force, e.now, FirstGraphBy(routeId, prefix, t));
        ApplyBuild(g, t, e.sid, e.weAreInitiator, e.force, e.now);
      } else {
        OthersKeepFirst(g, e, t);
        NothingFirst(t);
      }
    }
  }

  lemma NothingFirst(t: PeerId)
    ensures KeepsFirst(map[], t, None)
  {
  }

  /** Whatever else happens, the versions are kept or, with a new session, emptied. */
  lemma OthersKeepFirst(g: Group, e: Event, t: PeerId)
    requires e.Build? ==> e.peer != t
    ensures var s, s' := SessionOf(g, t), SessionOf(Apply(g, e), t);
            s'.connBitmapVersions ==
            match e case RemovePeer(p, _) => if p == t then map[] else s.connBitmapVersions
                    case Ack(p, sid, _, _) => if p == t && s.dstSessionId != Some(sid) then map[]
                      else s.connBitmapVersions
                    case HandleSync(p, req, _) =>
                      if p == t && s.dstSessionId != Some(req.mySessionId) then map[] else s.connBitmapVersions
                    case _ => s.connBitmapVersions
  {
    hide Built, Raised, ConnectionsUpdated, ConnsChange, Overwritten, BringsUnknown, StalePeers, Without, IsNews,
      PeerRemoved, SyncHandled;
    match e {
      case Build(p, sid, _, force, now) => BuiltSessions(g, p, sid, force, now);
      case RemovePeer(p, now) => RemovalDropsSession(g, p, now);
      case HandleSync(p, req, now) => SyncWritesSession(g, p, req, now);
      case _ =>
    }
  }

  lemma RemovalDropsSession(g: Group, p: PeerId, now: Millis)
    ensures PeerRemoved(g, p, now).sessions == g.sessions - {p}
  {
  }

  lemma SyncWritesSession(g: Group, p: PeerId, req: SyncRequest, now: Millis)
    ensures SyncHandled(g, p, req, now).sessions ==
            g.sessions[p := SessionAfterSync(SessionOf(g, p), req, now)]
  {
  }
}
