/**
 * The relay's own connection version is a fingerprint of the reported graph: it never
 * falls, and between two states that share it nothing a connected peer is told has changed.
 */
module Fingerprint {
  import opened Wire
  import opened BitMatrix
  import opened RouteModel
  import opened Invariants

  function ServerVersion(g: Group): Version {
    VersionIn(g.connVersions, MY_PEER_ID)
  }

  /** Nothing that the bitmap of a connected peer shows differs between the two groups. */
  ghost predicate SameReport(g: Group, h: Group) {
    && g.peers == h.peers
    && (forall p | p in g.peers || p == MY_PEER_ID :: VersionIn(g.connVersions, p) == VersionIn(h.connVersions, p))
    && (forall a, b | a in g.peers && b in g.peers :: Linked(g.connections, a, b) == Linked(h.connections, a, b))
  }

  /** The one step the fingerprint does not survive: a client that used the relay's own id leaves. */
  predicate SparesServerId(e: Event) {
    e.RemovePeer? ==> e.peer != MY_PEER_ID
  }

  lemma SameEncoding(ids: seq<PeerId>, conns: map<PeerId, set<PeerId>>, conns': map<PeerId, set<PeerId>>)
    requires forall a, b | a in ids && b in ids :: Linked(conns, a, b) == Linked(conns', a, b)
    ensures MatrixBytes(ids, conns) == MatrixBytes(ids, conns')
  {
    var bytes := MatrixBytes(ids, conns);
    MatrixBytesEncode(bytes, ids, conns);
    forall r: nat, c: nat | r < |ids| && c < |ids|
      ensures CellAt(bytes, |ids|, r, c) <==> Adjacent(ids, conns', ids[r], ids[c])
    {
      assert ids[r] in ids && ids[c] in ids;
    }
    MatrixBytesEncode(bytes, ids, conns');
  }

  lemma SameReportSameBitmap(g: Group, h: Group, t: PeerId)
    requires SameReport(g, h) && t in g.peers
    ensures BitmapFor(g, t) == BitmapFor(h, t)
  {
    var ids := RelevantPeers(g, t);
    assert RelevantSet(g, t) == RelevantSet(h, t);
    assert forall p | p in ids :: p in g.peers || p == MY_PEER_ID;
    SameEncoding(ids, g.connections, h.connections);
    forall i | 0 <= i < |ids| ensures VersionIn(g.connVersions, ids[i]) == VersionIn(h.connVersions, ids[i]) {
      assert ids[i] in ids;
    }
    assert VersionedIds(ids, g.connVersions) == VersionedIds(ids, h.connVersions);
  }

  lemma BumpRaisesAll(g: Group)
    ensures ServerVersion(Bumped(g)) > ServerVersion(g)
    ensures forall p | p in g.peers :: VersionIn(Bumped(g).connVersions, p) > VersionIn(g.connVersions, p)
    ensures forall p :: VersionIn(Bumped(g).connVersions, p) >= VersionIn(g.connVersions, p)
  {
  }

  lemma BuildKeepsReport(g: Group, p: PeerId, sid: SessionId, force: bool, now: Millis)
    ensures SameReport(g, Built(g, p, sid, force, now))
  {
  }

  lemma CleanupKeepsReport(g: Group, threshold: Millis, now: Millis)
    requires Inv(g)
    ensures SameReport(g, CleanedUp(g, threshold, now))
  {
  }

  lemma AddingKeepsOrBumps(g: Group, p: PeerId)
    ensures var g' := PeerAdded(g, p);
            ServerVersion(g') > ServerVersion(g) || SameReport(g, g')
  {
    BumpRaisesAll(g.(peers := g.peers + {p}, removedAt := g.removedAt - {p}));
  }

  lemma OthersKeepReport(g: Group, g': Group)
    requires g'.peers == g.peers && g'.connVersions == g.connVersions && g'.connections == g.connections
    ensures SameReport(g, g')
  {
  }

  lemma RemovalKeepsOrBumps(g: Group, p: PeerId, now: Millis)
    requires p != MY_PEER_ID
    ensures var g' := PeerRemoved(g, p, now);
            ServerVersion(g') > ServerVersion(g) || SameReport(g, g')
  {
    if p in g.peers {
      BumpRaisesAll(g.(peers := g.peers - {p}, peerInfos := g.peerInfos - {p}, sessions := g.sessions - {p},
                       connVersions := g.connVersions - {p}, removedAt := g.removedAt[p := now]));
    }
  }

  lemma InfoKeepsOrBumps(g: Group, info: PeerInfo)
    ensures var g' := InfoUpdated(g, info.peerId, info);
            ServerVersion(g') > ServerVersion(g) || SameReport(g, g')
  {
    BumpRaisesAll(g.(peerInfos := g.peerInfos[info.peerId := info]));
  }

  lemma ConnsKeepOrBump(g: Group, p: PeerId, info: ConnInfo)
    ensures var g' := ConnsUpdated(g, p, info);
            ServerVersion(g') > ServerVersion(g) || SameReport(g, g')
  {
    BumpRaisesAll(g.(connections := ConnectionsUpdated(g, p, info)));
  }

  lemma SyncKeepsOrBumps(g: Group, p: PeerId, req: SyncRequest, now: Millis)
    ensures var g' := SyncHandled(g, p, req, now);
            ServerVersion(g') > ServerVersion(g) || SameReport(g, g')
  {
    BumpRaisesAll(g.(sessions := g.sessions[p := SessionAfterSync(SessionOf(g, p), req, now)],
                     peerInfos := Overwritten(g, p, ItemsOf(req), now)));
  }

  /** A step either raises the relay's version or leaves the whole report as it was. */
  lemma StepRaisesOrKeeps(g: Group, e: Event)
    requires Inv(g) && SparesServerId(e)
    ensures ServerVersion(Apply(g, e)) > ServerVersion(g) || SameReport(g, Apply(g, e))
  {
    hide SameReport, ServerVersion, Inv, PeerAdded, PeerRemoved, InfoUpdated, ConnsUpdated, Built, SyncHandled,
      CleanedUp;
    match e {
      case AddPeer(p) => AddingKeepsOrBumps(g, p);
      case RemovePeer(p, now) => RemovalKeepsOrBumps(g, p, now);
      case UpdateInfo(info) => InfoKeepsOrBumps(g, info);
      case BumpMyInfo => OthersKeepReport(g, MyInfoBumped(g));
      case Ack(p, sid, weAreInitiator, now) => OthersKeepReport(g, Acked(g, p, sid, weAreInitiator, now));
      case UpdateConns(p, info) => ConnsKeepOrBump(g, p, info);
      case Build(p, sid, weAreInitiator, force, now) => BuildKeepsReport(g, p, sid, force, now);
      case HandleSync(p, req, now) => SyncKeepsOrBumps(g, p, req, now);
      case Cleanup(threshold, now) => CleanupKeepsReport(g, threshold, now);
    }
  }

  lemma ServerIdRemoval(g: Group, now: Millis)
    ensures var g' := PeerRemoved(g, MY_PEER_ID, now);
            ServerVersion(g') > ServerVersion(g) || SameReport(g, g') <==> ServerVersion(g) <= 1
  {
    var g' := PeerRemoved(g, MY_PEER_ID, now);
    assert ServerVersion(g') == if MY_PEER_ID in g.peers then 2 else 1;
    assert MY_PEER_ID in g.peers ==> g'.peers != g.peers;
  }

  /** Exactly the removal of the relay's own id, once anything was counted, breaks this. */
  lemma StepRaisesOrKeepsExactly(g: Group, e: Event)
    requires Inv(g)
    ensures ServerVersion(Apply(g, e)) > ServerVersion(g) || SameReport(g, Apply(g, e)) <==>
            SparesServerId(e) || ServerVersion(g) <= 1
  {
    if SparesServerId(e) {
      StepRaisesOrKeeps(g, e);
    } else {
      ServerIdRemoval(g, e.now);
    }
  }

  lemma SameReportIsTransitive(f: Group, g: Group, h: Group)
    requires SameReport(f, g) && SameReport(g, h)
    ensures SameReport(f, h)
  {
  }

  /** Between two moments of a run the relay's version never falls, and when it is the same so is the report. */
  lemma {:induction false} VersionIsFingerprint(routeId: nat, es: seq<Event>, i: nat)
    requires i <= |es| && forall e | e in es :: SparesServerId(e)
    ensures var g, h := Run(NewGroup(routeId), es[..i]), Run(NewGroup(routeId), es);
            && ServerVersion(g) <= ServerVersion(h)
            && (ServerVersion(g) == ServerVersion(h) ==> SameReport(g, h))
    decreases |es|
  {
    if i == |es| {
      assert es[..i] == es;
    } else {
      var prefix, e := es[..|es| - 1], es[|es| - 1];
      VersionIsFingerprint(routeId, prefix, i);
      assert prefix[..i] == es[..i];
      var g, h := Run(NewGroup(routeId), es[..i]), Run(NewGroup(routeId), prefix);
      RunKeepsInv(routeId, prefix);
      StepRaisesOrKeeps(h, e);
      if SameReport(g, h) && SameReport(h, Apply(h, e)) {
        SameReportIsTransitive(g, h, Apply(h, e));
      }
    }
  }

  /** Equal relay versions at any two moments of a run mean equal bitmaps for every peer connected then. */
  lemma EqualVersionsEqualBitmaps(routeId: nat, es: seq<Event>, i: nat, j: nat, t: PeerId)
    requires i <= j <= |es| && forall e | e in es :: SparesServerId(e)
    requires var g, h := Run(NewGroup(routeId), es[..i]), Run(NewGroup(routeId), es[..j]);
             ServerVersion(g) == ServerVersion(h) && (t in g.peers || t in h.peers)
    ensures BitmapFor(Run(NewGroup(routeId), es[..i]), t) == BitmapFor(Run(NewGroup(routeId), es[..j]), t)
  {
    assert es[..j][..i] == es[..i];
    VersionIsFingerprint(routeId, es[..j], i);
    SameReportSameBitmap(Run(NewGroup(routeId), es[..i]), Run(NewGroup(routeId), es[..j]), t);
  }

  /** A bitmap names the peers it is about. */
  lemma BitmapShowsPeers(g: Group, h: Group, t: PeerId)
    ensures BitmapFor(g, t) == BitmapFor(h, t) ==> RelevantSet(g, t) == RelevantSet(h, t)
  {
    hide BitmapFor;
    if BitmapFor(g, t) == BitmapFor(h, t) {
      forall p ensures p in RelevantSet(g, t) <==> p in RelevantSet(h, t) {
        BitmapShowsVersion(g, t, p, VersionIn(g.connVersions, p));
        BitmapShowsVersion(h, t, p, VersionIn(g.connVersions, p));
        BitmapShowsVersion(g, t, p, VersionIn(h.connVersions, p));
        BitmapShowsVersion(h, t, p, VersionIn(h.connVersions, p));
      }
    }
  }

  /**
   * A client that joins under the relay's own id and leaves again: the version is back where it was, the
   * listed peers are the same, and the graph reported to a is not.
   */
  lemma ServerIdBreaksFingerprint(a: PeerId, now: Millis)
    requires a != MY_PEER_ID
    ensures var es := [AddPeer(a), AddPeer(MY_PEER_ID), RemovePeer(MY_PEER_ID, now)];
            var g, h := Run(NewGroup(0), es[..1]), Run(NewGroup(0), es);
            ServerVersion(g) == ServerVersion(h) && a in g.peers && g.peers == h.peers &&
              BitmapFor(g, a) != BitmapFor(h, a)
  {
    var es := [AddPeer(a), AddPeer(MY_PEER_ID), RemovePeer(MY_PEER_ID, now)];
    hide PeerAdded, PeerRemoved, BitmapFor, ServerVersion;
    assert es[..1] == [] + [es[0]] && es[..2] == es[..1] + [es[1]] && es == es[..2] + [es[2]];
    RunAppend(NewGroup(0), [], es[0]);
    RunAppend(NewGroup(0), es[..1], es[1]);
    RunAppend(NewGroup(0), es[..2], es[2]);
    ServerIdComesAndGoes(a, now);
  }

  lemma ServerIdComesAndGoes(a: PeerId, now: Millis)
    requires a != MY_PEER_ID
    ensures var g := PeerAdded(NewGroup(0), a);
            var h := PeerRemoved(PeerAdded(g, MY_PEER_ID), MY_PEER_ID, now);
            ServerVersion(g) == ServerVersion(h) && a in g.peers && g.peers == h.peers &&
              BitmapFor(g, a) != BitmapFor(h, a)
  {
    var g := PeerAdded(NewGroup(0), a);
    var h := PeerRemoved(PeerAdded(g, MY_PEER_ID), MY_PEER_ID, now);
    VersionsMeanwhile(a, now);
    BitmapShowsVersion(g, a, a, 2);
    BitmapShowsVersion(h, a, a, 2);
  }

  lemma VersionsMeanwhile(a: PeerId, now: Millis)
    requires a != MY_PEER_ID
    ensures var g := PeerAdded(NewGroup(0), a);
            var h := PeerRemoved(PeerAdded(g, MY_PEER_ID), MY_PEER_ID, now);
            && g.peers == h.peers == {a} && ServerVersion(g) == ServerVersion(h) == 2
            && VersionIn(g.connVersions, a) == 2 && VersionIn(h.connVersions, a) == 4
  {
    var g := PeerAdded(NewGroup(0), a);
    var joined := PeerAdded(g, MY_PEER_ID);
    assert joined.peers == {a, MY_PEER_ID} && VersionIn(joined.connVersions, a) == 3;
  }
}
