/**
 * One peer group, updated in place. Every method is tied to a function of RouteModel
 * by the value State() that the fields hold before and after it.
 */
module RouteGroup {
  import opened Collections
  import opened Wire
  import opened BitMatrix
  import opened Signature
  import opened RouteModel

  ghost predicate Distinct(ids: seq<PeerId>) {
    forall i, j :: 0 <= i < j < |ids| ==> ids[i] != ids[j]
  }

  ghost predicate ReportedBy(sources: set<PeerId>, conns: map<PeerId, set<PeerId>>, a: PeerId, b: PeerId) {
    a in sources && Reports(conns, a, b)
  }

  /** Sets the cells of both directions of the edges that one peer reports. */
  method SetReportedEdges(bitmap: array<bv8>, ids: seq<PeerId>, idxByPeer: map<PeerId, nat>, server: nat,
                          src: PeerId, dsts: set<PeerId>)
    requires Distinct(ids) && bitmap.Length == PackedSize(|ids| * |ids|) && server < |ids|
    requires forall p :: p in idxByPeer <==> p in ids
    requires forall p | p in idxByPeer :: idxByPeer[p] < |ids| && ids[idxByPeer[p]] == p
    requires src in idxByPeer
    requires forall r: nat, c: nat | r < |ids| && c < |ids| && (r == c || r == server || c == server) ::
               CellAt(bitmap[..], |ids|, r, c)
    modifies bitmap
    ensures forall r: nat, c: nat | r < |ids| && c < |ids| ::
              CellAt(bitmap[..], |ids|, r, c) <==>
              (ids[r] == src && ids[c] in dsts) || (ids[c] == src && ids[r] in dsts) ||
                old(CellAt(bitmap[..], |ids|, r, c))
    ensures forall k: nat | |ids| * |ids| <= k :: BitAt(bitmap[..], k) == old(BitAt(bitmap[..], k))
  {
    var n := |ids|;
    var srcIdx := idxByPeer[src];
    var rest := dsts;
    while rest != {}
      invariant rest <= dsts
      invariant forall r: nat, c: nat | r < n && c < n ::
                  CellAt(bitmap[..], n, r, c) <==>
                  (ids[r] == src && ids[c] in dsts - rest) || (ids[c] == src && ids[r] in dsts - rest) ||
                  old(CellAt(bitmap[..], n, r, c))
      invariant forall k: nat | n * n <= k :: BitAt(bitmap[..], k) == old(BitAt(bitmap[..], k))
      decreases rest
    {
      var dst :| dst in rest;
      rest := rest - {dst};
      if dst in idxByPeer {
        var dstIdx := idxByPeer[dst];
        if srcIdx != dstIdx && srcIdx != server && dstIdx != server {
          SetBit(bitmap, n, srcIdx, dstIdx);
          SetBit(bitmap, n, dstIdx, srcIdx);
        }
      }
    }
  }

  /** Sets the cells of every reported edge, in whatever order the hash map yields the sources. */
  method SetAllReportedEdges(bitmap: array<bv8>, ids: seq<PeerId>, idxByPeer: map<PeerId, nat>, server: nat,
                             conns: map<PeerId, set<PeerId>>)
    requires Distinct(ids) && bitmap.Length == PackedSize(|ids| * |ids|) && server < |ids|
    requires forall p :: p in idxByPeer <==> p in ids
    requires forall p | p in idxByPeer :: idxByPeer[p] < |ids| && ids[idxByPeer[p]] == p
    requires forall r: nat, c: nat | r < |ids| && c < |ids| ::
               CellAt(bitmap[..], |ids|, r, c) <==> r == c || r == server || c == server
    modifies bitmap
    ensures forall r: nat, c: nat | r < |ids| && c < |ids| ::
              CellAt(bitmap[..], |ids|, r, c) <==>
              r == c || r == server || c == server || Reports(conns, ids[r], ids[c]) || Reports(conns, ids[c], ids[r])
    ensures forall k: nat | |ids| * |ids| <= k :: BitAt(bitmap[..], k) == old(BitAt(bitmap[..], k))
  {
    var n := |ids|;
    var rest := conns.Keys;
    while rest != {}
      invariant rest <= conns.Keys
      invariant forall r: nat, c: nat | r < n && c < n ::
                  CellAt(bitmap[..], n, r, c) <==>
                  r == c || r == server || c == server ||
                  ReportedBy(conns.Keys - rest, conns, ids[r], ids[c]) ||
                  ReportedBy(conns.Keys - rest, conns, ids[c], ids[r])
      invariant forall k: nat | n * n <= k :: BitAt(bitmap[..], k) == old(BitAt(bitmap[..], k))
      decreases rest
    {
      var src :| src in rest;
      ghost var done := conns.Keys - rest;
      rest := rest - {src};
      assert conns.Keys - rest == done + {src};
      if src in idxByPeer {
        SetReportedEdges(bitmap, ids, idxByPeer, server, src, conns[src]);
      }
    }
  }

  /** Sets the diagonal, and the row and column of the relay. */
  method SetServerEdges(bitmap: array<bv8>, n: nat, server: nat)
    requires bitmap.Length == PackedSize(n * n) && server < n
    requires forall k: nat :: !BitAt(bitmap[..], k)
    modifies bitmap
    ensures forall r: nat, c: nat | r < n && c < n ::
              CellAt(bitmap[..], n, r, c) <==> r == c || r == server || c == server
    ensures forall k: nat | n * n <= k :: !BitAt(bitmap[..], k)
  {
    SetDiagonal(bitmap, n);
    for i := 0 to n
      invariant forall r: nat, c: nat | r < n && c < n ::
                  CellAt(bitmap[..], n, r, c) <==> r == c || (r == server && c < i) || (c == server && r < i)
      invariant forall k: nat | n * n <= k :: !BitAt(bitmap[..], k)
    {
      if i != server {
        SetBit(bitmap, n, server, i);
        SetBit(bitmap, n, i, server);
      }
    }
  }

  method SetDiagonal(bitmap: array<bv8>, n: nat)
    requires bitmap.Length == PackedSize(n * n)
    requires forall k: nat :: !BitAt(bitmap[..], k)
    modifies bitmap
    ensures forall r: nat, c: nat | r < n && c < n :: CellAt(bitmap[..], n, r, c) <==> r == c
    ensures forall k: nat | n * n <= k :: !BitAt(bitmap[..], k)
  {
    for i := 0 to n
      invariant forall r: nat, c: nat | r < n && c < n :: CellAt(bitmap[..], n, r, c) <==> r == c && r < i
      invariant forall k: nat | n * n <= k :: !BitAt(bitmap[..], k)
    {
      SetBit(bitmap, n, i, i);
    }
  }

  /** Sets every cell: the matrix sent when the relay is not among the peers. */
  method SetEverything(bitmap: array<bv8>, n: nat)
    requires bitmap.Length == PackedSize(n * n)
    requires forall k: nat :: !BitAt(bitmap[..], k)
    modifies bitmap
    ensures forall r: nat, c: nat | r < n && c < n :: CellAt(bitmap[..], n, r, c)
    ensures forall k: nat | n * n <= k :: !BitAt(bitmap[..], k)
  {
    SetDiagonal(bitmap, n);
    for i := 0 to n
      invariant forall r: nat, c: nat | r < n && c < n :: CellAt(bitmap[..], n, r, c) <==> r == c || r < i
      invariant forall k: nat | n * n <= k :: !BitAt(bitmap[..], k)
    {
      for j := 0 to n
        invariant forall r: nat, c: nat | r < n && c < n ::
                    CellAt(bitmap[..], n, r, c) <==> r == c || r < i || (r == i && c < j)
        invariant forall k: nat | n * n <= k :: !BitAt(bitmap[..], k)
      {
        SetBit(bitmap, n, i, j);
      }
    }
  }

  /** The row of a received bitmap, decoded bit by bit. */
  method GetConnectedPeersFromBitmap(b: ConnBitmap, peerIdx: nat) returns (connected: set<PeerId>)
    ensures connected == DecodedRow(b, peerIdx)
  {
    var n := |b.peerIds|;
    connected := {};
    for idx := 0 to n
      invariant connected == set i | 0 <= i < idx && CellAt(b.bytes, n, peerIdx, i) :: b.peerIds[i].peerId
    {
      var bitIdx := peerIdx * n + idx;
      var byteIdx, bitOffset := bitIdx / 8, bitIdx % 8;
      if byteIdx < |b.bytes| && (b.bytes[byteIdx] >> bitOffset) & 1 == 1 {
        assert CellAt(b.bytes, n, peerIdx, idx);
        connected := connected + {b.peerIds[idx].peerId};
      }
    }
  }

  lemma RaisedOneMore(versions: map<PeerId, Version>, done: set<PeerId>, p: PeerId)
    requires p !in done
    ensures var r := Raised(versions, done); Raised(versions, done + {p}) == r[p := VersionIn(r, p) + 1]
  {
  }

  /** Sets the bits of all that is adjacent: everything when the relay is not among the peers. */
  method SetAdjacency(bitmap: array<bv8>, ids: seq<PeerId>, conns: map<PeerId, set<PeerId>>)
    requires Distinct(ids) && bitmap.Length == PackedSize(|ids| * |ids|)
    requires forall k: nat :: !BitAt(bitmap[..], k)
    modifies bitmap
    ensures Encodes(bitmap[..], ids, conns)
  {
    var n := |ids|;
    var idxByPeer := map i | 0 <= i < n :: ids[i] := i;
    assert forall p | p in ids :: p in idxByPeer;
    if MY_PEER_ID in idxByPeer {
      SetServerEdges(bitmap, n, idxByPeer[MY_PEER_ID]);
      SetAllReportedEdges(bitmap, ids, idxByPeer, idxByPeer[MY_PEER_ID], conns);
      ServerEncodes(bitmap[..], ids, conns, idxByPeer[MY_PEER_ID]);
    } else {
      SetEverything(bitmap, n);
    }
  }

  lemma ServerEncodes(bytes: seq<bv8>, ids: seq<PeerId>, conns: map<PeerId, set<PeerId>>, server: nat)
    requires Distinct(ids) && |bytes| == PackedSize(|ids| * |ids|) && server < |ids| && ids[server] == MY_PEER_ID
    requires forall r: nat, c: nat | r < |ids| && c < |ids| ::
               CellAt(bytes, |ids|, r, c) <==>
               r == c || r == server || c == server || Reports(conns, ids[r], ids[c]) || Reports(conns, ids[c], ids[r])
    requires forall k: nat | |ids| * |ids| <= k :: !BitAt(bytes, k)
    ensures Encodes(bytes, ids, conns)
  {
    hide CellAt, BitAt, Reports;
  }

  lemma ClearBytes(bytes: seq<bv8>)
    requires forall i | 0 <= i < |bytes| :: bytes[i] == 0
    ensures forall k: nat :: !BitAt(bytes, k)
  {
  }

  lemma NothingDueYet(store: Store, sent: map<PeerId, Version>, full: bool, now: Millis)
    ensures DueInfos(store, sent, full, [], now) == []
  {
  }

  lemma NothingYet(store: Store, sent: map<PeerId, Version>, full: bool, now: Millis)
    ensures WithStubs(store, {}, now) == store.infos
    ensures RecordedVersions(store, sent, full, {}, now) == sent
  {
  }

  lemma OneMoreStub(store: Store, ps: set<PeerId>, p: PeerId, now: Millis)
    requires p !in ps
    ensures var stubs := WithStubs(store, ps, now);
            && (p in stubs <==> p in store.infos)
            && WithStubs(store, ps + {p}, now) ==
               (if p == MY_PEER_ID || p in store.infos then stubs else stubs[p := InfoFor(store, p, now)])
  {
  }

  lemma OneMoreRecord(store: Store, sent: map<PeerId, Version>, full: bool, ps: set<PeerId>, p: PeerId, now: Millis)
    requires p !in ps
    ensures var recorded := RecordedVersions(store, sent, full, ps, now);
            && Get(recorded, p, 0) == Get(sent, p, 0)
            && RecordedVersions(store, sent, full, ps + {p}, now) ==
               (if IsDue(store, sent, full, p, now) then recorded[p := SentVersion(InfoFor(store, p, now))]
                else recorded)
  {
    hide InfoFor, SentVersion;
  }

  lemma WithoutOneMore(conns: map<PeerId, set<PeerId>>, gone: set<PeerId>, p: PeerId)
    ensures Without(conns, gone + {p}) == Without(Without(conns, gone), {p})
  {
    forall k | k in Without(conns, gone + {p})
      ensures Without(conns, gone + {p})[k] == Without(Without(conns, gone), {p})[k]
    {
      assert conns[k] - (gone + {p}) == conns[k] - gone - {p};
    }
  }

  lemma WithoutNone(conns: map<PeerId, set<PeerId>>)
    ensures Without(conns, {}) == conns
  {
    assert forall k | k in conns :: conns[k] - {} == conns[k];
  }

  lemma {:induction false} OverwrittenKeys(g: Group, from: PeerId, items: seq<PeerInfo>, now: Millis)
    ensures Overwritten(g, from, items, now).Keys ==
            g.peerInfos.Keys + set info | info in items && IsWelcome(g, from, info) :: info.peerId
  {
    if items != [] {
      var prefix, last := items[..|items| - 1], items[|items| - 1];
      OverwrittenKeys(g, from, prefix, now);
      assert items == prefix + [last];
      assert forall info :: info in items <==> info in prefix || info == last;
    }
  }

  class RouteGroup {
    var peers: set<PeerId>
    var peerInfos: map<PeerId, PeerInfo>
    var sessions: map<PeerId, Session>
    var connVersions: map<PeerId, Version>
    var myInfo: PeerInfo
    var myInfoVersion: Version
    var connections: map<PeerId, set<PeerId>>
    var removedAt: map<PeerId, Millis>

    ghost function State(): Group
      reads this
    {
      Group(peers, peerInfos, sessions, connVersions, myInfo, myInfoVersion, connections, removedAt)
    }

    constructor (routeId: nat)
      ensures State() == NewGroup(routeId)
    {
      peers, peerInfos, sessions, connVersions := {}, map[], map[], map[];
      myInfo := PeerInfo(MY_PEER_ID, 1, None, 24, routeId, "cf-easytier-wsrelay");
      myInfoVersion := 1;
      connections, removedAt := map[], map[];
    }

    method BumpAllConnVersions()
      modifies this`connVersions
      ensures State() == Bumped(old(State()))
    {
      var rest := peers + peerInfos.Keys;
      ghost var all, done := rest, {};
      assert connVersions == Raised(old(connVersions), done);
      while rest != {}
        invariant done + rest == all && done !! rest
        invariant connVersions == Raised(old(connVersions), done)
        decreases rest
      {
        var p :| p in rest;
        RaisedOneMore(old(connVersions), done, p);
        rest, done := rest - {p}, done + {p};
        var v := Get(connVersions, p, 1);
        connVersions := connVersions[p := v + 1];
      }
      assert done == all;
      connVersions := connVersions[MY_PEER_ID := if MY_PEER_ID in connVersions then connVersions[MY_PEER_ID] + 1
                                   else 2];
    }

    method AddPeer(peer: PeerId)
      modifies this
      ensures State() == PeerAdded(old(State()), peer)
    {
      var isNew := peer !in peers;
      peers := peers + {peer};
      removedAt := removedAt - {peer};
      if isNew {
        BumpAllConnVersions();
      }
    }

    method RemovePeer(peer: PeerId, now: Millis)
      modifies this
      ensures State() == PeerRemoved(old(State()), peer, now)
    {
      var wasPresent := peer in peers;
      peers := peers - {peer};
      peerInfos := peerInfos - {peer};
      sessions := sessions - {peer};
      connVersions := connVersions - {peer};
      removedAt := removedAt[peer := now];
      if wasPresent {
        BumpAllConnVersions();
      }
    }

    method UpdatePeerInfo(peer: PeerId, info: PeerInfo) returns (changed: bool)
      modifies this
      ensures State() == InfoUpdated(old(State()), peer, info)
      ensures changed == IsNews(old(peerInfos), peer, info)
    {
      var isNew := peer !in peerInfos;
      changed := isNew || info.version > peerInfos[peer].version;
      if changed {
        peerInfos := peerInfos[peer := info];
        if isNew {
          BumpAllConnVersions();
        }
      }
    }

    method OnRouteSessionAck(peer: PeerId, theirSessionId: SessionId, weAreInitiator: bool, now: Millis)
      modifies this`sessions
      ensures State() == Acked(old(State()), peer, theirSessionId, weAreInitiator, now)
    {
      var s := Get(sessions, peer, NO_SESSION);
      if s.dstSessionId != Some(theirSessionId) {
        s := s.(peerInfoVersions := map[], connBitmapVersions := map[], foreignVersion := 0, lastSig := None);
      }
      s := s.(dstSessionId := Some(theirSessionId), weAreInitiator := weAreInitiator, lastTouch := now);
      sessions := sessions[peer := s];
    }

    /** The one version that every bitmap naming the peer shows for it. */
    method GetPeerConnVersion(peer: PeerId) returns (v: Version)
      ensures forall t, w | peer in RelevantSet(State(), t) :: ShowsVersion(BitmapFor(State(), t), peer, w) <==> w == v
    {
      v := Get(connVersions, peer, 1);
      forall t, w | peer in RelevantSet(State(), t)
        ensures ShowsVersion(BitmapFor(State(), t), peer, w) <==> w == v
      {
        BitmapShowsVersion(State(), t, peer, w);
      }
    }

    method BumpMyInfoVersion()
      modifies this
      ensures State() == MyInfoBumped(old(State()))
    {
      myInfoVersion := myInfoVersion + 1;
      myInfo := myInfo.(version := myInfoVersion);
    }

    /** Stores the connections a peer claims; tells whether the stored map changed. */
    method UpdatePeerConnections(from: PeerId, connInfo: ConnInfo) returns (changed: bool)
      modifies this
      ensures State() == ConnsUpdated(old(State()), from, connInfo)
      ensures changed == ConnsChange(old(State()), from, connInfo)
    {
      var claimed: set<PeerId> := {};
      match connInfo {
        case Bitmap(b) =>
          var position := PositionOf(b.peerIds, from);
          if position.Some? {
            claimed := GetConnectedPeersFromBitmap(b, position.value);
          }
        case PeerList(entries) =>
          claimed := set q | q in ListedFor(entries, from);
        case NoConnInfo =>
          return false;
      }
      var accepted := set q | q in claimed && q != MY_PEER_ID && q != from && q in peers;
      assert accepted == AcceptedConnections(State(), from, connInfo);
      ghost var before := connections;
      if accepted == {} {
        changed := from in connections;
        connections := connections - {from};
      } else {
        changed := from !in connections || connections[from] != accepted;
        connections := connections[from := accepted];
        assert !changed ==> connections == before;
      }
      assert changed <==> connections != before by {
        assert from in before && from !in connections ==> connections != before;
        assert from in connections && (from !in before || before[from] != connections[from]) ==> connections != before;
      }
      if changed {
        BumpAllConnVersions();
      }
    }

    /** The reported adjacency of a list of peers, set bit by bit. */
    method PackAdjacency(relevant: seq<PeerId>) returns (bytes: seq<bv8>)
      requires Distinct(relevant)
      ensures bytes == MatrixBytes(relevant, connections)
    {
      hide Encodes, MatrixBytes;
      var bitmap := new bv8[PackedSize(|relevant| * |relevant|)](_ => 0);
      ClearBytes(bitmap[..]);
      SetAdjacency(bitmap, relevant, connections);
      bytes := bitmap[..];
      MatrixBytesEncode(bytes, relevant, connections);
    }

    /** Returns the current graph, or nothing when its signature is the last one sent. */
    method BuildConnBitmap(relevant: seq<PeerId>, target: PeerId) returns (r: Option<ConnBitmap>)
      requires Distinct(relevant)
      modifies this`sessions
      ensures relevant == [] ==> r == None && sessions == old(sessions)
      ensures relevant != [] ==>
                var b := BitmapOver(relevant, connVersions, connections);
                var s := Get(old(sessions), target, NO_SESSION);
                && sessions == old(sessions)[target := BitmapOffered(s, target, b)]
                && r == if Suppressed(s.lastSig, b) then None else Some(b)
    {
      if relevant == [] {
        return None;
      }
      var bytes := PackAdjacency(relevant);
      var peerIdVersions := VersionedIds(relevant, connVersions);
      var b := ConnBitmap(peerIdVersions, bytes);
      var sig := Sig(b);
      var session := Get(sessions, target, NO_SESSION);
      var connVersion := Get(session.connBitmapVersions, target, 0);
      var nextConnVersion := if connVersion == 0 then MaxVersion(peerIdVersions) else connVersion;
      if session.lastSig == Some(sig) {
        sessions := sessions[target := session];
        return None;
      }
      session := session.(connBitmapVersions := session.connBitmapVersions[target := nextConnVersion],
                          lastSig := Some(sig));
      sessions := sessions[target := session];
      r := Some(b);
    }

    /** Collects the infos due, completing the store with stubs, and records what is sent. */
    method CollectInfos(relevant: seq<PeerId>, session: Session, full: bool, now: Millis)
      returns (items: seq<PeerInfo>, recorded: map<PeerId, Version>)
      requires Ascending(relevant)
      modifies this`peerInfos
      ensures State() == old(State()).(peerInfos := WithStubs(StoreOf(old(State())), Elements(relevant), now))
      ensures items == DueInfos(StoreOf(old(State())), session.peerInfoVersions, full, relevant, now)
      ensures recorded == RecordedVersions(StoreOf(old(State())), session.peerInfoVersions, full, Elements(relevant),
                                           now)
    {
      ghost var store, sent, done := StoreOf(State()), session.peerInfoVersions, {};
      var mine := myInfo;
      var defaultNetLen := Max(mine.networkLength, 1);
      items, recorded := [], session.peerInfoVersions;
      NothingYet(store, sent, full, now);
      NothingDueYet(store, sent, full, now);
      hide WithStubs, RecordedVersions, DueInfos, Ascending;
      for i := 0 to |relevant|
        invariant done == Elements(relevant[..i])
        invariant peerInfos == WithStubs(store, done, now)
        invariant items == DueInfos(store, sent, full, relevant[..i], now)
        invariant recorded == RecordedVersions(store, sent, full, done, now)
      {
        var p := relevant[i];
        PrefixElements(relevant, i);
        OneMoreStub(store, done, p, now);
        DueOneMore(store, sent, full, relevant[..i], p, now);
        OneMoreRecord(store, sent, full, done, p, now);
        done := done + {p};
        if p != MY_PEER_ID && p !in peerInfos {
          peerInfos := peerInfos[p := StubInfo(p, defaultNetLen, now)];
        }
        var info := if p == MY_PEER_ID then mine else peerInfos[p];
        var version := Max(info.version, 1);
        var prev := if full then 0 else Get(recorded, p, 0);
        if full || version > prev {
          items := items + [info];
          recorded := recorded[p := version];
        }
      }
      assert relevant[..|relevant|] == relevant;
    }

    /** Opens the target's session and records in it the infos that the update will carry. */
    method PrepareSession(target: PeerId, serverSessionId: SessionId, forceFull: bool, now: Millis)
      returns (relevant: seq<PeerId>, items: seq<PeerInfo>)
      modifies this`sessions, this`peerInfos
      ensures State() == PreparedGroup(old(State()), target, serverSessionId, forceFull, now)
      ensures relevant == RelevantPeers(old(State()), target)
      ensures var s := SessionOf(old(State()), target);
              && items == DueInfos(StoreOf(old(State())), s.peerInfoVersions, SendsAll(s, forceFull), relevant, now)
              && SessionOf(State(), target).lastSig == s.lastSig
              && SessionOf(State(), target).foreignVersion == s.foreignVersion
      ensures BitmapOver(relevant, connVersions, connections) == BitmapFor(old(State()), target)
      ensures Distinct(relevant) && relevant != []
    {
      PreparationKeepsGraph(State(), target, serverSessionId, forceFull, now);
      var session := Get(sessions, target, NO_SESSION).(mySessionId := Some(serverSessionId), lastTouch := now);
      var full := forceFull || session.dstSessionId == None;
      relevant := SortedVec(peers + {MY_PEER_ID, target});
      assert Elements(relevant) == RelevantSet(State(), target);
      assert MY_PEER_ID in relevant;
      var recorded;
      items, recorded := CollectInfos(relevant, session, full, now);
      session := session.(peerInfoVersions := recorded);
      sessions := sessions[target := session];
    }

    /** Offers the graph to the target's session, and counts the build. */
    method OfferGraph(relevant: seq<PeerId>, target: PeerId) returns (connInfo: ConnInfo, version: nat)
      requires Distinct(relevant) && relevant != []
      modifies this`sessions
      ensures State() == GraphOffered(old(State()), target, relevant)
      ensures connInfo == ConnInfoFor(SessionOf(old(State()), target).lastSig,
                                      BitmapOver(relevant, connVersions, connections))
      ensures version == SessionOf(old(State()), target).foreignVersion + 1
    {
      ghost var offered :=
        BitmapOffered(SessionOf(State(), target), target, BitmapOver(relevant, connVersions, connections));
      var connBitmap := BuildConnBitmap(relevant, target);
      var session := sessions[target];
      version := session.foreignVersion + 1;
      sessions := sessions[target := session.(foreignVersion := version)];
      OverwriteTwice(old(sessions), target, offered, Counted(offered));
      connInfo := match connBitmap case None => NoConnInfo case Some(b) => Bitmap(b);
    }

    /** Builds the update for a target and records in its session what the update carries. */
    method BuildSyncRouteInfoRequest(target: PeerId, serverSessionId: SessionId, weAreInitiator: bool,
                                     forceFull: bool, now: Millis) returns (req: SyncRequest)
      modifies this
      ensures State() == Built(old(State()), target, serverSessionId, forceFull, now)
      ensures req == Update(old(State()), target, serverSessionId, weAreInitiator, forceFull, now)
    {
      hide PreparedGroup, GraphOffered, BitmapOver, BitmapFor, DueInfos, ConnInfoFor, Carried, Foreign;
      var relevant, items := PrepareSession(target, serverSessionId, forceFull, now);
      var connInfo, version := OfferGraph(relevant, target);
      req := SyncRequest(MY_PEER_ID, serverSessionId, weAreInitiator, Carried(items), connInfo,
                         Foreign(relevant, now, version));
    }

    /** Replaces the infos of connected peers and of the sender; tells whether one was unknown. */
    method OverwriteInfos(from: PeerId, items: seq<PeerInfo>, now: Millis) returns (unknown: bool)
      modifies this`peerInfos
      ensures peerInfos == Overwritten(old(State()), from, items, now)
      ensures unknown == BringsUnknown(old(State()), from, items)
    {
      ghost var g := State();
      unknown := false;
      for i := 0 to |items|
        invariant peerInfos == Overwritten(g, from, items[..i], now)
        invariant unknown == BringsUnknown(g, from, items[..i])
      {
        var info := items[i];
        OverwrittenKeys(g, from, items[..i], now);
        assert items[..i + 1][..i] == items[..i];
        assert forall x :: x in items[..i + 1] <==> x in items[..i] || x == info by {
          assert items[..i + 1] == items[..i] + [info];
        }
        if info.peerId in peers || info.peerId == from {
          if info.peerId !in peerInfos {
            unknown := true;
          }
          peerInfos := peerInfos[info.peerId := info.(lastUpdate := Some(Seconds(now)))];
        }
      }
      assert items[..|items|] == items;
    }

    /** Takes in a peer's update after the merge, and answers it. */
    method HandleSyncRouteInfoRequest(from: PeerId, req: SyncRequest, now: Millis) returns (resp: SyncResponse)
      modifies this
      ensures State() == SyncHandled(old(State()), from, req, now)
      ensures resp == SyncReply(old(State()), from, req)
    {
      var session := Get(sessions, from, NO_SESSION).(lastTouch := now);
      if session.dstSessionId != Some(req.mySessionId) {
        session := session.(peerInfoVersions := map[], connBitmapVersions := map[], foreignVersion := 0, lastSig :=
                            None);
      }
      session := session.(dstSessionId := Some(req.mySessionId));
      if req.isInitiator {
        session := session.(weAreInitiator := false);
      }
      var needBump := OverwriteInfos(from, ItemsOf(req), now);
      sessions := sessions[from := session];
      if needBump {
        BumpAllConnVersions();
      }
      resp := SyncResponse(!req.isInitiator, match session.mySessionId case None => 1 case Some(sid) => sid);
    }

    /** Forgets the peers removed longer ago than the threshold, and the edges that touch them. */
    method CleanupStalePeerConnections(staleThreshold: Millis, now: Millis)
      modifies this
      ensures State() == CleanedUp(old(State()), staleThreshold, now)
    {
      var stale: set<PeerId> := {};
      var rest := removedAt.Keys;
      while rest != {}
        invariant rest <= removedAt.Keys
        invariant stale == StalePeers(State(), staleThreshold, now) - rest
        decreases rest
      {
        var p :| p in rest;
        rest := rest - {p};
        if now - removedAt[p] > staleThreshold {
          stale := stale + {p};
        }
      }
      assert stale == StalePeers(old(State()), staleThreshold, now);
      rest := stale;
      ghost var gone := {};
      WithoutNone(connections);
      while rest != {}
        invariant gone + rest == stale && gone !! rest
        invariant connections == Without(old(connections), gone)
        invariant removedAt == old(removedAt) - gone
        invariant State() == old(State()).(connections := connections, removedAt := removedAt)
        decreases rest
      {
        var p :| p in rest;
        WithoutOneMore(old(connections), gone, p);
        rest, gone := rest - {p}, gone + {p};
        connections := connections - {p};
        removedAt := removedAt - {p};
        connections := map k | k in connections :: connections[k] - {p};
        assert connections == Without(old(connections), gone);
      }
      assert gone == stale;
    }
  }
}
