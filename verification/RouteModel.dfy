/**
 * The state of one peer group as a value, and what each operation makes of it.
 * The class RouteGroup carries the operations out in place; the theorems about runs
 * are stated over these functions.
 */
module RouteModel {
  import opened Collections
  import opened Wire
  import opened BitMatrix
  import opened Signature

  // ---- state ----

  datatype Session = Session(
    mySessionId: Option<SessionId>,
    dstSessionId: Option<SessionId>,
    weAreInitiator: bool,
    peerInfoVersions: map<PeerId, Version>,
    connBitmapVersions: map<PeerId, Version>,
    foreignVersion: nat,
    lastTouch: Millis,
    lastSig: Option<string>)

  const NO_SESSION := Session(None, None, false, map[], map[], 0, 0, None)

  datatype Group = Group(
    peers: set<PeerId>,
    peerInfos: map<PeerId, PeerInfo>,
    sessions: map<PeerId, Session>,
    connVersions: map<PeerId, Version>,
    myInfo: PeerInfo,
    myInfoVersion: Version,
    connections: map<PeerId, set<PeerId>>,
    removedAt: map<PeerId, Millis>)

  /** A group as it is first created; `routeId` is drawn at random by the relay. */
  function NewGroup(routeId: nat): Group {
    Group({}, map[], map[], map[], PeerInfo(MY_PEER_ID, 1, None, 24, routeId, "cf-easytier-wsrelay"), 1, map[], map[])
  }

  function SessionOf(g: Group, p: PeerId): Session {
    Get(g.sessions, p, NO_SESSION)
  }

  function VersionIn(versions: map<PeerId, Version>, p: PeerId): Version {
    Get(versions, p, 1)
  }

  function Seconds(now: Millis): nat {
    now / 1000
  }

  // ---- connection versions ----

  function Raised(versions: map<PeerId, Version>, ps: set<PeerId>): map<PeerId, Version> {
    map p | p in versions.Keys + ps :: VersionIn(versions, p) + (if p in ps then 1 else 0)
  }

  /** Every connected or described peer's version goes up by one, and so does the relay's own. */
  function Bumped(g: Group): Group {
    var versions := Raised(g.connVersions, g.peers + g.peerInfos.Keys);
    g.(connVersions := versions[MY_PEER_ID := VersionIn(versions, MY_PEER_ID) + 1])
  }

  function BumpedIf(g: Group, condition: bool): Group {
    if condition then Bumped(g) else g
  }

  // ---- peers coming and going ----

  function PeerAdded(g: Group, p: PeerId): Group {
    BumpedIf(g.(peers := g.peers + {p}, removedAt := g.removedAt - {p}), p !in g.peers)
  }

  function PeerRemoved(g: Group, p: PeerId, now: Millis): Group {
    BumpedIf(
      g.(peers := g.peers - {p},
         peerInfos := g.peerInfos - {p},
         sessions := g.sessions - {p},
         connVersions := g.connVersions - {p},
         removedAt := g.removedAt[p := now]),
      p in g.peers)
  }

  // ---- peer infos ----

  predicate IsNews(infos: map<PeerId, PeerInfo>, p: PeerId, info: PeerInfo) {
    p !in infos || info.version > infos[p].version
  }

  function InfoUpdated(g: Group, p: PeerId, info: PeerInfo): Group {
    if IsNews(g.peerInfos, p, info) then
      BumpedIf(g.(peerInfos := g.peerInfos[p := info]), p !in g.peerInfos)
    else g
  }

  function MyInfoBumped(g: Group): Group {
    var v := g.myInfoVersion + 1;
    g.(myInfoVersion := v, myInfo := g.myInfo.(version := v))
  }

  // ---- sessions ----

  /** The remote names its session; a new name makes the relay forget all it has sent. */
  function Greeted(s: Session, sid: SessionId): Session {
    if s.dstSessionId == Some(sid) then s
    else s.(peerInfoVersions := map[], connBitmapVersions := map[], foreignVersion := 0, lastSig := None,
            dstSessionId := Some(sid))
  }

  function Acked(g: Group, p: PeerId, sid: SessionId, weAreInitiator: bool, now: Millis): Group {
    g.(sessions := g.sessions[p := Greeted(SessionOf(g, p), sid).(weAreInitiator := weAreInitiator, lastTouch := now)])
  }

  // ---- reported peer-to-peer connections ----

  /** The first position of a peer in a bitmap's id list. */
  function PositionOf(ids: seq<PeerIdVersion>, p: PeerId): (r: Option<nat>)
    ensures r.Some? ==> r.value < |ids| && ids[r.value].peerId == p
    ensures r.Some? ==> forall i | 0 <= i < r.value :: ids[i].peerId != p
    ensures r.None? ==> forall i | 0 <= i < |ids| :: ids[i].peerId != p
  {
    if ids == [] then None
    else if ids[0].peerId == p then Some(0)
    else
      match PositionOf(ids[1..], p)
      case None => None
      case Some(i) =>
        assert forall j | 0 < j < i + 1 :: ids[j] == ids[1..][j - 1];
        Some(i + 1)
  }

  /** The ids whose bit is set in one row of a received bitmap, whatever its length. */
  function DecodedRow(b: ConnBitmap, row: nat): set<PeerId> {
    set i | 0 <= i < |b.peerIds| && CellAt(b.bytes, |b.peerIds|, row, i) :: b.peerIds[i].peerId
  }

  /** The connected ids listed in the first entry that names the peer. */
  function ListedFor(entries: seq<ConnEntry>, p: PeerId): seq<PeerId> {
    if entries == [] then []
    else if entries[0].peerId == Some(p) then entries[0].connected
    else ListedFor(entries[1..], p)
  }

  function ClaimedConnections(p: PeerId, info: ConnInfo): set<PeerId>
    requires !info.NoConnInfo?
  {
    match info
    case Bitmap(b) =>
      (match PositionOf(b.peerIds, p)
       case Some(row) => DecodedRow(b, row)
       case None => {})
    case PeerList(entries) => set q | q in ListedFor(entries, p)
  }

  /** Of what a peer claims, the relay keeps the connected peers other than itself and the claimant. */
  function AcceptedConnections(g: Group, p: PeerId, info: ConnInfo): set<PeerId>
    requires !info.NoConnInfo?
  {
    ClaimedConnections(p, info) * g.peers - {MY_PEER_ID, p}
  }

  function ConnectionsUpdated(g: Group, p: PeerId, info: ConnInfo): map<PeerId, set<PeerId>> {
    if info.NoConnInfo? then g.connections
    else
      var accepted := AcceptedConnections(g, p, info);
      if accepted == {} then g.connections - {p} else g.connections[p := accepted]
  }

  predicate ConnsChange(g: Group, p: PeerId, info: ConnInfo) {
    ConnectionsUpdated(g, p, info) != g.connections
  }

  function ConnsUpdated(g: Group, p: PeerId, info: ConnInfo): Group {
    BumpedIf(g.(connections := ConnectionsUpdated(g, p, info)), ConnsChange(g, p, info))
  }

  // ---- the reported graph ----

  predicate Reports(conns: map<PeerId, set<PeerId>>, a: PeerId, b: PeerId) {
    a in conns && b in conns[a]
  }

  /** Two peers count as linked when either reports the other; everyone is linked to the relay. */
  predicate Linked(conns: map<PeerId, set<PeerId>>, a: PeerId, b: PeerId) {
    a == b || a == MY_PEER_ID || b == MY_PEER_ID || Reports(conns, a, b) || Reports(conns, b, a)
  }

  predicate Adjacent(ids: seq<PeerId>, conns: map<PeerId, set<PeerId>>, a: PeerId, b: PeerId) {
    MY_PEER_ID !in ids || Linked(conns, a, b)
  }

  /** Bytes that show the adjacency of a list of peers, cell by cell, and nothing beyond it. */
  ghost predicate Encodes(bytes: seq<bv8>, ids: seq<PeerId>, conns: map<PeerId, set<PeerId>>) {
    && |bytes| == PackedSize(|ids| * |ids|)
    && (forall r: nat, c: nat | r < |ids| && c < |ids| ::
          CellAt(bytes, |ids|, r, c) <==> Adjacent(ids, conns, ids[r], ids[c]))
    && (forall k: nat | |ids| * |ids| <= k :: !BitAt(bytes, k))
  }

  function AdjacencyBits(ids: seq<PeerId>, conns: map<PeerId, set<PeerId>>): seq<bool> {
    var n := |ids|;
    seq(n * n, k requires 0 <= k < n * n => (SplitIndex(n, k); Adjacent(ids, conns, ids[k / n], ids[k % n])))
  }

  lemma PackedCell(ids: seq<PeerId>, conns: map<PeerId, set<PeerId>>, r: nat, c: nat)
    requires r < |ids| && c < |ids|
    ensures CellAt(Pack(AdjacencyBits(ids, conns)), |ids|, r, c) <==> Adjacent(ids, conns, ids[r], ids[c])
  {
    CellIndex(|ids|, r, c);
    var bits := AdjacencyBits(ids, conns);
    assert bits[r * |ids| + c] == Adjacent(ids, conns, ids[r], ids[c]);
    hide Adjacent, AdjacencyBits, Pack, BitAt;
    PackedBit(bits, r * |ids| + c);
  }

  lemma EncodingExists(ids: seq<PeerId>, conns: map<PeerId, set<PeerId>>)
    ensures Encodes(Pack(AdjacencyBits(ids, conns)), ids, conns)
  {
    var bits := AdjacencyBits(ids, conns);
    forall r: nat, c: nat | r < |ids| && c < |ids|
      ensures CellAt(Pack(bits), |ids|, r, c) <==> Adjacent(ids, conns, ids[r], ids[c])
    {
      PackedCell(ids, conns, r, c);
    }
    forall k: nat | |ids| * |ids| <= k ensures !BitAt(Pack(bits), k) {
      PackedBit(bits, k);
    }
  }

  lemma SameBit(a: seq<bv8>, b: seq<bv8>, ids: seq<PeerId>, conns: map<PeerId, set<PeerId>>, k: nat)
    requires Encodes(a, ids, conns) && Encodes(b, ids, conns)
    ensures BitAt(a, k) == BitAt(b, k)
  {
    hide Adjacent, BitAt;
    if k < |ids| * |ids| {
      SplitIndex(|ids|, k);
      var r, c := k / |ids|, k % |ids|;
      assert CellAt(a, |ids|, r, c) == CellAt(b, |ids|, r, c);
    }
  }

  lemma EncodingIsUnique(a: seq<bv8>, b: seq<bv8>, ids: seq<PeerId>, conns: map<PeerId, set<PeerId>>)
    requires Encodes(a, ids, conns) && Encodes(b, ids, conns)
    ensures a == b
  {
    assert |a| == |b|;
    hide Encodes;
    forall k: nat ensures BitAt(a, k) == BitAt(b, k) {
      SameBit(a, b, ids, conns, k);
    }
    BitsDetermineBytes(a, b);
  }

  /** The bytes that encode the adjacency of a list of peers. */
  ghost function MatrixBytes(ids: seq<PeerId>, conns: map<PeerId, set<PeerId>>): seq<bv8> {
    EncodingExists(ids, conns);
    var bytes :| Encodes(bytes, ids, conns);
    bytes
  }

  lemma MatrixBytesEncode(bytes: seq<bv8>, ids: seq<PeerId>, conns: map<PeerId, set<PeerId>>)
    ensures bytes == MatrixBytes(ids, conns) <==> Encodes(bytes, ids, conns)
  {
    EncodingExists(ids, conns);
    if Encodes(bytes, ids, conns) {
      EncodingIsUnique(bytes, MatrixBytes(ids, conns), ids, conns);
    }
  }

  function VersionedIds(ids: seq<PeerId>, versions: map<PeerId, Version>): seq<PeerIdVersion> {
    seq(|ids|, i requires 0 <= i < |ids| => PeerIdVersion(ids[i], VersionIn(versions, ids[i])))
  }

  ghost function BitmapOver(ids: seq<PeerId>, versions: map<PeerId, Version>,
                            conns: map<PeerId, set<PeerId>>): ConnBitmap {
    ConnBitmap(VersionedIds(ids, versions), MatrixBytes(ids, conns))
  }

  function RelevantSet(g: Group, target: PeerId): set<PeerId> {
    g.peers + {MY_PEER_ID, target}
  }

  ghost function RelevantPeers(g: Group, target: PeerId): seq<PeerId> {
    Sorted(RelevantSet(g, target))
  }

  /** The graph as it would be reported to a target now. */
  ghost function BitmapFor(g: Group, target: PeerId): ConnBitmap {
    BitmapOver(RelevantPeers(g, target), g.connVersions, g.connections)
  }

  ghost predicate ShowsVersion(b: ConnBitmap, p: PeerId, v: Version) {
    PeerIdVersion(p, v) in b.peerIds
  }

  /** A bitmap shows each peer it names with that peer's connection version, and with no other. */
  lemma BitmapShowsVersion(g: Group, t: PeerId, p: PeerId, v: Version)
    ensures ShowsVersion(BitmapFor(g, t), p, v) <==> p in RelevantSet(g, t) && v == VersionIn(g.connVersions, p)
  {
    var ids := RelevantPeers(g, t);
    var ps := VersionedIds(ids, g.connVersions);
    assert forall j | 0 <= j < |ids| :: ps[j] == PeerIdVersion(ids[j], VersionIn(g.connVersions, ids[j]));
    if p in RelevantSet(g, t) {
      assert p in ids;
      var i :| 0 <= i < |ids| && ids[i] == p;
      assert ps[i] == PeerIdVersion(p, VersionIn(g.connVersions, p));
    }
  }

  function MaxVersion(ids: seq<PeerIdVersion>): Version {
    if ids == [] then 1
    else if |ids| == 1 then ids[0].version
    else Max(MaxVersion(ids[..|ids| - 1]), ids[|ids| - 1].version)
  }

  /** A bitmap goes out unless its signature is the one last sent in this session. */
  predicate Suppressed(lastSig: Option<string>, b: ConnBitmap) {
    lastSig == Some(Sig(b))
  }

  function BitmapOffered(s: Session, target: PeerId, b: ConnBitmap): Session {
    if Suppressed(s.lastSig, b) then s
    else
      var v := Get(s.connBitmapVersions, target, 0);
      s.(connBitmapVersions := s.connBitmapVersions[target := if v == 0 then MaxVersion(b.peerIds) else v],
         lastSig := Some(Sig(b)))
  }

  // ---- building an update ----

  function StubInfo(p: PeerId, networkLength: nat, now: Millis): PeerInfo {
    PeerInfo(p, 1, Some(Seconds(now)), networkLength, 0, "cf-2.6")
  }

  /** What infos there are: the store, and the relay's own. */
  datatype Store = Store(infos: map<PeerId, PeerInfo>, mine: PeerInfo)

  function StoreOf(g: Group): Store {
    Store(g.peerInfos, g.myInfo)
  }

  function InfoFor(store: Store, p: PeerId, now: Millis): PeerInfo {
    if p == MY_PEER_ID then store.mine
    else Get(store.infos, p, StubInfo(p, Max(store.mine.networkLength, 1), now))
  }

  function SentVersion(info: PeerInfo): Version {
    Max(info.version, 1)
  }

  predicate IsDue(store: Store, sent: map<PeerId, Version>, full: bool, p: PeerId, now: Millis) {
    full || SentVersion(InfoFor(store, p, now)) > Get(sent, p, 0)
  }

  /** The infos due to a target, in the order of the ids. */
  function DueInfos(store: Store, sent: map<PeerId, Version>, full: bool, ids: seq<PeerId>,
                    now: Millis): seq<PeerInfo> {
    if ids == [] then []
    else
      var p := ids[|ids| - 1];
      DueInfos(store, sent, full, ids[..|ids| - 1], now) +
      (if IsDue(store, sent, full, p, now) then [InfoFor(store, p, now)] else [])
  }

  lemma DueOneMore(store: Store, sent: map<PeerId, Version>, full: bool, ids: seq<PeerId>, p: PeerId, now: Millis)
    ensures DueInfos(store, sent, full, ids + [p], now) ==
            DueInfos(store, sent, full, ids, now) + (if IsDue(store, sent, full, p, now) then [InfoFor(store, p, now)]
                                                     else [])
  {
    assert (ids + [p])[..|ids|] == ids;
  }

  function RecordedVersions(store: Store, sent: map<PeerId, Version>, full: bool, ps: set<PeerId>,
                            now: Millis): map<PeerId, Version> {
    sent + map p | p in ps && IsDue(store, sent, full, p, now) :: SentVersion(InfoFor(store, p, now))
  }

  /** The info store with a stub for every peer that had none. */
  function WithStubs(store: Store, ps: set<PeerId>, now: Millis): map<PeerId, PeerInfo> {
    store.infos + map p | p in ps && p != MY_PEER_ID && p !in store.infos :: InfoFor(store, p, now)
  }

  predicate SendsAll(s: Session, force: bool) {
    force || s.dstSessionId.None?
  }

  /** The target's session once the infos of a build are collected. */
  function Prepared(g: Group, target: PeerId, sid: SessionId, force: bool, now: Millis): Session {
    var s := SessionOf(g, target);
    var recorded := RecordedVersions(StoreOf(g), s.peerInfoVersions, SendsAll(s, force), RelevantSet(g, target), now);
    s.(mySessionId := Some(sid), lastTouch := now, peerInfoVersions := recorded)
  }

  function Counted(s: Session): Session {
    s.(foreignVersion := s.foreignVersion + 1)
  }

  /** First half of a build: the infos are collected and recorded. */
  function PreparedGroup(g: Group, target: PeerId, sid: SessionId, force: bool, now: Millis): Group {
    g.(peerInfos := WithStubs(StoreOf(g), RelevantSet(g, target), now),
       sessions := g.sessions[target := Prepared(g, target, sid, force, now)])
  }

  /** Second half of a build: the graph is offered to the session, and the build counted. */
  ghost function GraphOffered(g: Group, target: PeerId, ids: seq<PeerId>): Group {
    var b := BitmapOver(ids, g.connVersions, g.connections);
    g.(sessions := g.sessions[target := Counted(BitmapOffered(SessionOf(g, target), target, b))])
  }

  ghost function Built(g: Group, target: PeerId, sid: SessionId, force: bool, now: Millis): Group {
    GraphOffered(PreparedGroup(g, target, sid, force, now), target, RelevantPeers(g, target))
  }

  /** The first half of a build leaves alone what the second half reads. */
  lemma PreparationKeepsGraph(g: Group, target: PeerId, sid: SessionId, force: bool, now: Millis)
    ensures var g' := PreparedGroup(g, target, sid, force, now);
            && g'.peers == g.peers
            && SessionOf(g', target).lastSig == SessionOf(g, target).lastSig
            && SessionOf(g', target).foreignVersion == SessionOf(g, target).foreignVersion
            && BitmapOver(RelevantPeers(g, target), g'.connVersions, g'.connections) == BitmapFor(g, target)
  {
  }

  /** A build completes the infos and writes one session; it touches nothing else. */
  lemma BuiltRest(g: Group, target: PeerId, sid: SessionId, force: bool, now: Millis)
    ensures var g' := Built(g, target, sid, force, now);
            && g'.peers == g.peers && g'.connVersions == g.connVersions && g'.removedAt == g.removedAt
            && g'.myInfo == g.myInfo && g'.myInfoVersion == g.myInfoVersion && g'.connections == g.connections
            && g'.peerInfos == WithStubs(StoreOf(g), RelevantSet(g, target), now)
  {
  }

  lemma BuiltSessions(g: Group, target: PeerId, sid: SessionId, force: bool, now: Millis)
    ensures var s := Prepared(g, target, sid, force, now);
            Built(g, target, sid, force, now).sessions ==
            g.sessions[target := Counted(BitmapOffered(s, target, BitmapFor(g, target)))]
  {
    PreparationKeepsGraph(g, target, sid, force, now);
    var s := Prepared(g, target, sid, force, now);
    OverwriteTwice(g.sessions, target, s, Counted(BitmapOffered(s, target, BitmapFor(g, target))));
  }

  /** What a build leaves in the target's session. */
  lemma BuiltSession(g: Group, target: PeerId, sid: SessionId, force: bool, now: Millis)
    ensures var s, s' := SessionOf(g, target), SessionOf(Built(g, target, sid, force, now), target);
            && s'.mySessionId == Some(sid) && s'.dstSessionId == s.dstSessionId
            && s'.lastSig == Some(Sig(BitmapFor(g, target)))
            && s'.foreignVersion == s.foreignVersion + 1
            && s'.peerInfoVersions ==
               RecordedVersions(StoreOf(g), s.peerInfoVersions, SendsAll(s, force), RelevantSet(g, target), now)
  {
  }

  function ConnInfoFor(lastSig: Option<string>, b: ConnBitmap): ConnInfo {
    if Suppressed(lastSig, b) then NoConnInfo else Bitmap(b)
  }

  /** A list of infos travels only when it is not empty. */
  function Carried(items: seq<PeerInfo>): Option<seq<PeerInfo>> {
    if items == [] then None else Some(items)
  }

  /** The relay presents its group as one foreign network. */
  function Foreign(ids: seq<PeerId>, now: Millis, version: nat): Option<ForeignNetwork> {
    Some(ForeignNetwork(ids, Seconds(now), version))
  }

  /** The update that a build returns. */
  ghost function Update(g: Group, target: PeerId, sid: SessionId, weAreInitiator: bool, force: bool,
                        now: Millis): SyncRequest {
    var s := SessionOf(g, target);
    var ids := RelevantPeers(g, target);
    var infos := DueInfos(StoreOf(g), s.peerInfoVersions, SendsAll(s, force), ids, now);
    var b := BitmapFor(g, target);
    SyncRequest(
      MY_PEER_ID, sid, weAreInitiator,
      Carried(infos),
      ConnInfoFor(s.lastSig, b),
      Foreign(ids, now, s.foreignVersion + 1))
  }

  // ---- an incoming update ----

  predicate IsWelcome(g: Group, from: PeerId, info: PeerInfo) {
    info.peerId in g.peers || info.peerId == from
  }

  function Stamped(info: PeerInfo, now: Millis): PeerInfo {
    info.(lastUpdate := Some(Seconds(now)))
  }

  /** Connected peers' infos are replaced by what the list says of them, the last item winning. */
  function Overwritten(g: Group, from: PeerId, items: seq<PeerInfo>, now: Millis): map<PeerId, PeerInfo> {
    if items == [] then g.peerInfos
    else
      var last := items[|items| - 1];
      var infos := Overwritten(g, from, items[..|items| - 1], now);
      if IsWelcome(g, from, last) then infos[last.peerId := Stamped(last, now)] else infos
  }

  predicate BringsUnknown(g: Group, from: PeerId, items: seq<PeerInfo>) {
    exists info | info in items :: IsWelcome(g, from, info) && info.peerId !in g.peerInfos
  }

  function ItemsOf(req: SyncRequest): seq<PeerInfo> {
    match req.peerInfos
    case None => []
    case Some(items) => items
  }

  function SessionAfterSync(s: Session, req: SyncRequest, now: Millis): Session {
    Greeted(s, req.mySessionId).(lastTouch := now, weAreInitiator := !req.isInitiator && s.weAreInitiator)
  }

  function SyncHandled(g: Group, from: PeerId, req: SyncRequest, now: Millis): Group {
    var g' := g.(sessions := g.sessions[from := SessionAfterSync(SessionOf(g, from), req, now)]);
    var items := ItemsOf(req);
    BumpedIf(g'.(peerInfos := Overwritten(g, from, items, now)), BringsUnknown(g, from, items))
  }

  function SyncReply(g: Group, from: PeerId, req: SyncRequest): SyncResponse {
    SyncResponse(!req.isInitiator,
                 match SessionOf(g, from).mySessionId case None => 1 case Some(sid) => sid)
  }

  // ---- forgetting peers that stayed away ----

  function StalePeers(g: Group, threshold: Millis, now: Millis): set<PeerId> {
    set p | p in g.removedAt && now - g.removedAt[p] > threshold
  }

  /** The stored edges that touch none of the given peers. */
  function Without(conns: map<PeerId, set<PeerId>>, gone: set<PeerId>): map<PeerId, set<PeerId>> {
    map p | p in conns && p !in gone :: conns[p] - gone
  }

  function CleanedUp(g: Group, threshold: Millis, now: Millis): Group {
    var stale := StalePeers(g, threshold, now);
    g.(connections := Without(g.connections, stale), removedAt := g.removedAt - stale)
  }

  // ---- runs ----

  datatype Event =
    | AddPeer(peer: PeerId)
    | RemovePeer(peer: PeerId, now: Millis)
    | UpdateInfo(info: PeerInfo)
    | BumpMyInfo
    | Ack(peer: PeerId, sid: SessionId, weAreInitiator: bool, now: Millis)
    | UpdateConns(peer: PeerId, connInfo: ConnInfo)
    | Build(peer: PeerId, sid: SessionId, weAreInitiator: bool, force: bool, now: Millis)
    | HandleSync(peer: PeerId, req: SyncRequest, now: Millis)
    | Cleanup(threshold: Millis, now: Millis)

  ghost function Apply(g: Group, e: Event): Group {
    match e
    case AddPeer(p) => PeerAdded(g, p)
    case RemovePeer(p, now) => PeerRemoved(g, p, now)
    case UpdateInfo(info) => InfoUpdated(g, info.peerId, info)
    case BumpMyInfo => MyInfoBumped(g)
    case Ack(p, sid, weAreInitiator, now) => Acked(g, p, sid, weAreInitiator, now)
    case UpdateConns(p, info) => ConnsUpdated(g, p, info)
    case Build(p, sid, _, force, now) => Built(g, p, sid, force, now)
    case HandleSync(p, req, now) => SyncHandled(g, p, req, now)
    case Cleanup(threshold, now) => CleanedUp(g, threshold, now)
  }

  lemma ApplyBuild(g: Group, p: PeerId, sid: SessionId, weAreInitiator: bool, force: bool, now: Millis)
    ensures Apply(g, Build(p, sid, weAreInitiator, force, now)) == Built(g, p, sid, force, now)
  {
    hide Built;
  }

  ghost function Run(g: Group, es: seq<Event>): Group {
    if es == [] then g else Apply(Run(g, es[..|es| - 1]), es[|es| - 1])
  }

  lemma RunAppend(g: Group, es: seq<Event>, e: Event)
    ensures Run(g, es + [e]) == Apply(Run(g, es), e)
  {
    assert (es + [e])[..|es|] == es;
  }

  lemma {:induction false} RunConcat(g: Group, es: seq<Event>, fs: seq<Event>)
    ensures Run(g, es + fs) == Run(Run(g, es), fs)
  {
    if fs == [] {
      assert es + fs == es;
    } else {
      var prefix, last := fs[..|fs| - 1], fs[|fs| - 1];
      RunConcat(g, es, prefix);
      assert es + fs == es + prefix + [last];
      RunAppend(g, es + prefix, last);
    }
  }
}
