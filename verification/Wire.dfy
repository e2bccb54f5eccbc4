/** The messages of the route protocol, as values: what is left of them after decoding. */
module Wire {
  import opened Collections

  type PeerId = nat
  type Version = nat
  type SessionId = nat
  type Millis = nat

  /** The relay's own id in every group. */
  const MY_PEER_ID: PeerId := 10000001

  /** `profile` stands for the fields the relay stores and forwards without reading. */
  datatype PeerInfo = PeerInfo(
    peerId: PeerId,
    version: Version,
    lastUpdate: Option<nat>,
    networkLength: nat,
    routeId: nat,
    profile: string)

  datatype PeerIdVersion = PeerIdVersion(peerId: PeerId, version: Version)

  /** Row-major adjacency bits over `peerIds`. */
  datatype ConnBitmap = ConnBitmap(peerIds: seq<PeerIdVersion>, bytes: seq<bv8>)

  datatype ConnEntry = ConnEntry(peerId: Option<PeerId>, connected: seq<PeerId>)

  datatype ConnInfo =
    | NoConnInfo
    | Bitmap(bitmap: ConnBitmap)
    | PeerList(entries: seq<ConnEntry>)

  datatype ForeignNetwork = ForeignNetwork(peerIds: seq<PeerId>, lastUpdate: nat, version: nat)

  datatype SyncRequest = SyncRequest(
    myPeerId: PeerId,
    mySessionId: SessionId,
    isInitiator: bool,
    peerInfos: Option<seq<PeerInfo>>,
    connInfo: ConnInfo,
    foreign: Option<ForeignNetwork>)

  datatype SyncResponse = SyncResponse(isInitiator: bool, sessionId: SessionId)
}
