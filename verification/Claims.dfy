/** What the relay stores of the connections a peer claims, told from the bytes and lists it receives. */
module Claims {
  import opened Collections
  import opened Wire
  import opened BitMatrix
  import opened RouteModel
  import opened GraphTheorems

  /** Bit k of a byte string, lowest bit first. */
  predicate BitIsSet(bytes: seq<bv8>, k: nat) {
    k / 8 < |bytes| && (bytes[k / 8] >> (k % 8)) & 1 == 1
  }

  /** The bit in row r and column c of a bitmap, row after row. */
  predicate IsSetAt(b: ConnBitmap, r: nat, c: nat) {
    BitIsSet(b.bytes, r * |b.peerIds| + c)
  }

  lemma BitsAgree(bytes: seq<bv8>, k: nat)
    ensures BitAt(bytes, k) <==> BitIsSet(bytes, k)
  {
  }

  lemma CellIsSet(b: ConnBitmap, r: nat, c: nat)
    ensures CellAt(b.bytes, |b.peerIds|, r, c) <==> IsSetAt(b, r, c)
  {
    hide BitAt, BitIsSet;
    BitsAgree(b.bytes, r * |b.peerIds| + c);
  }

  /** The first place at which a list names the peer. */
  predicate IsFirstPlace(names: seq<Option<PeerId>>, p: PeerId, i: nat) {
    i < |names| && names[i] == Some(p) && forall j | 0 <= j < i :: names[j] != Some(p)
  }

  function NamesOf(b: ConnBitmap): seq<Option<PeerId>> {
    seq(|b.peerIds|, i requires 0 <= i < |b.peerIds| => Some(b.peerIds[i].peerId))
  }

  function OwnersOf(entries: seq<ConnEntry>): seq<Option<PeerId>> {
    seq(|entries|, i requires 0 <= i < |entries| => entries[i].peerId)
  }

  /** What a peer may claim: a connection to a connected peer other than itself and the relay. */
  predicate MayClaim(g: Group, p: PeerId, q: PeerId) {
    q in g.peers && q != p && q != 10000001
  }

  /** A column of the peer's row is set and names q. */
  ghost predicate RowNames(b: ConnBitmap, row: nat, q: PeerId) {
    exists c | 0 <= c < |b.peerIds| :: b.peerIds[c].peerId == q && IsSetAt(b, row, c)
  }

  lemma RowDecodes(b: ConnBitmap, row: nat, q: PeerId)
    ensures q in DecodedRow(b, row) <==> RowNames(b, row, q)
  {
    hide CellAt, IsSetAt;
    forall c | 0 <= c < |b.peerIds| ensures CellAt(b.bytes, |b.peerIds|, row, c) <==> IsSetAt(b, row, c) {
      CellIsSet(b, row, c);
    }
  }

  lemma OthersKeepReports(g: Group, p: PeerId, info: ConnInfo, a: PeerId, q: PeerId)
    requires a != p
    ensures Reports(ConnsUpdated(g, p, info).connections, a, q) <==> Reports(g.connections, a, q)
  {
  }

  /**
   * After a bitmap from p, p reports exactly the connected peers, other than itself and the relay, that its
   * own row names; the row is that of the first place naming p. Nobody else's reports change.
   */
  lemma BitmapIsStoredByRow(g: Group, p: PeerId, b: ConnBitmap, row: nat, q: PeerId)
    requires IsFirstPlace(NamesOf(b), p, row)
    ensures Reports(ConnsUpdated(g, p, Bitmap(b)).connections, p, q) <==> RowNames(b, row, q) && MayClaim(g, p, q)
  {
    var position := PositionOf(b.peerIds, p);
    assert position == Some(row) by {
      assert NamesOf(b)[row] == Some(b.peerIds[row].peerId);
      assert forall j | 0 <= j < row :: NamesOf(b)[j] == Some(b.peerIds[j].peerId);
    }
    RowDecodes(b, row, q);
    OneReportChanges(g, p, Bitmap(b), p, q);
  }

  /** A bitmap that does not name its sender takes all of the sender's reports away. */
  lemma BitmapWithoutSender(g: Group, p: PeerId, b: ConnBitmap, q: PeerId)
    requires forall i | 0 <= i < |b.peerIds| :: b.peerIds[i].peerId != p
    ensures !Reports(ConnsUpdated(g, p, Bitmap(b)).connections, p, q)
  {
    OneReportChanges(g, p, Bitmap(b), p, q);
  }

  /** Any relation, symmetric or not, drawn over distinct ids: p comes to report what the relation says of p. */
  lemma RelationIsStored(g: Group, p: PeerId, b: ConnBitmap, related: (PeerId, PeerId) -> bool, q: PeerId)
    requires forall i, j | 0 <= i < j < |b.peerIds| :: b.peerIds[i].peerId != b.peerIds[j].peerId
    requires forall r: nat, c: nat | r < |b.peerIds| && c < |b.peerIds| ::
               IsSetAt(b, r, c) <==> related(b.peerIds[r].peerId, b.peerIds[c].peerId)
    ensures Reports(ConnsUpdated(g, p, Bitmap(b)).connections, p, q) <==>
            && (exists i | 0 <= i < |b.peerIds| :: b.peerIds[i].peerId == p)
            && (exists i | 0 <= i < |b.peerIds| :: b.peerIds[i].peerId == q)
            && related(p, q) && MayClaim(g, p, q)
  {
    hide BitIsSet, RowNames, MayClaim, Reports, ConnsUpdated;
    if i :| 0 <= i < |b.peerIds| && b.peerIds[i].peerId == p {
      OnlyPlaceIsFirst(b, p, i);
      BitmapIsStoredByRow(g, p, b, i, q);
      RowOfRelation(b, i, related, q);
    } else {
      BitmapWithoutSender(g, p, b, q);
    }
  }

  lemma OnlyPlaceIsFirst(b: ConnBitmap, p: PeerId, i: nat)
    requires forall i, j | 0 <= i < j < |b.peerIds| :: b.peerIds[i].peerId != b.peerIds[j].peerId
    requires i < |b.peerIds| && b.peerIds[i].peerId == p
    ensures IsFirstPlace(NamesOf(b), p, i)
  {
    assert forall j | 0 <= j <= i :: NamesOf(b)[j] == Some(b.peerIds[j].peerId);
  }

  lemma RowOfRelation(b: ConnBitmap, row: nat, related: (PeerId, PeerId) -> bool, q: PeerId)
    requires row < |b.peerIds|
    requires forall r: nat, c: nat | r < |b.peerIds| && c < |b.peerIds| ::
               IsSetAt(b, r, c) <==> related(b.peerIds[r].peerId, b.peerIds[c].peerId)
    ensures RowNames(b, row, q) <==>
            (exists i | 0 <= i < |b.peerIds| :: b.peerIds[i].peerId == q) && related(b.peerIds[row].peerId, q)
  {
    hide BitIsSet;
    if i :| 0 <= i < |b.peerIds| && b.peerIds[i].peerId == q {
      assert IsSetAt(b, row, i) <==> related(b.peerIds[row].peerId, q);
    }
  }

  lemma {:induction false} FirstEntryIsListed(entries: seq<ConnEntry>, p: PeerId, i: nat)
    requires IsFirstPlace(OwnersOf(entries), p, i)
    ensures ListedFor(entries, p) == entries[i].connected
  {
    assert forall j | 0 <= j <= i :: OwnersOf(entries)[j] == entries[j].peerId;
    if i > 0 {
      assert OwnersOf(entries[1..]) == OwnersOf(entries)[1..];
      assert OwnersOf(entries)[0] != Some(p);
      FirstEntryIsListed(entries[1..], p, i - 1);
    }
  }

  lemma {:induction false} NoEntryIsListed(entries: seq<ConnEntry>, p: PeerId)
    requires forall i | 0 <= i < |entries| :: entries[i].peerId != Some(p)
    ensures ListedFor(entries, p) == []
  {
    if entries != [] {
      NoEntryIsListed(entries[1..], p);
    }
  }

  /** After a list from p, p reports what the first entry naming p lists, and nothing if there is none. */
  lemma ListIsStored(g: Group, p: PeerId, entries: seq<ConnEntry>, q: PeerId)
    ensures forall i: nat | IsFirstPlace(OwnersOf(entries), p, i) ::
              Reports(ConnsUpdated(g, p, PeerList(entries)).connections, p, q) <==>
              q in entries[i].connected && MayClaim(g, p, q)
    ensures (forall i | 0 <= i < |entries| :: entries[i].peerId != Some(p)) ==>
            !Reports(ConnsUpdated(g, p, PeerList(entries)).connections, p, q)
  {
    OneReportChanges(g, p, PeerList(entries), p, q);
    forall i: nat | IsFirstPlace(OwnersOf(entries), p, i)
      ensures Reports(ConnsUpdated(g, p, PeerList(entries)).connections, p, q) <==>
              q in entries[i].connected && MayClaim(g, p, q)
    {
      FirstEntryIsListed(entries, p, i);
    }
    if forall i | 0 <= i < |entries| :: entries[i].peerId != Some(p) {
      NoEntryIsListed(entries, p);
    }
  }

  /** A request without connections leaves the reports as they are. */
  lemma SilenceIsNoReport(g: Group, p: PeerId)
    ensures ConnsUpdated(g, p, NoConnInfo) == g && !ConnsChange(g, p, NoConnInfo)
  {
  }

  // ---- the graph that is sent, told from its bytes ----

  /** The ids of a graph: the connected peers, the relay and the target, once each, ascending, with their versions. */
  lemma GraphNamesExactly(g: Group, t: PeerId)
    ensures var ids := BitmapFor(g, t).peerIds;
            && (forall i, j | 0 <= i < j < |ids| :: ids[i].peerId < ids[j].peerId)
            && (forall p, v :: PeerIdVersion(p, v) in ids <==>
                  (p in g.peers || p == 10000001 || p == t) && v == if p in g.connVersions then g.connVersions[p]
                    else 1)
  {
    var ids := RelevantPeers(g, t);
    assert forall i | 0 <= i < |ids| :: BitmapFor(g, t).peerIds[i].peerId == ids[i];
    forall p, v
      ensures PeerIdVersion(p, v) in BitmapFor(g, t).peerIds <==>
              (p in g.peers || p == 10000001 || p == t) && v == if p in g.connVersions then g.connVersions[p] else 1
    {
      BitmapShowsVersion(g, t, p, v);
    }
  }

  /** An edge of the graph as it is sent. */
  predicate IsEdge(conns: map<PeerId, set<PeerId>>, p: PeerId, q: PeerId) {
    p == q || p == 10000001 || q == 10000001 || (p in conns && q in conns[p]) || (q in conns && p in conns[q])
  }

  /** Bit by bit: the diagonal, the relay's row and column, the edges either end reports; and nothing else. */
  lemma GraphBitsExactly(g: Group, t: PeerId, b: ConnBitmap, r: nat, c: nat)
    requires b == BitmapFor(g, t) && r < |b.peerIds| && c < |b.peerIds|
    ensures IsSetAt(b, r, c) <==> IsEdge(g.connections, b.peerIds[r].peerId, b.peerIds[c].peerId)
  {
    hide BitmapFor, RelevantPeers, IsSetAt, CellAt, Linked, IsEdge;
    var ids := RelevantPeers(g, t);
    BitmapIsExact(g, t);
    GraphShape(g, t);
    CellIsSet(b, r, c);
    LinksAreEdges(g.connections, ids[r], ids[c]);
    assert CellAt(b.bytes, |ids|, r, c) <==> Linked(g.connections, ids[r], ids[c]);
  }

  lemma LinksAreEdges(conns: map<PeerId, set<PeerId>>, p: PeerId, q: PeerId)
    ensures Linked(conns, p, q) <==> IsEdge(conns, p, q)
  {
  }

  lemma GraphShape(g: Group, t: PeerId)
    ensures var b, ids := BitmapFor(g, t), RelevantPeers(g, t);
            |b.peerIds| == |ids| && forall i | 0 <= i < |ids| :: b.peerIds[i].peerId == ids[i]
  {
  }

  lemma GraphPaddingIsClear(g: Group, t: PeerId, k: nat)
    ensures var b := BitmapFor(g, t);
            |b.bytes| == (|b.peerIds| * |b.peerIds| + 7) / 8 &&
              (k >= |b.peerIds| * |b.peerIds| ==> !BitIsSet(b.bytes, k))
  {
    BitmapIsExact(g, t);
    BitsAgree(BitmapFor(g, t).bytes, k);
  }
}
