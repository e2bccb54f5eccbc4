/**
 * The peer center: every peer reports whom it is connected to, and asks for the map of all reports.
 * The hash behind the digest is a parameter: a function of the sorted list of pairs.
 */
module PeerCenter {
  import opened Orders
  import opened Collections
  import opened Wire

  datatype Pair = Pair(src: PeerId, dst: PeerId)

  datatype DirectInfo = DirectInfo(latencyMs: int)

  datatype Entry = Entry(info: DirectInfo, updateTime: Millis)

  datatype GroupData = GroupData(pairs: map<Pair, Entry>, reportTime: map<PeerId, Millis>, digest: nat)

  type PeerMap = map<PeerId, map<PeerId, DirectInfo>>

  datatype MapReply = MapReply(peerMap: PeerMap, digest: Option<nat>)

  type Hash = seq<Pair> -> nat

  const NO_DATA := GroupData(map[], map[], 0)

  // ---- pairs in order ----

  predicate Less(p: Pair, q: Pair) {
    p.src < q.src || (p.src == q.src && p.dst < q.dst)
  }

  lemma LessIsOrder()
    ensures IsOrder(Less)
  {
  }

  /** The pairs of a set in ascending order of source, then destination. */
  ghost function SortedPairs(s: set<Pair>): (r: seq<Pair>)
    ensures Sorts(Less, r, s)
  {
    assert exists r :: Sorts(Less, r, s) by {
      LessIsOrder();
      assert Sorts(Less, SortedBy(Less, s), s);
    }
    var r :| Sorts(Less, r, s);
    r
  }

  /** Sorts the keys of the pair map. */
  method SortKeys(keys: set<Pair>) returns (r: seq<Pair>)
    ensures r == SortedPairs(keys)
    ensures forall p :: p in r <==> p in keys
    ensures forall i, j | 0 <= i < j < |r| :: r[i].src < r[j].src || (r[i].src == r[j].src && r[i].dst < r[j].dst)
  {
    LessIsOrder();
    r := SortSet(Less, keys);
    SortingIsUnique(Less, r, SortedPairs(keys), keys);
  }

  // ---- what the operations do ----

  /** The pairs of one source with the given infos. */
  function Row(src: PeerId, direct: map<PeerId, DirectInfo>, now: Millis): map<Pair, Entry> {
    map p | p in (set d | d in direct :: Pair(src, d)) :: Entry(direct[p.dst], now)
  }

  ghost function DigestOf(hash: Hash, pairs: map<Pair, Entry>): nat {
    hash(SortedPairs(pairs.Keys))
  }

  ghost function Reported(data: GroupData, hash: Hash, src: PeerId, direct: map<PeerId, DirectInfo>,
                          now: Millis): GroupData {
    var pairs := data.pairs + Row(src, direct, now);
    GroupData(pairs, data.reportTime[src := now], DigestOf(hash, pairs))
  }

  predicate IsNotModified(data: GroupData, digest: nat) {
    digest == data.digest && digest != 0
  }

  /** A nested map holds just the given pairs, and no empty inner map. */
  ghost predicate Nests(peerMap: PeerMap, pairs: map<Pair, Entry>) {
    && (forall s, d :: s in peerMap && d in peerMap[s] <==> Pair(s, d) in pairs)
    && (forall s, d | s in peerMap && d in peerMap[s] :: peerMap[s][d] == pairs[Pair(s, d)].info)
    && (forall s | s in peerMap :: peerMap[s] != map[])
  }

  /** A time after now reads as a huge unsigned interval ago, so it is not recent. */
  predicate IsRecent(time: Millis, ttl: Millis, now: Millis) {
    time <= now && now - time < ttl
  }

  function Recent<K>(times: map<K, Millis>, ttl: Millis, now: Millis): map<K, Millis> {
    map k | k in times && IsRecent(times[k], ttl, now) :: times[k]
  }

  function RecentPairs(pairs: map<Pair, Entry>, ttl: Millis, now: Millis): map<Pair, Entry> {
    map p | p in pairs && IsRecent(pairs[p].updateTime, ttl, now) :: pairs[p]
  }

  function Cleaned(data: GroupData, ttl: Millis, now: Millis): GroupData {
    data.(pairs := RecentPairs(data.pairs, ttl, now), reportTime := Recent(data.reportTime, ttl, now))
  }

  predicate IsEmpty(data: GroupData) {
    data.pairs == map[] && data.reportTime == map[]
  }

  /** A group with nothing left goes, and its digest with it. */
  function CleanedOrGone(data: GroupData, ttl: Millis, now: Millis): GroupData {
    var cleaned := Cleaned(data, ttl, now);
    if IsEmpty(cleaned) then NO_DATA else cleaned
  }

  // ---- the program ----

  class PeerCenter {
    const hash: Hash
    var groups: map<string, GroupData>

    constructor (hash: Hash)
      ensures groups == map[] && this.hash == hash
    {
      this.hash := hash;
      groups := map[];
    }

    method CalcDigestInternal(pairs: map<Pair, Entry>) returns (digest: nat)
      ensures digest == DigestOf(hash, pairs)
    {
      var keys := SortKeys(pairs.Keys);
      digest := hash(keys);
    }

    /** Takes in a report, pair by pair, and computes the digest anew. */
    method ReportPeers(key: string, src: PeerId, peers: Option<map<PeerId, DirectInfo>>, now: Millis)
      modifies this
      ensures var direct := if peers.Some? then peers.value else map[];
              groups == old(groups)[key := Reported(Get(old(groups), key, NO_DATA), hash, src, direct, now)]
    {
      var direct := if peers.Some? then peers.value else map[];
      var data := Get(groups, key, NO_DATA);
      var pairs := InsertRow(data.pairs, src, direct, now);
      var digest := CalcDigestInternal(pairs);
      groups := groups[key := GroupData(pairs, data.reportTime[src := now], digest)];
    }

    /** Answers with the nested map of all pairs, or with nothing when the asker's digest is current. */
    method GetGlobalPeerMap(key: string, digest: nat) returns (reply: MapReply)
      modifies this
      ensures groups == old(groups)[key := Get(old(groups), key, NO_DATA)]
      ensures var data := Get(old(groups), key, NO_DATA);
              if digest == data.digest != 0 then reply == MapReply(map[], None)
              else reply.digest == Some(data.digest) && Nests(reply.peerMap, data.pairs)
    {
      var data := Get(groups, key, NO_DATA);
      groups := groups[key := data];
      if digest == data.digest && digest != 0 {
        return MapReply(map[], None);
      }
      var peerMap := NestPairs(data.pairs);
      reply := MapReply(peerMap, Some(data.digest));
    }

    /** Drops what is too old, in every group, and groups with nothing left; digests stay as they are. */
    method CleanOutdated(ttlSec: nat, now: Millis)
      modifies this
      ensures forall k :: k in groups ==> k in old(groups) && !IsEmpty(groups[k])
      ensures forall k :: Get(groups, k, NO_DATA) == CleanedOrGone(Get(old(groups), k, NO_DATA), ttlSec * 1000, now)
    {
      var ttl := ttlSec * 1000;
      groups := map k | k in groups && !IsEmpty(Cleaned(groups[k], ttl, now)) :: Cleaned(groups[k], ttl, now);
    }

    /** The one digest, unless it is 0, with which asking for the map now is answered "not modified". */
    method CalcDigest(key: string) returns (digest: nat)
      ensures forall d :: IsNotModified(Get(groups, key, NO_DATA), d) <==> d == digest != 0
    {
      digest := if key in groups then groups[key].digest else 0;
    }
  }

  /** Inserts the pairs of one source, newer entries taking the place of older ones. */
  method InsertRow(before: map<Pair, Entry>, src: PeerId, direct: map<PeerId, DirectInfo>, now: Millis)
    returns (pairs: map<Pair, Entry>)
    ensures pairs == before + Row(src, direct, now)
  {
    pairs := before;
    var rest := direct.Keys;
    while rest != {}
      invariant rest <= direct.Keys
      invariant forall p :: p in pairs <==> p in before || (p.src == src && p.dst in direct.Keys - rest)
      invariant forall p | p in pairs ::
                  pairs[p] == if p.src == src && p.dst in direct.Keys - rest then Entry(direct[p.dst], now)
                    else before[p]
      decreases rest
    {
      var d :| d in rest;
      pairs := pairs[Pair(src, d) := Entry(direct[d], now)];
      rest := rest - {d};
    }
  }

  /** Files every pair under its source. */
  method NestPairs(pairs: map<Pair, Entry>) returns (peerMap: PeerMap)
    ensures Nests(peerMap, pairs)
  {
    peerMap := map[];
    var rest := pairs.Keys;
    while rest != {}
      invariant rest <= pairs.Keys
      invariant Nests(peerMap, map p | p in pairs && p !in rest :: pairs[p])
      decreases rest
    {
      var p :| p in rest;
      var inner := Get(peerMap, p.src, map[]);
      peerMap := peerMap[p.src := inner[p.dst := pairs[p].info]];
      rest := rest - {p};
    }
    assert (map p | p in pairs && p !in rest :: pairs[p]) == pairs;
  }
}
