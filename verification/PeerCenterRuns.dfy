/** What the peer center keeps over whole runs of reports, questions and cleanups of one group. */
module PeerCenterRuns {
  import opened Collections
  import opened Wire
  import opened PeerCenter

  datatype CenterEvent =
    | Report(src: PeerId, direct: map<PeerId, DirectInfo>, now: Millis)
    | Ask(digest: nat)
    | CleanUp(ttl: Millis, now: Millis)

  ghost function After(data: GroupData, hash: Hash, e: CenterEvent): GroupData {
    match e
    case Report(src, direct, now) => Reported(data, hash, src, direct, now)
    case Ask(_) => data
    case CleanUp(ttl, now) => CleanedOrGone(data, ttl, now)
  }

  ghost function RunOf(hash: Hash, es: seq<CenterEvent>): GroupData {
    if es == [] then NO_DATA else After(RunOf(hash, es[..|es| - 1]), hash, es[|es| - 1])
  }

  // ---- the pair map is the log, read from its end ----

  predicate Names(e: CenterEvent, p: Pair) {
    e.Report? && e.src == p.src && p.dst in e.direct
  }

  predicate Expires(e: CenterEvent, time: Millis) {
    e.CleanUp? && (e.now - time >= e.ttl || time > e.now)
  }

  /** The last report that names a pair, if no cleanup has found it too old. */
  ghost predicate IsSource(es: seq<CenterEvent>, i: int, p: Pair) {
    0 <= i < |es| && Names(es[i], p) && forall j | i < j < |es| :: !Names(es[j], p) && !Expires(es[j], es[i].now)
  }

  lemma SourceOneMore(es: seq<CenterEvent>, i: int, p: Pair)
    requires es != []
    ensures var n := |es| - 1;
            IsSource(es, i, p) <==>
            (i == n && Names(es[n], p)) ||
            (IsSource(es[..n], i, p) && !Names(es[n], p) && !Expires(es[n], es[i].now))
  {
    var n := |es| - 1;
    assert forall j | 0 <= j < n :: es[..n][j] == es[j];
    if IsSource(es[..n], i, p) && !Names(es[n], p) && !Expires(es[n], es[i].now) {
      assert forall j | i < j < |es| :: j == n || es[j] == es[..n][j];
    }
    if IsSource(es, i, p) && i < n {
      assert IsSource(es[..n], i, p);
    }
  }

  /** A pair's entry is what the last report naming it said, and is there just as long as no cleanup expired it. */
  lemma {:induction false} PairsFollowTheLog(hash: Hash, es: seq<CenterEvent>, p: Pair)
    ensures p in RunOf(hash, es).pairs <==> exists i :: IsSource(es, i, p)
    ensures forall i | IsSource(es, i, p) :: p in RunOf(hash, es).pairs &&
                                             RunOf(hash, es).pairs[p] == Entry(es[i].direct[p.dst], es[i].now)
  {
    if es != [] {
      var n := |es| - 1;
      PairsFollowTheLog(hash, es[..n], p);
      forall i ensures IsSource(es, i, p) <==>
                       (i == n && Names(es[n], p)) ||
                       (IsSource(es[..n], i, p) && !Names(es[n], p) && !Expires(es[n], es[i].now))
      {
        SourceOneMore(es, i, p);
      }
      PairAfter(RunOf(hash, es[..n]), hash, es[n], p);
    }
  }

  lemma PairAfter(data: GroupData, hash: Hash, e: CenterEvent, p: Pair)
    ensures var after := After(data, hash, e);
            if Names(e, p) then p in after.pairs && after.pairs[p] == Entry(e.direct[p.dst], e.now)
            else
              && (p in after.pairs <==> p in data.pairs && !Expires(e, data.pairs[p].updateTime))
              && (p in after.pairs ==> after.pairs[p] == data.pairs[p])
  {
  }

  /** The time of a peer's last report, if no cleanup has found it too old. */
  function ReportedAt(es: seq<CenterEvent>, src: PeerId): Option<Millis> {
    if es == [] then None
    else
      var before, e := ReportedAt(es[..|es| - 1], src), es[|es| - 1];
      match e
      case Report(p, _, now) => if p == src then Some(now) else before
      case Ask(_) => before
      case CleanUp(_, _) => if before.Some? && Expires(e, before.value) then None else before
  }

  lemma ReportTimeAfter(data: GroupData, hash: Hash, e: CenterEvent, src: PeerId)
    ensures var times, times' := data.reportTime, After(data, hash, e).reportTime;
            match e
            case Report(p, _, now) =>
              if p == src then src in times' && times'[src] == now
              else (src in times' <==> src in times) && (src in times' ==> times'[src] == times[src])
            case _ =>
              && (src in times' <==> src in times && !Expires(e, times[src]))
              && (src in times' ==> times'[src] == times[src])
  {
    hide DigestOf;
  }

  /** Over any run the report times are those of the log; a peer that is silent counts as having reported. */
  lemma {:induction false} ReportTimesFollowTheLog(hash: Hash, es: seq<CenterEvent>, src: PeerId)
    ensures var times := RunOf(hash, es).reportTime;
            && (src in times <==> ReportedAt(es, src).Some?)
            && (src in times ==> ReportedAt(es, src) == Some(times[src]))
  {
    hide After;
    if es != [] {
      ReportTimesFollowTheLog(hash, es[..|es| - 1], src);
      ReportTimeAfter(RunOf(hash, es[..|es| - 1]), hash, es[|es| - 1], src);
    }
  }

  // ---- the digest and the set of pairs ----

  ghost predicate IsInjective(hash: Hash) {
    forall a, b :: hash(a) == hash(b) ==> a == b
  }

  /** A list of pairs tells its set. */
  lemma SortedPairsTell(s: set<Pair>, t: set<Pair>)
    ensures SortedPairs(s) == SortedPairs(t) <==> s == t
  {
    if SortedPairs(s) == SortedPairs(t) {
      assert forall p :: p in s <==> p in t;
    }
  }

  /** The digest stands for the pairs stored, unless there never was a report since the group was last empty. */
  ghost predicate DigestIsCurrent(data: GroupData, hash: Hash) {
    data == NO_DATA || data.digest == DigestOf(hash, data.pairs)
  }

  /** No pair is too old yet, or else every pair and every report is. */
  predicate ExpiresNoneOrAll(data: GroupData, ttl: Millis, now: Millis) {
    || (forall p | p in data.pairs :: IsRecent(data.pairs[p].updateTime, ttl, now))
    || ((forall p | p in data.pairs :: !IsRecent(data.pairs[p].updateTime, ttl, now)) &&
        (forall p | p in data.reportTime :: !IsRecent(data.reportTime[p], ttl, now)))
  }

  lemma CleanupEffect(data: GroupData, ttl: Millis, now: Millis)
    ensures var after := CleanedOrGone(data, ttl, now);
            after == NO_DATA || after.pairs.Keys == data.pairs.Keys <==> ExpiresNoneOrAll(data, ttl, now)
  {
    var cleaned := Cleaned(data, ttl, now);
    if cleaned.pairs.Keys == data.pairs.Keys {
      assert forall p | p in data.pairs :: p in cleaned.pairs;
    }
    if cleaned.pairs == map[] {
      assert forall p | p in data.pairs :: p !in cleaned.pairs;
    }
    if cleaned.reportTime == map[] {
      assert forall p | p in data.reportTime :: p !in cleaned.reportTime;
    }
  }

  /** Every step keeps the digest current, but for a cleanup that finds some pairs too old and not the whole group. */
  lemma DigestStaysCurrent(data: GroupData, hash: Hash, e: CenterEvent)
    requires IsInjective(hash) && DigestIsCurrent(data, hash)
    ensures DigestIsCurrent(After(data, hash, e), hash) <==> (e.CleanUp? ==> ExpiresNoneOrAll(data, e.ttl, e.now))
  {
    SortedPairsTell(After(data, hash, e).pairs.Keys, data.pairs.Keys);
    if e.CleanUp? {
      CleanupEffect(data, e.ttl, e.now);
    }
  }

  /** Every cleanup of a run expires nothing, or the whole group. */
  ghost predicate DropsNoneOrAll(hash: Hash, es: seq<CenterEvent>) {
    forall i | 0 <= i < |es| && es[i].CleanUp? :: ExpiresNoneOrAll(RunOf(hash, es[..i]), es[i].ttl, es[i].now)
  }

  lemma {:induction false} DigestsFollowThePairs(hash: Hash, es: seq<CenterEvent>)
    requires IsInjective(hash) && DropsNoneOrAll(hash, es)
    ensures DigestIsCurrent(RunOf(hash, es), hash)
  {
    hide After, ExpiresNoneOrAll, DigestOf;
    if es != [] {
      PrefixDropsNoneOrAll(hash, es, |es| - 1);
      DigestsFollowThePairs(hash, es[..|es| - 1]);
      DigestStaysCurrent(RunOf(hash, es[..|es| - 1]), hash, es[|es| - 1]);
    }
  }

  lemma PrefixDropsNoneOrAll(hash: Hash, es: seq<CenterEvent>, n: nat)
    requires DropsNoneOrAll(hash, es) && n <= |es|
    ensures DropsNoneOrAll(hash, es[..n])
  {
    forall i | 0 <= i < n && es[..n][i].CleanUp?
      ensures ExpiresNoneOrAll(RunOf(hash, es[..n][..i]), es[..n][i].ttl, es[..n][i].now)
    {
      assert es[..n][..i] == es[..i];
    }
  }

  /**
   * "Not modified" means what it says: a client that asks with the digest of an earlier reply is
   * told so just when the group still stores the same set of pairs.
   */
  lemma NotModifiedIsExact(hash: Hash, es: seq<CenterEvent>, i: nat)
    requires IsInjective(hash) && DropsNoneOrAll(hash, es) && i <= |es|
    ensures var earlier, later := RunOf(hash, es[..i]), RunOf(hash, es);
            IsNotModified(later, earlier.digest) <==>
            earlier.digest != 0 && later != NO_DATA && later.pairs.Keys == earlier.pairs.Keys
  {
    var earlier, later := RunOf(hash, es[..i]), RunOf(hash, es);
    PrefixDropsNoneOrAll(hash, es, i);
    DigestsFollowThePairs(hash, es[..i]);
    DigestsFollowThePairs(hash, es);
    SortedPairsTell(earlier.pairs.Keys, later.pairs.Keys);
  }

  /** Two peers report each other, and a cleanup follows. */
  function TwoReportsAndCleanup(a: PeerId, b: PeerId, info: DirectInfo, first: Millis, second: Millis,
                                ttl: Millis, now: Millis): (es: seq<CenterEvent>)
    ensures |es| == 3
  {
    [Report(a, map[b := info], first), Report(b, map[a := info], second), CleanUp(ttl, now)]
  }

  /**
   * When the cleanup finds only the first report too old, the digest of before is still answered with
   * "not modified", though a pair is gone.
   */
  lemma PartialCleanupGoesUnseen(hash: Hash, a: PeerId, b: PeerId, info: DirectInfo, first: Millis, second: Millis,
                                 ttl: Millis, now: Millis)
    requires a != b && IsRecent(second, ttl, now) && !IsRecent(first, ttl, now) &&
             hash(SortedPairs({Pair(a, b), Pair(b, a)})) != 0
    ensures var es := TwoReportsAndCleanup(a, b, info, first, second, ttl, now);
            var earlier, later := RunOf(hash, es[..2]), RunOf(hash, es);
            && earlier.pairs.Keys == {Pair(a, b), Pair(b, a)} && later.pairs.Keys == {Pair(b, a)}
            && IsNotModified(later, earlier.digest)
  {
    hide TwoReportsAndCleanup, TwoReported, CleanedOrGone, IsNotModified, RunOf, SortedPairs;
    RunsOfTwoReports(hash, a, b, info, first, second, ttl, now);
    TwoReports(hash, a, b, info, first, second);
    OneExpires(TwoReported(hash, a, b, info, first, second), a, b, info, first, second, ttl, now);
  }

  ghost function TwoReported(hash: Hash, a: PeerId, b: PeerId, info: DirectInfo, first: Millis,
                             second: Millis): GroupData {
    Reported(Reported(NO_DATA, hash, a, map[b := info], first), hash, b, map[a := info], second)
  }

  lemma RunsOfTwoReports(hash: Hash, a: PeerId, b: PeerId, info: DirectInfo, first: Millis, second: Millis,
                         ttl: Millis, now: Millis)
    ensures var es := TwoReportsAndCleanup(a, b, info, first, second, ttl, now);
            var two := TwoReported(hash, a, b, info, first, second);
            RunOf(hash, es[..2]) == two && RunOf(hash, es) == CleanedOrGone(two, ttl, now)
  {
    hide Reported, CleanedOrGone, RunOf;
    var es := TwoReportsAndCleanup(a, b, info, first, second, ttl, now);
    RunOneMore(hash, es, 0);
    RunOneMore(hash, es, 1);
    RunOneMore(hash, es, 2);
    assert es[..3] == es;
  }

  lemma RunOneMore(hash: Hash, es: seq<CenterEvent>, i: nat)
    requires i < |es|
    ensures RunOf(hash, es[..i + 1]) == After(RunOf(hash, es[..i]), hash, es[i]) && RunOf(hash, es[..0]) == NO_DATA
  {
    hide After;
    assert es[..i + 1][..i] == es[..i];
  }

  lemma TwoReports(hash: Hash, a: PeerId, b: PeerId, info: DirectInfo, first: Millis, second: Millis)
    requires a != b
    ensures var two := TwoReported(hash, a, b, info, first, second);
            && two.pairs == map[Pair(a, b) := Entry(info, first), Pair(b, a) := Entry(info, second)]
            && two.digest == hash(SortedPairs({Pair(a, b), Pair(b, a)}))
  {
    hide SortedPairs, Reported;
    OneReport(NO_DATA, hash, a, b, info, first);
    OneReport(Reported(NO_DATA, hash, a, map[b := info], first), hash, b, a, info, second);
    assert map[Pair(a, b) := Entry(info, first), Pair(b, a) := Entry(info, second)].Keys == {Pair(a, b), Pair(b, a)};
  }

  lemma OneReport(data: GroupData, hash: Hash, a: PeerId, b: PeerId, info: DirectInfo, now: Millis)
    ensures var after := Reported(data, hash, a, map[b := info], now);
            after.pairs == data.pairs[Pair(a, b) := Entry(info, now)] &&
              after.digest == hash(SortedPairs(after.pairs.Keys))
  {
    hide SortedPairs, Row;
    RowOfOne(a, b, info, now);
    SumOfOne(data.pairs, Pair(a, b), Entry(info, now));
  }

  lemma SumOfOne(pairs: map<Pair, Entry>, p: Pair, e: Entry)
    ensures pairs + map[p := e] == pairs[p := e]
  {
  }

  lemma OneExpires(two: GroupData, a: PeerId, b: PeerId, info: DirectInfo, first: Millis, second: Millis,
                   ttl: Millis, now: Millis)
    requires a != b && IsRecent(second, ttl, now) && !IsRecent(first, ttl, now) && two.digest != 0
    requires two.pairs == map[Pair(a, b) := Entry(info, first), Pair(b, a) := Entry(info, second)]
    ensures var later := CleanedOrGone(two, ttl, now);
            later.pairs.Keys == {Pair(b, a)} && IsNotModified(later, two.digest)
  {
    var kept := RecentPairs(two.pairs, ttl, now);
    assert kept.Keys == {Pair(b, a)};
    assert Pair(b, a) in kept;
  }

  lemma RowOfOne(a: PeerId, b: PeerId, info: DirectInfo, now: Millis)
    ensures Row(a, map[b := info], now) == map[Pair(a, b) := Entry(info, now)]
  {
  }

  /** A report changes the digest exactly when it names a new pair: new infos for known pairs go unseen. */
  lemma OnlyNewPairsAreSeen(data: GroupData, hash: Hash, src: PeerId, direct: map<PeerId, DirectInfo>, now: Millis)
    requires IsInjective(hash) && DigestIsCurrent(data, hash) && data != NO_DATA
    ensures Reported(data, hash, src, direct, now).digest == data.digest <==>
            forall d | d in direct :: Pair(src, d) in data.pairs
  {
    var after := Reported(data, hash, src, direct, now);
    SortedPairsTell(after.pairs.Keys, data.pairs.Keys);
    KeysAfterReport(data.pairs, src, direct, now);
  }

  lemma KeysAfterReport(pairs: map<Pair, Entry>, src: PeerId, direct: map<PeerId, DirectInfo>, now: Millis)
    ensures (pairs + Row(src, direct, now)).Keys == pairs.Keys <==> forall d | d in direct :: Pair(src, d) in pairs
  {
    var after := pairs + Row(src, direct, now);
    if after.Keys == pairs.Keys {
      forall d | d in direct ensures Pair(src, d) in pairs {
        assert Pair(src, d) in after.Keys;
      }
    } else {
      var p :| p in after.Keys && p !in pairs;
      assert p.dst in direct && p == Pair(src, p.dst);
    }
  }

  // ---- the reply ----

  /** The infos of a nested map, by pair. */
  function Flat(peerMap: PeerMap): map<Pair, DirectInfo> {
    map s, d | s in peerMap && d in peerMap[s] :: Pair(s, d) := peerMap[s][d]
  }

  function InfosOf(pairs: map<Pair, Entry>): map<Pair, DirectInfo> {
    map p | p in pairs :: pairs[p].info
  }

  /** A reply flattens back to the infos of all pairs stored. */
  lemma ReplyFlattensBack(peerMap: PeerMap, pairs: map<Pair, Entry>)
    requires Nests(peerMap, pairs)
    ensures Flat(peerMap) == InfosOf(pairs)
  {
    forall p ensures p in Flat(peerMap) <==> p in pairs {
      assert p == Pair(p.src, p.dst);
    }
  }

  /** The reply does not depend on the order in which the pairs were filed. */
  lemma NestingIsUnique(a: PeerMap, b: PeerMap, pairs: map<Pair, Entry>)
    requires Nests(a, pairs) && Nests(b, pairs)
    ensures a == b
  {
    InnerKeys(a, b, pairs);
    InnerKeys(b, a, pairs);
    forall s | s in a ensures s in b && a[s] == b[s] {
      assert forall d :: d in a[s] <==> d in b[s];
    }
  }

  lemma InnerKeys(a: PeerMap, b: PeerMap, pairs: map<Pair, Entry>)
    requires Nests(a, pairs) && Nests(b, pairs)
    ensures forall s | s in a :: s in b
  {
    forall s | s in a ensures s in b {
      assert a[s] != map[];
      var d :| d in a[s];
    }
  }
}
