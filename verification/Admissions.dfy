/** Who is admitted to which group, what the newcomer is told, and what is filed about it. */
module Admissions {
  import opened Collections
  import opened Wire
  import opened Signature
  import opened RouteModel
  import opened SyncRpc
  import opened PeerManager
  import opened Handshake
  import opened RoomModel
  import opened RoomSteps
  import opened RoomTheorems
  import opened RoomGroups
  import opened RoomEdges

  // ---- the group of an outcome ----

  /** Whatever the registries, two admissions are to one group exactly when name and digest agree. */
  lemma OutcomesShareGroup(d: Digests, req: HandshakeRequest, d': Digests, req': HandshakeRequest)
    requires OutcomeOf(d, req).Some? && OutcomeOf(d', req').Some?
    ensures OutcomeOf(d, req).value.groupKey == OutcomeOf(d', req').value.groupKey <==>
            req.networkName == req'.networkName && req.digest == req'.digest
  {
    if OutcomeOf(d, req).value.groupKey == OutcomeOf(d', req').value.groupKey {
      GroupKeyIsInjective(req.networkName, req.digest, req'.networkName, req'.digest);
    }
  }

  /** Hexadecimal text, digit by digit: the high half of a byte first. */
  lemma {:induction false} HexSpells(bytes: seq<bv8>, i: nat)
    requires i < |bytes|
    ensures var digits := "0123456789abcdef";
            && |Hex(bytes)| == 2 * |bytes|
            && Hex(bytes)[2 * i] == digits[bytes[i] as int / 16]
            && Hex(bytes)[2 * i + 1] == digits[bytes[i] as int % 16]
  {
    HalvesOfByte(bytes[0]);
    if i > 0 {
      HexSpells(bytes[1..], i - 1);
    } else if |bytes| > 1 {
      HexSpells(bytes[1..], 0);
    }
  }

  lemma HalvesOfByte(b: bv8)
    ensures (b >> 4) as int == b as int / 16 && (b & 15) as int == b as int % 16
  {
  }

  /** What an admission says: the id asked for, the name and the group, and the packet that answers. */
  lemma OutcomeIsAddressed(d: Digests, req: HandshakeRequest)
    requires OutcomeOf(d, req).Some?
    ensures var outcome := OutcomeOf(d, req).value;
            var reply := outcome.reply;
            && outcome.peerId == req.myPeerId && outcome.domainName == req.networkName
            && outcome.groupKey == req.networkName + ":" + Hex(req.digest)
            && reply.from == reply.myPeerId == 10000001 && reply.to == req.myPeerId
            && reply.magic == 0xd1e1a5e1 && reply.version == 1 && reply.features == ["node-server-v1"]
            && reply.networkName == "public_server"
            && |reply.digest| == 32 && forall i | 0 <= i < 32 :: reply.digest[i] == 0
  {
  }

  // ---- who is admitted, told from the log ----

  /** The first request for a name with the right magic number. */
  ghost predicate IsFirstFor(reqs: seq<HandshakeRequest>, j: nat, name: string) {
    && j < |reqs| && reqs[j].networkName == name && reqs[j].magic == 0xd1e1a5e1
    && forall k | 0 <= k < j :: reqs[k].networkName == name ==> reqs[k].magic != 0xd1e1a5e1
  }

  lemma FirstOneMore(reqs: seq<HandshakeRequest>, j: nat, name: string)
    requires reqs != []
    ensures var n := |reqs| - 1;
            IsFirstFor(reqs, j, name) <==>
            (IsFirstFor(reqs[..n], j, name) || (j == n && reqs[n].networkName == name && reqs[n].magic == 0xd1e1a5e1 &&
                                                forall k: nat :: !IsFirstFor(reqs[..n], k, name)))
  {
    var n := |reqs| - 1;
    assert forall k | 0 <= k < n :: reqs[..n][k] == reqs[k];
    if j == n && exists k: nat | k < n :: reqs[k].networkName == name && reqs[k].magic == 0xd1e1a5e1 {
      var k: nat :| k < n && reqs[k].networkName == name && reqs[k].magic == 0xd1e1a5e1;
      var _ := FirstBefore(reqs[..n], k, name);
    }
  }

  lemma {:induction false} FirstBefore(reqs: seq<HandshakeRequest>, k: nat, name: string) returns (j: nat)
    requires k < |reqs| && reqs[k].networkName == name && reqs[k].magic == 0xd1e1a5e1
    ensures IsFirstFor(reqs, j, name)
    decreases k
  {
    if IsFirstFor(reqs, k, name) {
      j := k;
    } else {
      var i: nat :| i < k && reqs[i].networkName == name && reqs[i].magic == 0xd1e1a5e1;
      j := FirstBefore(reqs, i, name);
    }
  }

  /** The digest on record for a name is that of the first request for it. */
  lemma {:induction false} RegistryFollowsLog(reqs: seq<HandshakeRequest>, name: string)
    ensures name in DigestsAfter(reqs) <==> exists j: nat :: IsFirstFor(reqs, j, name)
    ensures forall j: nat | IsFirstFor(reqs, j, name) ::
              name in DigestsAfter(reqs) && DigestsAfter(reqs)[name] == Hex(reqs[j].digest)
  {
    hide IsFirstFor, Hex;
    if reqs == [] {
      NoFirst(name);
    } else {
      var n := |reqs| - 1;
      RegistryFollowsLog(reqs[..n], name);
      forall j: nat
        ensures IsFirstFor(reqs, j, name) <==>
                (IsFirstFor(reqs[..n], j, name) ||
                 (j == n && reqs[n].networkName == name && reqs[n].magic == 0xd1e1a5e1 &&
                  forall k: nat :: !IsFirstFor(reqs[..n], k, name)))
      {
        FirstOneMore(reqs, j, name);
      }
      forall j: nat | IsFirstFor(reqs[..n], j, name) ensures j < n && reqs[..n][j] == reqs[j] {
        FirstIsInRange(reqs[..n], j, name);
      }
      if reqs[n].networkName == name && reqs[n].magic == 0xd1e1a5e1 &&
         (forall k: nat :: !IsFirstFor(reqs[..n], k, name)) {
        assert IsFirstFor(reqs, n, name);
      }
    }
  }

  lemma NoFirst(name: string)
    ensures forall j: nat :: !IsFirstFor([], j, name)
  {
  }

  lemma FirstIsInRange(reqs: seq<HandshakeRequest>, j: nat, name: string)
    requires IsFirstFor(reqs, j, name)
    ensures j < |reqs|
  {
  }

  /** A request is admitted exactly when its magic number is right and its digest is that of the first for its name. */
  lemma AdmittedByLog(reqs: seq<HandshakeRequest>, i: nat)
    requires i < |reqs|
    ensures OutcomeOf(DigestsAfter(reqs[..i]), reqs[i]).Some? <==>
            && reqs[i].magic == 0xd1e1a5e1
            && forall j: nat | IsFirstFor(reqs[..i], j, reqs[i].networkName) :: reqs[j].digest == reqs[i].digest
  {
    hide IsFirstFor, Hex;
    var name := reqs[i].networkName;
    RegistryFollowsLog(reqs[..i], name);
    forall j: nat | IsFirstFor(reqs[..i], j, name)
      ensures j < i && reqs[..i][j] == reqs[j]
      ensures j < i && (Hex(reqs[j].digest) == Hex(reqs[i].digest) <==> reqs[j].digest == reqs[i].digest)
    {
      FirstIsInRange(reqs[..i], j, name);
      if Hex(reqs[j].digest) == Hex(reqs[i].digest) {
        HexIsInjective(reqs[j].digest, reqs[i].digest);
      }
    }
  }

  /** Two admissions of one run are to one group exactly when they name the same network. */
  lemma OneGroupPerName(reqs: seq<HandshakeRequest>, i: nat, j: nat)
    requires i < j < |reqs|
    requires OutcomeOf(DigestsAfter(reqs[..i]), reqs[i]).Some? && OutcomeOf(DigestsAfter(reqs[..j]), reqs[j]).Some?
    ensures OutcomeOf(DigestsAfter(reqs[..i]), reqs[i]).value.groupKey ==
            OutcomeOf(DigestsAfter(reqs[..j]), reqs[j]).value.groupKey <==>
            reqs[i].networkName == reqs[j].networkName
  {
    SameGroupMeansSameName(reqs, i, j);
  }

  // ---- sockets of a room ----

  /** A socket that has been admitted belongs to the group of its network and the digest on record for it. */
  ghost predicate IsOfItsNetwork(att: Attachment, digests: Digests) {
    att.groupKey != "" ==> att.domainName in digests && att.groupKey == att.domainName + ":" + digests[att.domainName]
  }

  ghost predicate AreDigests(digests: Digests) {
    forall name | name in digests :: exists digest :: digests[name] == Hex(digest)
  }

  ghost predicate AllOfTheirNetworks(room: Room) {
    AreDigests(room.digests) && forall s | s in room.atts :: IsOfItsNetwork(room.atts[s], room.digests)
  }

  lemma StepKeepsNetworks(room: Room, draws: string -> nat, step: Step)
    requires WellFormed(room) && Enabled(room, step) && KeepsIsolate(step) && AllOfTheirNetworks(room)
    ensures AllOfTheirNetworks(RoomAfter(room, draws, step))
  {
    hide ApplyOps, Ops, SocketsAfter;
    var after := RoomAfter(room, draws, step);
    forall s | s in after.atts ensures IsOfItsNetwork(after.atts[s], after.digests) {
      if step.Shake? && step.shake.Some? {
        assert s in room.atts ==> IsOfItsNetwork(room.atts[s], after.digests);
      }
    }
  }

  lemma {:induction false} RunsKeepNetworks(draws: string -> nat, steps: seq<Step>)
    requires RoomRun(draws, steps).Some? && forall step | step in steps :: KeepsIsolate(step)
    ensures AllOfTheirNetworks(RoomRun(draws, steps).value)
  {
    hide RoomAfter, AllOfTheirNetworks;
    if steps == [] {
      NobodyYet();
    } else {
      RunsKeepNetworks(draws, steps[..|steps| - 1]);
      StepKeepsNetworks(RoomRun(draws, steps[..|steps| - 1]).value, draws, steps[|steps| - 1]);
    }
  }

  lemma NobodyYet()
    ensures AllOfTheirNetworks(EMPTY_ROOM)
  {
  }

  /** While the isolate lives, admitted sockets are in one group exactly when they are of one network. */
  lemma SocketsShareGroups(draws: string -> nat, steps: seq<Step>, s: SocketId, s': SocketId)
    requires RoomRun(draws, steps).Some? && forall step | step in steps :: KeepsIsolate(step)
    requires var atts := RoomRun(draws, steps).value.atts;
             s in atts && s' in atts && atts[s].groupKey != "" && atts[s'].groupKey != ""
    ensures var atts := RoomRun(draws, steps).value.atts;
            atts[s].domainName == atts[s'].domainName <==> atts[s].groupKey == atts[s'].groupKey
  {
    hide RoomRun, Hex;
    RunsKeepNetworks(draws, steps);
    var atts, digests := RoomRun(draws, steps).value.atts, RoomRun(draws, steps).value.digests;
    if atts[s].groupKey == atts[s'].groupKey {
      var digest :| digests[atts[s].domainName] == Hex(digest);
      var digest' :| digests[atts[s'].domainName] == Hex(digest');
      GroupKeyIsInjective(atts[s].domainName, digest, atts[s'].domainName, digest');
    }
  }

  // ---- the newcomer's info ----

  /** An arrival lists the peer, files a stub if it was not described, and makes the relay's own info news. */
  lemma ArrivalFilesStub(g: Group, p: PeerId, now: Millis)
    ensures var h := Run(g, ArrivalEvents(p, now));
            && h.peers == g.peers + {p}
            && (p !in g.peerInfos ==> h.peerInfos == g.peerInfos[p := PeerInfo(p, 1, Some(now / 1000), 24, 0, "")])
            && (p in g.peerInfos && g.peerInfos[p].version >= 1 ==> h.peerInfos == g.peerInfos)
            && h.myInfoVersion == h.myInfo.version == g.myInfoVersion + 2
            && h.connections == g.connections && h.sessions == g.sessions
  {
    hide Run, PeerAdded, InfoUpdated, IsNews;
    ArrivalIsRun(g, p, now);
    AddingLists(g, p);
    var added := MyInfoBumped(PeerAdded(g, p));
    StubIsFiled(added, p, now);
  }

  lemma AddingLists(g: Group, p: PeerId)
    ensures var h := PeerAdded(g, p);
            && h.peers == g.peers + {p} && h.peerInfos == g.peerInfos && h.myInfoVersion == g.myInfoVersion
            && h.connections == g.connections && h.sessions == g.sessions
  {
  }

  lemma StubIsFiled(g: Group, p: PeerId, now: Millis)
    ensures var h := InfoUpdated(g, p, HandshakeInfo(p, now));
            && (p !in g.peerInfos ==> h.peerInfos == g.peerInfos[p := PeerInfo(p, 1, Some(now / 1000), 24, 0, "")])
            && (p in g.peerInfos && g.peerInfos[p].version >= 1 ==> h.peerInfos == g.peerInfos)
            && h.peers == g.peers && h.myInfoVersion == g.myInfoVersion
            && h.connections == g.connections && h.sessions == g.sessions
  {
  }

  lemma EventKeepsInfo(g: Group, e: Event, p: PeerId)
    requires e.Build? && p in g.peerInfos
    ensures p in Apply(g, e).peerInfos && Apply(g, e).peerInfos[p] == g.peerInfos[p]
  {
    hide Built;
    BuiltRest(g, e.peer, e.sid, e.force, e.now);
  }

  ghost predicate Describes(groups: Groups, key: string, p: PeerId, info: PeerInfo) {
    key in groups && p in groups[key].peerInfos && groups[key].peerInfos[p] == info
  }

  lemma {:induction false} BuildsKeepInfo(groups: Groups, draws: string -> nat, ops: seq<Op>, key: string, p: PeerId,
                                          info: PeerInfo)
    requires Describes(groups, key, p, info) && AllBuilds(ops)
    ensures Describes(ApplyOps(groups, draws, ops), key, p, info)
  {
    hide Apply;
    if ops != [] {
      var prefix, op := ops[..|ops| - 1], ops[|ops| - 1];
      BuildsKeepInfo(groups, draws, prefix, key, p, info);
      if op.key == key {
        EventKeepsInfo(ApplyOps(groups, draws, prefix)[key], op.event, p);
      }
    }
  }

  lemma WelcomeFilesStub(g: Group, att: Attachment, now: Millis)
    requires att.peerId !in g.peerInfos
    ensures var h := Run(g, WelcomeEvents(att, now));
            att.peerId in h.peerInfos && h.peerInfos[att.peerId] == PeerInfo(att.peerId, 1, Some(now / 1000), 24, 0, "")
  {
    hide Run, Built;
    ArrivalIsRun(g, att.peerId, now);
    ArrivalFilesStub(g, att.peerId, now);
    WelcomeIsRun(g, att, now);
    BuiltRest(Arrived(g, att.peerId, now), att.peerId, att.serverSessionId, true, now);
  }

  /** After its handshake a peer that was not described has a stub of version 1 on file. */
  lemma NewcomerHasStub(room: Room, draws: string -> nat, s: SocketId, req: HandshakeRequest, now: Millis)
    requires WellFormed(room) && s in room.sockets && OutcomeOf(room.digests, req).Some?
    requires var key := OutcomeOf(room.digests, req).value.groupKey;
             req.myPeerId !in Lookup(room.groups, draws, key).peerInfos
    ensures var after, key :=
            RoomAfter(room, draws, Shake(s, Some(req), now)), OutcomeOf(room.digests, req).value.groupKey;
            && after.atts[s].peerId == req.myPeerId && after.atts[s].groupKey == key
            && Describes(after.groups, key, req.myPeerId, PeerInfo(req.myPeerId, 1, Some(now / 1000), 24, 0, ""))
  {
    hide Run, WelcomeEvents, OpsAt, BroadcastOps, ApplyOps;
    var atts := AttsAfter(room, Shake(s, Some(req), now));
    var att := atts[s];
    var welcome := OpsAt(att.groupKey, WelcomeEvents(att, now));
    var broadcast := BroadcastOps(room.sockets, atts, att.groupKey, 0, now);
    WelcomeHasEvents(att, now);
    OpsAtIsRun(room.groups, draws, att.groupKey, WelcomeEvents(att, now));
    WelcomeFilesStub(Lookup(room.groups, draws, att.groupKey), att, now);
    ApplyConcat(room.groups, draws, welcome, broadcast);
    BroadcastOnlyBuilds(room.sockets, atts, att.groupKey, 0, now);
    BuildsKeepInfo(ApplyOps(room.groups, draws, welcome), draws, broadcast, att.groupKey, att.peerId,
                   PeerInfo(att.peerId, 1, Some(now / 1000), 24, 0, ""));
  }

  lemma WelcomeHasEvents(att: Attachment, now: Millis)
    ensures WelcomeEvents(att, now) != []
  {
  }

  /**
   * The stub does not stand in the way of the peer's real info: a request in which the newcomer describes
   * itself is news exactly when the version it gives is 2 or more.
   */
  lemma NewcomerIsAnnounced(room: Room, draws: string -> nat, s: SocketId, req: HandshakeRequest, now: Millis,
                            info: PeerInfo, sid: SessionId, isInitiator: bool, later: Millis)
    requires WellFormed(room) && s in room.sockets && OutcomeOf(room.digests, req).Some?
    requires var key := OutcomeOf(room.digests, req).value.groupKey;
             req.myPeerId !in Lookup(room.groups, draws, key).peerInfos
    requires info.peerId == req.myPeerId != 10000001
    ensures var after, key :=
            RoomAfter(room, draws, Shake(s, Some(req), now)), OutcomeOf(room.digests, req).value.groupKey;
            var sync := SyncRequest(req.myPeerId, sid, isInitiator, Some([info]), NoConnInfo, None);
            Broadcasts(Lookup(after.groups, draws, key), req.myPeerId, sync, later) <==> info.version >= 2
  {
    hide RoomAfter, Broadcasts;
    NewcomerHasStub(room, draws, s, req, now);
    var after, key := RoomAfter(room, draws, Shake(s, Some(req), now)), OutcomeOf(room.digests, req).value.groupKey;
    var sync := SyncRequest(req.myPeerId, sid, isInitiator, Some([info]), NoConnInfo, None);
    BroadcastsOnStoredChange(Lookup(after.groups, draws, key), req.myPeerId, sync, later);
    assert ItemsOf(sync)[0] == info;
  }
}
