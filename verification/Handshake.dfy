/** Handshakes: the digest registered for each network name, and the group key made of both. */
module Handshake {
  import opened Collections
  import opened Wire
  import opened Signature

  const MAGIC: nat := 0xd1e1a5e1
  const VERSION: nat := 1

  datatype HandshakeRequest = HandshakeRequest(magic: nat, myPeerId: PeerId, networkName: string, digest: seq<bv8>)

  /** The answer to an accepted handshake, with the addresses of its packet. */
  datatype HandshakePacket = HandshakePacket(
    from: PeerId,
    to: PeerId,
    magic: nat,
    myPeerId: PeerId,
    version: nat,
    features: seq<string>,
    networkName: string,
    digest: seq<bv8>)

  datatype Outcome = Outcome(peerId: PeerId, groupKey: string, domainName: string, reply: HandshakePacket)

  type Digests = map<string, string>

  function GroupKey(name: string, digestHex: string): string {
    name + ":" + digestHex
  }

  predicate Accepted(digests: Digests, req: HandshakeRequest) {
    req.magic == MAGIC && (req.networkName in digests ==> digests[req.networkName] == Hex(req.digest))
  }

  function Registered(digests: Digests, req: HandshakeRequest): Digests {
    if Accepted(digests, req) then digests[req.networkName := Hex(req.digest)] else digests
  }

  function ReplyTo(peer: PeerId): HandshakePacket {
    HandshakePacket(MY_PEER_ID, peer, MAGIC, MY_PEER_ID, VERSION, ["node-server-v1"], "public_server", seq(32, _ => 0))
  }

  function OutcomeOf(digests: Digests, req: HandshakeRequest): Option<Outcome> {
    if Accepted(digests, req) then
      Some(Outcome(req.myPeerId, GroupKey(req.networkName, Hex(req.digest)), req.networkName, ReplyTo(req.myPeerId)))
    else None
  }

  class DigestRegistry {
    var digests: Digests

    constructor ()
      ensures digests == map[]
    {
      digests := map[];
    }

    /** Checks a decoded request against the registry; the first digest seen for a name is kept for good. */
    method HandleHandshake(request: Option<HandshakeRequest>) returns (outcome: Option<Outcome>)
      modifies this
      ensures request == None ==> outcome == None && digests == old(digests)
      ensures request.Some? ==> outcome == OutcomeOf(old(digests), request.value)
                                && digests == Registered(old(digests), request.value)
    {
      if request == None {
        return None;
      }
      var req := request.value;
      if req.magic != MAGIC {
        return None;
      }
      var clientDigest := Hex(req.digest);
      if req.networkName in digests {
        if digests[req.networkName] != clientDigest {
          return None;
        }
        assert digests[req.networkName := clientDigest] == digests;
      } else {
        digests := digests[req.networkName := clientDigest];
      }
      var groupDigest := digests[req.networkName];
      var reply := HandshakePacket(MY_PEER_ID, req.myPeerId, MAGIC, MY_PEER_ID, VERSION, ["node-server-v1"],
                                   "public_server", seq(32, _ => 0));
      outcome := Some(Outcome(req.myPeerId, GroupKey(req.networkName, groupDigest), req.networkName, reply));
    }
  }

  // ---- runs ----

  function DigestsAfter(reqs: seq<HandshakeRequest>): Digests {
    if reqs == [] then map[] else Registered(DigestsAfter(reqs[..|reqs| - 1]), reqs[|reqs| - 1])
  }

  /** A registered digest stays as it is. */
  lemma {:induction false} DigestsNeverChange(reqs: seq<HandshakeRequest>, i: nat, name: string)
    requires i <= |reqs| && name in DigestsAfter(reqs[..i])
    ensures name in DigestsAfter(reqs) && DigestsAfter(reqs)[name] == DigestsAfter(reqs[..i])[name]
    decreases |reqs|
  {
    if i == |reqs| {
      assert reqs[..i] == reqs;
    } else {
      var prefix := reqs[..|reqs| - 1];
      assert prefix[..i] == reqs[..i];
      DigestsNeverChange(prefix, i, name);
    }
  }

  /** Group keys are injective in the name and the digest, even when names contain the separator. */
  lemma GroupKeyIsInjective(name: string, digest: seq<bv8>, name': string, digest': seq<bv8>)
    requires GroupKey(name, Hex(digest)) == GroupKey(name', Hex(digest'))
    ensures name == name' && digest == digest'
  {
    HexAvoids(digest, ':');
    HexAvoids(digest', ':');
    LastSplitIsUnique(name, Hex(digest), name', Hex(digest'), ':');
    HexIsInjective(digest, digest');
  }

  /** Two handshakes accepted in one run get the same group exactly when they name the same network. */
  lemma SameGroupMeansSameName(reqs: seq<HandshakeRequest>, i: nat, j: nat)
    requires i < j < |reqs|
    requires Accepted(DigestsAfter(reqs[..i]), reqs[i]) && Accepted(DigestsAfter(reqs[..j]), reqs[j])
    ensures GroupKey(reqs[i].networkName, Hex(reqs[i].digest)) ==
            GroupKey(reqs[j].networkName, Hex(reqs[j].digest)) <==>
            reqs[i].networkName == reqs[j].networkName
  {
    var a, b := reqs[i], reqs[j];
    assert reqs[..i + 1][..i] == reqs[..i];
    assert DigestsAfter(reqs[..i + 1]) == Registered(DigestsAfter(reqs[..i]), a);
    assert reqs[..j][..i + 1] == reqs[..i + 1];
    DigestsNeverChange(reqs[..j], i + 1, a.networkName);
    if GroupKey(a.networkName, Hex(a.digest)) == GroupKey(b.networkName, Hex(b.digest)) {
      GroupKeyIsInjective(a.networkName, a.digest, b.networkName, b.digest);
    }
  }
}
