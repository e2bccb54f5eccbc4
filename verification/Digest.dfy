/** The chunked hasher over SipHash-1-3, and the digests and keys expanded from it. */
module Digest {
  import opened SipHash
  import opened SipHashFamily

  // ---- the reference ----

  function Flatten(parts: seq<seq<byte>>): seq<byte> {
    if parts == [] then [] else Flatten(parts[..|parts| - 1]) + parts[|parts| - 1]
  }

  function BeBytes(x: word): (b: seq<byte>)
    ensures |b| == 8
  {
    [ByteOf(x, 7), ByteOf(x, 6), ByteOf(x, 5), ByteOf(x, 4), ByteOf(x, 3), ByteOf(x, 2), ByteOf(x, 1), ByteOf(x, 0)]
  }

  function Shard(fed: seq<byte>): (b: seq<byte>)
    ensures |b| == 8
  {
    BeBytes(Hash(fed, 0, 0))
  }

  /** The first k shards of the digest of a seed: each hashes the seed and every shorter digest after it. */
  function Expanded(seed: seq<byte>, k: nat): (d: seq<byte>)
    ensures |d| == 8 * k
    decreases k, 0
  {
    if k == 0 then [] else Expanded(seed, k - 1) + Shard(Fed(seed, k - 1))
  }

  /** What the hasher has been fed once k shards are out. */
  function Fed(seed: seq<byte>, k: nat): seq<byte>
    decreases k, 1
  {
    if k == 0 then seed else Fed(seed, k - 1) + Expanded(seed, k)
  }

  /** The letters "easytier-256bit-key". */
  const KEY256_TAG: seq<byte> :=
    [101, 97, 115, 121, 116, 105, 101, 114, 45, 50, 53, 54, 98, 105, 116, 45, 107, 101, 121]

  /** The long key: tagged, and each shard also numbered. */
  function LongKey(secret: seq<byte>, k: nat): (d: seq<byte>)
    ensures |d| == 8 * k
    decreases k, 0
  {
    if k == 0 then [] else LongKey(secret, k - 1) + Shard(LongFed(secret, k - 1))
  }

  /** What the hasher of the long key is fed for shard k. */
  function LongFed(secret: seq<byte>, k: nat): seq<byte>
    decreases k, 1
  {
    (if k == 0 then secret + KEY256_TAG else LongFed(secret, k - 1) + LongKey(secret, k)) + [AsByte(k)]
  }

  // ---- the program ----

  class SipHashHasher {
    var parts: seq<seq<byte>>
    var total: nat

    ghost predicate Valid()
      reads this
    {
      total == |Flatten(parts)|
    }

    /** All that has been written. */
    ghost function Written(): seq<byte>
      reads this
    {
      Flatten(parts)
    }

    constructor ()
      ensures Valid() && Written() == []
    {
      parts, total := [], 0;
    }

    method Write(buf: seq<byte>)
      requires Valid()
      modifies this
      ensures Valid() && Written() == old(Written()) + buf
    {
      if buf == [] {
        return;
      }
      total := total + |buf|;
      parts := parts + [buf];
      assert parts[..|parts| - 1] == old(parts);
    }

    /** The hash of everything written, whatever the chunks were. */
    method Finish() returns (h: word)
      requires Valid()
      ensures h == Hash(Written(), 0, 0)
    {
      if |parts| == 1 {
        assert parts[..0] == [];
        assert Flatten(parts) == parts[0];
        h := SipHash13(parts[0], 0, 0);
        return;
      }
      var msg := [];
      for i := 0 to |parts|
        invariant msg == Flatten(parts[..i])
      {
        assert parts[..i + 1][..i] == parts[..i];
        msg := msg + parts[i];
      }
      assert parts[..|parts|] == parts;
      h := SipHash13(msg, 0, 0);
    }
  }

  /** A digest of two strings, eight bytes at a time. */
  method GenerateDigestFromStr(str1: seq<byte>, str2: seq<byte>, digestLen: nat) returns (digest: seq<byte>)
    requires digestLen > 0 && digestLen % 8 == 0
    ensures digest == Expanded(str1 + str2, digestLen / 8)
  {
    hide Hash, BeBytes, Flatten;
    var hasher := new SipHashHasher();
    hasher.Write(str1);
    hasher.Write(str2);
    ghost var seed := str1 + str2;
    assert [] + str1 + str2 == seed;
    digest := [];
    for i := 0 to digestLen / 8
      invariant hasher.Valid() && hasher.Written() == Fed(seed, i)
      invariant digest == Expanded(seed, i)
    {
      var h := hasher.Finish();
      digest := digest + BeBytes(h);
      hasher.Write(digest[..(i + 1) * 8]);
    }
  }

  lemma TwoShards(secret: seq<byte>)
    ensures Expanded(secret + [], 2) == Shard(secret) + Shard(secret + Shard(secret))
  {
    hide Shard;
    assert secret + [] == secret;
    assert Expanded(secret, 1) == Shard(secret) && Fed(secret, 1) == secret + Shard(secret);
  }

  /**
   * The shards of the long key: each hashes all that was fed before, the key so far and its own number. The
   * secret is followed by the letters "easytier-256bit-key".
   */
  lemma FourShards(secret: seq<byte>)
    ensures var tag := [101, 97, 115, 121, 116, 105, 101, 114, 45, 50, 53, 54, 98, 105, 116, 45, 107, 101, 121];
            var fed0 := secret + tag + [0];
            var shard0 := Shard(fed0);
            var fed1 := fed0 + shard0 + [1];
            var shard1 := Shard(fed1);
            var fed2 := fed1 + (shard0 + shard1) + [2];
            var shard2 := Shard(fed2);
            var fed3 := fed2 + (shard0 + shard1 + shard2) + [3];
            LongKey(secret, 4) == shard0 + shard1 + shard2 + Shard(fed3)
  {
    hide Shard;
    NumbersAsBytes();
    LongKeyStarts(secret);
    LongKeyOneMore(secret, 0);
    LongKeyOneMore(secret, 1);
    LongKeyOneMore(secret, 2);
    LongKeyOneMore(secret, 3);
    assert [] + Shard(LongFed(secret, 0)) == Shard(LongFed(secret, 0));
  }

  lemma NumbersAsBytes()
    ensures AsByte(0) == 0 && AsByte(1) == 1 && AsByte(2) == 2 && AsByte(3) == 3
  {
  }

  lemma LongKeyOneMore(secret: seq<byte>, k: nat)
    ensures LongKey(secret, k + 1) == LongKey(secret, k) + Shard(LongFed(secret, k))
    ensures LongFed(secret, k + 1) == LongFed(secret, k) + LongKey(secret, k + 1) + [AsByte(k + 1)]
  {
    hide Shard, AsByte, KEY256_TAG;
  }

  lemma LongKeyStarts(secret: seq<byte>)
    ensures LongFed(secret, 0) == secret + KEY256_TAG + [0] && LongKey(secret, 0) == []
  {
    hide Shard, KEY256_TAG;
  }

  /** The two keys of a network secret. */
  method DeriveKeys(secret: seq<byte>) returns (key128: seq<byte>, key256: seq<byte>)
    ensures key128 == Expanded(secret + [], 16 / 8)
    ensures key256 == LongKey(secret, 4)
  {
    hide Hash, BeBytes, Flatten, AsByte, KEY256_TAG;
    var hasher := new SipHashHasher();
    hasher.Write(secret);
    assert [] + secret == secret;
    var first := hasher.Finish();
    key128 := BeBytes(first);
    hasher.Write(key128);
    var second := hasher.Finish();
    TwoShards(secret);
    key128 := key128 + BeBytes(second);
    hasher.Write(key128);

    var hasher256 := new SipHashHasher();
    hasher256.Write(secret);
    hasher256.Write(KEY256_TAG);
    key256 := [];
    for i := 0 to 4
      invariant hasher256.Valid() && key256 == LongKey(secret, i)
      invariant i == 0 ==> hasher256.Written() == secret + KEY256_TAG
      invariant i > 0 ==> hasher256.Written() == LongFed(secret, i - 1)
    {
      if i > 0 {
        hasher256.Write(key256);
      }
      hasher256.Write([AsByte(i)]);
      var chunk := hasher256.Finish();
      key256 := key256 + BeBytes(chunk);
    }
  }

  // ---- what the digests promise ----

  /** Chunks do not matter: cutting a message differently gives the same bytes to hash. */
  lemma {:induction false} FlattenConcat(a: seq<seq<byte>>, b: seq<seq<byte>>)
    ensures Flatten(a + b) == Flatten(a) + Flatten(b)
  {
    if b == [] {
      assert a + b == a;
    } else {
      assert (a + b)[..|a + b| - 1] == a + b[..|b| - 1];
      FlattenConcat(a, b[..|b| - 1]);
    }
  }

  /** The digests of one, two and more shards, one after the other. */
  function Prefixes(d: seq<byte>, i: nat): seq<byte>
    requires 8 * i <= |d|
  {
    if i == 0 then [] else Prefixes(d, i - 1) + d[..8 * i]
  }

  lemma {:induction false} PrefixesOfLonger(d: seq<byte>, e: seq<byte>, i: nat)
    requires 8 * i <= |d| && d <= e
    ensures Prefixes(d, i) == Prefixes(e, i)
  {
    if i > 0 {
      PrefixesOfLonger(d, e, i - 1);
      assert d[..8 * i] == e[..8 * i];
    }
  }

  lemma {:induction false} FedIsPrefixes(seed: seq<byte>, k: nat)
    ensures Fed(seed, k) == seed + Prefixes(Expanded(seed, k), k)
  {
    hide Shard;
    if k > 0 {
      var d := Expanded(seed, k);
      FedIsPrefixes(seed, k - 1);
      PrefixesOfLonger(Expanded(seed, k - 1), d, k - 1);
      assert d[..8 * k] == d;
    }
  }

  /** Eight bytes, the highest first, as a word. */
  function BeWord(b: seq<byte>): word
    requires |b| == 8
  {
    LeWord([b[7], b[6], b[5], b[4], b[3], b[2], b[1], b[0]])
  }

  lemma ShardIsHash(fed: seq<byte>)
    ensures BeWord(Shard(fed)) == HashWith(1, 3, fed, 0, 0)
  {
    hide LeWord, Hash, HashWith, ByteOf;
    BeBytesHoldTheWord(Hash(fed, 0, 0));
    HashIsOneThree(fed, 0, 0);
  }

  /**
   * Every shard of a digest, read as a big-endian word, is the unkeyed SipHash-1-3 of the seed followed by the
   * digests of all shorter lengths.
   */
  lemma {:induction false} DigestByShard(seed: seq<byte>, n: nat, i: nat)
    requires i < n
    ensures var d := Expanded(seed, n);
            BeWord(d[8 * i..8 * i + 8]) == HashWith(1, 3, seed + Prefixes(d, i), 0, 0)
    decreases n
  {
    hide Shard, BeWord, HashWith, Prefixes, Fed;
    var d, before := Expanded(seed, n), Expanded(seed, n - 1);
    assert before <= d;
    PrefixesOfLonger(before, d, i);
    if i < n - 1 {
      DigestByShard(seed, n - 1, i);
      assert d[8 * i..8 * i + 8] == before[8 * i..8 * i + 8];
    } else {
      FedIsPrefixes(seed, i);
      ShardIsHash(Fed(seed, i));
      assert d[8 * i..8 * i + 8] == Shard(Fed(seed, i));
    }
  }

  /** A shorter digest of the same strings is a prefix of a longer one. */
  lemma {:induction false} ShorterDigestIsPrefix(seed: seq<byte>, k: nat, n: nat)
    requires k <= n
    ensures Expanded(seed, k) <= Expanded(seed, n)
    decreases n
  {
    hide Shard;
    if k < n {
      ShorterDigestIsPrefix(seed, k, n - 1);
    }
  }

  /** The big-endian bytes of a hash are its little-endian bytes read backwards: none of it is lost. */
  lemma BeBytesHoldTheWord(x: word)
    ensures var b := BeBytes(x); LeWord([b[7], b[6], b[5], b[4], b[3], b[2], b[1], b[0]]) == x
  {
    hide ByteOf, LeWord, WordOf;
    var b := BeBytes(x);
    LeWordWrittenOut([b[7], b[6], b[5], b[4], b[3], b[2], b[1], b[0]]);
    HoldsBytes(b[7], b[6], b[5], b[4], b[3], b[2], b[1], b[0]);
    BytesDetermineWord(WordOf(b[7], b[6], b[5], b[4], b[3], b[2], b[1], b[0]), x);
  }
}
