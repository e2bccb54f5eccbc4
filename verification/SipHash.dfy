/**
 * SipHash-1-3. The reference is section 2 of "SipHash: a fast short-input PRF" (Aumasson and
 * Bernstein, 2012) with one round per word and three to finish: the message is padded with zeros
 * and its length byte, and cut into little-endian words. The program walks over the full blocks
 * and puts the last word together byte by byte.
 */
module SipHash {
  type byte = bv8
  type word = bv64

  datatype State = State(v0: word, v1: word, v2: word, v3: word)

  // ---- words ----

  /** Addition modulo two to the power 64. */
  function Add(a: word, b: word): word {
    a + b
  }

  function Xor(a: word, b: word): word {
    a ^ b
  }

  function Or(a: word, b: word): word {
    a | b
  }

  function Rotl(x: word, b: word): word
    requires 0 < b < 64
  {
    (x << b) | (x >> (64 - b))
  }

  /** A byte at position i of a word, the lowest being 0. */
  function ByteAt(b: byte, i: nat): word
    requires i < 8
  {
    b as word << (8 * i as word)
  }

  /** A length as a byte: counted modulo 256. */
  function AsByte(n: nat): byte {
    if n == 0 then 0 else AsByte(n - 1) + 1
  }

  /** A length as a word: counted modulo two to the power 64. */
  function AsWord(n: nat): word {
    if n == 0 then 0 else AsWord(n - 1) + 1
  }

  // ---- the reference ----

  /** One addition, rotation and exclusive-or: the box of which a round has four. */
  function Mix(a: word, b: word, r: word): (word, word)
    requires 0 < r < 64
  {
    (Add(a, b), Xor(Rotl(b, r), Add(a, b)))
  }

  /** The round of the paper: two boxes side by side, twice. */
  function SipRound(s: State): State {
    var (a0, a1) := Mix(s.v0, s.v1, 13);
    var (a2, a3) := Mix(s.v2, s.v3, 16);
    var (c2, c1) := Mix(a2, a1, 17);
    var (c0, c3) := Mix(Rotl(a0, 32), a3, 21);
    State(c0, c1, Rotl(c2, 32), c3)
  }

  function Initial(k0: word, k1: word): State {
    State(Xor(0x736f6d6570736575, k0), Xor(0x646f72616e646f6d, k1),
          Xor(0x6c7967656e657261, k0), Xor(0x7465646279746573, k1))
  }

  function Compress(s: State, m: word): State {
    var t := SipRound(s.(v3 := Xor(s.v3, m)));
    t.(v0 := Xor(t.v0, m))
  }

  type block = b: seq<byte> | |b| == 8 witness [0, 0, 0, 0, 0, 0, 0, 0]

  function Absorb(s: State, blocks: seq<block>): State {
    if blocks == [] then s else Compress(Absorb(s, blocks[..|blocks| - 1]), LeWord(blocks[|blocks| - 1]))
  }

  function Finish(s: State): word {
    var t := SipRound(SipRound(SipRound(s.(v2 := Xor(s.v2, 0xff)))));
    Xor(Xor(Xor(t.v0, t.v1), t.v2), t.v3)
  }

  /** Eight bytes as a word, the first byte lowest. */
  function LeWord(b: block): word {
    OrBytes(0, b)
  }

  /** Bytes put into a word one after the other, from the lowest position up. */
  function OrBytes(m: word, bytes: seq<byte>): word
    requires |bytes| <= 8
  {
    if bytes == [] then m
    else
      var last := |bytes| - 1;
      Or(OrBytes(m, bytes[..last]), ByteAt(bytes[last], last))
  }

  function Blocks(b: seq<byte>): seq<block>
    requires |b| % 8 == 0
  {
    if b == [] then [] else Blocks(b[..|b| - 8]) + [b[|b| - 8..]]
  }

  function Zeros(n: nat): (z: seq<byte>)
    ensures |z| == n && forall i | 0 <= i < n :: z[i] == 0
  {
    if n == 0 then [] else Zeros(n - 1) + [0]
  }

  function Padded(msg: seq<byte>): (r: seq<byte>)
    ensures |r| % 8 == 0
  {
    msg + Zeros(7 - |msg| % 8) + [AsByte(|msg|)]
  }

  function Hash(msg: seq<byte>, k0: word, k1: word): word {
    Finish(Absorb(Initial(k0, k1), Blocks(Padded(msg))))
  }

  // ---- the program ----

  /** The value of four words held in an array. */
  ghost function StateOf(v: array<word>): State
    requires v.Length == 4
    reads v
  {
    State(v[0], v[1], v[2], v[3])
  }

  method SipRoundInPlace(v: array<word>)
    requires v.Length == 4
    modifies v
    ensures StateOf(v) == SipRound(old(StateOf(v)))
  {
    hide Add, Xor, Rotl;
    v[0] := Add(v[0], v[1]);
    v[1] := Rotl(v[1], 13);
    v[1] := Xor(v[1], v[0]);
    v[0] := Rotl(v[0], 32);

    v[2] := Add(v[2], v[3]);
    v[3] := Rotl(v[3], 16);
    v[3] := Xor(v[3], v[2]);

    v[0] := Add(v[0], v[3]);
    v[3] := Rotl(v[3], 21);
    v[3] := Xor(v[3], v[0]);

    v[2] := Add(v[2], v[1]);
    v[1] := Rotl(v[1], 17);
    v[1] := Xor(v[1], v[2]);
    v[2] := Rotl(v[2], 32);
  }

  /** The next eight bytes as a word; bytes past the end read as zero. */
  method ReadWordLe(msg: seq<byte>, offset: nat) returns (m: word)
    requires offset <= |msg|
    ensures offset + 8 <= |msg| ==> m == LeWord(msg[offset..offset + 8])
    ensures |msg| < offset + 8 ==> m == LeWord(msg[offset..] + Zeros(offset + 8 - |msg|))
  {
    hide LeWord;
    var bytes := new byte[8](_ => 0);
    var len := if |msg| - offset < 8 then |msg| - offset else 8;
    for i := 0 to len
      invariant forall j | 0 <= j < i :: bytes[j] == msg[offset + j]
      invariant forall j | i <= j < 8 :: bytes[j] == 0
    {
      bytes[i] := msg[offset + i];
    }
    assert len == 8 ==> bytes[..] == msg[offset..offset + 8];
    assert len < 8 ==> bytes[..] == msg[offset..] + Zeros(8 - len);
    m := LeWord(bytes[..]);
  }

  /** Absorbs one word in place. */
  method CompressInPlace(v: array<word>, m: word)
    requires v.Length == 4
    modifies v
    ensures StateOf(v) == Compress(old(StateOf(v)), m)
  {
    hide Xor, SipRound;
    v[3] := Xor(v[3], m);
    SipRoundInPlace(v);
    v[0] := Xor(v[0], m);
  }

  method AbsorbBlock(v: array<word>, msg: seq<byte>, i: nat)
    requires v.Length == 4 && i + 8 <= |msg|
    modifies v
    ensures StateOf(v) == Compress(old(StateOf(v)), LeWord(msg[i..i + 8]))
  {
    hide Compress, LeWord;
    var m := ReadWordLe(msg, i);
    CompressInPlace(v, m);
  }

  lemma NothingAbsorbed(s: State)
    ensures Absorb(s, Blocks([])) == s
  {
  }

  /** Absorbs the full blocks of a message in place. */
  method AbsorbBlocks(v: array<word>, msg: seq<byte>)
    requires v.Length == 4
    modifies v
    ensures StateOf(v) == Absorb(old(StateOf(v)), Blocks(msg[..|msg| - |msg| % 8]))
  {
    hide Compress, LeWord, Absorb, Blocks;
    ghost var s := StateOf(v);
    NothingAbsorbed(s);
    var fullLen := |msg| - |msg| % 8;
    var i := 0;
    while i < fullLen
      invariant 0 <= i <= fullLen && i % 8 == 0
      invariant StateOf(v) == Absorb(s, Blocks(msg[..i]))
    {
      BlocksOneMore(msg, i);
      AbsorbOneMore(s, Blocks(msg[..i]), msg[i..i + 8]);
      AbsorbBlock(v, msg, i);
      i := i + 8;
    }
  }

  lemma BlocksOneMore(msg: seq<byte>, i: nat)
    requires i + 8 <= |msg| && i % 8 == 0
    ensures Blocks(msg[..i + 8]) == Blocks(msg[..i]) + [msg[i..i + 8]]
  {
    var b := msg[..i + 8];
    assert b[..|b| - 8] == msg[..i] && b[|b| - 8..] == msg[i..i + 8];
  }

  lemma AbsorbOneMore(s: State, blocks: seq<block>, b: block)
    ensures Absorb(s, blocks + [b]) == Compress(Absorb(s, blocks), LeWord(b))
  {
    hide Compress, LeWord;
    assert (blocks + [b])[..|blocks|] == blocks;
  }

  /** The last word: the length on top, and under it the bytes after the last full block. */
  method LastWord(msg: seq<byte>) returns (m: word)
    ensures m == OrBytes(ByteAt(AsByte(|msg|), 7), msg[|msg| - |msg| % 8..])
  {
    hide ByteAt, Or;
    var fullLen, left := |msg| - |msg| % 8, |msg| % 8;
    ghost var tail := msg[fullLen..];
    m := LengthOnTop(|msg|);
    for i := 0 to left
      invariant m == OrBytes(ByteAt(AsByte(|msg|), 7), tail[..i])
    {
      assert tail[..i + 1][..i] == tail[..i];
      m := Or(m, ByteAt(msg[fullLen + i], i));
    }
    assert tail[..left] == tail;
  }

  /** Shifting a length up leaves its lowest byte on top. */
  function LengthOnTop(n: nat): (m: word)
    ensures m == ByteAt(AsByte(n), 7)
  {
    LowByte(n);
    TopByte(AsWord(n), AsByte(n));
    AsWord(n) << 56
  }

  /** Absorbs the last word in place. */
  method AbsorbLastWord(v: array<word>, msg: seq<byte>)
    requires v.Length == 4
    modifies v
    ensures StateOf(v) == Compress(old(StateOf(v)), LeWord(PaddedLast(msg)))
  {
    hide Compress, LeWord, OrBytes, ByteAt, AsByte, Zeros;
    var m := LastWord(msg);
    PaddedTail(msg[|msg| - |msg| % 8..], AsByte(|msg|));
    CompressInPlace(v, m);
  }

  /** Finishes in place. */
  method FinishInPlace(v: array<word>) returns (h: word)
    requires v.Length == 4
    modifies v
    ensures h == Finish(old(StateOf(v)))
  {
    hide Xor, SipRound;
    v[2] := Xor(v[2], 0xff);
    SipRoundInPlace(v);
    SipRoundInPlace(v);
    SipRoundInPlace(v);
    h := Xor(Xor(Xor(v[0], v[1]), v[2]), v[3]);
  }

  /** The whole hash. */
  method SipHash13(msg: seq<byte>, k0: word, k1: word) returns (h: word)
    ensures h == Hash(msg, k0, k1)
  {
    hide Xor, Blocks, LeWord, Padded, PaddedLast, Absorb, Compress, Finish;
    var v := new word[4];
    v[0], v[1] := Xor(0x736f6d6570736575, k0), Xor(0x646f72616e646f6d, k1);
    v[2], v[3] := Xor(0x6c7967656e657261, k0), Xor(0x7465646279746573, k1);
    AbsorbBlocks(v, msg);
    AbsorbLastWord(v, msg);
    PaddedBlocks(msg);
    AbsorbOneMore(Initial(k0, k1), Blocks(msg[..|msg| - |msg| % 8]), PaddedLast(msg));
    h := FinishInPlace(v);
  }

  lemma {:induction false} LowByte(n: nat)
    ensures AsWord(n) & 0xff == AsByte(n) as word
  {
    if n > 0 {
      LowByte(n - 1);
    }
  }

  lemma {:induction false} AsByteAdds(n: nat, k: nat)
    ensures AsByte(n + k) == AsByte(n) + AsByte(k)
  {
    if k > 0 {
      AsByteAdds(n, k - 1);
    }
  }

  /** The length byte counts modulo 256. */
  lemma LengthByteWraps(n: nat)
    ensures AsByte(n + 256) == AsByte(n)
  {
    AsByteAdds(1, 1);
    AsByteAdds(2, 2);
    AsByteAdds(4, 4);
    AsByteAdds(8, 8);
    AsByteAdds(16, 16);
    AsByteAdds(32, 32);
    AsByteAdds(64, 64);
    AsByteAdds(128, 128);
    AsByteAdds(n, 256);
  }

  lemma TopByte(w: word, b: byte)
    requires w & 0xff == b as word
    ensures w << 56 == ByteAt(b, 7)
  {
    assert ByteAt(b, 7) == b as word << 56;
  }

  /** Putting a byte in first or last is the same. */
  lemma {:induction false} OrBytesFirst(m: word, x: word, bytes: seq<byte>)
    requires |bytes| <= 8
    ensures OrBytes(Or(m, x), bytes) == Or(OrBytes(m, bytes), x)
  {
    if bytes != [] {
      var last := |bytes| - 1;
      OrBytesFirst(m, x, bytes[..last]);
      OrSwaps(OrBytes(m, bytes[..last]), x, ByteAt(bytes[last], last));
    }
  }

  lemma OrSwaps(a: word, b: word, c: word)
    ensures Or(Or(a, b), c) == Or(Or(a, c), b)
  {
    hide Or;
    OrIsBitwise(a, b);
    OrIsBitwise(a, c);
    OrsSwap(a, b, c);
  }

  lemma OrIsBitwise(a: word, b: word)
    ensures Or(a, b) == a | b
  {
  }

  lemma OrsSwap(a: word, b: word, c: word)
    ensures Or(a | b, c) == Or(a | c, b)
  {
  }

  lemma OrZero(a: word, i: nat)
    requires i < 8
    ensures Or(a, ByteAt(0, i)) == a && Or(0, a) == a
  {
    assert ByteAt(0, i) == 0;
  }

  lemma {:induction false} ZerosAddNothing(m: word, bytes: seq<byte>, n: nat)
    requires |bytes| + n <= 8
    ensures OrBytes(m, bytes + Zeros(n)) == OrBytes(m, bytes)
  {
    if n == 0 {
      assert bytes + Zeros(0) == bytes;
    } else {
      var longer := bytes + Zeros(n);
      assert longer[..|longer| - 1] == bytes + Zeros(n - 1);
      ZerosAddNothing(m, bytes, n - 1);
      OrZero(OrBytes(m, bytes), |longer| - 1);
    }
  }

  lemma LastByte(bytes: seq<byte>, b: byte)
    requires |bytes| == 7
    ensures LeWord(bytes + [b]) == Or(OrBytes(0, bytes), ByteAt(b, 7))
  {
    hide Or, ByteAt;
    assert (bytes + [b])[..7] == bytes;
  }

  lemma LengthFirst(tail: seq<byte>, b: byte)
    requires |tail| < 8
    ensures Or(OrBytes(0, tail), ByteAt(b, 7)) == OrBytes(ByteAt(b, 7), tail)
  {
    hide Or, ByteAt, OrBytes;
    OrBytesFirst(0, ByteAt(b, 7), tail);
    OrZero(ByteAt(b, 7), 7);
  }

  /** Putting the last word together byte by byte is reading the padded tail as a word. */
  lemma PaddedTail(tail: seq<byte>, b: byte)
    requires |tail| < 8
    ensures LeWord(tail + Zeros(7 - |tail|) + [b]) == OrBytes(ByteAt(b, 7), tail)
  {
    hide Or, ByteAt, OrBytes, Zeros, LeWord;
    LastByte(tail + Zeros(7 - |tail|), b);
    ZerosAddNothing(0, tail, 7 - |tail|);
    LengthFirst(tail, b);
  }

  /** The last block of a padded message. */
  function PaddedLast(msg: seq<byte>): block {
    msg[|msg| - |msg| % 8..] + Zeros(7 - |msg| % 8) + [AsByte(|msg|)]
  }

  lemma PaddedBlocks(msg: seq<byte>)
    ensures Blocks(Padded(msg)) == Blocks(msg[..|msg| - |msg| % 8]) + [PaddedLast(msg)]
  {
    hide Padded, PaddedLast, Blocks;
    PaddedParts(msg);
    LastOfBlocks(Padded(msg), |msg| - |msg| % 8);
  }

  lemma LastOfBlocks(b: seq<byte>, full: nat)
    requires |b| == full + 8 && full % 8 == 0
    ensures Blocks(b) == Blocks(b[..full]) + [b[full..]]
  {
  }

  lemma PaddedParts(msg: seq<byte>)
    ensures var full, padded := |msg| - |msg| % 8, Padded(msg);
            && |padded| == full + 8 && padded[..full] == msg[..full]
            && padded[full..] == PaddedLast(msg)
  {
    hide Zeros, AsByte;
  }

  // ---- words and bytes ----

  /** The byte at a position of a word. */
  function ByteOf(w: word, i: nat): byte
    requires i < 8
  {
    ((w >> (8 * i as word)) & 0xff) as byte
  }

  /** A little-endian word holds every one of its bytes. */
  lemma LeWordHoldsBytes(b: block)
    ensures forall i | 0 <= i < 8 :: ByteOf(LeWord(b), i) == b[i]
  {
    hide ByteOf, LeWord, WordOf;
    LeWordWrittenOut(b);
    HoldsBytes(b[0], b[1], b[2], b[3], b[4], b[5], b[6], b[7]);
    forall i | 0 <= i < 8 ensures ByteOf(LeWord(b), i) == b[i] {
      assert i == 0 || i == 1 || i == 2 || i == 3 || i == 4 || i == 5 || i == 6 || i == 7;
    }
  }

  /** Eight bytes put into a word. */
  function WordOf(b0: byte, b1: byte, b2: byte, b3: byte, b4: byte, b5: byte, b6: byte, b7: byte): word {
    UpperBytes(LowerBytes(b0, b1, b2, b3), b4, b5, b6, b7)
  }

  function LowerBytes(b0: byte, b1: byte, b2: byte, b3: byte): word {
    (b0 as word) | (b1 as word << 8) | (b2 as word << 16) | (b3 as word << 24)
  }

  function UpperBytes(w: word, b4: byte, b5: byte, b6: byte, b7: byte): word {
    w | (b4 as word << 32) | (b5 as word << 40) | (b6 as word << 48) | (b7 as word << 56)
  }

  lemma OrsMakeLowerBytes(b0: byte, b1: byte, b2: byte, b3: byte)
    ensures Or(Or(Or(Or(0, ByteAt(b0, 0)), ByteAt(b1, 1)), ByteAt(b2, 2)), ByteAt(b3, 3)) == LowerBytes(b0, b1, b2, b3)
  {
  }

  lemma OrsMakeUpperBytes(w: word, b4: byte, b5: byte, b6: byte, b7: byte)
    ensures Or(Or(Or(Or(w, ByteAt(b4, 4)), ByteAt(b5, 5)), ByteAt(b6, 6)), ByteAt(b7, 7)) ==
            UpperBytes(w, b4, b5, b6, b7)
  {
  }

  lemma OrBytesOneMore(m: word, b: seq<byte>, i: nat)
    requires i < |b| <= 8
    ensures OrBytes(m, b[..i + 1]) == Or(OrBytes(m, b[..i]), ByteAt(b[i], i))
  {
    hide Or, ByteAt;
    assert b[..i + 1][..i] == b[..i];
  }

  lemma LeWordWrittenOut(b: block)
    ensures LeWord(b) == WordOf(b[0], b[1], b[2], b[3], b[4], b[5], b[6], b[7])
  {
    hide Or, ByteAt, OrBytes, LowerBytes, UpperBytes;
    OrsMakeUpperBytes(OrBytes(0, b[..4]), b[4], b[5], b[6], b[7]);
    LowerHalf(b);
    OrBytesOneMore(0, b, 4);
    OrBytesOneMore(0, b, 5);
    OrBytesOneMore(0, b, 6);
    OrBytesOneMore(0, b, 7);
    assert b[..8] == b;
  }

  lemma LowerHalf(b: block)
    ensures OrBytes(0, b[..4]) == LowerBytes(b[0], b[1], b[2], b[3])
  {
    NoBytes(b);
    hide Or, ByteAt, OrBytes, LowerBytes;
    OrsMakeLowerBytes(b[0], b[1], b[2], b[3]);
    OrBytesOneMore(0, b, 0);
    OrBytesOneMore(0, b, 1);
    OrBytesOneMore(0, b, 2);
    OrBytesOneMore(0, b, 3);
  }

  lemma NoBytes(b: block)
    ensures OrBytes(0, b[..0]) == 0
  {
  }

  lemma HoldsBytes(b0: byte, b1: byte, b2: byte, b3: byte, b4: byte, b5: byte, b6: byte, b7: byte)
    ensures var w := WordOf(b0, b1, b2, b3, b4, b5, b6, b7);
            && ByteOf(w, 0) == b0 && ByteOf(w, 1) == b1 && ByteOf(w, 2) == b2 && ByteOf(w, 3) == b3
            && ByteOf(w, 4) == b4 && ByteOf(w, 5) == b5 && ByteOf(w, 6) == b6 && ByteOf(w, 7) == b7
  {
  }

  lemma BytesDetermineWord(x: word, y: word)
    requires ByteOf(x, 0) == ByteOf(y, 0) && ByteOf(x, 1) == ByteOf(y, 1)
    requires ByteOf(x, 2) == ByteOf(y, 2) && ByteOf(x, 3) == ByteOf(y, 3)
    requires ByteOf(x, 4) == ByteOf(y, 4) && ByteOf(x, 5) == ByteOf(y, 5)
    requires ByteOf(x, 6) == ByteOf(y, 6) && ByteOf(x, 7) == ByteOf(y, 7)
    ensures x == y
  {
  }

  // ---- the round can be undone ----

  function Sub(a: word, b: word): word {
    a - b
  }

  function Unmix(c: word, d: word, r: word): (word, word)
    requires 0 < r < 64
  {
    var b := Rotl(Xor(d, c), 64 - r);
    (Sub(c, b), b)
  }

  function SipUnround(s: State): State {
    var (b0, a3) := Unmix(s.v0, s.v3, 21);
    var (a2, a1) := Unmix(Rotl(s.v2, 32), s.v1, 17);
    var (v2, v3) := Unmix(a2, a3, 16);
    var (v0, v1) := Unmix(Rotl(b0, 32), a1, 13);
    State(v0, v1, v2, v3)
  }

  predicate IsRotation(r: word) {
    r == 13 || r == 16 || r == 17 || r == 21 || r == 32
  }

  lemma RotateBack13(x: word)
    ensures Rotl(Rotl(x, 13), 51) == x && Rotl(Rotl(x, 51), 13) == x
  {
  }

  lemma RotateBack16(x: word)
    ensures Rotl(Rotl(x, 16), 48) == x && Rotl(Rotl(x, 48), 16) == x
  {
  }

  lemma RotateBack17(x: word)
    ensures Rotl(Rotl(x, 17), 47) == x && Rotl(Rotl(x, 47), 17) == x
  {
  }

  lemma RotateBack21(x: word)
    ensures Rotl(Rotl(x, 21), 43) == x && Rotl(Rotl(x, 43), 21) == x
  {
  }

  lemma RotateBack32(x: word)
    ensures Rotl(Rotl(x, 32), 32) == x
  {
  }

  lemma RotateBack(x: word, r: word)
    requires IsRotation(r)
    ensures Rotl(Rotl(x, r), 64 - r) == x && Rotl(Rotl(x, 64 - r), r) == x
  {
    hide Rotl;
    RotateBack13(x);
    RotateBack16(x);
    RotateBack17(x);
    RotateBack21(x);
    RotateBack32(x);
  }

  lemma XorTwice(a: word, b: word)
    ensures Xor(Xor(a, b), b) == a
  {
  }

  lemma SubOfSum(a: word, b: word)
    ensures Sub(a + b, b) == a
  {
  }

  lemma SumOfDifference(a: word, b: word)
    ensures Add(a - b, b) == a
  {
  }

  lemma AddThenSub(a: word, b: word)
    ensures Sub(Add(a, b), b) == a
  {
    hide Sub;
    SubOfSum(a, b);
  }

  lemma SubThenAdd(a: word, b: word)
    ensures Add(Sub(a, b), b) == a
  {
    hide Add;
    SumOfDifference(a, b);
  }

  lemma UnmixMix(a: word, b: word, r: word)
    requires IsRotation(r)
    ensures var m := Mix(a, b, r); Unmix(m.0, m.1, r) == (a, b)
  {
    hide Rotl, Xor, Add, Sub;
    XorTwice(Rotl(b, r), Add(a, b));
    RotateBack(b, r);
    AddThenSub(a, b);
  }

  lemma MixUnmix(c: word, d: word, r: word)
    requires IsRotation(r)
    ensures var u := Unmix(c, d, r); Mix(u.0, u.1, r) == (c, d)
  {
    hide Rotl, Xor, Add, Sub;
    RotateBack(Xor(d, c), r);
    SubThenAdd(c, Rotl(Xor(d, c), 64 - r));
    XorTwice(d, c);
  }

  /** The round is a bijection: `SipUnround` undoes it, on either side. */
  lemma RoundIsBijection(s: State)
    ensures SipUnround(SipRound(s)) == s && SipRound(SipUnround(s)) == s
  {
    UnroundRound(s);
    RoundUnround(s);
  }

  lemma UnroundRound(s: State)
    ensures SipUnround(SipRound(s)) == s
  {
    hide Mix, Unmix, Rotl;
    var (a0, a1) := Mix(s.v0, s.v1, 13);
    var (a2, a3) := Mix(s.v2, s.v3, 16);
    UnmixMix(s.v0, s.v1, 13);
    UnmixMix(s.v2, s.v3, 16);
    UnmixMix(a2, a1, 17);
    UnmixMix(Rotl(a0, 32), a3, 21);
    RotateBack(a0, 32);
    RotateBack(Mix(a2, a1, 17).0, 32);
  }

  lemma RoundUnround(s: State)
    ensures SipRound(SipUnround(s)) == s
  {
    hide Mix, Unmix, Rotl;
    var (b0, a3) := Unmix(s.v0, s.v3, 21);
    var (a2, a1) := Unmix(Rotl(s.v2, 32), s.v1, 17);
    MixUnmix(s.v0, s.v3, 21);
    MixUnmix(Rotl(s.v2, 32), s.v1, 17);
    MixUnmix(a2, a3, 16);
    MixUnmix(Rotl(b0, 32), a1, 13);
    RotateBack(b0, 32);
    RotateBack(s.v2, 32);
  }

  // ---- one changed block cannot be lost before the end ----

  lemma XorCancels(a: word, b: word, c: word)
    ensures Xor(a, c) == Xor(b, c) ==> a == b
    ensures Xor(c, a) == Xor(c, b) ==> a == b
  {
  }

  /** Absorbing one and the same word keeps different states apart. */
  lemma CompressKeepsApart(s: State, t: State, m: word)
    requires s != t
    ensures Compress(s, m) != Compress(t, m)
  {
    hide SipRound, SipUnround, Xor;
    var s', t' := s.(v3 := Xor(s.v3, m)), t.(v3 := Xor(t.v3, m));
    RoundIsBijection(s');
    RoundIsBijection(t');
    XorCancels(s.v3, t.v3, m);
    XorCancels(SipRound(s').v0, SipRound(t').v0, m);
  }

  lemma AddCommutes(a: word, b: word)
    ensures Add(a, b) == Add(b, a)
  {
  }

  /** Absorbing different words in one state leads to different states. */
  lemma CompressTellsWords(s: State, m: word, n: word)
    requires m != n
    ensures Compress(s, m) != Compress(s, n)
  {
    hide Rotl, Xor, Add, Sub;
    LowerHalfTells(s, Xor(s.v3, m));
    LowerHalfTells(s, Xor(s.v3, n));
    XorCancels(m, n, s.v3);
  }

  /** The second and third word after a round tell what the fourth one was before it. */
  lemma LowerHalfTells(s: State, x: word)
    ensures var t := SipRound(s.(v3 := x));
            x == Sub(Unmix(Rotl(t.v2, 32), t.v1, 17).0, s.v2)
  {
    hide Rotl, Xor, Add, Sub;
    var (a0, a1) := Mix(s.v0, s.v1, 13);
    var (a2, a3) := Mix(s.v2, x, 16);
    UnmixMix(a2, a1, 17);
    RotateBack(Mix(a2, a1, 17).0, 32);
    AddCommutes(s.v2, x);
    AddThenSub(x, s.v2);
  }

  lemma {:induction false} AbsorbKeepsApart(s: State, t: State, blocks: seq<block>)
    requires s != t
    ensures Absorb(s, blocks) != Absorb(t, blocks)
  {
    hide Compress, LeWord;
    if blocks != [] {
      var before, last := blocks[..|blocks| - 1], blocks[|blocks| - 1];
      AbsorbKeepsApart(s, t, before);
      CompressKeepsApart(Absorb(s, before), Absorb(t, before), LeWord(last));
    }
  }

  lemma {:induction false} AbsorbConcat(s: State, a: seq<block>, b: seq<block>)
    ensures Absorb(s, a + b) == Absorb(Absorb(s, a), b)
  {
    hide Compress, LeWord;
    if b == [] {
      assert a + b == a;
    } else {
      var prefix, last := b[..|b| - 1], b[|b| - 1];
      assert a + b == a + prefix + [last];
      AbsorbConcat(s, a, prefix);
      AbsorbOneMore(s, a + prefix, last);
    }
  }

  lemma LeWordTells(b: block, c: block)
    ensures LeWord(b) == LeWord(c) ==> b == c
  {
    hide LeWord, ByteOf;
    LeWordHoldsBytes(b);
    LeWordHoldsBytes(c);
  }

  /** Messages that differ in one block lead to different states, whatever follows. */
  lemma OneBlockChangesState(s: State, before: seq<block>, b: block, c: block, after: seq<block>)
    requires b != c
    ensures Absorb(s, before + [b] + after) != Absorb(s, before + [c] + after)
  {
    hide Compress, LeWord;
    AbsorbConcat(s, before + [b], after);
    AbsorbConcat(s, before + [c], after);
    AbsorbOneMore(s, before, b);
    AbsorbOneMore(s, before, c);
    LeWordTells(b, c);
    CompressTellsWords(Absorb(s, before), LeWord(b), LeWord(c));
    AbsorbKeepsApart(Absorb(s, before + [b]), Absorb(s, before + [c]), after);
  }
}
