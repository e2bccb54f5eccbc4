/**
 * The family SipHash-c-d of the paper: c rounds per word and d to finish. The program's hash is its member
 * SipHash-1-3, and the paper's own test vector for SipHash-2-4 fixes everything the two share: constants,
 * rotations, byte order and padding.
 */
module SipHashFamily {
  import opened SipHash

  function Rounds(s: State, n: nat): State {
    if n == 0 then s else SipRound(Rounds(s, n - 1))
  }

  function CompressWith(c: nat, s: State, m: word): State {
    var t := Rounds(s.(v3 := Xor(s.v3, m)), c);
    t.(v0 := Xor(t.v0, m))
  }

  function AbsorbWith(c: nat, s: State, blocks: seq<block>): State {
    if blocks == [] then s
    else CompressWith(c, AbsorbWith(c, s, blocks[..|blocks| - 1]), LeWord(blocks[|blocks| - 1]))
  }

  function FinishWith(d: nat, s: State): word {
    var t := Rounds(s.(v2 := Xor(s.v2, 0xff)), d);
    Xor(Xor(Xor(t.v0, t.v1), t.v2), t.v3)
  }

  /** SipHash-c-d. */
  function HashWith(c: nat, d: nat, msg: seq<byte>, k0: word, k1: word): word {
    FinishWith(d, AbsorbWith(c, Initial(k0, k1), Blocks(Padded(msg))))
  }

  // ---- the program's member ----

  lemma OneRound(s: State)
    ensures Rounds(s, 1) == SipRound(s)
  {
    hide SipRound;
    assert Rounds(s, 0) == s;
  }

  lemma ThreeRounds(s: State)
    ensures Rounds(s, 3) == SipRound(SipRound(SipRound(s)))
  {
    hide SipRound;
    OneRound(s);
    assert Rounds(s, 2) == SipRound(Rounds(s, 1));
  }

  lemma {:induction false} AbsorbsOnce(s: State, blocks: seq<block>)
    ensures AbsorbWith(1, s, blocks) == Absorb(s, blocks)
  {
    hide SipRound, Xor, LeWord, Rounds;
    if blocks != [] {
      var before, m := Absorb(s, blocks[..|blocks| - 1]), LeWord(blocks[|blocks| - 1]);
      AbsorbsOnce(s, blocks[..|blocks| - 1]);
      OneRound(before.(v3 := Xor(before.v3, m)));
    }
  }

  /** The program's hash is SipHash-1-3. */
  lemma HashIsOneThree(msg: seq<byte>, k0: word, k1: word)
    ensures Hash(msg, k0, k1) == HashWith(1, 3, msg, k0, k1)
  {
    hide SipRound, Xor, LeWord, Rounds, Absorb, AbsorbWith, Initial, Blocks, Padded;
    var s := Absorb(Initial(k0, k1), Blocks(Padded(msg)));
    AbsorbsOnce(Initial(k0, k1), Blocks(Padded(msg)));
    ThreeRounds(s.(v2 := Xor(s.v2, 0xff)));
  }

  // ---- the test vector of Appendix A ----

  const MESSAGE: seq<byte> := [0, 1, 2, 3, 4, 5, 6, 7, 8, 9, 10, 11, 12, 13, 14]
  const KEY0: word := 0x0706050403020100
  const KEY1: word := 0x0f0e0d0c0b0a0908

  lemma Round1()
    ensures SipRound(State(0x7469686173716475, 0x6b617f6d656e6665, 0x6b7f62616d677361, 0x7c6d6c6a717c6d7b)) ==
            State(0x64668a929363847f, 0x4ed232083d9aa8dc, 0xf2f74892d8141a2e, 0x9290f9810552f4a8)
  {
  }

  lemma Round2()
    ensures SipRound(State(0x64668a929363847f, 0x4ed232083d9aa8dc, 0xf2f74892d8141a2e, 0x9290f9810552f4a8)) ==
            State(0x4d07749cdd0858e0, 0x0d52f6f62a4f59a4, 0x634cb3577b01fd3d, 0xa5224d6f55c7d9c8)
  {
  }

  lemma Round3()
    ensures SipRound(State(0x4a017198de0a59e0, 0x0d52f6f62a4f59a4, 0x634cb3577b01fd3d, 0xaa2c40635ecdd0c0)) ==
            State(0x557560fb6063d060, 0x4c8e675bd961133e, 0xbd3d002b1703a181, 0xfb9441179a4a7315)
  {
  }

  lemma Round4()
    ensures SipRound(State(0x557560fb6063d060, 0x4c8e675bd961133e, 0xbd3d002b1703a181, 0xfb9441179a4a7315)) ==
            State(0x338bbea7645fb759, 0x414fc3fb98efe374, 0xccf13ea527b9f4bd, 0x5293f5da84008f82)
  {
  }

  lemma Round5()
    ensures SipRound(State(0x3c85b3ab6f55be51, 0x414fc3fb98efe374, 0xccf13ea527b9f442, 0x5293f5da84008f82)) ==
            State(0xf2a55244a20e48fe, 0xac5ad16ccc3ca6e4, 0x9fe5adb0a52f393a, 0xfd41d55e88f30308)
  {
  }

  lemma Round6()
    ensures SipRound(State(0xf2a55244a20e48fe, 0xac5ad16ccc3ca6e4, 0x9fe5adb0a52f393a, 0xfd41d55e88f30308)) ==
            State(0xb6c3fbdecc2ae4b4, 0x1638c86adc6b3cf0, 0x28b8b6ab62553d46, 0xc9465e86ec43eb95)
  {
  }

  lemma Round7()
    ensures SipRound(State(0xb6c3fbdecc2ae4b4, 0x1638c86adc6b3cf0, 0x28b8b6ab62553d46, 0xc9465e86ec43eb95)) ==
            State(0x58101b167209a5e6, 0xf8792ae75b66e7dd, 0x1da14c3ec7f0b4f7, 0x7624ba8a41bc4ad9)
  {
  }

  lemma Round8()
    ensures SipRound(State(0x58101b167209a5e6, 0xf8792ae75b66e7dd, 0x1da14c3ec7f0b4f7, 0x7624ba8a41bc4ad9)) ==
            State(0xf6bcd53893fecff1, 0x54b9964c7ea0d937, 0x1b38329c099bb55a, 0x1814bb89ad7be679)
  {
  }

  lemma FirstWord()
    ensures LeWord([0, 1, 2, 3, 4, 5, 6, 7]) == 0x0706050403020100
  {
    LeWordWrittenOut([0, 1, 2, 3, 4, 5, 6, 7]);
  }

  lemma SecondWord()
    ensures LeWord([8, 9, 10, 11, 12, 13, 14, 15]) == 0x0f0e0d0c0b0a0908
  {
    LeWordWrittenOut([8, 9, 10, 11, 12, 13, 14, 15]);
  }

  lemma StartOfVector()
    ensures Initial(KEY0, KEY1) == State(0x7469686173716475, 0x6b617f6d656e6665, 0x6b7f62616d677361, 0x7b6b696e727e6c7b)
  {
  }

  lemma BlocksOfVector()
    ensures Blocks(Padded(MESSAGE)) == [[0, 1, 2, 3, 4, 5, 6, 7], [8, 9, 10, 11, 12, 13, 14, 15]]
  {
    var padded := Padded(MESSAGE);
    assert padded == MESSAGE + [15] by { LengthOfVector(); }
    assert padded[..8] == [0, 1, 2, 3, 4, 5, 6, 7] && padded[8..] == [8, 9, 10, 11, 12, 13, 14, 15];
    assert padded[..8][..0] == [] && padded[..8][0..] == padded[..8];
    assert Blocks(padded[..8]) == [padded[..8]];
  }

  lemma LengthOfVector()
    ensures AsByte(15) == 15 && Zeros(0) == []
  {
    AsByteAdds(1, 1);
    AsByteAdds(2, 1);
    AsByteAdds(3, 3);
    AsByteAdds(6, 6);
    AsByteAdds(12, 3);
  }

  lemma TwoRounds(s: State)
    ensures Rounds(s, 2) == SipRound(SipRound(s))
  {
    hide SipRound;
    OneRound(s);
  }

  lemma FirstBlockOfVector()
    ensures CompressWith(2, State(0x7469686173716475, 0x6b617f6d656e6665, 0x6b7f62616d677361, 0x7b6b696e727e6c7b),
                         0x0706050403020100) ==
            State(0x4a017198de0a59e0, 0x0d52f6f62a4f59a4, 0x634cb3577b01fd3d, 0xa5224d6f55c7d9c8)
  {
    hide SipRound, Rounds;
    TwoRounds(State(0x7469686173716475, 0x6b617f6d656e6665, 0x6b7f62616d677361, 0x7c6d6c6a717c6d7b));
    Round1();
    Round2();
  }

  lemma SecondBlockOfVector()
    ensures CompressWith(2, State(0x4a017198de0a59e0, 0x0d52f6f62a4f59a4, 0x634cb3577b01fd3d, 0xa5224d6f55c7d9c8),
                         0x0f0e0d0c0b0a0908) ==
            State(0x3c85b3ab6f55be51, 0x414fc3fb98efe374, 0xccf13ea527b9f4bd, 0x5293f5da84008f82)
  {
    hide SipRound, Rounds;
    TwoRounds(State(0x4a017198de0a59e0, 0x0d52f6f62a4f59a4, 0x634cb3577b01fd3d, 0xaa2c40635ecdd0c0));
    Round3();
    Round4();
  }

  lemma FourRounds(s: State)
    ensures Rounds(s, 4) == SipRound(SipRound(SipRound(SipRound(s))))
  {
    hide SipRound;
    ThreeRounds(s);
  }

  lemma EndOfVector()
    ensures FinishWith(4, State(0x3c85b3ab6f55be51, 0x414fc3fb98efe374, 0xccf13ea527b9f4bd, 0x5293f5da84008f82)) ==
            0xa129ca6149be45e5
  {
    hide SipRound, Rounds;
    FourRounds(State(0x3c85b3ab6f55be51, 0x414fc3fb98efe374, 0xccf13ea527b9f442, 0x5293f5da84008f82));
    Round5();
    Round6();
    Round7();
    Round8();
  }

  lemma AbsorbsTwo(c: nat, s: State, a: block, b: block)
    ensures AbsorbWith(c, s, [a, b]) == CompressWith(c, CompressWith(c, s, LeWord(a)), LeWord(b))
  {
    hide CompressWith, LeWord;
    assert [a, b][..1] == [a] && [a][..0] == [];
    assert AbsorbWith(c, s, [a]) == CompressWith(c, AbsorbWith(c, s, [a][..0]), LeWord(a));
  }

  /** The test vector of the paper. */
  lemma PaperVector()
    ensures HashWith(2, 4, MESSAGE, KEY0, KEY1) == 0xa129ca6149be45e5
  {
    hide CompressWith, FinishWith, AbsorbWith, LeWord, Initial, Blocks, Padded, MESSAGE, KEY0, KEY1;
    StartOfVector();
    BlocksOfVector();
    AbsorbsTwo(2, Initial(KEY0, KEY1), [0, 1, 2, 3, 4, 5, 6, 7], [8, 9, 10, 11, 12, 13, 14, 15]);
    FirstWord();
    SecondWord();
    FirstBlockOfVector();
    SecondBlockOfVector();
    EndOfVector();
  }
}
