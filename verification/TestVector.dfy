/**
 * An anchor for rotations, swaps and constants: the first block of the hash of the empty input, which the repository's
 * tests list, worked out round by round.
 */
module TestVector {
  import opened Wire
  import opened Gimli
  import opened GimliForms
  import opened Sponge

  // The padded empty input, and the state after each of the rounds 24, 23, ..., 1.
  const S24 := State(Row(0x0000001f, 0x00000000, 0x00000000, 0x80000000),
                     Row(0x00000000, 0x00000000, 0x00000000, 0x00000000),
                     Row(0x00000000, 0x00000000, 0x00000000, 0x00000000))
  const S23 := State(Row(0x9e377918, 0x00000000, 0x00000000, 0x00000000),
                     Row(0x21000000, 0x00000000, 0x00000000, 0x01800000),
                     Row(0x1f000000, 0x00000000, 0x00000000, 0x00800000))
  const S22 := State(Row(0x1f000242, 0x00000000, 0x00000000, 0x00800003),
                     Row(0x27a259c9, 0x00000000, 0x00000000, 0x01000003),
                     Row(0x269e3779, 0x00000000, 0x00000000, 0x01000000))
  const S21 := State(Row(0x00000000, 0x01000602, 0x62b5a526, 0x00000000),
                     Row(0xcb92fcbb, 0x00000000, 0x00000000, 0x05018602),
                     Row(0x1d6b27d4, 0x00000000, 0x00000000, 0x01008000))
  const S20 := State(Row(0x38925043, 0x00000000, 0x00000000, 0x020c840a),
                     Row(0x1f2f383f, 0x0603000a, 0x6aa7deef, 0x010d040a),
                     Row(0x2f72d1f8, 0x02010006, 0x2662b5a5, 0x06010000))
  const S19 := State(Row(0x9a366d1e, 0x60823f46, 0x4c093402, 0x69df6b70),
                     Row(0xc3bd4b9e, 0x02021400, 0x0378b59f, 0x0c0c018e),
                     Row(0x241c7140, 0x0c02001c, 0x5447395e, 0x0e000c84))
  const S18 := State(Row(0x8a1aecef, 0x292a0038, 0xa76c4778, 0x960bf0dc),
                     Row(0x1931e530, 0xde8d8645, 0x5fb945ce, 0x94b97cad),
                     Row(0xd6f210ed, 0x4e648217, 0xebce9b90, 0x4c69f663))
  const S17 := State(Row(0x1d5d6717, 0xba10f44a, 0xa96871df, 0x952859aa),
                     Row(0x73b44f04, 0xdffef593, 0xfdf30f56, 0x1790af3f),
                     Row(0x49663bb6, 0x8cf2267a, 0x25103927, 0x45e0afb2))
  const S16 := State(Row(0x21187069, 0x34490465, 0xf34fd754, 0x641f91d5),
                     Row(0xc17daa6e, 0x2aa55ab7, 0xc6c53764, 0x54200980),
                     Row(0xa5c90893, 0x60d6c4e8, 0x05c9beb3, 0x2454cfb5))
  const S15 := State(Row(0xb5f6938d, 0x169d1511, 0x6447cb1d, 0x8cb53b16),
                     Row(0x49a7f414, 0xe46cbc89, 0x756a79b4, 0x7f9ea053),
                     Row(0xa7b32b5e, 0xa6c8d1d4, 0x5e4210b5, 0x9d8d827b))
  const S14 := State(Row(0x855a0755, 0xf7314a1c, 0x29b37e0f, 0x00c8055c),
                     Row(0x9d3221be, 0xa7d23577, 0x775b80df, 0x14d77d32),
                     Row(0xdc530067, 0x5da779bd, 0xf0e86421, 0x5995b821))
  const S13 := State(Row(0x7fe449bf, 0x976ddc00, 0x981abd4d, 0xdadc9ca2),
                     Row(0x8a6893f3, 0x03732dfb, 0x47fbe36e, 0x49d15c66),
                     Row(0xfc2f5a41, 0xb7306604, 0x2ef9ebbc, 0xcd6b38c3))
  const S12 := State(Row(0xa4379d55, 0x51f0b022, 0xf53ff35b, 0x7b1590d0),
                     Row(0x90a7ffcf, 0x89a24462, 0x65ad3148, 0xdf95e9b1),
                     Row(0x07bc58cb, 0xf6b639c4, 0x8b68eff5, 0x38ac8f16))
  const S11 := State(Row(0x2c0f855b, 0x65637fe2, 0x11e7e029, 0x020af926),
                     Row(0xb5235702, 0x8b36c64b, 0xb66c50d6, 0x0a574903),
                     Row(0x442ce60f, 0xdd3d8738, 0x64a6e31d, 0x032207e4))
  const S10 := State(Row(0x13e2cb65, 0xb091089e, 0xfc0a6571, 0x9da01170),
                     Row(0xa3dbd5f1, 0x71123a97, 0x2adf8576, 0xc6d41317),
                     Row(0xc3c5d3b3, 0x6c2c714f, 0xe2dea5ea, 0x284e1d21))
  const S9 := State(Row(0xd5940b97, 0x804932a4, 0x5c7122ec, 0x69d95fad),
                    Row(0x1d17e67a, 0x47bc5d74, 0x290bb9ee, 0x2904f5fe),
                    Row(0xec9f49a1, 0xd678f29e, 0x3c6bd0b1, 0x8019ae57))
  const S8 := State(Row(0xfd771dcb, 0xaac05a01, 0x099a8cf3, 0xc2bc9095),
                    Row(0x47a6db67, 0x31cb56c1, 0x03d04e16, 0xfe71dbb3),
                    Row(0xfcda07c9, 0x48922e36, 0xc5049000, 0xad7c34b9))
  const S7 := State(Row(0x454cd74d, 0xfccef92e, 0x42da77c5, 0x65d8fc27),
                    Row(0x79b55628, 0x04729ec5, 0xbd8e8393, 0x0d88a21e),
                    Row(0x000162ab, 0x928e94be, 0x7910ba8c, 0x4bea4702))
  const S6 := State(Row(0x2a8f34c0, 0x56574ef6, 0x4c078e6f, 0x508ebbd9),
                    Row(0xbd63c1da, 0xb63cf90f, 0x22e008f2, 0xe9fe5b1b),
                    Row(0x4d468b0d, 0x0bd3e7a5, 0x5363274f, 0xb5b146f0))
  const S5 := State(Row(0x9372e32a, 0x898745bb, 0x8ad117f7, 0xf0b142a9),
                    Row(0x9d742434, 0x700ba7fc, 0x5183ac55, 0xde05249e),
                    Row(0x4ead9d0e, 0xc6b98494, 0xc98ed804, 0x60f2181b))
  const S4 := State(Row(0xe6e6f524, 0x49ba7e74, 0xf69272bf, 0x28baada7),
                    Row(0x1fa4e407, 0x53b5700f, 0x0fcfc99a, 0x705cfe48),
                    Row(0x97e86cd7, 0x2edc8c6d, 0x60b5411f, 0x6914e114))
  const S3 := State(Row(0xd80b3afe, 0xd8205340, 0xd9acf4f4, 0x03b6f590),
                    Row(0x02f33524, 0xe312d827, 0xdf8a0093, 0xc0addd37),
                    Row(0x0c160f07, 0x82f09230, 0x7cd81030, 0xd1537885))
  const S2 := State(Row(0xd83c0702, 0xa3c0dfe6, 0xc8d0122f, 0x0af8230c),
                    Row(0xe50e5d41, 0xe0990b73, 0x196bf2a3, 0x691e249e),
                    Row(0xf6fc3520, 0x47f90c33, 0x5d698c54, 0x76ece5fb))
  const S1 := State(Row(0xb48ecaf6, 0x2ae41939, 0xee86b6fa, 0x65f9edfa),
                    Row(0xf39ac583, 0x1b42bee0, 0x07fe2e8c, 0xcd9e3f07),
                    Row(0xbdc05247, 0x6111c8bd, 0xc09fd8fa, 0x30f3a09d))
  const S0 := State(Row(0x2c4b63b0, 0xed2a080b, 0xfea2c0c5, 0xcfade34e),
                    Row(0x3cd634b3, 0x4e20fd55, 0xf34c2345, 0x33f4058c),
                    Row(0x5b342358, 0xff4e75b3, 0x7ba5576a, 0x5a4abab3))

  /** A round from its four columns; u is the first row before it is swapped. */
  lemma RoundIs(n: nat, s: State, u: Row, t: State)
    requires n <= 24 && Linear(n, u) == t.a
    requires SpBox(Column(s.a.w0, s.b.w0, s.c.w0)) == Column(u.w0, t.b.w0, t.c.w0)
    requires SpBox(Column(s.a.w1, s.b.w1, s.c.w1)) == Column(u.w1, t.b.w1, t.c.w1)
    requires SpBox(Column(s.a.w2, s.b.w2, s.c.w2)) == Column(u.w2, t.b.w2, t.c.w2)
    requires SpBox(Column(s.a.w3, s.b.w3, s.c.w3)) == Column(u.w3, t.b.w3, t.c.w3)
    ensures Round(n, s) == t
  {
    hide SpBox, Linear;
  }

  lemma Rounds24And23()
    ensures Rounds(24, S24) == Rounds(22, S22)
  {
    hide Round;
    RoundIs(24, S24, Row(0x00000000, 0x00000000, 0x00000000, 0x00000000), S23);
    RoundIs(23, S23, Row(0x1f000242, 0x00000000, 0x00000000, 0x00800003), S22);
  }

  lemma Rounds22And21()
    ensures Rounds(22, S22) == Rounds(20, S20)
  {
    hide Round;
    RoundIs(22, S22, Row(0x62b5a526, 0x00000000, 0x00000000, 0x01000602), S21);
    RoundIs(21, S21, Row(0x38925043, 0x00000000, 0x00000000, 0x020c840a), S20);
  }

  lemma Rounds20And19()
    ensures Rounds(20, S20) == Rounds(18, S18)
  {
    hide Round;
    RoundIs(20, S20, Row(0x60823f46, 0x0401140a, 0x69df6b70, 0x4c093402), S19);
    RoundIs(19, S19, Row(0x8a1aecef, 0x292a0038, 0xa76c4778, 0x960bf0dc), S18);
  }

  lemma Rounds18And17()
    ensures Rounds(18, S18) == Rounds(16, S16)
  {
    hide Round;
    RoundIs(18, S18, Row(0xa96871df, 0x952859aa, 0x1d5d6717, 0xba10f44a), S17);
    RoundIs(17, S17, Row(0x21187069, 0x34490465, 0xf34fd754, 0x641f91d5), S16);
  }

  lemma Rounds16And15()
    ensures Rounds(16, S16) == Rounds(14, S14)
  {
    hide Round;
    RoundIs(16, S16, Row(0x169d1511, 0x2bc1ea9d, 0x8cb53b16, 0x6447cb1d), S15);
    RoundIs(15, S15, Row(0x855a0755, 0xf7314a1c, 0x29b37e0f, 0x00c8055c), S14);
  }

  lemma Rounds14And13()
    ensures Rounds(14, S14) == Rounds(12, S12)
  {
    hide Round;
    RoundIs(14, S14, Row(0x981abd4d, 0xdadc9ca2, 0x7fe449bf, 0x976ddc00), S13);
    RoundIs(13, S13, Row(0xa4379d55, 0x51f0b022, 0xf53ff35b, 0x7b1590d0), S12);
  }

  lemma Rounds12And11()
    ensures Rounds(12, S12) == Rounds(10, S10)
  {
    hide Round;
    RoundIs(12, S12, Row(0x65637fe2, 0xb238fc57, 0x020af926, 0x11e7e029), S11);
    RoundIs(11, S11, Row(0x13e2cb65, 0xb091089e, 0xfc0a6571, 0x9da01170), S10);
  }

  lemma Rounds10And9()
    ensures Rounds(10, S10) == Rounds(8, S8)
  {
    hide Round;
    RoundIs(10, S10, Row(0x5c7122ec, 0x69d95fad, 0xd5940b97, 0x804932a4), S9);
    RoundIs(9, S9, Row(0xfd771dcb, 0xaac05a01, 0x099a8cf3, 0xc2bc9095), S8);
  }

  lemma Rounds8And7()
    ensures Rounds(8, S8) == Rounds(6, S6)
  {
    hide Round;
    RoundIs(8, S8, Row(0xfccef92e, 0xdb7bae45, 0x65d8fc27, 0x42da77c5), S7);
    RoundIs(7, S7, Row(0x2a8f34c0, 0x56574ef6, 0x4c078e6f, 0x508ebbd9), S6);
  }

  lemma Rounds6And5()
    ensures Rounds(6, S6) == Rounds(4, S4)
  {
    hide Round;
    RoundIs(6, S6, Row(0x8ad117f7, 0xf0b142a9, 0x9372e32a, 0x898745bb), S5);
    RoundIs(5, S5, Row(0xe6e6f524, 0x49ba7e74, 0xf69272bf, 0x28baada7), S4);
  }

  lemma Rounds4And3()
    ensures Rounds(4, S4) == Rounds(2, S2)
  {
    hide Round;
    RoundIs(4, S4, Row(0xd8205340, 0x463c43fa, 0x03b6f590, 0xd9acf4f4), S3);
    RoundIs(3, S3, Row(0xd83c0702, 0xa3c0dfe6, 0xc8d0122f, 0x0af8230c), S2);
  }

  lemma Rounds2And1()
    ensures Rounds(2, S2) == Rounds(0, S0)
  {
    hide Round;
    RoundIs(2, S2, Row(0xee86b6fa, 0x65f9edfa, 0xb48ecaf6, 0x2ae41939), S1);
    RoundIs(1, S1, Row(0x2c4b63b0, 0xed2a080b, 0xfea2c0c5, 0xcfade34e), S0);
  }

  lemma FirstPermutation()
    ensures Permutation(S24) == S0
  {
    hide Round;
    Rounds24And23();
    Rounds22And21();
    Rounds20And19();
    Rounds18And17();
    Rounds16And15();
    Rounds14And13();
    Rounds12And11();
    Rounds10And9();
    Rounds8And7();
    Rounds6And5();
    Rounds4And3();
    Rounds2And1();
  }

  lemma PaddedStart()
    ensures FromBytes(Padded(Zeros(), 0)) == S24
  {
    hide WordOf;
    assert XorByte(0, 0x1f) == 0x1f && XorByte(0, 0x80) == 0x80;
    WordsOfStart();
  }

  lemma WordsOfStart()
    ensures WordOf(0x1f, 0, 0, 0) == 0x1f && WordOf(0, 0, 0, 0x80) == 0x8000_0000 && WordOf(0, 0, 0, 0) == 0
  {
  }

  const FIRST_BLOCK: Bytes := [
    0xb0, 0x63, 0x4b, 0x2c, 0x0b, 0x08, 0x2a, 0xed, 0xc5, 0xc0, 0xa2, 0xfe, 0x4e, 0xe3, 0xad, 0xcf]

  lemma RowOfEnd()
    ensures RowBytes(S0.a) == FIRST_BLOCK
  {
  }

  lemma RatePart(s: State)
    ensures ToBytes(s)[..16] == RowBytes(s.a)
  {
    hide RowBytes;
  }

  /** HashOf, which both hash methods are proved to compute, starts with the published bytes on the empty input. */
  lemma HashOfEmptyInput()
    ensures HashOf([], 16) == FIRST_BLOCK
  {
    hide FromBytes, ToBytes, Permutation, Padded, Zeros, RowBytes;
    HashNothing(Zeros());
    PaddedStart();
    FirstPermutation();
    SqueezedStep(Permuted(Padded(Zeros(), 0)), 16);
    RatePart(S0);
    RowOfEnd();
  }
}
