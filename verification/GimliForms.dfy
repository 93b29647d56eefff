/** The permutation as the two programs run it: over three vectors of a byte array, and column by column in place. */
module GimliForms {
  import opened Wire
  import opened Gimli

  // ---------- The little-endian layout: 48 bytes, 12 words, 3 rows ----------

  function WordOf(b0: byte, b1: byte, b2: byte, b3: byte): Word {
    (b0 as bv32) | (b1 as bv32 << 8) | (b2 as bv32 << 16) | (b3 as bv32 << 24)
  }

  function ByteOf(w: Word, k: nat): byte
    requires k < 4
  {
    match k
    case 0 => (w & 0xff) as byte
    case 1 => ((w >> 8) & 0xff) as byte
    case 2 => ((w >> 16) & 0xff) as byte
    case _ => ((w >> 24) & 0xff) as byte
  }

  function WordAt(b: Bytes, i: nat): Word
    requires i + 4 <= |b|
  {
    WordOf(b[i], b[i + 1], b[i + 2], b[i + 3])
  }

  function RowAt(b: Bytes, i: nat): Row
    requires i + 16 <= |b|
  {
    Row(WordAt(b, i), WordAt(b, i + 4), WordAt(b, i + 8), WordAt(b, i + 12))
  }

  function WordBytes(w: Word): (b: Bytes)
    ensures |b| == 4
  {
    [ByteOf(w, 0), ByteOf(w, 1), ByteOf(w, 2), ByteOf(w, 3)]
  }

  function RowBytes(r: Row): (b: Bytes)
    ensures |b| == 16
  {
    WordBytes(r.w0) + WordBytes(r.w1) + WordBytes(r.w2) + WordBytes(r.w3)
  }

  function FromBytes(b: Bytes): State
    requires |b| == 48
  {
    State(RowAt(b, 0), RowAt(b, 16), RowAt(b, 32))
  }

  function ToBytes(s: State): (b: Bytes)
    ensures |b| == 48
  {
    RowBytes(s.a) + RowBytes(s.b) + RowBytes(s.c)
  }

  function FromWords(w: seq<Word>): State
    requires |w| == 12
  {
    State(Row(w[0], w[1], w[2], w[3]), Row(w[4], w[5], w[6], w[7]), Row(w[8], w[9], w[10], w[11]))
  }

  lemma WordRoundTrip(w: Word)
    ensures WordOf(ByteOf(w, 0), ByteOf(w, 1), ByteOf(w, 2), ByteOf(w, 3)) == w
  {
  }

  lemma ByteRoundTrip(b0: byte, b1: byte, b2: byte, b3: byte)
    ensures var w := WordOf(b0, b1, b2, b3);
            ByteOf(w, 0) == b0 && ByteOf(w, 1) == b1 && ByteOf(w, 2) == b2 && ByteOf(w, 3) == b3
  {
  }

  lemma RowRoundTrip(r: Row, b: Bytes, i: nat)
    requires i + 16 <= |b| && b[i..i + 16] == RowBytes(r)
    ensures RowAt(b, i) == r
  {
    hide WordOf, ByteOf;
    WordRoundTrip(r.w0);
    WordRoundTrip(r.w1);
    WordRoundTrip(r.w2);
    WordRoundTrip(r.w3);
    var row := b[i..i + 16];
    assert b[i] == row[0] && b[i + 4] == row[4] && b[i + 8] == row[8] && b[i + 12] == row[12];
    assert b[i + 1] == row[1] && b[i + 5] == row[5] && b[i + 9] == row[9] && b[i + 13] == row[13];
    assert b[i + 2] == row[2] && b[i + 6] == row[6] && b[i + 10] == row[10] && b[i + 14] == row[14];
    assert b[i + 3] == row[3] && b[i + 7] == row[7] && b[i + 11] == row[11] && b[i + 15] == row[15];
  }

  lemma RowBytesRoundTrip(b: Bytes, i: nat)
    requires i + 16 <= |b|
    ensures RowBytes(RowAt(b, i)) == b[i..i + 16]
  {
    hide WordOf, ByteOf;
    ByteRoundTrip(b[i], b[i + 1], b[i + 2], b[i + 3]);
    ByteRoundTrip(b[i + 4], b[i + 5], b[i + 6], b[i + 7]);
    ByteRoundTrip(b[i + 8], b[i + 9], b[i + 10], b[i + 11]);
    ByteRoundTrip(b[i + 12], b[i + 13], b[i + 14], b[i + 15]);
  }

  /** The layout is a bijection between states and 48-byte strings. */
  lemma LayoutRoundTrip(s: State, b: Bytes)
    requires |b| == 48
    ensures FromBytes(ToBytes(s)) == s && ToBytes(FromBytes(b)) == b
  {
    hide RowAt, RowBytes;
    RowRoundTrip(s.a, ToBytes(s), 0);
    RowRoundTrip(s.b, ToBytes(s), 16);
    RowRoundTrip(s.c, ToBytes(s), 32);
    RowBytesRoundTrip(b, 0);
    RowBytesRoundTrip(b, 16);
    RowBytesRoundTrip(b, 32);
  }

  /** The permutation on the bytes of a state. */
  function Permuted(b: Bytes): (r: Bytes)
    requires |b| == 48
    ensures |r| == 48
  {
    ToBytes(Permutation(FromBytes(b)))
  }

  function Unpermuted(b: Bytes): (r: Bytes)
    requires |b| == 48
    ensures |r| == 48
  {
    ToBytes(Inverse(FromBytes(b)))
  }

  lemma PermutedBijective(b: Bytes)
    requires |b| == 48
    ensures Unpermuted(Permuted(b)) == b && Permuted(Unpermuted(b)) == b
  {
    hide FromBytes, ToBytes, Permutation, Inverse;
    var s := FromBytes(b);
    LayoutRoundTrip(Permutation(s), b);
    LayoutRoundTrip(Inverse(s), b);
    PermutationBijective(s);
  }

  // ---------- Operations on words and on vectors of four words ----------

  function AndWord(p: Word, q: Word): Word { p & q }
  function OrWord(p: Word, q: Word): Word { p | q }
  function LeftWord(p: Word, n: nat): Word requires n <= 32 { p << n }
  function RightWord(p: Word, n: nat): Word requires n <= 32 { p >> n }

  function RotateWord(p: Word, n: nat): Word
    requires n <= 32
  {
    OrWord(LeftWord(p, n), RightWord(p, 32 - n))
  }

  function And(p: Row, q: Row): Row {
    Row(AndWord(p.w0, q.w0), AndWord(p.w1, q.w1), AndWord(p.w2, q.w2), AndWord(p.w3, q.w3))
  }

  function Or(p: Row, q: Row): Row {
    Row(OrWord(p.w0, q.w0), OrWord(p.w1, q.w1), OrWord(p.w2, q.w2), OrWord(p.w3, q.w3))
  }

  function XorRows(p: Row, q: Row): Row {
    Row(Xor(p.w0, q.w0), Xor(p.w1, q.w1), Xor(p.w2, q.w2), Xor(p.w3, q.w3))
  }

  function Xor3Rows(p: Row, q: Row, r: Row): Row {
    Row(Xor3(p.w0, q.w0, r.w0), Xor3(p.w1, q.w1, r.w1), Xor3(p.w2, q.w2, r.w2), Xor3(p.w3, q.w3, r.w3))
  }

  function Left(p: Row, n: nat): Row
    requires n <= 32
  {
    Row(LeftWord(p.w0, n), LeftWord(p.w1, n), LeftWord(p.w2, n), LeftWord(p.w3, n))
  }

  function Right(p: Row, n: nat): Row
    requires n <= 32
  {
    Row(RightWord(p.w0, n), RightWord(p.w1, n), RightWord(p.w2, n), RightWord(p.w3, n))
  }

  function RotateLeft(p: Row, n: nat): Row
    requires n <= 32
  {
    Or(Left(p, n), Right(p, 32 - n))
  }

  lemma Carry1Form(x: Word, z: Word)
    ensures LeftWord(OrWord(x, z), 1) == Carry1(x, z)
  {
  }

  lemma Carry2Form(y: Word, z: Word)
    ensures LeftWord(z, 1) == Double(z) && LeftWord(AndWord(y, z), 2) == Carry2(y, z)
  {
  }

  lemma Carry3Form(x: Word, y: Word)
    ensures LeftWord(AndWord(x, y), 3) == Carry3(x, y)
  {
  }

  lemma SpinForms(w: Word)
    ensures RotateWord(w, 24) == Spin24(w) && RotateWord(w, 9) == Spin9(w)
  {
  }

  lemma ZeroXor(w: Word)
    ensures Xor(w, 0) == w
  {
  }

  // ---------- The row form ----------

  /** Lane by lane, the vector operations of a round are the column map on all four columns. */
  lemma RowsAreLayer(s: State)
    ensures var (x, y, z) := (RotateLeft(s.a, 24), RotateLeft(s.b, 9), s.c);
            Layer(s) == State(Xor3Rows(z, y, Left(And(x, y), 3)), Xor3Rows(y, x, Left(Or(x, z), 1)),
                              Xor3Rows(x, Left(z, 1), Left(And(y, z), 2)))
  {
    hide Xor3, LeftWord, RightWord, AndWord, OrWord, Spin24, Spin9, Double, Carry1, Carry2, Carry3;
    ColumnForms(s.a.w0, s.b.w0, s.c.w0);
    ColumnForms(s.a.w1, s.b.w1, s.c.w1);
    ColumnForms(s.a.w2, s.b.w2, s.c.w2);
    ColumnForms(s.a.w3, s.b.w3, s.c.w3);
  }

  lemma ColumnForms(x0: Word, y0: Word, z: Word)
    ensures var (x, y) := (RotateWord(x0, 24), RotateWord(y0, 9));
            SpBox(Column(x0, y0, z)) == Column(Xor3(z, y, LeftWord(AndWord(x, y), 3)),
                                               Xor3(y, x, LeftWord(OrWord(x, z), 1)),
                                               Xor3(x, LeftWord(z, 1), LeftWord(AndWord(y, z), 2)))
  {
    hide Xor3, LeftWord, RotateWord, AndWord, OrWord, Spin24, Spin9, Double, Carry1, Carry2, Carry3;
    SpinForms(x0);
    SpinForms(y0);
    Carry1Form(RotateWord(x0, 24), z);
    Carry2Form(RotateWord(y0, 9), z);
    Carry3Form(RotateWord(x0, 24), RotateWord(y0, 9));
  }

  lemma AddsConstant(r: Row, k: Word)
    ensures XorRows(r, Row(k, 0, 0, 0)) == r.(w0 := Xor(r.w0, k))
  {
    hide Xor;
    ZeroXor(r.w1);
    ZeroXor(r.w2);
    ZeroXor(r.w3);
  }

  /** The state of the .NET class: 48 bytes, permuted by rows. */
  class RowGimli {
    const state: array<byte>

    constructor ()
      ensures fresh(state) && state.Length == 48 && state[..] == Zeros()
    {
      state := new byte[48](_ => 0);
      new;
      assert state[..] == Zeros();
    }

    method StoreRow(offset: nat, row: Row)
      requires state.Length == 48 && offset + 16 <= 48
      modifies state
      ensures state[..] == old(state[..offset]) + RowBytes(row) + old(state[offset + 16..])
    {
      hide RowBytes;
      var bytes := RowBytes(row);
      forall i | 0 <= i < 16 {
        state[offset + i] := bytes[i];
      }
      assert state[offset..offset + 16] == bytes;
      assert state[..] == state[..offset] + state[offset..offset + 16] + state[offset + 16..];
    }

    method Permute()
      requires state.Length == 48
      modifies state
      ensures state[..] == Permuted(old(state[..]))
    {
      hide Round, RowAt, RowBytes;
      var a, b, c := RowAt(state[..], 0), RowAt(state[..], 16), RowAt(state[..], 32);
      ghost var was := State(a, b, c);
      ghost var bytes := state[..];
      var round := 24;
      while round > 0
        invariant round <= 24 && Rounds(round, State(a, b, c)) == Permutation(was)
        invariant state[..] == bytes
      {
        a, b, c := RoundOfRows(round, a, b, c);
        round := round - 1;
      }
      StoreRow(0, a);
      StoreRow(16, b);
      StoreRow(32, c);
    }

    /** The body of the loop. */
    static method RoundOfRows(round: nat, a0: Row, b0: Row, c0: Row) returns (a: Row, b: Row, c: Row)
      requires 0 < round <= 24
      ensures State(a, b, c) == Round(round, State(a0, b0, c0))
    {
      hide Layer, Xor, Xor3Rows, XorRows, RotateLeft, Left, And, Or, Constant;
      RowsAreLayer(State(a0, b0, c0));
      a, b, c := a0, b0, c0;
      var (x, y, z) := (RotateLeft(a, 24), RotateLeft(b, 9), c);
      c := Xor3Rows(x, Left(z, 1), Left(And(y, z), 2));
      b := Xor3Rows(y, x, Left(Or(x, z), 1));
      a := Xor3Rows(z, y, Left(And(x, y), 3));
      if round % 4 == 0 {
        a := SmallSwap(a);
        AddsConstant(a, Constant(round));
        a := XorRows(a, Row(Constant(round), 0, 0, 0));
      } else if round % 4 == 2 {
        a := BigSwap(a);
      }
    }
  }

  function Zeros(): (b: Bytes)
    ensures |b| == 48
  {
    seq(48, _ => 0)
  }

  // ---------- The column form, in place ----------

  /** Words i, i + 4 and i + 8 of the array. */
  function ColumnAt(w: seq<Word>, i: nat): Column
    requires |w| == 12 && i < 4
  {
    Column(w[i], w[i + 4], w[i + 8])
  }

  lemma LayerByColumns(was: seq<Word>, now: seq<Word>)
    requires |was| == 12 && |now| == 12
    requires forall i :: 0 <= i < 4 ==> ColumnAt(now, i) == SpBox(ColumnAt(was, i))
    ensures FromWords(now) == Layer(FromWords(was))
  {
    hide SpBox;
    assert ColumnAt(now, 0) == SpBox(Col(FromWords(was), 0));
    assert ColumnAt(now, 1) == SpBox(Col(FromWords(was), 1));
    assert ColumnAt(now, 2) == SpBox(Col(FromWords(was), 2));
    assert ColumnAt(now, 3) == SpBox(Col(FromWords(was), 3));
  }

  method MixColumn(state: array<Word>, col: nat)
    requires state.Length == 12 && col < 4
    modifies state
    ensures ColumnAt(state[..], col) == SpBox(ColumnAt(old(state[..]), col))
    ensures forall i :: 0 <= i < 4 && i != col ==> ColumnAt(state[..], i) == ColumnAt(old(state[..]), i)
  {
    hide SpBox, RotateWord, LeftWord, AndWord, OrWord, Xor3;
    var x := RotateWord(state[col], 24);
    var y := RotateWord(state[col + 4], 9);
    var z := state[col + 8];
    ColumnForms(state[col], state[col + 4], state[col + 8]);
    state[col + 8] := Xor3(x, LeftWord(z, 1), LeftWord(AndWord(y, z), 2));
    state[col + 4] := Xor3(y, x, LeftWord(OrWord(x, z), 1));
    state[col] := Xor3(z, y, LeftWord(AndWord(x, y), 3));
  }

  method Swap(state: array<Word>, i: nat, j: nat)
    requires i < state.Length && j < state.Length
    modifies state
    ensures state[..] == old(state[..])[i := old(state[j])][j := old(state[i])]
  {
    state[i], state[j] := state[j], state[i];
  }

  /** The swaps and the constant of one round. */
  method SwapAndAdd(state: array<Word>, round: nat)
    requires state.Length == 12 && 0 < round <= 24
    modifies state
    ensures FromWords(state[..]) == var s := FromWords(old(state[..])); s.(a := Linear(round, s.a))
  {
    hide Constant, Xor;
    if round % 4 == 0 {
      Swap(state, 0, 1);
      Swap(state, 2, 3);
    }
    if round % 4 == 2 {
      Swap(state, 0, 2);
      Swap(state, 1, 3);
    }
    if round % 4 == 0 {
      state[0] := Xor(state[0], Constant(round));
    }
  }

  /** gimli: rounds 24 down to 1, each column after column. */
  method GimliColumns(state: array<Word>)
    requires state.Length == 12
    modifies state
    ensures FromWords(state[..]) == Permutation(FromWords(old(state[..])))
  {
    hide Layer, Linear, SpBox, FromWords, ColumnAt;
    ghost var was := FromWords(state[..]);
    var round := 24;
    while round > 0
      invariant round <= 24 && Rounds(round, FromWords(state[..])) == Permutation(was)
    {
      ghost var before := state[..];
      for col := 0 to 4
        invariant forall i :: 0 <= i < col ==> ColumnAt(state[..], i) == SpBox(ColumnAt(before, i))
        invariant forall i :: col <= i < 4 ==> ColumnAt(state[..], i) == ColumnAt(before, i)
      {
        MixColumn(state, col);
      }
      LayerByColumns(before, state[..]);
      SwapAndAdd(state, round);
      round := round - 1;
    }
  }

  /** The Rust state: the same 48 bytes, seen as 12 aligned words while they are permuted. */
  class GimliState {
    const state: array<byte>

    constructor ()
      ensures fresh(state) && state.Length == 48 && state[..] == Zeros()
    {
      state := new byte[48](_ => 0);
      new;
      assert state[..] == Zeros();
    }

    method Permute()
      requires state.Length == 48
      modifies state
      ensures state[..] == Permuted(old(state[..]))
    {
      hide *;
      ghost var was := state[..];
      var words := Words(was);
      GimliColumns(words);
      Store(words);
      PermutedByWords(was, words[..]);
    }

    /** The transmuted view, read. */
    method Words(ghost was: Bytes) returns (words: array<Word>)
      requires state.Length == 48 && was == state[..]
      ensures fresh(words) && words.Length == 12 && FromWords(words[..]) == FromBytes(was)
    {
      hide WordOf;
      words := new Word[12](i requires 0 <= i < 12 && state.Length == 48 reads state => WordAt(state[..], 4 * i));
    }

    /** And written. */
    method Store(words: array<Word>)
      requires state.Length == 48 && words.Length == 12
      modifies state
      ensures state[..] == ToBytes(FromWords(words[..]))
    {
      hide WordBytes, ToBytes, FromWords;
      ghost var target := ToBytes(FromWords(words[..]));
      for i := 0 to 12
        invariant state[..4 * i] == target[..4 * i]
      {
        StoreWord(4 * i, WordBytes(words[i]));
        WordInBytes(words[..], i);
        assert target[..4 * i + 4] == target[..4 * i] + target[4 * i..4 * i + 4];
      }
      assert state[..] == state[..48] && target == target[..48];
    }

    method StoreWord(offset: nat, bytes: Bytes)
      requires state.Length == 48 && offset + 4 <= 48 && |bytes| == 4
      modifies state
      ensures state[..offset + 4] == old(state[..offset]) + bytes
    {
      state[offset], state[offset + 1], state[offset + 2], state[offset + 3] := bytes[0], bytes[1], bytes[2], bytes[3];
    }
  }

  lemma WordInRow(r: Row)
    ensures RowBytes(r)[0..4] == WordBytes(r.w0) && RowBytes(r)[4..8] == WordBytes(r.w1)
    ensures RowBytes(r)[8..12] == WordBytes(r.w2) && RowBytes(r)[12..16] == WordBytes(r.w3)
  {
    hide WordBytes;
  }

  lemma RowInBytes(s: State)
    ensures ToBytes(s)[0..16] == RowBytes(s.a) && ToBytes(s)[16..32] == RowBytes(s.b)
            && ToBytes(s)[32..48] == RowBytes(s.c)
  {
    hide RowBytes;
  }

  lemma SliceOfSlice<T>(s: seq<T>, from: nat, to: nat, lo: nat, hi: nat)
    requires from <= to <= |s| && lo <= hi <= to - from
    ensures s[from..to][lo..hi] == s[from + lo..from + hi]
  {
    var (outer, inner, direct) := (s[from..to], s[from..to][lo..hi], s[from + lo..from + hi]);
    assert |inner| == |direct|;
    forall i | 0 <= i < |inner|
      ensures inner[i] == direct[i]
    {
      assert inner[i] == outer[lo + i] == s[from + lo + i];
    }
  }

  lemma WordInSlice(b: Bytes, offset: nat, r: Row, k: nat)
    requires offset + 16 <= |b| && b[offset..offset + 16] == RowBytes(r) && k < 4
    ensures b[offset + 4 * k..offset + 4 * k + 4]
            == WordBytes(match k case 0 => r.w0 case 1 => r.w1 case 2 => r.w2 case _ => r.w3)
  {
    hide RowBytes, WordBytes;
    WordInRow(r);
    SliceOfSlice(b, offset, offset + 16, 4 * k, 4 * k + 4);
    var row := RowBytes(r);
    if k == 0 {
      assert row[4 * k..4 * k + 4] == row[0..4];
    } else if k == 1 {
      assert row[4 * k..4 * k + 4] == row[4..8];
    } else if k == 2 {
      assert row[4 * k..4 * k + 4] == row[8..12];
    } else {
      assert row[4 * k..4 * k + 4] == row[12..16];
    }
  }

  lemma WordInBytes(words: seq<Word>, i: nat)
    requires |words| == 12 && i < 12
    ensures ToBytes(FromWords(words))[4 * i..4 * i + 4] == WordBytes(words[i])
  {
    hide RowBytes, WordBytes, ToBytes;
    var s := FromWords(words);
    RowInBytes(s);
    var row := if i < 4 then s.a else if i < 8 then s.b else s.c;
    WordInSlice(ToBytes(s), 16 * (i / 4), row, i % 4);
    assert 16 * (i / 4) + 4 * (i % 4) == 4 * i;
  }

  lemma PermutedByWords(was: Bytes, words: seq<Word>)
    requires |was| == 48 && |words| == 12 && FromWords(words) == Permutation(FromBytes(was))
    ensures ToBytes(FromWords(words)) == Permuted(was)
  {
  }
}
