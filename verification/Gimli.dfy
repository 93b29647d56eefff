/**
 * The 24-round Gimli permutation on 384-bit states (section 2 of "Gimli: a cross-platform permutation", CHES 2017), by
 * columns, with its inverse: it is a bijection.
 */
module Gimli {
  type Word = bv32

  /** One column of the state. */
  datatype Column = Column(x: Word, y: Word, z: Word)

  /** One row: a vector of four words. */
  datatype Row = Row(w0: Word, w1: Word, w2: Word, w3: Word)

  datatype State = State(a: Row, b: Row, c: Row)

  // ---------- Words ----------

  function Spin24(x: Word): Word { (x << 24) | (x >> 8) }
  function Unspin24(x: Word): Word { (x >> 24) | (x << 8) }
  function Spin9(y: Word): Word { (y << 9) | (y >> 23) }
  function Unspin9(y: Word): Word { (y >> 9) | (y << 23) }


  function Carry3(x: Word, y: Word): Word { (x & y) << 3 }
  function Carry1(x: Word, z: Word): Word { (x | z) << 1 }
  function Carry2(y: Word, z: Word): Word { (y & z) << 2 }

  function Double(z: Word): Word { z << 1 }
  function Xor3(a: Word, b: Word, p: Word): Word { a ^ b ^ p }

  function NewX(x: Word, y: Word, z: Word): Word { Xor3(z, y, Carry3(x, y)) }
  function NewY(x: Word, y: Word, z: Word): Word { Xor3(y, x, Carry1(x, z)) }
  function NewZ(x: Word, y: Word, z: Word): Word { Xor3(x, Double(z), Carry2(y, z)) }

  // ---------- The permutation ----------

  function Mix(s: Column): Column {
    Column(NewX(s.x, s.y, s.z), NewY(s.x, s.y, s.z), NewZ(s.x, s.y, s.z))
  }

  function SpBox(s: Column): Column {
    Mix(Column(Spin24(s.x), Spin9(s.y), s.z))
  }

  function FromColumns(k0: Column, k1: Column, k2: Column, k3: Column): State {
    State(Row(k0.x, k1.x, k2.x, k3.x), Row(k0.y, k1.y, k2.y, k3.y), Row(k0.z, k1.z, k2.z, k3.z))
  }

  function Col(s: State, i: nat): Column
    requires i < 4
  {
    match i
    case 0 => Column(s.a.w0, s.b.w0, s.c.w0)
    case 1 => Column(s.a.w1, s.b.w1, s.c.w1)
    case 2 => Column(s.a.w2, s.b.w2, s.c.w2)
    case _ => Column(s.a.w3, s.b.w3, s.c.w3)
  }

  function Layer(s: State): State {
    FromColumns(SpBox(Col(s, 0)), SpBox(Col(s, 1)), SpBox(Col(s, 2)), SpBox(Col(s, 3)))
  }

  function SmallSwap(r: Row): Row {
    Row(r.w1, r.w0, r.w3, r.w2)
  }

  function BigSwap(r: Row): Row {
    Row(r.w2, r.w3, r.w0, r.w1)
  }

  function Constant(round: nat): Word
    requires round <= 24
  {
    0x9e37_7900 | (round as bv32)
  }

  function Xor(a: Word, b: Word): Word {
    a ^ b
  }

  function Linear(round: nat, r: Row): Row
    requires round <= 24
  {
    if round % 4 == 0 then var s := SmallSwap(r); s.(w0 := Xor(s.w0, Constant(round)))
    else if round % 4 == 2 then BigSwap(r)
    else r
  }

  function Round(round: nat, s: State): State
    requires round <= 24
  {
    var t := Layer(s);
    t.(a := Linear(round, t.a))
  }

  /** Rounds n, n - 1, …, 1. */
  function Rounds(n: nat, s: State): State
    requires n <= 24
  {
    if n == 0 then s else Rounds(n - 1, Round(n, s))
  }

  function Permutation(s: State): State {
    Rounds(24, s)
  }

  // ---------- Undoing the column map: each step of a refinement fixes one more bit ----------

  /** One refinement of a guess at the column that Mix maps to t. */
  function Refine(t: Column, guess: Column): Column {
    var x := NewZ(t.z, guess.y, guess.z);
    var y := NewY(x, t.y, guess.z);
    var z := NewX(x, y, t.x);
    Column(x, y, z)
  }

  function Refined(t: Column, guess: Column, n: nat): Column {
    if n == 0 then guess else Refine(t, Refined(t, guess, n - 1))
  }

  function Unmix(t: Column): Column {
    Refined(t, Column(0, 0, 0), 32)
  }

  function Widen(m: Word): Word { (m << 1) | 1 }

  predicate IsLow(m: Word) { m & Widen(m) == m }

  /** The n lowest bits. */
  function Low(n: nat): Word {
    if n == 0 then 0 else Widen(Low(n - 1))
  }

  predicate Same(a: Word, b: Word, m: Word) {
    (a ^ b) & m == 0
  }

  predicate Agree(a: Column, b: Column, m: Word) {
    Same(a.x, b.x, m) && Same(a.y, b.y, m) && Same(a.z, b.z, m)
  }

  lemma SameXor3(a: Word, b: Word, b': Word, p: Word, p': Word, m: Word)
    requires Same(b, b', m) && Same(p, p', m)
    ensures Same(Xor3(a, b, p), Xor3(a, b', p'), m)
  {
    RawSameXor3(a, b, b', p, p', m);
  }

  lemma RawSameXor3(a: Word, b: Word, b': Word, p: Word, p': Word, m: Word)
    requires (b ^ b') & m == 0 && (p ^ p') & m == 0
    ensures ((a ^ b ^ p) ^ (a ^ b' ^ p')) & m == 0
  {
  }

  lemma SameDouble(z: Word, z': Word, m: Word)
    requires IsLow(m) && Same(z, z', m)
    ensures Same(Double(z), Double(z'), Widen(m))
  {
  }

  lemma SameCarry2(y: Word, y': Word, z: Word, z': Word, m: Word)
    requires IsLow(m) && Same(z, z', m) && Same(y, y', m)
    ensures Same(Carry2(y, z), Carry2(y', z'), Widen(m))
  {
  }

  lemma SameCarry1(x: Word, x': Word, z: Word, z': Word, m: Word)
    requires IsLow(m) && Same(z, z', m) && Same(x, x', Widen(m))
    ensures Same(Carry1(x, z), Carry1(x', z'), Widen(m))
  {
  }

  lemma SameCarry3(x: Word, x': Word, y: Word, y': Word, m: Word)
    requires IsLow(m) && Same(y, y', Widen(m)) && Same(x, x', Widen(m))
    ensures Same(Carry3(x, y), Carry3(x', y'), Widen(m))
  {
  }

  /** Two guesses that agree on the low bits agree on one bit more after a refinement. */
  lemma RefineContracts(t: Column, g: Column, h: Column, m: Word)
    requires IsLow(m) && Agree(g, h, m)
    ensures Agree(Refine(t, g), Refine(t, h), Widen(m))
  {
    hide Xor3, Double, Carry1, Carry2, Carry3, Same, IsLow, Widen;
    var (g', h') := (Refine(t, g), Refine(t, h));
    SameDouble(g.z, h.z, m);
    SameCarry2(g.y, h.y, g.z, h.z, m);
    SameXor3(t.z, Double(g.z), Double(h.z), Carry2(g.y, g.z), Carry2(h.y, h.z), Widen(m));
    SameCarry1(g'.x, h'.x, g.z, h.z, m);
    SameXor3(t.y, g'.x, h'.x, Carry1(g'.x, g.z), Carry1(h'.x, h.z), Widen(m));
    SameCarry3(g'.x, h'.x, g'.y, h'.y, m);
    SameXor3(t.x, g'.y, h'.y, Carry3(g'.x, g'.y), Carry3(h'.x, h'.y), Widen(m));
  }

  lemma WidenLow(m: Word)
    requires IsLow(m)
    ensures IsLow(Widen(m))
  {
  }

  lemma {:induction false} LowIsLow(n: nat)
    ensures IsLow(Low(n))
  {
    if n > 0 {
      LowIsLow(n - 1);
      WidenLow(Low(n - 1));
    }
  }

  lemma AllLow()
    ensures Low(32) == 0xffff_ffff
  {
    assert Low(4) == 0xf;
    assert Low(8) == 0xff;
    assert Low(12) == 0xfff;
    assert Low(16) == 0xffff;
    assert Low(20) == 0xf_ffff;
    assert Low(24) == 0xff_ffff;
    assert Low(28) == 0xfff_ffff;
  }

  lemma NoBitsAgree(a: Word, b: Word)
    ensures Same(a, b, 0)
  {
  }

  lemma AllBitsAgree(a: Word, b: Word)
    requires Same(a, b, 0xffff_ffff)
    ensures a == b
  {
  }

  lemma {:induction false} GuessesConverge(t: Column, g: Column, h: Column, n: nat)
    ensures Agree(Refined(t, g, n), Refined(t, h, n), Low(n))
  {
    hide Same, IsLow, Widen, Refine;
    if n == 0 {
      NoBitsAgree(g.x, h.x);
      NoBitsAgree(g.y, h.y);
      NoBitsAgree(g.z, h.z);
    } else {
      GuessesConverge(t, g, h, n - 1);
      LowIsLow(n - 1);
      RefineContracts(t, Refined(t, g, n - 1), Refined(t, h, n - 1), Low(n - 1));
    }
  }

  /** After 32 refinements nothing of the first guess is left. */
  lemma GuessForgotten(t: Column, guess: Column)
    ensures Refined(t, guess, 32) == Unmix(t)
  {
    hide Same, Low, Refined;
    GuessesConverge(t, guess, Column(0, 0, 0), 32);
    AllLow();
    var (g, h) := (Refined(t, guess, 32), Unmix(t));
    AllBitsAgree(g.x, h.x);
    AllBitsAgree(g.y, h.y);
    AllBitsAgree(g.z, h.z);
  }

  lemma {:induction false} RefinedFromInside(t: Column, guess: Column, n: nat)
    ensures Refined(t, Refine(t, guess), n) == Refined(t, guess, n + 1)
  {
    hide Refine;
    if n > 0 {
      RefinedFromInside(t, guess, n - 1);
    }
  }

  lemma {:induction false} FixedStaysFixed(t: Column, guess: Column, n: nat)
    requires Refine(t, guess) == guess
    ensures Refined(t, guess, n) == guess
  {
    hide Refine;
    if n > 0 {
      FixedStaysFixed(t, guess, n - 1);
    }
  }

  lemma Xor3Undone(a: Word, b: Word, p: Word)
    ensures Xor3(Xor3(a, b, p), b, p) == a
  {
    RawXor3Undone(a, b, p);
  }

  lemma RawXor3Undone(a: Word, b: Word, p: Word)
    ensures (a ^ b ^ p) ^ b ^ p == a
  {
  }

  /** The fixed points of the refinement for t are the columns that Mix maps to t. */
  lemma FixedIffMixed(t: Column, g: Column)
    ensures Refine(t, g) == g <==> Mix(g) == t
  {
    hide Xor3, Double, Carry1, Carry2, Carry3;
    Xor3Undone(g.z, g.y, Carry3(g.x, g.y));
    Xor3Undone(t.x, g.y, Carry3(g.x, g.y));
    Xor3Undone(g.y, g.x, Carry1(g.x, g.z));
    Xor3Undone(t.y, g.x, Carry1(g.x, g.z));
    Xor3Undone(g.x, Double(g.z), Carry2(g.y, g.z));
    Xor3Undone(t.z, Double(g.z), Carry2(g.y, g.z));
  }

  /** The column map has exactly one preimage of every column. */
  lemma MixBijective(t: Column, g: Column)
    ensures Mix(Unmix(t)) == t
    ensures Mix(g) == t ==> g == Unmix(t)
  {
    hide Mix, Refine, Refined, Unmix;
    GuessForgotten(t, Column(0, 0, 0));
    GuessForgotten(t, Refine(t, Column(0, 0, 0)));
    RefinedFromInside(t, Column(0, 0, 0), 32);
    OneMore(t);
    FixedIffMixed(t, Unmix(t));
    FixedIffMixed(t, g);
    if Refine(t, g) == g {
      FixedStaysFixed(t, g, 32);
      GuessForgotten(t, g);
    }
  }

  lemma OneMore(t: Column)
    ensures Refined(t, Column(0, 0, 0), 33) == Refine(t, Unmix(t))
  {
    hide Refine;
  }

  // ---------- Undoing a round ----------

  function UnSpBox(t: Column): Column {
    var s := Unmix(t);
    Column(Unspin24(s.x), Unspin9(s.y), s.z)
  }

  function Unlayer(s: State): State {
    FromColumns(UnSpBox(Col(s, 0)), UnSpBox(Col(s, 1)), UnSpBox(Col(s, 2)), UnSpBox(Col(s, 3)))
  }

  function Unlinear(round: nat, r: Row): Row
    requires round <= 24
  {
    if round % 4 == 0 then SmallSwap(r.(w0 := Xor(r.w0, Constant(round))))
    else if round % 4 == 2 then BigSwap(r)
    else r
  }

  function Unround(round: nat, s: State): State
    requires round <= 24
  {
    Unlayer(s.(a := Unlinear(round, s.a)))
  }

  function Unrounds(n: nat, s: State): State
    requires n <= 24
  {
    if n == 0 then s else Unround(n, Unrounds(n - 1, s))
  }

  function Inverse(s: State): State {
    Unrounds(24, s)
  }

  lemma SpinsUndo(x: Word)
    ensures Unspin24(Spin24(x)) == x && Spin24(Unspin24(x)) == x
    ensures Unspin9(Spin9(x)) == x && Spin9(Unspin9(x)) == x
  {
  }

  lemma SpBoxUndone(s: Column)
    ensures UnSpBox(SpBox(s)) == s && SpBox(UnSpBox(s)) == s
  {
    hide Spin24, Unspin24, Spin9, Unspin9, Mix, Unmix;
    SpinsUndo(s.x);
    SpinsUndo(s.y);
    MixBijective(SpBox(s), Column(Spin24(s.x), Spin9(s.y), s.z));
    MixBijective(s, s);
    SpinsUndo(Unmix(s).x);
    SpinsUndo(Unmix(s).y);
  }

  lemma ColumnsOf(k0: Column, k1: Column, k2: Column, k3: Column)
    ensures var s := FromColumns(k0, k1, k2, k3);
            Col(s, 0) == k0 && Col(s, 1) == k1 && Col(s, 2) == k2 && Col(s, 3) == k3
  {
  }

  lemma ColumnsMake(s: State)
    ensures FromColumns(Col(s, 0), Col(s, 1), Col(s, 2), Col(s, 3)) == s
  {
  }

  lemma LayerUndone(s: State)
    ensures Unlayer(Layer(s)) == s && Layer(Unlayer(s)) == s
  {
    hide SpBox, UnSpBox, Col, FromColumns;
    ColumnsMake(s);
    ColumnsOf(SpBox(Col(s, 0)), SpBox(Col(s, 1)), SpBox(Col(s, 2)), SpBox(Col(s, 3)));
    ColumnsOf(UnSpBox(Col(s, 0)), UnSpBox(Col(s, 1)), UnSpBox(Col(s, 2)), UnSpBox(Col(s, 3)));
    SpBoxUndone(Col(s, 0));
    SpBoxUndone(Col(s, 1));
    SpBoxUndone(Col(s, 2));
    SpBoxUndone(Col(s, 3));
  }

  lemma XorUndone(a: Word, b: Word)
    ensures Xor(Xor(a, b), b) == a
  {
  }

  lemma LinearUndone(round: nat, r: Row)
    requires round <= 24
    ensures Unlinear(round, Linear(round, r)) == r && Linear(round, Unlinear(round, r)) == r
  {
    hide Xor, Constant;
    XorUndone(r.w1, Constant(round));
    XorUndone(r.w0, Constant(round));
  }

  lemma RoundUndone(round: nat, s: State)
    requires round <= 24
    ensures Unround(round, Round(round, s)) == s && Round(round, Unround(round, s)) == s
  {
    hide Layer, Unlayer, Linear, Unlinear;
    LayerUndone(s);
    LinearUndone(round, Layer(s).a);
    LinearUndone(round, s.a);
    LayerUndone(s.(a := Unlinear(round, s.a)));
  }

  lemma {:induction false} RoundsUndone(n: nat, s: State)
    requires n <= 24
    ensures Unrounds(n, Rounds(n, s)) == s && Rounds(n, Unrounds(n, s)) == s
  {
    hide Round, Unround;
    if n > 0 {
      RoundsUndone(n - 1, Round(n, s));
      RoundUndone(n, s);
      RoundsUndone(n - 1, s);
      RoundUndone(n, Unrounds(n - 1, s));
    }
  }

  /** The permutation is a bijection on the 384-bit states, with an inverse that can be computed. */
  lemma PermutationBijective(s: State)
    ensures Inverse(Permutation(s)) == s && Permutation(Inverse(s)) == s
  {
    hide Rounds, Unrounds;
    RoundsUndone(24, s);
  }
}
