/**
 * The node address of a name: a Speck-like round function run over the name and then, with key 0, until the address
 * starts with fd00. Proved: the rounds are bijections, so every orbit under key 0 is a cycle, so the search ends
 * exactly when that cycle holds a state that fits, and it returns the first one.
 */
module Speck {
  import opened Sets
  import opened Wire

  type Word = bv64

  datatype State = State(x: Word, y: Word)

  // ---------- The round function and its inverse ----------

  function RotateRight8(x: Word): Word { (x >> 8) | (x << 56) }
  function RotateLeft8(x: Word): Word { (x << 8) | (x >> 56) }
  function RotateLeft3(y: Word): Word { (y << 3) | (y >> 61) }
  function RotateRight3(y: Word): Word { (y >> 3) | (y << 61) }
  function Plus(a: Word, b: Word): Word { a + b }
  function Minus(a: Word, b: Word): Word { a - b }
  function Xor(a: Word, b: Word): Word { a ^ b }

  /** SpeckRound and ernd. */
  function Round(s: State, key: Word): State {
    var x := Xor(Plus(RotateRight8(s.x), s.y), key);
    State(x, Xor(RotateLeft3(s.y), x))
  }

  /** drnd. */
  function Unround(s: State, key: Word): State {
    var y := RotateRight3(Xor(s.y, s.x));
    State(RotateLeft8(Minus(Xor(s.x, key), y)), y)
  }

  lemma RotationsUndo(w: Word)
    ensures RotateLeft8(RotateRight8(w)) == w && RotateRight8(RotateLeft8(w)) == w
    ensures RotateLeft3(RotateRight3(w)) == w && RotateRight3(RotateLeft3(w)) == w
  {
  }

  lemma XorUndoes(a: Word, b: Word)
    ensures Xor(Xor(a, b), b) == a
  {
  }

  lemma MinusSum(a: Word, b: Word)
    ensures Minus(a + b, b) == a
  {
  }

  lemma PlusDifference(a: Word, b: Word)
    ensures Plus(a - b, b) == a
  {
  }

  lemma SumUndoes(a: Word, b: Word)
    ensures Minus(Plus(a, b), b) == a
  {
    hide Minus;
    MinusSum(a, b);
  }

  lemma DifferenceUndoes(a: Word, b: Word)
    ensures Plus(Minus(a, b), b) == a
  {
    hide Plus;
    PlusDifference(a, b);
  }

  /** ernd and drnd are inverse to each other, in both directions, for every key. */
  lemma RoundUndone(s: State, key: Word)
    ensures Unround(Round(s, key), key) == s && Round(Unround(s, key), key) == s
  {
    hide RotateRight8, RotateLeft8, RotateLeft3, RotateRight3, Plus, Minus, Xor;
    var r := Round(s, key);
    XorUndoes(RotateLeft3(s.y), r.x);
    RotationsUndo(s.y);
    XorUndoes(Plus(RotateRight8(s.x), s.y), key);
    SumUndoes(RotateRight8(s.x), s.y);
    RotationsUndo(s.x);
    var u := Unround(s, key);
    RotationsUndo(Minus(Xor(s.x, key), u.y));
    DifferenceUndoes(Xor(s.x, key), u.y);
    XorUndoes(s.x, key);
    RotationsUndo(Xor(s.y, s.x));
    XorUndoes(s.y, s.x);
  }

  // ---------- Orbits under key 0 ----------

  function Iter(s: State, n: nat): State {
    if n == 0 then s else Round(Iter(s, n - 1), 0)
  }

  lemma {:induction false} IterSum(s: State, m: nat, n: nat)
    ensures Iter(Iter(s, m), n) == Iter(s, m + n)
  {
    hide Round;
    if n > 0 {
      IterSum(s, m, n - 1);
    }
  }

  lemma {:induction false} IterInjective(s: State, t: State, n: nat)
    requires Iter(s, n) == Iter(t, n)
    ensures s == t
  {
    hide Round;
    if n > 0 {
      RoundUndone(Iter(s, n - 1), 0);
      RoundUndone(Iter(t, n - 1), 0);
      IterInjective(s, t, n - 1);
    }
  }

  const WORDS: nat := 0x1_0000_0000_0000_0000
  const STATES: nat := WORDS * WORDS

  function Number(w: Word): (n: nat)
    ensures n < WORDS
  {
    w as nat
  }

  lemma RawNumberBack(w: Word)
    ensures (w as nat) as bv64 == w
  {
  }

  lemma NumberInjective(a: Word, b: Word)
    requires Number(a) == Number(b)
    ensures a == b
  {
    RawNumberBack(a);
    RawNumberBack(b);
  }

  function Code(s: State): nat {
    Number(s.x) * WORDS + Number(s.y)
  }

  lemma CodeBounded(s: State)
    ensures Code(s) < STATES
  {
    hide Number;
    assert Number(s.x) * WORDS <= (WORDS - 1) * WORDS;
  }

  lemma CodeInjective(s: State, t: State)
    requires Code(s) == Code(t)
    ensures s == t
  {
    hide Number;
    assert Code(s) / WORDS == Number(s.x) && Code(t) / WORDS == Number(t.x);
    NumberInjective(s.x, t.x);
    NumberInjective(s.y, t.y);
  }

  // Pigeonhole: more than n numbers below n cannot all differ.

  function Values(f: nat -> nat, n: nat): set<nat> {
    if n == 0 then {} else Values(f, n - 1) + {f(n - 1)}
  }

  lemma {:induction false} ValuesIff(f: nat -> nat, n: nat, v: nat)
    ensures v in Values(f, n) <==> exists i: nat :: i < n && f(i) == v
  {
    if n > 0 {
      ValuesIff(f, n - 1, v);
    }
  }

  lemma {:induction false} ValuesBelow(f: nat -> nat, n: nat, bound: nat)
    requires forall k: nat :: f(k) < bound
    ensures forall v :: v in Values(f, n) ==> v < bound
  {
    if n > 0 {
      ValuesBelow(f, n - 1, bound);
    }
  }

  lemma {:induction false} DistinctValues(f: nat -> nat, n: nat)
    requires forall i: nat, j: nat :: i < j < n ==> f(i) != f(j)
    ensures |Values(f, n)| == n
  {
    if n > 0 {
      DistinctValues(f, n - 1);
      ValuesIff(f, n - 1, f(n - 1));
    }
  }

  lemma {:induction false} Pigeonhole(f: nat -> nat, n: nat) returns (i: nat, j: nat)
    requires forall k: nat :: f(k) < n
    ensures i < j <= n && f(i) == f(j)
  {
    if forall k: nat, l: nat :: k < l < n + 1 ==> f(k) != f(l) {
      DistinctValues(f, n + 1);
      ValuesBelow(f, n + 1, n);
      FewBelow(Values(f, n + 1), n);
      assert false;
    } else {
      i, j :| i < j < n + 1 && f(i) == f(j);
    }
  }

  /** Every orbit under key 0 is purely periodic: it returns to where it started within 2^128 rounds. */
  lemma OrbitIsCycle(s: State) returns (period: nat)
    ensures 0 < period <= STATES && Iter(s, period) == s
  {
    hide Round, Iter, Code;
    var f := (n: nat) => Code(Iter(s, n));
    forall k: nat
      ensures f(k) < STATES
    {
      CodeBounded(Iter(s, k));
    }
    var i, j := Pigeonhole(f, STATES);
    CodeInjective(Iter(s, i), Iter(s, j));
    period := j - i;
    IterSum(s, period, i);
    IterInjective(Iter(s, period), s, i);
  }

  /** Every state of a cycle is met in its first turn. */
  lemma {:induction false} InFirstTurn(s: State, period: nat, n: nat) returns (k: nat)
    requires 0 < period && Iter(s, period) == s
    ensures k < period && Iter(s, n) == Iter(s, k)
    decreases n
  {
    hide Round, Iter;
    if n < period {
      k := n;
    } else {
      IterSum(s, period, n - period);
      k := InFirstTurn(s, period, n - period);
    }
  }

  /** The length of m turns. */
  function Turns(period: nat, m: nat): (n: nat)
    ensures period > 0 ==> n >= m
  {
    if m == 0 then 0 else Turns(period, m - 1) + period
  }

  lemma {:induction false} TurnsReturn(s: State, period: nat, m: nat)
    requires Iter(s, period) == s
    ensures Iter(s, Turns(period, m)) == s
  {
    hide Round;
    if m > 0 {
      TurnsReturn(s, period, m - 1);
      IterSum(s, Turns(period, m - 1), period);
    }
  }

  // ---------- The search ----------

  /** Whether the address of a state starts with fd00, as the .NET loop tests it. */
  predicate Fits(s: State) {
    s.y & 0xffff == 0x00fd
  }

  function AddressOf(s: State): (a: Address)
    ensures |a| == 16
  {
    StoreU64(s.y) + StoreU64(s.x)
  }

  /** The Rust loop tests the first two bytes instead: the same test. */
  lemma FitsByBytes(s: State)
    ensures Fits(s) <==> AddressOf(s)[0] == 0xfd && AddressOf(s)[1] == 0x00
  {
    RawFits(s.y);
  }

  lemma RawFits(y: Word)
    ensures y & 0xffff == 0x00fd <==> (y & 0xff) as byte == 0xfd && ((y >> 8) & 0xff) as byte == 0x00
  {
  }

  /** n rounds from s lead to the first state that fits. */
  ghost predicate FirstFit(s: State, n: nat) {
    Fits(Iter(s, n)) && forall k: nat :: k < n ==> !Fits(Iter(s, k))
  }

  /** The search from s never ends. */
  ghost predicate Diverges(s: State) {
    forall n: nat :: !Fits(Iter(s, n))
  }

  /** If none of the first 2^128 states fits, none ever does. */
  lemma NoFitInACycle(s: State)
    requires forall k: nat :: k < STATES ==> !Fits(Iter(s, k))
    ensures Diverges(s)
  {
    hide Round, Iter, Fits;
    var period := OrbitIsCycle(s);
    forall n: nat
      ensures !Fits(Iter(s, n))
    {
      var k := InFirstTurn(s, period, n);
      assert k < STATES;
    }
  }

  /** The search ends for one state of a cycle exactly when it ends for every state of it. */
  lemma CycleSharesFate(s: State, m: nat)
    ensures Diverges(s) <==> Diverges(Iter(s, m))
  {
    hide Round, Iter, Fits;
    if Diverges(s) {
      forall n: nat
        ensures !Fits(Iter(Iter(s, m), n))
      {
        IterSum(s, m, n);
      }
    }
    if Diverges(Iter(s, m)) {
      var period := OrbitIsCycle(s);
      forall n: nat
        ensures !Fits(Iter(s, n))
      {
        var turns := Turns(period, m);
        IterSum(s, m, turns - m + n);
        TurnsReturn(s, period, m);
        IterSum(s, turns, n);
      }
    }
  }

  /** The state (0, 0) stays where it is, no other state reaches it, and the search from it never ends. */
  lemma ZeroIsApart(s: State, n: nat)
    ensures Iter(s, n) == State(0, 0) <==> s == State(0, 0)
    ensures Diverges(State(0, 0))
  {
    hide Round, Iter, Fits;
    ZeroStays(n);
    if Iter(s, n) == State(0, 0) {
      IterInjective(s, State(0, 0), n);
    }
    forall k: nat
      ensures !Fits(Iter(State(0, 0), k))
    {
      ZeroStays(k);
      ZeroDoesNotFit();
    }
  }

  lemma ZeroDoesNotFit()
    ensures !Fits(State(0, 0))
  {
  }

  lemma {:induction false} ZeroStays(n: nat)
    ensures Iter(State(0, 0), n) == State(0, 0)
  {
    if n > 0 {
      ZeroStays(n - 1);
      assert Round(State(0, 0), 0) == State(0, 0);
    }
  }

  // ---------- Names ----------

  /** The state after the bytes of a name, each followed by 32 rounds with key 0. */
  function Mixed(s: State, name: Bytes): State
    decreases |name|
  {
    if name == [] then s else Mixed(Iter(Round(s, name[0] as bv64), 32), name[1..])
  }

  /** Where the search starts. */
  function SearchStart(name: Bytes): State {
    Iter(Mixed(State(69, (|name| % WORDS) as bv64), name), 32)
  }

  /** The address of a name, when the search for it ends. */
  ghost predicate IsAddress(name: Bytes, address: Address) {
    exists n: nat :: FirstFit(SearchStart(name), n) && address == AddressOf(Iter(SearchStart(name), n))
  }

  lemma {:induction false} FirstFitUnique(s: State, m: nat, n: nat)
    requires FirstFit(s, m) && FirstFit(s, n)
    ensures m == n
  {
    hide Iter, Fits;
  }

  /** A name has at most one address, and it starts with fd00. */
  lemma AddressUnique(name: Bytes, a: Address, b: Address)
    requires IsAddress(name, a) && IsAddress(name, b)
    ensures a == b && |a| == 16 && a[0] == 0xfd && a[1] == 0x00
  {
    hide Iter, Fits, SearchStart, AddressOf;
    var m :| FirstFit(SearchStart(name), m) && a == AddressOf(Iter(SearchStart(name), m));
    var n :| FirstFit(SearchStart(name), n) && b == AddressOf(Iter(SearchStart(name), n));
    FirstFitUnique(SearchStart(name), m, n);
    FitsByBytes(Iter(SearchStart(name), m));
  }

  // ---------- What the address depends on ----------

  /** Listed results of one round forwards and one backwards. */
  lemma ListedRounds()
    ensures Round(State(1, 2), 3) == State(72_057_594_037_927_937, 72_057_594_037_927_953)
    ensures Unround(State(1, 2), 3) == State(672, 6_917_529_027_641_081_856)
  {
  }

  /** The state behind the listed address fd00:eaeb:953e:cb7e:0b60:e648:3457:9676 fits and is written like that. */
  lemma ListedAddress()
    ensures var s := State(0x7696_5734_48e6_600b, 0x7ecb_3e95_ebea_00fd);
            && Fits(s)
            && AddressOf(s)[..8] == [0xfd, 0x00, 0xea, 0xeb, 0x95, 0x3e, 0xcb, 0x7e]
            && AddressOf(s)[8..] == [0x0b, 0x60, 0xe6, 0x48, 0x34, 0x57, 0x96, 0x76]
  {
  }

  lemma KeysTellApart(s: State, k: Word, l: Word)
    requires Round(s, k) == Round(s, l)
    ensures k == l
  {
    hide Plus, RotateRight8, RotateLeft3, Xor;
    var sum := Plus(RotateRight8(s.x), s.y);
    XorSame(sum, k, l);
  }

  lemma XorSame(a: Word, k: Word, l: Word)
    ensures Xor(a, k) == Xor(a, l) ==> k == l
  {
  }

  lemma {:induction false} MixedConcat(s: State, a: Bytes, b: Bytes)
    ensures Mixed(s, a + b) == Mixed(Mixed(s, a), b)
    decreases |a|
  {
    hide Round, Iter;
    if a == [] {
      assert a + b == b;
    } else {
      assert (a + b)[0] == a[0] && (a + b)[1..] == a[1..] + b;
      MixedConcat(Iter(Round(s, a[0] as bv64), 32), a[1..], b);
    }
  }

  lemma {:induction false} MixedKeepsApart(s: State, t: State, name: Bytes)
    requires s != t
    ensures Mixed(s, name) != Mixed(t, name)
    decreases |name|
  {
    hide Round, Iter;
    if name != [] {
      var (u, v) := (Round(s, name[0] as bv64), Round(t, name[0] as bv64));
      RoundUndone(s, name[0] as bv64);
      RoundUndone(t, name[0] as bv64);
      if Iter(u, 32) == Iter(v, 32) {
        IterInjective(u, v, 32);
      }
      MixedKeepsApart(Iter(u, 32), Iter(v, 32), name[1..]);
    }
  }

  lemma ByteTellsApart(s: State, x: byte, y: byte)
    requires x != y
    ensures Mixed(s, [x]) != Mixed(s, [y])
  {
    hide Round, Iter;
    MixedByte(s, x);
    MixedByte(s, y);
    WordsOfBytes(x, y);
    if Mixed(s, [x]) == Mixed(s, [y]) {
      IterInjective(Round(s, x as bv64), Round(s, y as bv64), 32);
      KeysTellApart(s, x as bv64, y as bv64);
    }
  }

  lemma WordsOfBytes(x: byte, y: byte)
    ensures x as bv64 == y as bv64 ==> x == y
  {
  }

  lemma MixedByte(s: State, b: byte)
    ensures Mixed(s, [b]) == Iter(Round(s, b as bv64), 32)
  {
    hide Round, Iter;
    assert [b][1..] == [];
  }

  /** The seed is 69 and the length; then the name; then 32 rounds more. */
  lemma SearchStartIs(name: Bytes)
    requires |name| < WORDS
    ensures SearchStart(name) == Iter(Mixed(State(69, |name| as bv64), name), 32)
  {
    assert |name| % WORDS == |name|;
  }

  /** Names of one length that differ in one byte search from distinct states. */
  lemma NamesTellApart(before: Bytes, x: byte, y: byte, after: Bytes)
    requires x != y
    ensures SearchStart(before + [x] + after) != SearchStart(before + [y] + after)
  {
    hide Round, Iter, Mixed;
    var s := State(69, (|before + [x] + after| % WORDS) as bv64);
    assert |before + [x] + after| == |before + [y] + after|;
    MixedConcat(s, before + [x], after);
    MixedConcat(s, before + [y], after);
    MixedConcat(s, before, [x]);
    MixedConcat(s, before, [y]);
    ByteTellsApart(Mixed(s, before), x, y);
    MixedKeepsApart(Mixed(Mixed(s, before), [x]), Mixed(Mixed(s, before), [y]), after);
    if SearchStart(before + [x] + after) == SearchStart(before + [y] + after) {
      IterInjective(Mixed(s, before + [x] + after), Mixed(s, before + [y] + after), 32);
    }
  }

  method Rounds32(s: State) returns (r: State)
    ensures r == Iter(s, 32)
  {
    hide Round;
    r := s;
    for i := 0 to 32
      invariant r == Iter(s, i)
    {
      r := Round(r, 0);
    }
  }

  method MixName(bytes: Bytes) returns (s: State)
    ensures s == SearchStart(bytes)
  {
    hide Round, Iter;
    s := State(69, (|bytes| % WORDS) as bv64);
    ghost var start := s;
    assert bytes[0..] == bytes;
    for i := 0 to |bytes|
      invariant Mixed(s, bytes[i..]) == Mixed(start, bytes)
    {
      s := Round(s, bytes[i] as bv64);
      s := Rounds32(s);
      assert bytes[i..][1..] == bytes[i + 1..];
    }
    s := Rounds32(s);
  }

  /**
   * NodeAddress. The loop of the program has no bound; here it gives up after 2^128 rounds, which is exactly when the
   * program would run for ever.
   */
  method NodeAddress(bytes: Bytes) returns (address: Option<Address>)
    ensures address.Some? ==> IsAddress(bytes, address.value)
    ensures address.None? <==> Diverges(SearchStart(bytes))
  {
    hide Round, Iter, Fits, AddressOf, SearchStart;
    var s := MixName(bytes);
    ghost var start := s;
    var n := 0;
    assert Iter(start, 0) == start by { NoRounds(start); }
    while !Fits(s)
      invariant n <= STATES && s == Iter(start, n)
      invariant forall k: nat :: k < n ==> !Fits(Iter(start, k))
      decreases STATES - n
    {
      if n == STATES {
        NoFitInACycle(start);
        return None;
      }
      OneRound(start, n);
      s := Round(s, 0);
      n := n + 1;
    }
    assert FirstFit(start, n);
    address := Some(AddressOf(s));
  }

  /** from_node_name, with the Rust test. */
  method FromNodeName(bytes: Bytes) returns (address: Option<Address>)
    ensures address.Some? ==> IsAddress(bytes, address.value)
    ensures address.None? <==> Diverges(SearchStart(bytes))
  {
    hide Round, Iter, Fits, AddressOf, SearchStart;
    var s := MixName(bytes);
    ghost var start := s;
    var n := 0;
    assert Iter(start, 0) == start by { NoRounds(start); }
    while true
      invariant n <= STATES && s == Iter(start, n)
      invariant forall k: nat :: k < n ==> !Fits(Iter(start, k))
      decreases STATES - n
    {
      FitsByBytes(s);
      var buf := AddressOf(s);
      if buf[0] == 0xfd && buf[1] == 0x00 {
        break;
      }
      if n == STATES {
        NoFitInACycle(start);
        return None;
      }
      OneRound(start, n);
      s := Round(s, 0);
      n := n + 1;
    }
    assert FirstFit(start, n);
    address := Some(AddressOf(s));
  }

  lemma NoRounds(s: State)
    ensures Iter(s, 0) == s
  {
  }

  lemma OneRound(s: State, n: nat)
    ensures Iter(s, n + 1) == Round(Iter(s, n), 0)
  {
  }
}
