/**
 * The project's own constructions over the permutation (hash, MAC, keystream): what they compute, the .NET and Rust
 * loops that compute it, and the laws the encrypted stream relies on.
 */
module Sponge {
  import opened Wire
  import opened GimliForms

  const RATE := 16

  // ---------- What the constructions compute ----------

  function XorByte(a: byte, b: byte): byte {
    a ^ b
  }

  /** The state with a block of at most 48 bytes added from its start. */
  function Added(s: Bytes, block: Bytes): (r: Bytes)
    requires |s| == 48 && |block| <= 48
    ensures |r| == 48
  {
    seq(48, i requires 0 <= i < 48 => if i < |block| then XorByte(s[i], block[i]) else s[i])
  }

  function FirstBlock(input: Bytes): Bytes {
    if |input| < RATE then input else input[..RATE]
  }

  function OtherBlocks(input: Bytes): Bytes {
    if |input| < RATE then [] else input[RATE..]
  }

  /** Absorbs block after block, permuting after each, a short last one included. */
  function Absorbed(s: Bytes, input: Bytes): (r: Bytes)
    requires |s| == 48
    ensures |r| == 48
    decreases |input|
  {
    if input == [] then s else Absorbed(Permuted(Added(s, FirstBlock(input))), OtherBlocks(input))
  }

  /** The hash permutes after full blocks only. */
  function HashAbsorbed(s: Bytes, input: Bytes): (r: Bytes)
    requires |s| == 48
    ensures |r| == 48
    decreases |input|
  {
    if |input| < RATE then Added(s, input)
    else HashAbsorbed(Permuted(Added(s, input[..RATE])), input[RATE..])
  }

  function Padded(s: Bytes, at: nat): (r: Bytes)
    requires |s| == 48 && at < RATE
    ensures |r| == 48
  {
    var t := s[at := XorByte(s[at], 0x1f)];
    t[RATE - 1 := XorByte(t[RATE - 1], 0x80)]
  }

  function Squeezed(s: Bytes, n: nat): (r: Bytes)
    requires |s| == 48
    ensures |r| == n
    decreases n
  {
    if n <= RATE then s[..n] else s[..RATE] + Squeezed(Permuted(s), n - RATE)
  }

  /** Gimli.Hash and gimli_hash. */
  function HashOf(input: Bytes, length: nat): (r: Bytes)
    ensures |r| == length
  {
    Squeezed(Permuted(Padded(HashAbsorbed(Zeros(), input), |input| % RATE)), length)
  }

  function WithLength(s: Bytes, n: nat): (r: Bytes)
    requires |s| == 48
    ensures |r| == 48
  {
    StoreU64((n % 0x1_0000_0000_0000_0000) as bv64) + s[8..]
  }

  function LengthsAbsorbed(s: Bytes, inputs: seq<Bytes>): (r: Bytes)
    requires |s| == 48
    ensures |r| == 48
    decreases |inputs|
  {
    if inputs == [] then s else LengthsAbsorbed(Permuted(WithLength(s, |inputs[0]|)), inputs[1..])
  }

  function AllAbsorbed(s: Bytes, inputs: seq<Bytes>): (r: Bytes)
    requires |s| == 48
    ensures |r| == 48
    decreases |inputs|
  {
    if inputs == [] then s else AllAbsorbed(Absorbed(s, inputs[0]), inputs[1..])
  }

  /** Gimli.Multi, multigimli2 and multigimli3: first all lengths, then all inputs. */
  function MultiOf(inputs: seq<Bytes>): (r: Bytes)
    ensures |r| == 16
  {
    AllAbsorbed(LengthsAbsorbed(Zeros(), inputs), inputs)[..16]
  }

  /** The state a keystream starts from. */
  function KeyState(key: Bytes): (r: Bytes)
    ensures |r| == 48
  {
    Absorbed(Permuted(WithLength(Zeros(), |key|)), key)
  }

  function Block(start: Bytes, n: nat): (r: Bytes)
    requires |start| == 48
    ensures |r| == 48
  {
    if n == 0 then start else Permuted(Block(start, n - 1))
  }

  /** Byte i of the keystream. */
  function KeyByte(start: Bytes, i: nat): byte
    requires |start| == 48
  {
    Block(start, i / RATE)[i % RATE]
  }

  /** Data added to the keystream from byte `used` on. */
  function Applied(start: Bytes, used: nat, data: Bytes): (r: Bytes)
    requires |start| == 48
    ensures |r| == |data|
  {
    seq(|data|, i requires 0 <= i < |data| => XorByte(data[i], KeyByte(start, used + i)))
  }

  // ---------- Laws ----------

  lemma XorTwice(a: byte, b: byte)
    ensures XorByte(XorByte(a, b), b) == a
  {
  }

  /** Applying the keystream twice from the same byte restores the data. */
  lemma AppliedTwice(start: Bytes, used: nat, data: Bytes)
    requires |start| == 48
    ensures Applied(start, used, Applied(start, used, data)) == data
  {
    hide XorByte, KeyByte;
    forall i | 0 <= i < |data|
      ensures Applied(start, used, Applied(start, used, data))[i] == data[i]
    {
      XorTwice(data[i], KeyByte(start, used + i));
    }
  }

  /** Two applications in a row are one application to the whole. */
  lemma AppliedConcat(start: Bytes, used: nat, a: Bytes, b: Bytes)
    requires |start| == 48
    ensures Applied(start, used, a + b) == Applied(start, used, a) + Applied(start, used + |a|, b)
  {
    hide XorByte, KeyByte;
    forall i | 0 <= i < |a + b|
      ensures Applied(start, used, a + b)[i] == (Applied(start, used, a) + Applied(start, used + |a|, b))[i]
    {
      if i >= |a| {
        assert used + i == used + |a| + (i - |a|);
      }
    }
  }

  function Concat(parts: seq<Bytes>): Bytes {
    if parts == [] then [] else parts[0] + Concat(parts[1..])
  }

  function AppliedInParts(start: Bytes, used: nat, parts: seq<Bytes>): Bytes
    requires |start| == 48
    decreases |parts|
  {
    if parts == [] then [] else Applied(start, used, parts[0]) + AppliedInParts(start, used + |parts[0]|, parts[1..])
  }

  /** Any partition of the data, applied part by part, gives what one application gives. */
  lemma {:induction false} PartitionIsInvisible(start: Bytes, used: nat, parts: seq<Bytes>)
    requires |start| == 48
    ensures AppliedInParts(start, used, parts) == Applied(start, used, Concat(parts))
    decreases |parts|
  {
    hide Applied;
    if parts == [] {
      assert |Applied(start, used, [])| == 0;
    } else {
      PartitionIsInvisible(start, used + |parts[0]|, parts[1..]);
      AppliedConcat(start, used, parts[0], Concat(parts[1..]));
    }
  }

  lemma AddedIsInjective(s: Bytes, a: Bytes, b: Bytes)
    requires |s| == 48 && |a| == |b| <= 48 && Added(s, a) == Added(s, b)
    ensures a == b
  {
    hide XorByte;
    forall i | 0 <= i < |a|
      ensures a[i] == b[i]
    {
      assert XorByte(s[i], a[i]) == Added(s, a)[i] == Added(s, b)[i] == XorByte(s[i], b[i]);
      XorCancels(s[i], a[i], b[i]);
    }
  }

  lemma XorCancels(c: byte, a: byte, b: byte)
    requires XorByte(c, a) == XorByte(c, b)
    ensures a == b
  {
  }

  /** Distinct keys of one length, up to a block, start their keystreams from distinct states. */
  lemma DistinctKeysStartApart(a: Bytes, b: Bytes)
    requires |a| == |b| <= RATE && a != b
    ensures KeyState(a) != KeyState(b)
  {
    hide Permuted, Unpermuted, WithLength, Added;
    var s := Permuted(WithLength(Zeros(), |a|));
    OneBlock(s, a);
    OneBlock(s, b);
    if KeyState(a) == KeyState(b) {
      PermutedBijective(Added(s, a));
      PermutedBijective(Added(s, b));
      AddedIsInjective(s, a, b);
    }
  }

  lemma OneBlock(s: Bytes, input: Bytes)
    requires |s| == 48 && 0 < |input| <= RATE
    ensures Absorbed(s, input) == Permuted(Added(s, input))
  {
    assert FirstBlock(input) == input;
    assert OtherBlocks(input) == [];
  }

  // ---------- The .NET loops ----------

  /** Adds `count` bytes of the input to the start of the state. */
  method AddBlock(state: array<byte>, input: Bytes, offset: nat, count: nat)
    requires state.Length == 48 && count <= 48 && offset + count <= |input|
    modifies state
    ensures state[..] == Added(old(state[..]), input[offset..offset + count])
  {
    hide XorByte;
    ghost var was := state[..];
    for i := 0 to count
      invariant forall k :: 0 <= k < i ==> state[k] == XorByte(was[k], input[offset + k])
      invariant forall k :: i <= k < 48 ==> state[k] == was[k]
    {
      state[i] := XorByte(state[i], input[offset + i]);
    }
    assert state[..] == Added(was, input[offset..offset + count]);
  }

  lemma NextBlock(input: Bytes, offset: nat, count: nat)
    requires offset < |input| && count == (if |input| - offset < RATE then |input| - offset else RATE)
    ensures FirstBlock(input[offset..]) == input[offset..offset + count]
    ensures OtherBlocks(input[offset..]) == input[offset + count..]
  {
  }

  method Absorb(g: RowGimli, input: Bytes)
    requires g.state.Length == 48
    modifies g.state
    ensures g.state[..] == Absorbed(old(g.state[..]), input)
  {
    hide Permuted, Added;
    var offset := 0;
    ghost var was := g.state[..];
    assert input[0..] == input;
    while offset < |input|
      invariant offset <= |input|
      invariant Absorbed(g.state[..], input[offset..]) == Absorbed(was, input)
    {
      var count := if |input| - offset < RATE then |input| - offset else RATE;
      NextBlock(input, offset, count);
      AddBlock(g.state, input, offset, count);
      g.Permute();
      offset := offset + count;
    }
  }

  method StoreLength(state: array<byte>, n: nat)
    requires state.Length == 48
    modifies state
    ensures state[..] == WithLength(old(state[..]), n)
  {
    hide StoreU64;
    var bytes := StoreU64((n % 0x1_0000_0000_0000_0000) as bv64);
    forall i | 0 <= i < 8 {
      state[i] := bytes[i];
    }
    assert state[..8] == bytes;
    assert state[..] == state[..8] + state[8..];
  }

  method Multi(inputs: seq<Bytes>) returns (result: Bytes)
    ensures result == MultiOf(inputs)
  {
    hide Permuted, WithLength, Absorbed;
    var g := new RowGimli();
    assert inputs[0..] == inputs;
    for i := 0 to |inputs|
      invariant LengthsAbsorbed(g.state[..], inputs[i..]) == LengthsAbsorbed(Zeros(), inputs)
    {
      StoreLength(g.state, |inputs[i]|);
      g.Permute();
      assert inputs[i..][1..] == inputs[i + 1..];
    }
    ghost var lengths := g.state[..];
    for i := 0 to |inputs|
      invariant AllAbsorbed(g.state[..], inputs[i..]) == AllAbsorbed(lengths, inputs)
    {
      Absorb(g, inputs[i]);
      assert inputs[i..][1..] == inputs[i + 1..];
    }
    result := g.state[..16];
    assert g.state[..16] == g.state[..][..16];
  }

  lemma HashNext(s: Bytes, input: Bytes, offset: nat, count: nat)
    requires |s| == 48 && offset < |input| && count == (if |input| - offset < RATE then |input| - offset else RATE)
    ensures var t := Added(s, input[offset..offset + count]);
            HashAbsorbed(s, input[offset..])
            == HashAbsorbed(if count == RATE then Permuted(t) else t, input[offset + count..])
  {
    hide Permuted, XorByte;
    if count == RATE {
      assert input[offset..][..RATE] == input[offset..offset + count];
      assert input[offset..][RATE..] == input[offset + count..];
    } else {
      assert input[offset..] == input[offset..offset + count] && input[offset + count..] == [];
      AddedNothing(Added(s, input[offset..]));
    }
  }

  lemma AddedNothing(s: Bytes)
    requires |s| == 48
    ensures Added(s, []) == s
  {
  }

  method Pad(state: array<byte>, at: nat)
    requires state.Length == 48 && at < RATE
    modifies state
    ensures state[..] == Padded(old(state[..]), at)
  {
    hide XorByte;
    state[at] := XorByte(state[at], 0x1f);
    state[15] := XorByte(state[15], 0x80);
  }

  method HashAbsorb(g: RowGimli, input: Bytes)
    requires g.state.Length == 48
    modifies g.state
    ensures g.state[..] == HashAbsorbed(old(g.state[..]), input)
  {
    hide HashAbsorbed, Permuted, Added;
    ghost var was := g.state[..];
    var offset := 0;
    assert input[0..] == input;
    while offset < |input|
      invariant offset <= |input|
      invariant HashAbsorbed(g.state[..], input[offset..]) == HashAbsorbed(was, input)
    {
      var count := if |input| - offset < RATE then |input| - offset else RATE;
      HashNext(g.state[..], input, offset, count);
      AddBlock(g.state, input, offset, count);
      offset := offset + count;
      if count == RATE {
        g.Permute();
      }
    }
    assert input[offset..] == [];
    HashNothing(g.state[..]);
  }

  lemma HashNothing(s: Bytes)
    requires |s| == 48
    ensures HashAbsorbed(s, []) == s
  {
    AddedNothing(s);
  }

  /** What is still to be squeezed when `done` bytes are out and the state has not been permuted since. */
  function StillToSqueeze(s: Bytes, done: nat, length: nat): Bytes
    requires |s| == 48
  {
    if done >= length then [] else Squeezed(if done == 0 then s else Permuted(s), length - done)
  }

  lemma SqueezeNext(s: Bytes, done: nat, length: nat)
    requires |s| == 48 && done < length
    ensures var t := if done == 0 then s else Permuted(s);
            var count := if length - done < RATE then length - done else RATE;
            StillToSqueeze(s, done, length) == t[..count] + StillToSqueeze(t, done + RATE, length)
  {
    hide Permuted;
  }

  /** Copies the start of the state into the result. */
  method CopyBlock(state: array<byte>, result: array<byte>, offset: nat, count: nat)
    requires state.Length == 48 && count <= RATE && offset + count <= result.Length && result != state
    modifies result
    ensures result[..offset + count] == old(result[..offset]) + state[..][..count]
  {
    forall k | 0 <= k < count {
      result[offset + k] := state[k];
    }
  }

  method Squeeze(g: RowGimli, length: nat) returns (result: array<byte>)
    requires g.state.Length == 48
    modifies g.state
    ensures fresh(result) && result[..] == Squeezed(old(g.state[..]), length)
  {
    hide Squeezed, StillToSqueeze, Permuted;
    ghost var was := g.state[..];
    result := new byte[length];
    var i: nat, done: nat := 0, 0;
    assert result[..0] == [];
    NothingSqueezed(was, length);
    while i < length
      invariant done == (if i < length then i else length) && (i < length ==> i % RATE == 0)
      invariant fresh(result) && result.Length == length
      invariant result[..done] + StillToSqueeze(g.state[..], i, length) == Squeezed(was, length)
    {
      done := SqueezeBlock(g, result, i);
      i := i + RATE;
    }
    AllSqueezed(g.state[..], i, length);
    assert result[..length] == result[..];
  }

  /** The body of the loop. */
  method SqueezeBlock(g: RowGimli, result: array<byte>, i: nat) returns (done: nat)
    requires g.state.Length == 48 && result != g.state && i < result.Length
    modifies g.state, result
    ensures done == if result.Length - i < RATE then result.Length else i + RATE
    ensures result[..done] + StillToSqueeze(g.state[..], i + RATE, result.Length)
            == old(result[..i] + StillToSqueeze(g.state[..], i, result.Length))
  {
    hide Squeezed, StillToSqueeze, Permuted;
    SqueezeNext(g.state[..], i, result.Length);
    if i != 0 {
      g.Permute();
    }
    var count := if result.Length - i < RATE then result.Length - i else RATE;
    CopyBlock(g.state, result, i, count);
    done := i + count;
  }

  lemma NothingSqueezed(s: Bytes, length: nat)
    requires |s| == 48
    ensures StillToSqueeze(s, 0, length) == Squeezed(s, length)
  {
  }

  lemma AllSqueezed(s: Bytes, done: nat, length: nat)
    requires |s| == 48 && done >= length
    ensures StillToSqueeze(s, done, length) == []
  {
  }

  method Hash(input: Bytes, length: nat) returns (result: array<byte>)
    ensures result[..] == HashOf(input, length)
  {
    hide Zeros, HashAbsorbed, Padded, Permuted, Squeezed;
    var g := new RowGimli();
    HashAbsorb(g, input);
    Pad(g.state, |input| % RATE);
    g.Permute();
    result := Squeeze(g, length);
  }

  // ---------- The Rust loops ----------

  /** gimli_hash squeezes with a count of bytes left and permutes only while some are left. */
  method GimliHash(input: Bytes, out: array<byte>)
    modifies out
    ensures out[..] == HashOf(input, out.Length)
  {
    hide Zeros, HashAbsorbed, Padded, Permuted, Squeezed;
    var g := new GimliState();
    HashChunks(g, input);
    Pad(g.state, |input| % RATE);
    g.Permute();
    SqueezeOut(g, out);
  }

  /** One pass over input.chunks(16). */
  method HashChunks(g: GimliState, input: Bytes)
    requires g.state.Length == 48
    modifies g.state
    ensures g.state[..] == HashAbsorbed(old(g.state[..]), input)
  {
    hide HashAbsorbed, Permuted, Added;
    ghost var was := g.state[..];
    var rest := input;
    ghost var offset: nat := 0;
    while rest != []
      invariant offset <= |input| && rest == input[offset..]
      invariant HashAbsorbed(g.state[..], rest) == HashAbsorbed(was, input)
      decreases |rest|
    {
      var chunk := if |rest| < RATE then rest else rest[..RATE];
      HashNext(g.state[..], input, offset, |chunk|);
      assert input[offset..offset + |chunk|] == chunk;
      AddBlock(g.state, chunk, 0, |chunk|);
      assert chunk[0..0 + |chunk|] == chunk;
      if |chunk| == RATE {
        g.Permute();
      }
      rest := rest[|chunk|..];
      offset := offset + |chunk|;
    }
    HashNothing(g.state[..]);
  }

  method SqueezeOut(g: GimliState, out: array<byte>)
    requires g.state.Length == 48 && out != g.state
    modifies g.state, out
    ensures out[..] == Squeezed(old(g.state[..]), out.Length)
  {
    hide Squeezed, Permuted;
    ghost var was := g.state[..];
    var left: nat, offset: nat := out.Length, 0;
    assert out[..0] == [];
    while left > 0
      invariant offset + left == out.Length
      invariant out[..offset] + Squeezed(g.state[..], left) == Squeezed(was, out.Length)
    {
      var count := if left < RATE then left else RATE;
      SqueezedStep(g.state[..], left);
      CopyBlock(g.state, out, offset, count);
      offset, left := offset + count, left - count;
      if left > 0 {
        g.Permute();
      }
    }
    assert out[..offset] == out[..];
    SqueezedNothing(g.state[..]);
  }

  lemma SqueezedStep(s: Bytes, n: nat)
    requires |s| == 48
    ensures n <= RATE ==> Squeezed(s, n) == s[..n]
    ensures n > RATE ==> Squeezed(s, n) == s[..RATE] + Squeezed(Permuted(s), n - RATE)
  {
    hide Permuted;
  }

  lemma SqueezedNothing(s: Bytes)
    requires |s| == 48
    ensures Squeezed(s, 0) == []
  {
  }

  method AbsorbChunks(g: GimliState, input: Bytes)
    requires g.state.Length == 48
    modifies g.state
    ensures g.state[..] == Absorbed(old(g.state[..]), input)
  {
    hide Permuted, Added;
    ghost var was := g.state[..];
    var rest := input;
    while rest != []
      invariant Absorbed(g.state[..], rest) == Absorbed(was, input)
      decreases |rest|
    {
      var chunk := FirstBlock(rest);
      AddBlock(g.state, chunk, 0, |chunk|);
      assert chunk[0..0 + |chunk|] == chunk;
      g.Permute();
      rest := OtherBlocks(rest);
    }
  }

  method MultiGimli2(x: Bytes, y: Bytes) returns (result: Bytes)
    ensures result == MultiOf([x, y])
  {
    hide *;
    var g := new GimliState();
    StoreLength(g.state, |x|);
    g.Permute();
    StoreLength(g.state, |y|);
    g.Permute();
    AbsorbChunks(g, x);
    AbsorbChunks(g, y);
    result := g.state[..16];
    assert g.state[..16] == g.state[..][..16];
    UnfoldTwo(x, y);
  }

  method MultiGimli3(x: Bytes, y: Bytes, z: Bytes) returns (result: Bytes)
    ensures result == MultiOf([x, y, z])
  {
    hide *;
    var g := new GimliState();
    StoreLength(g.state, |x|);
    g.Permute();
    StoreLength(g.state, |y|);
    g.Permute();
    StoreLength(g.state, |z|);
    g.Permute();
    AbsorbChunks(g, x);
    AbsorbChunks(g, y);
    AbsorbChunks(g, z);
    result := g.state[..16];
    assert g.state[..16] == g.state[..][..16];
    UnfoldThree(x, y, z);
  }

  lemma UnfoldTwo(x: Bytes, y: Bytes)
    ensures MultiOf([x, y])
            == Absorbed(Absorbed(Permuted(WithLength(Permuted(WithLength(Zeros(), |x|)), |y|)), x), y)[..16]
  {
    hide Permuted, WithLength, Absorbed;
    assert [x, y][1..] == [y] && [y][1..] == [];
    var lengths := Permuted(WithLength(Permuted(WithLength(Zeros(), |x|)), |y|));
    assert LengthsAbsorbed(Permuted(WithLength(Zeros(), |x|)), [y]) == LengthsAbsorbed(lengths, []);
    assert AllAbsorbed(Absorbed(lengths, x), [y]) == AllAbsorbed(Absorbed(Absorbed(lengths, x), y), []);
  }

  lemma UnfoldThree(x: Bytes, y: Bytes, z: Bytes)
    ensures MultiOf([x, y, z])
            == var lengths := Permuted(WithLength(Permuted(WithLength(Permuted(WithLength(Zeros(), |x|)), |y|)), |z|));
               Absorbed(Absorbed(Absorbed(lengths, x), y), z)[..16]
  {
    hide Permuted, WithLength, Absorbed;
    assert [x, y, z][1..] == [y, z] && [y, z][1..] == [z] && [z][1..] == [];
    var two := Permuted(WithLength(Permuted(WithLength(Zeros(), |x|)), |y|));
    var lengths := Permuted(WithLength(two, |z|));
    assert LengthsAbsorbed(two, [z]) == LengthsAbsorbed(lengths, []);
    assert LengthsAbsorbed(Permuted(WithLength(Zeros(), |x|)), [y, z]) == LengthsAbsorbed(two, [z]);
    var s := Absorbed(Absorbed(lengths, x), y);
    assert AllAbsorbed(s, [z]) == AllAbsorbed(Absorbed(s, z), []);
    assert AllAbsorbed(Absorbed(lengths, x), [y, z]) == AllAbsorbed(s, [z]);
  }

  // ---------- The keystream objects ----------

  lemma KeyByteIs(start: Bytes, i: nat, n: nat, k: nat)
    requires |start| == 48 && k < RATE && i == RATE * n + k
    ensures KeyByte(start, i) == Block(start, n)[k]
  {
    assert i / RATE == n && i % RATE == k;
  }

  /** The .NET keystream. */
  class Keystream {
    const g: RowGimli
    var position: nat
    ghost const start: Bytes
    ghost var used: nat

    ghost predicate Valid()
      reads this, g.state
    {
      && g.state.Length == 48 && |start| == 48
      && position == used % RATE && g.state[..] == Block(start, used / RATE)
    }

    constructor (key: Bytes)
      ensures Valid() && start == KeyState(key) && used == 0
      ensures fresh(g.state)
    {
      hide Permuted, WithLength, Absorbed, Zeros;
      var rows := new RowGimli();
      StoreLength(rows.state, |key|);
      rows.Permute();
      Absorb(rows, key);
      g := rows;
      position := 0;
      start := rows.state[..];
      used := 0;
    }

    /** Adds the keystream to the data in place and moves on by its length. */
    method Apply(data: array<byte>)
      requires Valid() && data != g.state
      modifies this`position, this`used, g.state, data
      ensures Valid() && used == old(used) + data.Length
      ensures data[..] == Applied(start, old(used), old(data[..]))
    {
      hide XorByte, KeyByte, Permuted;
      ghost var was := data[..];
      for i := 0 to data.Length
        invariant Valid() && used == old(used) + i
        invariant forall k :: 0 <= k < i ==> data[k] == XorByte(was[k], KeyByte(start, old(used) + k))
        invariant forall k :: i <= k < data.Length ==> data[k] == was[k]
      {
        KeyByteIs(start, used, used / RATE, position);
        data[i] := XorByte(data[i], g.state[position]);
        position := position + 1;
        if position == RATE {
          g.Permute();
          position := 0;
        }
        Counted(used);
        used := used + 1;
      }
    }
  }

  lemma Counted(used: nat)
    ensures if used % RATE == RATE - 1 then (used + 1) % RATE == 0 && (used + 1) / RATE == used / RATE + 1
            else (used + 1) % RATE == used % RATE + 1 && (used + 1) / RATE == used / RATE
  {
  }

  /** The Rust keystream, one byte at a time. */
  class KeystreamGen {
    const g: GimliState
    var n: nat
    ghost const start: Bytes
    ghost var used: nat

    ghost predicate Valid()
      reads this, g.state
    {
      && g.state.Length == 48 && |start| == 48
      && n == used % RATE && g.state[..] == Block(start, used / RATE)
    }

    constructor (key: Bytes)
      ensures Valid() && start == KeyState(key) && used == 0
      ensures fresh(g.state)
    {
      hide Permuted, WithLength, Absorbed, Zeros;
      var s := new GimliState();
      StoreLength(s.state, |key|);
      s.Permute();
      AbsorbChunks(s, key);
      g := s;
      n := 0;
      start := s.state[..];
      used := 0;
    }

    method Next() returns (b: byte)
      requires Valid()
      modifies this`n, this`used, g.state
      ensures Valid() && used == old(used) + 1
      ensures b == KeyByte(start, old(used))
    {
      hide KeyByte, Permuted;
      KeyByteIs(start, used, used / RATE, n);
      Counted(used);
      b := g.state[n];
      n := n + 1;
      if n == RATE {
        g.Permute();
        n := 0;
      }
      used := used + 1;
    }

    /** The loop `for byte in … { *byte ^= keystream.next() }`. */
    method Apply(data: array<byte>)
      requires Valid() && data != g.state
      modifies this`n, this`used, g.state, data
      ensures Valid() && used == old(used) + data.Length
      ensures data[..] == Applied(start, old(used), old(data[..]))
    {
      hide XorByte, KeyByte, Permuted;
      ghost var was := data[..];
      for i := 0 to data.Length
        invariant Valid() && used == old(used) + i
        invariant forall k :: 0 <= k < i ==> data[k] == XorByte(was[k], KeyByte(start, old(used) + k))
        invariant forall k :: i <= k < data.Length ==> data[k] == was[k]
      {
        var b := Next();
        data[i] := XorByte(data[i], b);
      }
    }
  }
}
