/**
 * What hash, MAC and keystream do with their inputs, stated without the functions that compute them block by block:
 * every byte of the keystream is added to the data, every block of an input changes the state, lengths and padding
 * tell inputs apart.
 */
module SpongeLaws {
  import opened Wire
  import opened GimliForms
  import opened Sponge

  // ---------- The keystream ----------

  lemma {:induction false} BlockAfter(s: Bytes, n: nat)
    requires |s| == 48
    ensures Block(Permuted(s), n) == Block(s, n + 1)
  {
    hide Permuted;
    if n > 0 {
      BlockAfter(s, n - 1);
    }
  }

  lemma {:induction false} SqueezedByte(s: Bytes, n: nat, i: nat)
    requires |s| == 48 && i < n
    ensures Squeezed(s, n)[i] == KeyByte(s, i)
    decreases n
  {
    hide Permuted, Block;
    SqueezedStep(s, n);
    if i < RATE {
      FirstBlockIs(s);
      assert Squeezed(s, n)[i] == s[i];
      KeyByteIs(s, i, 0, i);
    } else {
      SqueezedByte(Permuted(s), n - RATE, i - RATE);
      BlockAfter(s, (i - RATE) / RATE);
      KeyByteIs(s, i, (i - RATE) / RATE + 1, (i - RATE) % RATE);
    }
  }

  lemma FirstBlockIs(s: Bytes)
    requires |s| == 48
    ensures Block(s, 0) == s
  {
  }

  /**
   * Encryption from byte `used` on adds, bit by bit, the bytes that the hash would squeeze from the same state, and so
   * goes on where it stopped.
   */
  lemma AppliedIsSqueezed(start: Bytes, used: nat, data: Bytes, i: nat)
    requires |start| == 48 && i < |data|
    ensures Applied(start, used, data)[i] == data[i] ^ Squeezed(start, used + |data|)[used + i]
  {
    hide KeyByte, Squeezed;
    SqueezedByte(start, used + |data|, used + i);
    XorIs(data[i], KeyByte(start, used + i));
    hide XorByte;
  }

  lemma XorIs(a: byte, b: byte)
    ensures XorByte(a, b) == a ^ b
  {
  }

  // ---------- Absorbing ----------

  /** Whole blocks first, then the rest. */
  lemma {:induction false} AbsorbedConcat(s: Bytes, a: Bytes, b: Bytes)
    requires |s| == 48 && |a| % RATE == 0
    ensures Absorbed(s, a + b) == Absorbed(Absorbed(s, a), b)
    decreases |a|
  {
    hide Permuted, Added;
    if a == [] {
      assert a + b == b;
    } else {
      assert FirstBlock(a + b) == FirstBlock(a) && OtherBlocks(a + b) == OtherBlocks(a) + b;
      AbsorbedConcat(Permuted(Added(s, FirstBlock(a))), OtherBlocks(a), b);
    }
  }

  lemma {:induction false} HashAbsorbedConcat(s: Bytes, a: Bytes, b: Bytes)
    requires |s| == 48 && |a| % RATE == 0
    ensures HashAbsorbed(s, a + b) == HashAbsorbed(HashAbsorbed(s, a), b)
    decreases |a|
  {
    hide Permuted, Added;
    if a == [] {
      assert a + b == b;
      HashNothing(s);
    } else {
      assert (a + b)[..RATE] == a[..RATE] && (a + b)[RATE..] == a[RATE..] + b;
      HashAbsorbedConcat(Permuted(Added(s, a[..RATE])), a[RATE..], b);
    }
  }

  /** One block: a full one is permuted, a short one is only added. */
  lemma HashOneBlock(s: Bytes, block: Bytes)
    requires |s| == 48 && |block| <= RATE
    ensures HashAbsorbed(s, block) == if |block| == RATE then Permuted(Added(s, block)) else Added(s, block)
  {
    if |block| == RATE {
      assert block[..RATE] == block && block[RATE..] == [];
      HashNothing(Permuted(Added(s, block)));
    }
  }

  /** What adding a block means, byte by byte. */
  lemma AddedBytes(s: Bytes, block: Bytes, i: nat)
    requires |s| == 48 && |block| <= 48 && i < 48
    ensures Added(s, block)[i] == if i < |block| then s[i] ^ block[i] else s[i]
  {
  }

  lemma SameBlockSameState(s: Bytes, t: Bytes, block: Bytes)
    requires |s| == |t| == 48 && |block| <= 48 && Added(s, block) == Added(t, block)
    ensures s == t
  {
    hide XorByte, Added;
    forall i | 0 <= i < 48
      ensures s[i] == t[i]
    {
      AddedBytes(s, block, i);
      AddedBytes(t, block, i);
      if i < |block| {
        XorApart(s[i], t[i], block[i]);
      }
    }
  }

  lemma XorApart(a: byte, b: byte, c: byte)
    ensures a ^ c == b ^ c ==> a == b
  {
  }

  lemma PermutedApart(s: Bytes, t: Bytes)
    requires |s| == |t| == 48 && Permuted(s) == Permuted(t)
    ensures s == t
  {
    hide Permuted, Unpermuted;
    PermutedBijective(s);
    PermutedBijective(t);
  }

  /** Absorbing the same input keeps distinct states distinct. */
  lemma {:induction false} AbsorbedKeepsApart(s: Bytes, t: Bytes, input: Bytes)
    requires |s| == |t| == 48 && s != t
    ensures Absorbed(s, input) != Absorbed(t, input)
    decreases |input|
  {
    hide Permuted, Added;
    if input != [] {
      var (u, v) := (Added(s, FirstBlock(input)), Added(t, FirstBlock(input)));
      if Permuted(u) == Permuted(v) {
        PermutedApart(u, v);
        SameBlockSameState(s, t, FirstBlock(input));
      }
      AbsorbedKeepsApart(Permuted(u), Permuted(v), OtherBlocks(input));
    }
  }

  /** Inputs of one length that differ in one block only, the last and short one included, leave distinct states. */
  lemma AbsorbedTellsApart(s: Bytes, before: Bytes, x: Bytes, y: Bytes, after: Bytes)
    requires |s| == 48 && |before| % RATE == 0 && |x| == |y| <= RATE && x != y && (|x| == RATE || after == [])
    ensures Absorbed(s, before + x + after) != Absorbed(s, before + y + after)
  {
    hide Permuted, Added, Absorbed;
    BlockTellsApart(Absorbed(s, before), x, y);
    var (u, v) := (Absorbed(Absorbed(s, before), x), Absorbed(Absorbed(s, before), y));
    AbsorbedConcat(s, before, x);
    AbsorbedConcat(s, before, y);
    AbsorbedKeepsApart(u, v, after);
    if |x| == RATE {
      AbsorbedConcat(s, before + x, after);
      AbsorbedConcat(s, before + y, after);
    } else {
      assert before + x + after == before + x && before + y + after == before + y;
    }
  }

  lemma BlockTellsApart(s: Bytes, x: Bytes, y: Bytes)
    requires |s| == 48 && |x| == |y| <= RATE && x != y
    ensures Absorbed(s, x) != Absorbed(s, y)
  {
    hide Permuted, Added;
    OneBlock(s, x);
    OneBlock(s, y);
    if Absorbed(s, x) == Absorbed(s, y) {
      PermutedApart(Added(s, x), Added(s, y));
      AddedIsInjective(s, x, y);
    }
  }

  // ---------- Lengths ----------

  /** The first 8 bytes of the state hold the length, modulo 2^64; the rest stays. */
  lemma LengthIsStored(s: Bytes, n: nat)
    requires |s| == 48
    ensures LoadU64(WithLength(s, n)) as nat == n % 0x1_0000_0000_0000_0000
    ensures WithLength(s, n)[8..] == s[8..]
  {
    var stamp := (n % 0x1_0000_0000_0000_0000) as bv64;
    StampIs(n % 0x1_0000_0000_0000_0000);
    assert WithLength(s, n)[..8] == StoreU64(stamp);
    hide StoreU64;
    LoadPrefix(WithLength(s, n));
    U64RoundTrip(stamp);
    hide LoadU64;
  }

  lemma StampIs(n: nat)
    requires n < 0x1_0000_0000_0000_0000
    ensures (n as bv64) as nat == n
  {
    assert n % 0x1_0000_0000_0000_0000 == n;
  }

  // ---------- The MAC ----------

  /** The whole state of which a MAC is the first 16 bytes. */
  function MacState(macKey: Bytes, packet: Bytes): (s: Bytes)
    ensures |s| == 48
  {
    Absorbed(Absorbed(Permuted(WithLength(Permuted(WithLength(Zeros(), |macKey|)), |packet|)), macKey), packet)
  }

  lemma MacIsPrefix(macKey: Bytes, packet: Bytes)
    ensures MultiOf([macKey, packet]) == MacState(macKey, packet)[..16]
  {
    UnfoldTwo(macKey, packet);
  }

  /** Packets of one length that differ in one block only, wherever it is, have distinct MAC states. */
  lemma MacTellsApart(macKey: Bytes, before: Bytes, x: Bytes, y: Bytes, after: Bytes)
    requires |before| % RATE == 0 && |x| == |y| <= RATE && x != y && (|x| == RATE || after == [])
    ensures MacState(macKey, before + x + after) != MacState(macKey, before + y + after)
  {
    hide Permuted, WithLength, Absorbed;
    var n := |before + x + after|;
    assert |before + y + after| == n;
    var lengths := Permuted(WithLength(Permuted(WithLength(Zeros(), |macKey|)), n));
    AbsorbedTellsApart(Absorbed(lengths, macKey), before, x, y, after);
  }

  /** So do keys of one length, up to a block, under any packet. */
  lemma MacKeysTellApart(a: Bytes, b: Bytes, packet: Bytes)
    requires |a| == |b| <= RATE && a != b
    ensures MacState(a, packet) != MacState(b, packet)
  {
    hide Permuted, WithLength, Absorbed;
    var s := Permuted(WithLength(Permuted(WithLength(Zeros(), |a|)), |packet|));
    BlockTellsApart(s, a, b);
    AbsorbedKeepsApart(Absorbed(s, a), Absorbed(s, b), packet);
  }

  // ---------- The padding of the hash ----------

  /** Short last blocks that differ, in bytes or in length, differ once padded. */
  lemma PaddingTellsApart(s: Bytes, a: Bytes, b: Bytes)
    requires |s| == 48 && |a| <= |b| < RATE && a != b
    ensures Padded(Added(s, a), |a|) != Padded(Added(s, b), |b|)
  {
    hide Padded, Added;
    var (p, q) := (Padded(Added(s, a), |a|), Padded(Added(s, b), |b|));
    if |a| < |b| {
      var i := |b|;
      PaddedAt(s, a, i);
      PaddedAt(s, b, i);
      MarkShows(s[i]);
      assert p[i] != q[i];
    } else {
      var i :| 0 <= i < |a| && a[i] != b[i];
      PaddedAt(s, a, i);
      PaddedAt(s, b, i);
      MarksCancel(s[i], a[i], b[i]);
      assert p[i] != q[i];
    }
  }

  /** Byte i of a padded block: the data, the mark 0x1f after it, and the mark 0x80 in the last byte. */
  lemma PaddedAt(s: Bytes, a: Bytes, i: nat)
    requires |s| == 48 && |a| < RATE && i < RATE
    ensures var data := if i < |a| then s[i] ^ a[i] else s[i];
            var marked := if i == |a| then data ^ 0x1f else data;
            Padded(Added(s, a), |a|)[i] == if i == 15 then marked ^ 0x80 else marked
  {
  }

  lemma MarkShows(c: byte)
    ensures c ^ 0x1f != c && (c ^ 0x1f) ^ 0x80 != c ^ 0x80
  {
  }

  lemma MarksCancel(c: byte, a: byte, b: byte)
    ensures c ^ a == c ^ b ==> a == b
    ensures (c ^ a) ^ 0x80 == (c ^ b) ^ 0x80 ==> a == b
  {
  }

  lemma HashKeepsApart(s: Bytes, t: Bytes, tail: Bytes)
    requires |s| == |t| == 48 && s != t && |tail| <= RATE
    ensures HashAbsorbed(s, tail) != HashAbsorbed(t, tail)
  {
    hide Permuted, Added, HashAbsorbed;
    HashOneBlock(s, tail);
    HashOneBlock(t, tail);
    if Added(s, tail) == Added(t, tail) {
      SameBlockSameState(s, t, tail);
    }
    if Permuted(Added(s, tail)) == Permuted(Added(t, tail)) {
      PermutedApart(Added(s, tail), Added(t, tail));
    }
  }

  /** The state from which the hash is squeezed. */
  function HashState(input: Bytes): (s: Bytes)
    ensures |s| == 48
  {
    Permuted(Padded(HashAbsorbed(Zeros(), input), |input| % RATE))
  }

  lemma HashIsSqueezed(input: Bytes, length: nat)
    ensures HashOf(input, length) == Squeezed(HashState(input), length)
  {
  }

  /**
   * Inputs with the same whole blocks and different short ends, in bytes or in length, are squeezed from distinct
   * states.
   */
  lemma HashTellsApart(blocks: Bytes, x: Bytes, y: Bytes)
    requires |blocks| % RATE == 0 && |x| <= |y| < RATE && x != y
    ensures HashState(blocks + x) != HashState(blocks + y)
  {
    hide Permuted, Added, Padded, HashAbsorbed, Zeros;
    var s := HashAbsorbed(Zeros(), blocks);
    HashAbsorbedConcat(Zeros(), blocks, x);
    HashAbsorbedConcat(Zeros(), blocks, y);
    HashOneBlock(s, x);
    HashOneBlock(s, y);
    assert |blocks + x| % RATE == |x| && |blocks + y| % RATE == |y|;
    PaddingTellsApart(s, x, y);
    if HashState(blocks + x) == HashState(blocks + y) {
      PermutedApart(Padded(Added(s, x), |x|), Padded(Added(s, y), |y|));
    }
  }

  /** So are inputs that differ in one whole block followed by at most a block. */
  lemma HashBlocksTellApart(blocks: Bytes, x: Bytes, y: Bytes, tail: Bytes)
    requires |blocks| % RATE == 0 && |x| == |y| == RATE && x != y && |tail| < RATE
    ensures HashState(blocks + x + tail) != HashState(blocks + y + tail)
  {
    hide Permuted, Added, Padded, HashAbsorbed, Zeros;
    var (s, n) := (HashAbsorbed(Zeros(), blocks), |tail|);
    var (u, v) := (HashAbsorbed(s, x), HashAbsorbed(s, y));
    HashAbsorbedConcat(Zeros(), blocks, x);
    HashAbsorbedConcat(Zeros(), blocks, y);
    HashAbsorbedConcat(Zeros(), blocks + x, tail);
    HashAbsorbedConcat(Zeros(), blocks + y, tail);
    HashOneBlock(s, x);
    HashOneBlock(s, y);
    if u == v {
      PermutedApart(Added(s, x), Added(s, y));
      AddedIsInjective(s, x, y);
    }
    HashKeepsApart(u, v, tail);
    assert |blocks + x + tail| % RATE == n && |blocks + y + tail| % RATE == n;
    if HashState(blocks + x + tail) == HashState(blocks + y + tail) {
      PermutedApart(Padded(HashAbsorbed(u, tail), n), Padded(HashAbsorbed(v, tail), n));
      PaddingUndone(HashAbsorbed(u, tail), HashAbsorbed(v, tail), n);
    }
  }

  lemma PaddingUndone(s: Bytes, t: Bytes, at: nat)
    requires |s| == |t| == 48 && at < RATE && Padded(s, at) == Padded(t, at)
    ensures s == t
  {
    forall i | 0 <= i < 48
      ensures s[i] == t[i]
    {
      assert Padded(s, at)[i] == Padded(t, at)[i];
      MarksUndone(s[i], t[i]);
    }
  }

  lemma MarksUndone(a: byte, b: byte)
    ensures XorByte(a, 0x1f) == XorByte(b, 0x1f) ==> a == b
    ensures XorByte(a, 0x80) == XorByte(b, 0x80) ==> a == b
    ensures XorByte(XorByte(a, 0x1f), 0x80) == XorByte(XorByte(b, 0x1f), 0x80) ==> a == b
  {
  }

  // ---------- Lists of inputs ----------

  /** Lengths and inputs are absorbed one after the other, for a list of any length. */
  lemma {:induction false} ListsConcat(s: Bytes, a: seq<Bytes>, b: seq<Bytes>)
    requires |s| == 48
    ensures LengthsAbsorbed(s, a + b) == LengthsAbsorbed(LengthsAbsorbed(s, a), b)
    ensures AllAbsorbed(s, a + b) == AllAbsorbed(AllAbsorbed(s, a), b)
    decreases |a|
  {
    hide Permuted, WithLength, Absorbed;
    if a == [] {
      assert a + b == b;
    } else {
      assert (a + b)[0] == a[0] && (a + b)[1..] == a[1..] + b;
      ListsConcat(Permuted(WithLength(s, |a[0]|)), a[1..], b);
      ListsConcat(Absorbed(s, a[0]), a[1..], b);
    }
  }
}
