/**
 * What the derived keys depend on: the labels as text, and each of key, IV and purpose. Two inputs of one length that
 * differ lead to distinct states, of which a derived key is the first 16 bytes.
 */
module KeyLaws {
  import opened Wire
  import opened GimliForms
  import opened Sponge
  import opened SpongeLaws
  import opened Session
  import opened Connection

  function Text(ascii: Bytes): string {
    seq(|ascii|, i requires 0 <= i < |ascii| => ascii[i] as char)
  }

  lemma Spelling()
    ensures Text(ENC_KEY) == "enc_key" && Text(MAC_KEY) == "mac_key" && Text(KEYFINDER) == "keyfinder"
  {
  }

  /** Two keys for each direction, under the labels of the protocol; a hello is the IV and its keyfinder. */
  lemma Labels(key: Bytes, iv: Bytes)
    ensures exists enc, mac, find :: Text(enc) == "enc_key" && Text(mac) == "mac_key" && Text(find) == "keyfinder"
                && KeysFor(key, iv) == Keys(Derive(key, iv, enc), Derive(key, iv, mac))
                && Hello(key, iv) == iv + Derive(key, iv, find)
  {
    hide Derive, Text;
    Spelling();
  }

  /** The whole state of which a derived key is the first 16 bytes. */
  function DeriveState(key: Bytes, iv: Bytes, purpose: Bytes): (s: Bytes)
    ensures |s| == 48
  {
    Absorbed(Absorbed(Absorbed(ThreeLengths(|key|, |iv|, |purpose|), key), iv), purpose)
  }

  function ThreeLengths(a: nat, b: nat, c: nat): (s: Bytes)
    ensures |s| == 48
  {
    Permuted(WithLength(Permuted(WithLength(Permuted(WithLength(Zeros(), a)), b)), c))
  }

  lemma DerivedIsPrefix(key: Bytes, iv: Bytes, purpose: Bytes)
    ensures Derive(key, iv, purpose) == DeriveState(key, iv, purpose)[..16]
  {
    hide Permuted, WithLength, Absorbed;
    UnfoldThree(key, iv, purpose);
  }

  /** Distinct keys, distinct IVs and distinct labels, each up to a block long, lead to distinct states. */
  lemma DerivedApart(key: Bytes, key': Bytes, iv: Bytes, iv': Bytes, purpose: Bytes, purpose': Bytes)
    requires |key| == |key'| <= RATE && |iv| == |iv'| <= RATE && |purpose| == |purpose'| <= RATE
    requires key != key' || iv != iv' || purpose != purpose'
    ensures key != key' && iv == iv' && purpose == purpose' ==>
              DeriveState(key, iv, purpose) != DeriveState(key', iv', purpose')
    ensures key == key' && iv != iv' && purpose == purpose' ==>
              DeriveState(key, iv, purpose) != DeriveState(key', iv', purpose')
    ensures key == key' && iv == iv' && purpose != purpose' ==>
              DeriveState(key, iv, purpose) != DeriveState(key', iv', purpose')
  {
    hide ThreeLengths, Absorbed;
    var lengths := ThreeLengths(|key|, |iv|, |purpose|);
    if purpose != purpose' {
      BlockTellsApart(Absorbed(Absorbed(lengths, key), iv), purpose, purpose');
    }
    if iv != iv' {
      BlockTellsApart(Absorbed(lengths, key), iv, iv');
      AbsorbedKeepsApart(Absorbed(Absorbed(lengths, key), iv), Absorbed(Absorbed(lengths, key), iv'), purpose);
    }
    if key != key' {
      BlockTellsApart(lengths, key, key');
      AbsorbedKeepsApart(Absorbed(lengths, key), Absorbed(lengths, key'), iv);
      AbsorbedKeepsApart(Absorbed(Absorbed(lengths, key), iv), Absorbed(Absorbed(lengths, key'), iv), purpose);
    }
  }

  /** The keystream of a key starts from the state of which the keyed hash of one input is the beginning. */
  lemma KeyStateIsHashed(key: Bytes)
    ensures MultiOf([key]) == KeyState(key)[..16]
  {
    hide Permuted, WithLength, Absorbed;
    assert [key][1..] == [];
    var lengths := Permuted(WithLength(Zeros(), |key|));
    assert LengthsAbsorbed(Zeros(), [key]) == LengthsAbsorbed(lengths, []);
    assert AllAbsorbed(lengths, [key]) == AllAbsorbed(Absorbed(lengths, key), []);
  }

  /** A MAC is the keyed hash of the MAC key and the whole packet. */
  lemma MacOfIsPrefix(macKey: Bytes, packet: Bytes)
    ensures MacOf(macKey, packet) == MacState(macKey, packet)[..16]
  {
    hide MacState;
    MacIsPrefix(macKey, packet);
  }

  /**
   * On the wire: after IV and keyfinder, the frames of the non-empty packets, each byte added to what the hash would
   * squeeze from the state of the encryption key. No byte travels in clear but where that byte is 0.
   */
  lemma OnTheWire(key: Bytes, iv: Bytes, packets: seq<Bytes>, i: nat)
    requires |iv| == 16
    ensures var frames := Frames(KeysFor(key, iv).mac, NonEmpty(packets));
            && |Said(key, iv, packets)| == 32 + |frames| && Said(key, iv, packets)[..16] == iv
            && (i < |frames| ==>
                  Said(key, iv, packets)[32 + i]
                  == frames[i] ^ Squeezed(KeyState(KeysFor(key, iv).enc), |frames|)[i])
  {
    hide Derive, KeysFor, KeyState, Squeezed, NonEmpty, Frames, Applied;
    var (frames, start) := (Frames(KeysFor(key, iv).mac, NonEmpty(packets)), KeyState(KeysFor(key, iv).enc));
    if i < |frames| {
      AppliedIsSqueezed(start, 0, frames, i);
    }
  }

  /** Why a side stops before any packet: too few bytes for a hello, or no candidate that the hello matches. */
  lemma StopsAtHelloIff(candidates: seq<Bytes>, bytes: Bytes)
    ensures Heard(candidates, bytes).1 == NoHello <==> |bytes| < 32
    ensures Heard(candidates, bytes).1 == WrongKey
            <==> |bytes| >= 32 && forall k :: k in candidates ==> Derive(k, bytes[..16], KEYFINDER) != bytes[16..32]
  {
    hide Derive, Received, KeyState;
    if |bytes| >= 32 {
      var found := Find(candidates, bytes[..16], bytes[16..32]);
      assert found.Some? ==> found.value in candidates;
    }
  }
}
