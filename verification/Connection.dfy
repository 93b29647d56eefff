/**
 * The handshake, whole sessions over the streams of Session in both directions, and reading from a stream that arrives
 * in arbitrary fragments.
 */
module Connection {
  import opened Wire
  import opened Sponge
  import opened Session

  // The labels "keyfinder", "enc_key" and "mac_key" in ASCII.
  const KEYFINDER: Bytes := [0x6b, 0x65, 0x79, 0x66, 0x69, 0x6e, 0x64, 0x65, 0x72]
  const ENC_KEY: Bytes := [0x65, 0x6e, 0x63, 0x5f, 0x6b, 0x65, 0x79]
  const MAC_KEY: Bytes := [0x6d, 0x61, 0x63, 0x5f, 0x6b, 0x65, 0x79]

  // ---------- Keys and handshake ----------

  function Derive(key: Bytes, iv: Bytes, purpose: Bytes): (d: Bytes)
    ensures |d| == 16
  {
    MultiOf([key, iv, purpose])
  }

  /** The keys of one direction. */
  datatype Keys = Keys(enc: Bytes, mac: Bytes)

  function KeysFor(key: Bytes, iv: Bytes): Keys {
    Keys(Derive(key, iv, ENC_KEY), Derive(key, iv, MAC_KEY))
  }

  /** What each side writes first. */
  function Hello(key: Bytes, iv: Bytes): (h: Bytes)
    ensures |h| == |iv| + 16
  {
    iv + Derive(key, iv, KEYFINDER)
  }

  /** The first candidate whose keyfinder for the peer's IV is the one received. */
  function Find(candidates: seq<Bytes>, iv: Bytes, keyfinder: Bytes): (key: Option<Bytes>)
    ensures key.Some? ==> key.value in candidates && Derive(key.value, iv, KEYFINDER) == keyfinder
    ensures key.None? ==> forall k :: k in candidates ==> Derive(k, iv, KEYFINDER) != keyfinder
  {
    if candidates == [] then None
    else if Derive(candidates[0], iv, KEYFINDER) == keyfinder then Some(candidates[0])
    else Find(candidates[1..], iv, keyfinder)
  }

  datatype Close = NoHello | WrongKey | Ended(ending: Ending)

  /** What one side makes of everything its peer wrote; an initiator has one candidate key. */
  function Heard(candidates: seq<Bytes>, bytes: Bytes): (seq<Bytes>, Close) {
    if |bytes| < 32 then ([], NoHello)
    else
      match Find(candidates, bytes[..16], bytes[16..32])
      case None => ([], WrongKey)
      case Some(key) =>
        var keys := KeysFor(key, bytes[..16]);
        var (packets, ending) := Received(KeyState(keys.enc), 0, keys.mac, bytes[32..]);
        (packets, Ended(ending))
  }

  /** The keys one side receives with, once it has heard a hello that one of its keys matches. */
  function HeardKeys(candidates: seq<Bytes>, bytes: Bytes): Option<Keys> {
    if |bytes| < 32 then None
    else
      match Find(candidates, bytes[..16], bytes[16..32])
      case None => None
      case Some(key) => Some(KeysFor(key, bytes[..16]))
  }

  /** Everything one side writes: its hello, then the frames of its packets. */
  function Said(key: Bytes, iv: Bytes, packets: seq<Bytes>): Bytes {
    Hello(key, iv) + Stream(KeyState(KeysFor(key, iv).enc), 0, KeysFor(key, iv).mac, NonEmpty(packets))
  }

  /** No candidate before position j has the keyfinder of `key`. */
  predicate NoEarlierMatch(candidates: seq<Bytes>, j: nat, key: Bytes, iv: Bytes)
    requires j <= |candidates|
  {
    forall i :: 0 <= i < j ==> Derive(candidates[i], iv, KEYFINDER) != Derive(key, iv, KEYFINDER)
  }

  /** The responder settles on the candidate at j if no earlier one matches. */
  lemma {:induction false} FindsFirst(candidates: seq<Bytes>, j: nat, iv: Bytes)
    requires j < |candidates| && NoEarlierMatch(candidates, j, candidates[j], iv)
    ensures Find(candidates, iv, Derive(candidates[j], iv, KEYFINDER)) == Some(candidates[j])
  {
    hide Derive;
    if j > 0 {
      assert forall i :: 0 <= i < j - 1 ==> candidates[1..][i] == candidates[i + 1];
      FindsFirst(candidates[1..], j - 1, iv);
    }
  }

  /** It settles on the initiator's key exactly when the first candidate that matches the keyfinder is that key. */
  lemma {:induction false} AgreesIff(candidates: seq<Bytes>, key: Bytes, iv: Bytes)
    ensures Find(candidates, iv, Derive(key, iv, KEYFINDER)) == Some(key)
            <==> exists j :: 0 <= j < |candidates| && candidates[j] == key && NoEarlierMatch(candidates, j, key, iv)
  {
    hide Derive;
    if j :| 0 <= j < |candidates| && candidates[j] == key && NoEarlierMatch(candidates, j, key, iv) {
      FindsFirst(candidates, j, iv);
    }
    if Find(candidates, iv, Derive(key, iv, KEYFINDER)) == Some(key) {
      FoundAt(candidates, key, iv);
    }
  }

  lemma {:induction false} FoundAt(candidates: seq<Bytes>, key: Bytes, iv: Bytes)
    requires Find(candidates, iv, Derive(key, iv, KEYFINDER)) == Some(key)
    ensures exists j :: 0 <= j < |candidates| && candidates[j] == key && NoEarlierMatch(candidates, j, key, iv)
  {
    hide Derive;
    if candidates[0] == key {
      assert NoEarlierMatch(candidates, 0, key, iv);
    } else if Derive(candidates[0], iv, KEYFINDER) != Derive(key, iv, KEYFINDER) {
      FoundAt(candidates[1..], key, iv);
      var j :| 0 <= j < |candidates[1..]| && candidates[1..][j] == key && NoEarlierMatch(candidates[1..], j, key, iv);
      assert forall i :: 0 < i < j + 1 ==> candidates[i] == candidates[1..][i - 1];
      assert candidates[j + 1] == key && NoEarlierMatch(candidates, j + 1, key, iv);
    }
  }

  /** What the peer of a side that sends these packets has delivered when that many bytes have arrived. */
  function HeardBy(packets: seq<Bytes>, arrived: nat): (seq<Bytes>, Close) {
    if arrived < 32 then ([], NoHello)
    else (NonEmpty(packets)[..Complete(NonEmpty(packets), arrived - 32)], Ended(EndOfStream))
  }

  lemma SaidLength(key: Bytes, iv: Bytes, packets: seq<Bytes>)
    requires |iv| == 16
    ensures |Said(key, iv, packets)| == 32 + |Frames(KeysFor(key, iv).mac, NonEmpty(packets))|
  {
  }

  /**
   * The whole session in one direction. Whatever part of the peer's writing has arrived, the receiver has delivered
   * exactly the non-empty packets whose frames are complete, in order, and waits for more: no MAC failure, no wrong
   * key.
   */
  lemma SessionPrefix(candidates: seq<Bytes>, j: nat, iv: Bytes, packets: seq<Bytes>, arrived: nat)
    requires j < |candidates| && |iv| == 16 && NoEarlierMatch(candidates, j, candidates[j], iv)
    requires Fit(packets) && arrived <= |Said(candidates[j], iv, packets)|
    ensures Heard(candidates, Said(candidates[j], iv, packets)[..arrived]) == HeardBy(packets, arrived)
  {
    hide Derive, Stream, Received, Complete, NonEmpty, Find, NoEarlierMatch, KeysFor, Fit, Said, Heard, KeyState;
    var (key, sent) := (candidates[j], NonEmpty(packets));
    var (keys, bytes) := (KeysFor(key, iv), Said(key, iv, packets)[..arrived]);
    if arrived >= 32 {
      HelloHeard(candidates, j, iv, packets, bytes);
      PrefixYieldsPrefix(KeyState(keys.enc), 0, keys.mac, sent, arrived - 32);
      HeardAfterHello(candidates, key, bytes);
    } else {
      NothingHeard(candidates, bytes);
    }
  }

  lemma NothingHeard(candidates: seq<Bytes>, bytes: Bytes)
    requires |bytes| < 32
    ensures Heard(candidates, bytes) == ([], NoHello)
  {
  }

  /** From the first 32 bytes of what its peer says, a side finds the key and is left with the stream. */
  lemma HelloHeard(candidates: seq<Bytes>, j: nat, iv: Bytes, packets: seq<Bytes>, bytes: Bytes)
    requires j < |candidates| && |iv| == 16 && NoEarlierMatch(candidates, j, candidates[j], iv)
    requires bytes <= Said(candidates[j], iv, packets) && |bytes| >= 32
    ensures bytes[..16] == iv && Find(candidates, iv, bytes[16..32]) == Some(candidates[j])
    ensures var keys := KeysFor(candidates[j], iv);
            var stream := Stream(KeyState(keys.enc), 0, keys.mac, NonEmpty(packets));
            |bytes| - 32 <= |stream| && bytes[32..] == stream[..|bytes| - 32]
  {
    hide Derive, Stream, NonEmpty, Find, NoEarlierMatch, KeysFor, KeyState;
    var (key, said) := (candidates[j], Said(candidates[j], iv, packets));
    var keys := KeysFor(key, iv);
    var stream := Stream(KeyState(keys.enc), 0, keys.mac, NonEmpty(packets));
    assert said == iv + Derive(key, iv, KEYFINDER) + stream;
    assert bytes == said[..|bytes|];
    SaidSlices(iv, Derive(key, iv, KEYFINDER), stream, |bytes|);
    FindsFirst(candidates, j, iv);
  }

  lemma SaidSlices(iv: Bytes, keyfinder: Bytes, stream: Bytes, arrived: nat)
    requires |iv| == |keyfinder| == 16 && 32 <= arrived <= 32 + |stream|
    ensures var bytes := (iv + keyfinder + stream)[..arrived];
            bytes[..16] == iv && bytes[16..32] == keyfinder && bytes[32..] == stream[..arrived - 32]
  {
  }

  lemma HeardAfterHello(candidates: seq<Bytes>, key: Bytes, bytes: Bytes)
    requires |bytes| >= 32 && Find(candidates, bytes[..16], bytes[16..32]) == Some(key)
    ensures var keys := KeysFor(key, bytes[..16]);
            var (packets, ending) := Received(KeyState(keys.enc), 0, keys.mac, bytes[32..]);
            Heard(candidates, bytes) == (packets, Ended(ending))
  {
    hide Find, Received, Derive, KeyState;
  }

  /** Once everything has arrived the receiver has delivered exactly the non-empty packets. */
  lemma SessionRoundTrip(candidates: seq<Bytes>, j: nat, iv: Bytes, packets: seq<Bytes>)
    requires j < |candidates| && |iv| == 16 && NoEarlierMatch(candidates, j, candidates[j], iv) && Fit(packets)
    ensures Heard(candidates, Said(candidates[j], iv, packets)) == (NonEmpty(packets), Ended(EndOfStream))
  {
    hide Heard, Said, NonEmpty, Complete, Frames, KeysFor, NoEarlierMatch, Fit;
    var said := Said(candidates[j], iv, packets);
    SessionPrefix(candidates, j, iv, packets, |said|);
    assert said[..|said|] == said;
    SaidLength(candidates[j], iv, packets);
    var sent := NonEmpty(packets);
    AllComplete(KeysFor(candidates[j], iv).mac, sent);
    assert sent[..|sent|] == sent;
  }

  /**
   * Both directions: each side receives with the keys the other one sends with, the initiator under the responder's IV
   * and the responder under the initiator's, and hears the other's packets.
   */
  lemma BothDirections(keys: seq<Bytes>, j: nat, ivI: Bytes, ivR: Bytes, fromI: seq<Bytes>, fromR: seq<Bytes>)
    requires j < |keys| && |ivI| == |ivR| == 16 && NoEarlierMatch(keys, j, keys[j], ivI)
    requires Fit(fromI) && Fit(fromR)
    ensures HeardKeys(keys, Said(keys[j], ivI, fromI)) == Some(KeysFor(keys[j], ivI))
    ensures HeardKeys([keys[j]], Said(keys[j], ivR, fromR)) == Some(KeysFor(keys[j], ivR))
    ensures Heard(keys, Said(keys[j], ivI, fromI)) == (NonEmpty(fromI), Ended(EndOfStream))
    ensures Heard([keys[j]], Said(keys[j], ivR, fromR)) == (NonEmpty(fromR), Ended(EndOfStream))
  {
    MirroredKeys(keys, j, ivI, fromI);
    MirroredKeys([keys[j]], 0, ivR, fromR);
    hide Heard, HeardKeys, Said, NonEmpty;
    SessionRoundTrip(keys, j, ivI, fromI);
    SessionRoundTrip([keys[j]], 0, ivR, fromR);
  }

  lemma MirroredKeys(candidates: seq<Bytes>, j: nat, iv: Bytes, packets: seq<Bytes>)
    requires j < |candidates| && |iv| == 16 && NoEarlierMatch(candidates, j, candidates[j], iv)
    ensures HeardKeys(candidates, Said(candidates[j], iv, packets)) == Some(KeysFor(candidates[j], iv))
  {
    hide Said, Find, NoEarlierMatch, KeysFor;
    SaidLength(candidates[j], iv, packets);
    HelloHeard(candidates, j, iv, packets, Said(candidates[j], iv, packets));
  }

  // ---------- Reading from a fragmented stream ----------

  /** The bytes still to come, in the fragments in which the network delivers them. */
  class Reader {
    var fragments: seq<Bytes>

    constructor (fragments: seq<Bytes>)
      ensures this.fragments == fragments
    {
      this.fragments := fragments;
    }

    ghost function Rest(): Bytes
      reads this
    {
      Concat(fragments)
    }

    /** One read: some bytes of the next fragment, none only at the end of the stream. */
    method Read(limit: nat) returns (got: Bytes)
      requires limit > 0
      modifies this
      ensures |got| <= limit && old(Rest()) == got + Rest()
      ensures got == [] ==> Rest() == []
    {
      while fragments != [] && fragments[0] == []
        invariant Rest() == old(Rest())
        decreases |fragments|
      {
        fragments := fragments[1..];
      }
      if fragments == [] {
        return [];
      }
      var first := fragments[0];
      if |first| <= limit {
        got := first;
        fragments := fragments[1..];
      } else {
        got := first[..limit];
        assert first == first[..limit] + first[limit..];
        ghost var others := fragments[1..];
        fragments := [first[limit..]] + fragments[1..];
        assert fragments[1..] == others;
      }
    }

    /** Reads until the buffer is full. False when the stream ends before. */
    method ReadExactly(buffer: array<byte>) returns (full: bool)
      modifies this, buffer
      ensures full <==> |old(Rest())| >= buffer.Length
      ensures full ==> buffer[..] == old(Rest())[..buffer.Length] && Rest() == old(Rest())[buffer.Length..]
    {
      var filled := 0;
      ghost var all := Rest();
      while filled < buffer.Length
        invariant filled <= buffer.Length
        invariant all == buffer[..filled] + Rest()
      {
        var got := Read(buffer.Length - filled);
        if got == [] {
          return false;
        }
        ghost var before := buffer[..filled];
        Fill(buffer, filled, got);
        filled := filled + |got|;
      }
      assert buffer[..filled] == buffer[..];
      full := true;
    }

    static method Fill(buffer: array<byte>, at: nat, bytes: Bytes)
      requires at + |bytes| <= buffer.Length
      modifies buffer
      ensures buffer[..at + |bytes|] == old(buffer[..at]) + bytes
    {
      forall i | 0 <= i < |bytes| {
        buffer[at + i] := bytes[i];
      }
    }
  }
}
