/**
 * Two connections talking to each other, each of either program: handshake, send loops, the network's fragments,
 * receive loops.
 */
module Conversation {
  import opened Wire
  import opened RouteTable
  import opened Sponge
  import opened Session
  import opened Connection
  import opened LegacyTcp
  import RustTcp

  /** What one side of a session did: all it wrote, the keys of its send loop, what it delivered and why it stopped. */
  datatype Party = Party(said: Bytes, sending: Option<Keys>, delivered: seq<Bytes>, close: Close)

  /**
   * What a side says: its hello and the frames of its packets. A .NET side starts its send loop when it has met the
   * peer's hello and stops it at a packet that does not fit; a Rust initiator does not wait for the peer.
   */
  predicate Says(impl: Impl, initiator: bool, met: bool, key: Bytes, iv: Bytes, packets: seq<Bytes>, said: Bytes) {
    if !met && !initiator then said == []
    else if impl.Rust? then said == Said(key, iv, packets)
    else if !met then said == Hello(key, iv)
    else
      && Hello(key, iv) <= said <= Said(key, iv, Sendable(packets))
      && (Fit(packets) ==> said == Said(key, iv, packets))
  }

  /** The connection of one side, over the part of its peer's writing that arrived. */
  method Side(impl: Impl, initiator: bool, candidates: seq<Bytes>, ghost j: nat, sendIv: Bytes,
              polls: seq<Option<Bytes>>, fragments: seq<Bytes>, ghost peerIv: Bytes, ghost peerPackets: seq<Bytes>)
    returns (party: Party)
    requires j < |candidates| && (initiator ==> |candidates| == 1) && |sendIv| == |peerIv| == 16 && Fit(peerPackets)
    requires NoEarlierMatch(candidates, j, candidates[j], peerIv)
    requires Concat(fragments) <= Said(candidates[j], peerIv, peerPackets)
    ensures (party.delivered, party.close) == HeardBy(peerPackets, |Concat(fragments)|)
    ensures Says(impl, initiator, |Concat(fragments)| >= 32, candidates[j], sendIv, Taken(polls), party.said)
    ensures |Concat(fragments)| >= 32 ==> party.sending == Some(KeysFor(candidates[j], sendIv))
  {
    hide Heard, HeardBy, Said, NoEarlierMatch, Sendable, Taken, Concat, Find, KeysFor, Hello, KeyState, NonEmpty,
        Stream, Fit;
    var reader := new Reader(fragments);
    ghost var arrived := reader.Rest();
    assert arrived == Said(candidates[j], peerIv, peerPackets)[..|arrived|];
    SessionPrefix(candidates, j, peerIv, peerPackets, |arrived|);
    if |arrived| >= 32 {
      HelloHeard(candidates, j, peerIv, peerPackets, arrived);
    }
    assert initiator ==> candidates[..1] == candidates == [candidates[j]];
    if impl.DotNet? {
      var said, sending, delivered, close := LegacyTcp.Run(initiator, candidates, sendIv, polls, reader);
      party := Party(said, sending, delivered, close);
    } else if initiator {
      var said, delivered, close := RustTcp.Connect(candidates[0], sendIv, Taken(polls), reader);
      party := Party(said, Some(KeysFor(candidates[0], sendIv)), delivered, close);
    } else {
      var said, key, delivered, close := RustTcp.HandleConnection(candidates, sendIv, Taken(polls), reader);
      party := Party(said, if key.None? then None else Some(KeysFor(key.value, sendIv)), delivered, close);
    }
  }

  /**
   * A whole session of two programs, each .NET or Rust. Of the packets of each side that fit a frame, up to the first
   * that does not, the other has received any beginning, cut into fragments in any way (toR and toI say how). Then
   * each has delivered exactly the packets of its peer whose frames have arrived, each sends with the keys the other
   * receives with, and each says what the other was supposed to hear from.
   */
  method Converse(implI: Impl, implR: Impl, keys: seq<Bytes>, j: nat, ivI: Bytes, ivR: Bytes,
                  pollsI: seq<Option<Bytes>>,
                  pollsR: seq<Option<Bytes>>, toR: Bytes -> seq<Bytes>, toI: Bytes -> seq<Bytes>)
    returns (initiator: Party, responder: Party)
    requires j < |keys| && |ivI| == |ivR| == 16 && NoEarlierMatch(keys, j, keys[j], ivI)
    requires forall b :: Concat(toR(b)) <= b && Concat(toI(b)) <= b
    ensures var (fromI, fromR) := (Sendable(Taken(pollsI)), Sendable(Taken(pollsR)));
            var (saidI, saidR) := (Said(keys[j], ivI, fromI), Said(keys[j], ivR, fromR));
            var (metR, metI) := (|Concat(toR(saidI))| >= 32, |Concat(toI(saidR))| >= 32);
            && (responder.delivered, responder.close) == HeardBy(fromI, |Concat(toR(saidI))|)
            && (initiator.delivered, initiator.close) == HeardBy(fromR, |Concat(toI(saidR))|)
            && Says(implI, true, metI, keys[j], ivI, Taken(pollsI), initiator.said)
            && Says(implR, false, metR, keys[j], ivR, Taken(pollsR), responder.said)
            && (metI ==> initiator.sending == HeardKeys(keys, saidI))
            && (metR ==> responder.sending == HeardKeys([keys[j]], saidR))
  {
    hide HeardBy, HeardKeys, Says, NoEarlierMatch, Sendable, Taken, Concat, KeysFor, Hello, Fit, Stream, KeyState,
        NonEmpty;
    var (fromI, fromR) := (Sendable(Taken(pollsI)), Sendable(Taken(pollsR)));
    OnlyCandidate(keys[j], ivR);
    MirroredKeys(keys, j, ivI, fromI);
    MirroredKeys([keys[j]], 0, ivR, fromR);
    responder := Side(implR, false, keys, j, ivR, pollsR, toR(Said(keys[j], ivI, fromI)), ivI, fromI);
    initiator := Side(implI, true, [keys[j]], 0, ivI, pollsI, toI(Said(keys[j], ivR, fromR)), ivR, fromR);
  }

  lemma OnlyCandidate(key: Bytes, iv: Bytes)
    ensures NoEarlierMatch([key], 0, key, iv)
  {
  }
}
