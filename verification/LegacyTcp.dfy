/** The connection code of both programs, loop by loop, proved against the sessions of Connection. */
module LegacyTcp {
  import opened Wire
  import opened Sponge
  import opened Session
  import opened Connection

  // ---------- Sending ----------

  /** Fills in one frame: length, packet, MAC. */
  method WriteFrame(frame: array<byte>, macKey: Bytes, packet: Bytes, mac: Bytes)
    requires frame.Length == |packet| + OVERHEAD && mac == MacOf(macKey, packet)
    modifies frame
    ensures frame[..] == Frame(macKey, packet)
  {
    hide LittleEndian16, MacOf;
    var length := LittleEndian16(LengthField(packet));
    frame[0], frame[1] := length[0], length[1];
    forall i | 0 <= i < |packet| {
      frame[2 + i] := packet[i];
    }
    forall i | 0 <= i < 16 {
      frame[2 + |packet| + i] := mac[i];
    }
    assert frame[..2] == length;
    assert frame[2..2 + |packet|] == packet;
    assert frame[2 + |packet|..] == mac;
    assert frame[..] == frame[..2] + frame[2..2 + |packet|] + frame[2 + |packet|..];
  }

  datatype Encoded = TooLong | Encoded(bytes: Bytes)

  /** LegacyTcp.Encode: a packet over 65535 bytes is refused before the keystream moves. */
  method Encode(packet: Bytes, macKey: Bytes, keystream: Keystream) returns (r: Encoded)
    requires keystream.Valid()
    modifies keystream, keystream.g.state
    ensures keystream.Valid()
    ensures |packet| > MAX_PACKET ==> r == TooLong && keystream.used == old(keystream.used)
    ensures |packet| <= MAX_PACKET ==>
              && r == Encoded(Applied(keystream.start, old(keystream.used), Frame(macKey, packet)))
              && keystream.used == old(keystream.used) + |packet| + OVERHEAD
  {
    hide Frame, Applied, MacOf;
    if |packet| > MAX_PACKET {
      return TooLong;
    }
    var frame := new byte[|packet| + OVERHEAD];
    var mac := Multi([macKey, packet]);
    MacIs(macKey, packet, mac);
    WriteFrame(frame, macKey, packet, mac);
    keystream.Apply(frame);
    r := Encoded(frame[..]);
  }

  lemma MacIs(macKey: Bytes, packet: Bytes, mac: Bytes)
    requires mac == MultiOf([macKey, packet])
    ensures mac == MacOf(macKey, packet)
  {
  }

  /** What the polls of the queue returned: packets, and None each time it was found empty. */
  function Taken(polls: seq<Option<Bytes>>): seq<Bytes> {
    if polls == [] then []
    else (if polls[0].Some? then [polls[0].value] else []) + Taken(polls[1..])
  }

  /** Every packet is taken, in order, and an empty queue adds nothing. */
  lemma {:induction false} TakenMore(polls: seq<Option<Bytes>>, poll: Option<Bytes>)
    ensures Taken(polls + [poll]) == if poll.Some? then Taken(polls) + [poll.value] else Taken(polls)
  {
    if polls == [] {
      assert [poll][1..] == [];
      assert polls + [poll] == [poll];
    } else {
      assert (polls + [poll])[0] == polls[0] && (polls + [poll])[1..] == polls[1..] + [poll];
      TakenMore(polls[1..], poll);
    }
  }

  /** The packets before the first that does not fit a frame. */
  function Sendable(packets: seq<Bytes>): (r: seq<Bytes>)
    ensures Fit(r) && r <= packets
    ensures r == packets <==> Fit(packets)
  {
    if packets == [] || |packets[0]| > MAX_PACKET then []
    else [packets[0]] + Sendable(packets[1..])
  }

  /** The state of a send loop: what went out and what is still in the batch, for the packets taken so far. */
  ghost predicate Sent(start: Bytes, used: nat, macKey: Bytes, out: Bytes, packets: seq<Bytes>)
    requires |start| == 48
  {
    out == Stream(start, 0, macKey, NonEmpty(packets)) && used == |out|
  }

  lemma SentMore(start: Bytes, used: nat, macKey: Bytes, out: Bytes, packets: seq<Bytes>, packet: Bytes)
    requires |start| == 48 && Sent(start, used, macKey, out, packets)
    ensures Fit(packets) && |packet| <= MAX_PACKET ==> Fit(packets + [packet])
    ensures packet == [] ==> Sent(start, used, macKey, out, packets + [packet])
    ensures packet != [] ==>
              Sent(start, used + |packet| + OVERHEAD, macKey, out + Applied(start, used, Frame(macKey, packet)),
                   packets + [packet])
  {
    hide Stream, NonEmpty, Frame, Applied;
    StreamGrows(start, macKey, packets, packet);
    if packet == [] {
      assert out + [] == out;
    }
  }

  lemma SentNothing(start: Bytes, macKey: Bytes)
    requires |start| == 48
    ensures Sent(start, 0, macKey, [], []) && Fit([])
  {
  }

  lemma {:induction false} ConcatMore(parts: seq<Bytes>, part: Bytes)
    ensures Concat(parts + [part]) == Concat(parts) + part
  {
    if parts == [] {
      assert [part][1..] == [];
      assert [] + [part] == [part];
    } else {
      assert (parts + [part])[1..] == parts[1..] + [part];
      ConcatMore(parts[1..], part);
    }
  }

  lemma {:induction false} SendableFit(packets: seq<Bytes>, packet: Bytes, more: seq<Bytes>)
    requires Fit(packets) && |packet| > MAX_PACKET
    ensures Sendable(packets + [packet] + more) == packets && !Fit(packets + [packet] + more)
  {
    var all := packets + [packet] + more;
    assert all[|packets|] == packet && packet in all;
    if packets == [] {
      assert all[0] == packet;
    } else {
      assert all[0] == packets[0] && all[1..] == packets[1..] + [packet] + more;
      SendableFit(packets[1..], packet, more);
    }
  }

  /** Packets taken so far, and what the rest of the polls still brings. */
  lemma TakeOne(polls: seq<Option<Bytes>>)
    requires polls != []
    ensures polls[0].Some? ==> Taken(polls) == [polls[0].value] + Taken(polls[1..])
    ensures polls[0].None? ==> Taken(polls) == Taken(polls[1..])
  {
  }

  /**
   * LegacyTcp.SendAsync. Wherever the batches end, the writes together are the stream of the packets, one frame
   * after the other; no write is empty or larger than a full batch. A packet over the limit ends the loop, and what
   * is lost with it is a tail of less than a batch.
   */
  method Send(polls: seq<Option<Bytes>>, encKey: Bytes, macKey: Bytes) returns (writes: seq<Bytes>, refused: bool)
    ensures forall w :: w in writes ==> 0 < |w| < BUFFER_SIZE + MAX_PACKET + OVERHEAD
    ensures refused <==> !Fit(Taken(polls))
    ensures var all := Stream(KeyState(encKey), 0, macKey, NonEmpty(Sendable(Taken(polls))));
            && Concat(writes) <= all
            && (!refused ==> Concat(writes) == all)
            && |all| - |Concat(writes)| < BUFFER_SIZE
  {
    hide Stream, NonEmpty, Frame, Applied, Concat, Taken, Fit, KeyState, Sent, Sendable;
    var keystream := new Keystream(encKey);
    writes, refused := [], false;
    var left := polls;
    ghost var packets: seq<Bytes> := [];
    SentNothing(keystream.start, macKey);
    assert Concat(writes) + [] == [] by { ConcatNothing(); }
    assert packets + Taken(left) == Taken(polls);
    while left != []
      invariant keystream.Valid() && keystream.start == KeyState(encKey)
      invariant fresh(keystream) && fresh(keystream.g.state)
      invariant packets + Taken(left) == Taken(polls)
      invariant Sent(keystream.start, keystream.used, macKey, Concat(writes), packets) && Fit(packets)
      invariant forall w :: w in writes ==> 0 < |w| < BUFFER_SIZE + MAX_PACKET + OVERHEAD
      decreases |left|
    {
      var batch: Bytes;
      ghost var more: seq<Bytes>;
      batch, left, refused, more := Gather(left, macKey, keystream, Concat(writes), packets);
      if refused {
        Refused(keystream.start, keystream.used, macKey, writes, batch, packets + more, left, polls);
        return;
      }
      packets := packets + more;
      if batch != [] {
        ConcatMore(writes, batch);
        writes := writes + [batch];
      } else {
        assert Concat(writes) + [] == Concat(writes);
      }
    }
    AllSent(keystream.start, keystream.used, macKey, writes, packets, left, polls);
  }

  lemma ConcatNothing()
    ensures Concat([]) == []
  {
  }

  /** Appends the frame of one packet to the batch; an empty packet adds nothing. */
  method AddPacket(packet: Bytes, macKey: Bytes, keystream: Keystream, batch: Bytes, ghost out: Bytes,
                   ghost packets: seq<Bytes>)
    returns (longer: Bytes)
    requires keystream.Valid() && |packet| <= MAX_PACKET
    requires Sent(keystream.start, keystream.used, macKey, out + batch, packets) && Fit(packets)
    modifies keystream, keystream.g.state
    ensures keystream.Valid() && |longer| <= |batch| + |packet| + OVERHEAD
    ensures Sent(keystream.start, keystream.used, macKey, out + longer, packets + [packet]) && Fit(packets + [packet])
  {
    hide Frame, Applied, Sent, Fit;
    longer := batch;
    SentMore(keystream.start, keystream.used, macKey, out + batch, packets, packet);
    if packet != [] {
      FrameLength(keystream.start, keystream.used, macKey, packet);
      var frame := Encode(packet, macKey, keystream);
      assert out + batch + frame.bytes == out + (batch + frame.bytes);
      longer := batch + frame.bytes;
    }
  }

  /** Takes packets until the batch is full or the queue is found empty. */
  method Gather(polls: seq<Option<Bytes>>, macKey: Bytes, keystream: Keystream, ghost out: Bytes,
                ghost packets: seq<Bytes>)
    returns (batch: Bytes, left: seq<Option<Bytes>>, refused: bool, ghost more: seq<Bytes>)
    requires keystream.Valid() && polls != [] && Sent(keystream.start, keystream.used, macKey, out, packets)
             && Fit(packets)
    modifies keystream, keystream.g.state
    ensures keystream.Valid()
    ensures Sent(keystream.start, keystream.used, macKey, out + batch, packets + more) && Fit(packets + more)
    ensures |batch| < BUFFER_SIZE + MAX_PACKET + OVERHEAD && (refused ==> |batch| < BUFFER_SIZE)
    ensures more + Taken(left) == Taken(polls)
    ensures if refused then left != [] && left[0].Some? && |left[0].value| > MAX_PACKET else |left| < |polls|
  {
    hide Stream, NonEmpty, Frame, Applied, Taken, Fit, Sent;
    batch, left, more := [], polls, [];
    assert out + batch == out && packets + more == packets && more + Taken(left) == Taken(polls);
    while |batch| < BUFFER_SIZE && left != [] && left[0].Some?
      invariant keystream.Valid()
      invariant Sent(keystream.start, keystream.used, macKey, out + batch, packets + more) && Fit(packets + more)
      invariant |batch| < BUFFER_SIZE + MAX_PACKET + OVERHEAD
      invariant more + Taken(left) == Taken(polls)
      invariant |left| < |polls| || (left == polls && batch == [])
      decreases |left|
    {
      var packet := left[0].value;
      if |packet| > MAX_PACKET {
        return batch, left, true, more;
      }
      TakeOne(left);
      batch := AddPacket(packet, macKey, keystream, batch, out, packets + more);
      assert packets + more + [packet] == packets + (more + [packet]);
      assert more + [packet] + Taken(left[1..]) == more + ([packet] + Taken(left[1..]));
      left, more := left[1..], more + [packet];
    }
    refused := false;
    if |batch| < BUFFER_SIZE && left != [] {
      TakeOne(left);
      left := left[1..];
    }
  }

  lemma FrameLength(start: Bytes, used: nat, macKey: Bytes, packet: Bytes)
    requires |start| == 48
    ensures |Applied(start, used, Frame(macKey, packet))| == |packet| + OVERHEAD
  {
  }

  lemma AllSent(start: Bytes, used: nat, macKey: Bytes, writes: seq<Bytes>, packets: seq<Bytes>,
                left: seq<Option<Bytes>>, polls: seq<Option<Bytes>>)
    requires |start| == 48 && Sent(start, used, macKey, Concat(writes), packets) && Fit(packets)
    requires left == [] && packets + Taken(left) == Taken(polls)
    ensures Fit(Taken(polls)) && Concat(writes) == Stream(start, 0, macKey, NonEmpty(Sendable(Taken(polls))))
  {
    assert packets + [] == packets;
  }

  lemma Refused(start: Bytes, used: nat, macKey: Bytes, writes: seq<Bytes>, batch: Bytes, packets: seq<Bytes>,
                left: seq<Option<Bytes>>, polls: seq<Option<Bytes>>)
    requires |start| == 48 && Sent(start, used, macKey, Concat(writes) + batch, packets) && Fit(packets)
    requires packets + Taken(left) == Taken(polls)
    requires left != [] && left[0].Some? && |left[0].value| > MAX_PACKET
    ensures !Fit(Taken(polls))
    ensures Stream(start, 0, macKey, NonEmpty(Sendable(Taken(polls)))) == Concat(writes) + batch
  {
    hide Stream, NonEmpty, Fit, Concat;
    TakeOne(left);
    assert packets + ([left[0].value] + Taken(left[1..])) == packets + [left[0].value] + Taken(left[1..]);
    SendableFit(packets, left[0].value, Taken(left[1..]));
  }

  // ---------- Receiving ----------

  /** The MAC test failed, or the stream ended inside or before the frame. */
  datatype Got = Packet(packet: Bytes) | Stopped(ending: Ending)

  /** What one turn of the receive loop makes of the bytes to come. */
  function OneFrame(start: Bytes, used: nat, macKey: Bytes, bytes: Bytes): Got
    requires |start| == 48
  {
    if |bytes| < 2 then Stopped(EndOfStream)
    else
      var count := FromLittleEndian16(Applied(start, used, bytes[..2]));
      if |bytes| < count + OVERHEAD then Stopped(EndOfStream)
      else
        var packet := Applied(start, used + 2, bytes[2..2 + count]);
        var mac := Applied(start, used + 2 + count, bytes[2 + count..count + OVERHEAD]);
        if MacOf(macKey, packet) != mac then Stopped(BadMac) else Packet(packet)
  }

  lemma ReceivedByFrames(start: Bytes, used: nat, macKey: Bytes, bytes: Bytes)
    requires |start| == 48
    ensures match OneFrame(start, used, macKey, bytes)
            case Stopped(ending) => Received(start, used, macKey, bytes) == ([], ending)
            case Packet(packet) =>
              && |bytes| >= |packet| + OVERHEAD
              && var rest := Received(start, used + |packet| + OVERHEAD, macKey, bytes[|packet| + OVERHEAD..]);
                 Received(start, used, macKey, bytes) == ([packet] + rest.0, rest.1)
  {
    hide Applied, MacOf, FromLittleEndian16;
  }

  /** A buffer of n bytes, filled from the stream and decrypted in place; None when the stream ends before. */
  method ReadDecrypted(reader: Reader, keystream: Keystream, n: nat) returns (plain: Option<Bytes>)
    requires keystream.Valid()
    modifies reader, keystream, keystream.g.state
    ensures keystream.Valid()
    ensures var bytes := old(reader.Rest());
            if |bytes| < n then plain == None
            else
              && plain == Some(Applied(keystream.start, old(keystream.used), bytes[..n]))
              && reader.Rest() == bytes[n..] && keystream.used == old(keystream.used) + n
  {
    hide Applied, Concat;
    var buffer := new byte[n];
    var full := reader.ReadExactly(buffer);
    if !full {
      return None;
    }
    keystream.Apply(buffer);
    plain := Some(buffer[..]);
  }

  // What is left of a frame once its length, or its length and packet, have been read.
  function AfterPacket(start: Bytes, used: nat, macKey: Bytes, packet: Bytes, bytes: Bytes): Got
    requires |start| == 48
  {
    if |bytes| < 16 then Stopped(EndOfStream)
    else if MacOf(macKey, packet) != Applied(start, used, bytes[..16]) then Stopped(BadMac)
    else Packet(packet)
  }

  function AfterLength(start: Bytes, used: nat, macKey: Bytes, count: nat, bytes: Bytes): Got
    requires |start| == 48
  {
    if |bytes| < count then Stopped(EndOfStream)
    else AfterPacket(start, used + count, macKey, Applied(start, used, bytes[..count]), bytes[count..])
  }

  lemma OneFrameInReads(start: Bytes, used: nat, macKey: Bytes, bytes: Bytes)
    requires |start| == 48
    ensures OneFrame(start, used, macKey, bytes)
            == if |bytes| < 2 then Stopped(EndOfStream)
               else AfterLength(start, used + 2, macKey, FromLittleEndian16(Applied(start, used, bytes[..2])),
                                bytes[2..])
  {
    hide Applied, MacOf, FromLittleEndian16;
    if |bytes| >= 2 {
      var count := FromLittleEndian16(Applied(start, used, bytes[..2]));
      if |bytes| >= count + OVERHEAD {
        assert bytes[2..][..count] == bytes[2..2 + count];
        assert bytes[2..][count..][..16] == bytes[2 + count..count + OVERHEAD];
      }
    }
  }

  /** Reads one frame: first its length. */
  method ReceiveFrame(reader: Reader, keystream: Keystream, macKey: Bytes) returns (got: Got)
    requires keystream.Valid()
    modifies reader, keystream, keystream.g.state
    ensures keystream.Valid()
    ensures got == OneFrame(keystream.start, old(keystream.used), macKey, old(reader.Rest()))
    ensures got.Packet? ==>
              && |old(reader.Rest())| >= |got.packet| + OVERHEAD
              && reader.Rest() == old(reader.Rest())[|got.packet| + OVERHEAD..]
              && keystream.used == old(keystream.used) + |got.packet| + OVERHEAD
  {
    hide Applied, FromLittleEndian16, Concat, OneFrame, AfterLength, Block;
    ghost var bytes := reader.Rest();
    OneFrameInReads(keystream.start, keystream.used, macKey, bytes);
    var length := ReadDecrypted(reader, keystream, 2);
    if length.None? {
      return Stopped(EndOfStream);
    }
    var count := FromLittleEndian16(length.value);
    got := ReceiveBody(reader, keystream, macKey, count);
    if got.Packet? {
      assert bytes[2..][count + 16..] == bytes[count + OVERHEAD..];
    }
  }

  /** Then its packet and its MAC. */
  method ReceiveBody(reader: Reader, keystream: Keystream, macKey: Bytes, count: nat) returns (got: Got)
    requires keystream.Valid()
    modifies reader, keystream, keystream.g.state
    ensures keystream.Valid()
    ensures got == AfterLength(keystream.start, old(keystream.used), macKey, count, old(reader.Rest()))
    ensures got.Packet? ==>
              && |got.packet| == count && |old(reader.Rest())| >= count + 16
              && reader.Rest() == old(reader.Rest())[count + 16..]
              && keystream.used == old(keystream.used) + count + 16
  {
    hide Applied, MacOf, Concat, Block, AfterPacket;
    ghost var bytes := reader.Rest();
    var packet := ReadDecrypted(reader, keystream, count);
    if packet.None? {
      return Stopped(EndOfStream);
    }
    got := ReceiveMac(reader, keystream, macKey, packet.value);
    if got.Packet? {
      assert bytes[count..][16..] == bytes[count + 16..];
    }
  }

  method ReceiveMac(reader: Reader, keystream: Keystream, macKey: Bytes, packet: Bytes) returns (got: Got)
    requires keystream.Valid()
    modifies reader, keystream, keystream.g.state
    ensures keystream.Valid()
    ensures got == AfterPacket(keystream.start, old(keystream.used), macKey, packet, old(reader.Rest()))
    ensures got.Packet? ==>
              && got.packet == packet && |old(reader.Rest())| >= 16
              && reader.Rest() == old(reader.Rest())[16..] && keystream.used == old(keystream.used) + 16
  {
    hide Applied, MacOf, Concat, Block;
    var mac := ReadDecrypted(reader, keystream, 16);
    if mac.None? {
      return Stopped(EndOfStream);
    }
    var expected := Multi([macKey, packet]);
    MacIs(macKey, packet, expected);
    got := if expected != mac.value then Stopped(BadMac) else Packet(packet);
  }

  /** LegacyTcp.ReceiveAsync: delivers until the stream ends or a MAC is wrong. */
  method Receive(reader: Reader, encKey: Bytes, macKey: Bytes) returns (delivered: seq<Bytes>, ending: Ending)
    modifies reader
    ensures (delivered, ending) == Received(KeyState(encKey), 0, macKey, old(reader.Rest()))
  {
    hide Received, KeyState, OneFrame, Concat;
    var keystream := new Keystream(encKey);
    delivered := [];
    ghost var all := Received(KeyState(encKey), 0, macKey, reader.Rest());
    assert [] + all.0 == all.0;
    while true
      invariant keystream.Valid() && keystream.start == KeyState(encKey)
      invariant fresh(keystream) && fresh(keystream.g.state)
      invariant var rest := Received(keystream.start, keystream.used, macKey, reader.Rest());
                all == (delivered + rest.0, rest.1)
      decreases |reader.Rest()|
    {
      ReceivedByFrames(keystream.start, keystream.used, macKey, reader.Rest());
      var got := ReceiveFrame(reader, keystream, macKey);
      match got {
        case Stopped(why) =>
          assert delivered + [] == delivered;
          return delivered, why;
        case Packet(packet) =>
          ghost var rest := Received(keystream.start, keystream.used, macKey, reader.Rest());
          assert delivered + ([packet] + rest.0) == (delivered + [packet]) + rest.0;
          delivered := delivered + [packet];
      }
    }
  }

  // ---------- The whole connection ----------

  /** keys.FirstOrDefault over the candidates. */
  method FindKey(candidates: seq<Bytes>, iv: Bytes, keyfinder: Bytes) returns (key: Option<Bytes>)
    ensures key == Find(candidates, iv, keyfinder)
  {
    hide Derive;
    var i := 0;
    assert candidates[0..] == candidates;
    while i < |candidates|
      invariant i <= |candidates|
      invariant Find(candidates[i..], iv, keyfinder) == Find(candidates, iv, keyfinder)
    {
      var expected := DeriveKey(candidates[i], iv, KEYFINDER);
      if expected == keyfinder {
        return Some(candidates[i]);
      }
      assert candidates[i..][1..] == candidates[i + 1..];
      i := i + 1;
    }
    key := None;
  }

  method DeriveKey(key: Bytes, iv: Bytes, purpose: Bytes) returns (derived: Bytes)
    ensures derived == Derive(key, iv, purpose)
  {
    derived := Multi([key, iv, purpose]);
  }

  /** Reads the peer's IV and keyfinder; the key is None when the stream is too short or no candidate matches. */
  method HearHello(candidates: seq<Bytes>, reader: Reader) returns (key: Option<Bytes>, iv: Bytes, close: Close)
    modifies reader
    ensures var bytes := old(reader.Rest());
            if |bytes| < 32 then key == None && close == NoHello
            else
              && iv == bytes[..16]
              && key == Find(candidates, bytes[..16], bytes[16..32])
              && (key.None? ==> close == WrongKey)
              && (key.Some? ==> reader.Rest() == bytes[32..])
  {
    hide Find, Concat;
    ghost var bytes := reader.Rest();
    close, iv := NoHello, [];
    var receiveIv := new byte[16];
    var full := reader.ReadExactly(receiveIv);
    if !full {
      return None, iv, close;
    }
    var keyfinder := new byte[16];
    full := reader.ReadExactly(keyfinder);
    if !full {
      return None, iv, close;
    }
    iv := receiveIv[..];
    assert keyfinder[..] == bytes[16..32];
    key := FindKey(candidates, iv, keyfinder[..]);
    close := WrongKey;
  }

  /**
   * LegacyTcp.RunAsync. An initiator says hello first and knows one key; a responder answers only a hello that one of
   * its keys matches, and with that key. `said` is all that was written: the hello and, once the peer's hello is known,
   * the batches of the send loop; `sending` holds the keys of that loop.
   */
  method Run(initiator: bool, keys: seq<Bytes>, sendIv: Bytes, polls: seq<Option<Bytes>>, reader: Reader)
    returns (said: Bytes, sending: Option<Keys>, delivered: seq<Bytes>, close: Close)
    requires (initiator ==> keys != []) && |sendIv| == 16
    modifies reader
    ensures var (candidates, bytes) := (if initiator then keys[..1] else keys, old(reader.Rest()));
            && (delivered, close) == Heard(candidates, bytes)
            && (sending.Some? <==> |bytes| >= 32 && Find(candidates, bytes[..16], bytes[16..32]).Some?)
            && (sending.Some? ==>
                  var key := Find(candidates, bytes[..16], bytes[16..32]).value;
                  && sending.value == KeysFor(key, sendIv)
                  && Hello(key, sendIv) <= said <= Said(key, sendIv, Sendable(Taken(polls)))
                  && (Fit(Taken(polls)) ==> said == Said(key, sendIv, Taken(polls))))
            && (sending.None? ==> said == if initiator then Hello(keys[0], sendIv) else [])
  {
    hide Find, Derive, Received, Concat, Fit, Sendable, Taken, Stream, NonEmpty, KeyState;
    var candidates := if initiator then keys[..1] else keys;
    said, sending, delivered := [], None, [];
    if initiator {
      var keyfinder := DeriveKey(keys[0], sendIv, KEYFINDER);
      said := sendIv + keyfinder;
    }
    var key, receiveIv;
    key, receiveIv, close := HearHello(candidates, reader);
    if key.None? {
      return;
    }
    if !initiator {
      var keyfinder := DeriveKey(key.value, sendIv, KEYFINDER);
      said := sendIv + keyfinder;
    }
    sending := Some(KeysFor(key.value, sendIv));
    var batches := WriteAll(key.value, sendIv, polls);
    said := said + batches;
    var ending;
    delivered, ending := Receive(reader, Derive(key.value, receiveIv, ENC_KEY), Derive(key.value, receiveIv, MAC_KEY));
    close := Ended(ending);
  }

  /** The batches of the send loop, one after the other. */
  method WriteAll(key: Bytes, iv: Bytes, polls: seq<Option<Bytes>>) returns (batches: Bytes)
    ensures Hello(key, iv) + batches <= Said(key, iv, Sendable(Taken(polls)))
    ensures Fit(Taken(polls)) ==> Hello(key, iv) + batches == Said(key, iv, Taken(polls))
  {
    hide NonEmpty, Sendable, Taken, Concat, KeysFor, Hello, Stream, KeyState, Fit;
    var keys := KeysFor(key, iv);
    var writes, refused := Send(polls, keys.enc, keys.mac);
    batches := Concat(writes);
  }
}
