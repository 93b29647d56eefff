/** The send and receive loops of the Rust program: the same stream, byte for byte. */
module RustTcp {
  import opened Wire
  import opened Sponge
  import opened Session
  import opened Connection
  import opened LegacyTcp

  /**
   * Both sending tasks: one write for each non-empty packet. The length is cast to 16 bits; an empty packet comes from
   * the cleaner and is dropped.
   */
  method SendFrames(packets: seq<Bytes>, encKey: Bytes, macKey: Bytes) returns (writes: seq<Bytes>)
    ensures Concat(writes) == Stream(KeyState(encKey), 0, macKey, NonEmpty(packets))
    ensures |writes| == |NonEmpty(packets)|
  {
    hide Stream, NonEmpty, Frame, Applied, Concat, KeyState, Sent, Block;
    var keystream := new KeystreamGen(encKey);
    writes := [];
    SentNothing(keystream.start, macKey);
    ConcatNothing();
    NothingNonEmpty();
    assert packets[..0] == [];
    for i := 0 to |packets|
      invariant keystream.Valid() && keystream.start == KeyState(encKey)
      invariant fresh(keystream) && fresh(keystream.g.state)
      invariant Sent(keystream.start, keystream.used, macKey, Concat(writes), packets[..i])
      invariant |writes| == |NonEmpty(packets[..i])|
    {
      assert packets[..i + 1] == packets[..i] + [packets[i]];
      SentMore(keystream.start, keystream.used, macKey, Concat(writes), packets[..i], packets[i]);
      OneMoreNonEmpty(packets[..i], packets[i]);
      if packets[i] != [] {
        var frame := EncodeFrame(packets[i], macKey, keystream);
        ConcatMore(writes, frame);
        writes := writes + [frame];
      }
    }
    assert packets[..|packets|] == packets;
    SentAll(keystream.start, keystream.used, macKey, Concat(writes), packets);
  }

  lemma NothingNonEmpty()
    ensures NonEmpty([]) == []
  {
  }

  lemma OneMoreNonEmpty(packets: seq<Bytes>, packet: Bytes)
    ensures |NonEmpty(packets + [packet])| == |NonEmpty(packets)| + if packet == [] then 0 else 1
  {
    NonEmptyMore(packets, packet);
  }

  lemma SentAll(start: Bytes, used: nat, macKey: Bytes, out: Bytes, packets: seq<Bytes>)
    requires |start| == 48 && Sent(start, used, macKey, out, packets)
    ensures out == Stream(start, 0, macKey, NonEmpty(packets))
  {
  }

  method EncodeFrame(packet: Bytes, macKey: Bytes, keystream: KeystreamGen) returns (frame: Bytes)
    requires keystream.Valid()
    modifies keystream, keystream.g.state
    ensures keystream.Valid() && keystream.used == old(keystream.used) + |packet| + OVERHEAD
    ensures frame == Applied(keystream.start, old(keystream.used), Frame(macKey, packet))
  {
    hide Frame, Applied, MacOf, Block;
    var mac := MultiGimli2(macKey, packet);
    MacIs(macKey, packet, mac);
    var packetData := new byte[|packet| + OVERHEAD];
    WriteFrame(packetData, macKey, packet, mac);
    keystream.Apply(packetData);
    frame := packetData[..];
  }

  /**
   * A packet over 65535 bytes goes out with a shortened length, and the receiver reads that much of it and takes the
   * next 16 bytes for the MAC.
   */
  lemma LongFrameIsCut(start: Bytes, used: nat, macKey: Bytes, packet: Bytes, more: Bytes)
    requires |start| == 48 && |packet| > MAX_PACKET
    ensures var n := LengthField(packet);
            OneFrame(start, used, macKey, Applied(start, used, Frame(macKey, packet)) + more)
            == if MacOf(macKey, packet[..n]) == packet[n..n + 16] then Packet(packet[..n]) else Stopped(BadMac)
  {
    hide Applied, Frame, MacOf, LittleEndian16, FromLittleEndian16, LengthField;
    var (n, f) := (LengthField(packet), Frame(macKey, packet));
    var sent := Applied(start, used, f);
    var bytes := sent + more;
    FrameParts(macKey, packet);
    LengthRoundTrip(n);
    DecryptSlice(start, used, f, 0, 2);
    DecryptSlice(start, used, f, 2, 2 + n);
    DecryptSlice(start, used, f, 2 + n, n + OVERHEAD);
    assert bytes[..2] == sent[0..2];
    assert bytes[2..2 + n] == sent[2..2 + n];
    assert bytes[2 + n..n + OVERHEAD] == sent[2 + n..n + OVERHEAD];
    assert f[2..2 + n] == f[2..2 + |packet|][..n];
    assert f[2 + n..n + OVERHEAD] == f[2..2 + |packet|][n..n + 16];
  }

  /** So a frame is read back as the packet it carries exactly if the packet fits. */
  lemma FrameReadBackIff(start: Bytes, used: nat, macKey: Bytes, packet: Bytes, more: Bytes)
    requires |start| == 48
    ensures OneFrame(start, used, macKey, Applied(start, used, Frame(macKey, packet)) + more) == Packet(packet)
            <==> |packet| <= MAX_PACKET
  {
    hide Applied, Frame, MacOf, OneFrame, Received;
    var bytes := Applied(start, used, Frame(macKey, packet)) + more;
    if |packet| <= MAX_PACKET {
      OneFrameReceived(start, used, macKey, packet, more);
      ReceivedByFrames(start, used, macKey, bytes);
      assert Received(start, used, macKey, bytes).0[0] == packet;
    } else {
      LongFrameIsCut(start, used, macKey, packet, more);
    }
  }

  /** Fills a buffer from the stream and decrypts it byte after byte. */
  method ReadDecrypted(reader: Reader, keystream: KeystreamGen, n: nat) returns (plain: Option<Bytes>)
    requires keystream.Valid()
    modifies reader, keystream, keystream.g.state
    ensures keystream.Valid()
    ensures var bytes := old(reader.Rest());
            if |bytes| < n then plain == None
            else
              && plain == Some(Applied(keystream.start, old(keystream.used), bytes[..n]))
              && reader.Rest() == bytes[n..] && keystream.used == old(keystream.used) + n
  {
    hide Applied, Concat, Block;
    var buffer := new byte[n];
    var full := reader.ReadExactly(buffer);
    if !full {
      return None;
    }
    keystream.Apply(buffer);
    plain := Some(buffer[..]);
  }

  method ReceiveMac(reader: Reader, keystream: KeystreamGen, macKey: Bytes, data: Bytes) returns (got: Got)
    requires keystream.Valid()
    modifies reader, keystream, keystream.g.state
    ensures keystream.Valid()
    ensures got == AfterPacket(keystream.start, old(keystream.used), macKey, data, old(reader.Rest()))
    ensures got.Packet? ==>
              && got.packet == data && |old(reader.Rest())| >= 16
              && reader.Rest() == old(reader.Rest())[16..] && keystream.used == old(keystream.used) + 16
  {
    hide Applied, MacOf, Concat, Block;
    var mac := ReadDecrypted(reader, keystream, 16);
    if mac.None? {
      return Stopped(EndOfStream);
    }
    var expectedMac := MultiGimli2(macKey, data);
    MacIs(macKey, data, expectedMac);
    got := if expectedMac != mac.value then Stopped(BadMac) else Packet(data);
  }

  method ReceiveBody(reader: Reader, keystream: KeystreamGen, macKey: Bytes, len: nat) returns (got: Got)
    requires keystream.Valid()
    modifies reader, keystream, keystream.g.state
    ensures keystream.Valid()
    ensures got == AfterLength(keystream.start, old(keystream.used), macKey, len, old(reader.Rest()))
    ensures got.Packet? ==>
              && |got.packet| == len && |old(reader.Rest())| >= len + 16
              && reader.Rest() == old(reader.Rest())[len + 16..]
              && keystream.used == old(keystream.used) + len + 16
  {
    hide Applied, MacOf, Concat, Block, AfterPacket;
    ghost var bytes := reader.Rest();
    var data := ReadDecrypted(reader, keystream, len);
    if data.None? {
      return Stopped(EndOfStream);
    }
    got := ReceiveMac(reader, keystream, macKey, data.value);
    if got.Packet? {
      assert bytes[len..][16..] == bytes[len + 16..];
    }
  }

  method ReceiveFrame(reader: Reader, keystream: KeystreamGen, macKey: Bytes) returns (got: Got)
    requires keystream.Valid()
    modifies reader, keystream, keystream.g.state
    ensures keystream.Valid()
    ensures got == OneFrame(keystream.start, old(keystream.used), macKey, old(reader.Rest()))
    ensures got.Packet? ==>
              && |old(reader.Rest())| >= |got.packet| + OVERHEAD
              && reader.Rest() == old(reader.Rest())[|got.packet| + OVERHEAD..]
              && keystream.used == old(keystream.used) + |got.packet| + OVERHEAD
  {
    hide Applied, FromLittleEndian16, Concat, OneFrame, AfterLength, Block;
    ghost var bytes := reader.Rest();
    OneFrameInReads(keystream.start, keystream.used, macKey, bytes);
    var lenBuf := ReadDecrypted(reader, keystream, 2);
    if lenBuf.None? {
      return Stopped(EndOfStream);
    }
    got := ReceiveBody(reader, keystream, macKey, FromLittleEndian16(lenBuf.value));
    if got.Packet? {
      assert bytes[2..][|got.packet| + 16..] == bytes[|got.packet| + OVERHEAD..];
    }
  }

  /** Both receiving tasks. */
  method ReceiveFrames(reader: Reader, encKey: Bytes, macKey: Bytes) returns (delivered: seq<Bytes>, ending: Ending)
    modifies reader
    ensures (delivered, ending) == Received(KeyState(encKey), 0, macKey, old(reader.Rest()))
  {
    hide Received, KeyState, OneFrame, Concat;
    var keystream := new KeystreamGen(encKey);
    delivered := [];
    ghost var all := Received(KeyState(encKey), 0, macKey, reader.Rest());
    assert [] + all.0 == all.0;
    while true
      invariant keystream.Valid() && keystream.start == KeyState(encKey)
      invariant fresh(keystream) && fresh(keystream.g.state)
      invariant var rest := Received(keystream.start, keystream.used, macKey, reader.Rest());
                all == (delivered + rest.0, rest.1)
      decreases |reader.Rest()|
    {
      ReceivedByFrames(keystream.start, keystream.used, macKey, reader.Rest());
      var got := ReceiveFrame(reader, keystream, macKey);
      match got {
        case Stopped(why) =>
          assert delivered + [] == delivered;
          return delivered, why;
        case Packet(data) =>
          ghost var rest := Received(keystream.start, keystream.used, macKey, reader.Rest());
          assert delivered + ([data] + rest.0) == (delivered + [data]) + rest.0;
          delivered := delivered + [data];
      }
    }
  }

  // ---------- The whole connection ----------

  method DeriveKey3(key: Bytes, iv: Bytes, purpose: Bytes) returns (derived: Bytes)
    ensures derived == Derive(key, iv, purpose)
  {
    derived := MultiGimli3(key, iv, purpose);
  }

  /** The hello of a peer, IV and keyfinder; false when the stream ends before. */
  method ReadHello(reader: Reader) returns (full: bool, iv: Bytes, keyfinder: Bytes)
    modifies reader
    ensures full <==> |old(reader.Rest())| >= 32
    ensures full ==> iv == old(reader.Rest())[..16] && keyfinder == old(reader.Rest())[16..32]
    ensures full ==> reader.Rest() == old(reader.Rest())[32..]
  {
    hide Concat;
    ghost var bytes := reader.Rest();
    var ivBuf := new byte[16];
    var keyfinderBuf := new byte[16];
    full := reader.ReadExactly(ivBuf);
    if full {
      assert reader.Rest() == bytes[16..];
      full := reader.ReadExactly(keyfinderBuf);
    }
    iv, keyfinder := ivBuf[..], keyfinderBuf[..];
    assert full ==> bytes[16..][..16] == bytes[16..32] && bytes[16..][16..] == bytes[32..];
  }

  method WriteAllFrames(key: Bytes, iv: Bytes, packets: seq<Bytes>) returns (written: Bytes)
    ensures Hello(key, iv) + written == Said(key, iv, packets)
  {
    hide Derive, Stream, NonEmpty, Hello, Concat;
    var encKey := DeriveKey3(key, iv, ENC_KEY);
    var macKey := DeriveKey3(key, iv, MAC_KEY);
    var writes := SendFrames(packets, encKey, macKey);
    written := Concat(writes);
  }

  method WriteHello(key: Bytes, iv: Bytes) returns (hello: Bytes)
    ensures hello == Hello(key, iv)
  {
    var keyfinder := DeriveKey3(key, iv, KEYFINDER);
    hello := iv + keyfinder;
  }

  /** Once the peer's hello is known: the receiving task. */
  method ReceiveWith(key: Bytes, iv: Bytes, reader: Reader) returns (delivered: seq<Bytes>, close: Close)
    modifies reader
    ensures var keys := KeysFor(key, iv);
            var (packets, ending) := Received(KeyState(keys.enc), 0, keys.mac, old(reader.Rest()));
            delivered == packets && close == Ended(ending)
  {
    hide Derive, Received, Concat, KeyState;
    var encKey := DeriveKey3(key, iv, ENC_KEY);
    var macKey := DeriveKey3(key, iv, MAC_KEY);
    var ending;
    delivered, ending := ReceiveFrames(reader, encKey, macKey);
    close := Ended(ending);
  }

  /** connect_impl: the sending task starts right after the hello, before anything is known of the peer. */
  method Connect(key: Bytes, sendIv: Bytes, packets: seq<Bytes>, reader: Reader)
    returns (said: Bytes, delivered: seq<Bytes>, close: Close)
    requires |sendIv| == 16
    modifies reader
    ensures said == Said(key, sendIv, packets)
    ensures (delivered, close) == Heard([key], old(reader.Rest()))
  {
    hide Derive, Received, Concat, Said, KeysFor, KeyState;
    said := WriteHello(key, sendIv);
    var frames := WriteAllFrames(key, sendIv, packets);
    said := said + frames;
    ghost var bytes := reader.Rest();
    var full, recvIv, keyfinder := ReadHello(reader);
    if !full {
      return said, [], NoHello;
    }
    var expectedKeyfinder := DeriveKey3(key, recvIv, KEYFINDER);
    OnlyOne(key, recvIv, keyfinder);
    if expectedKeyfinder != keyfinder {
      return said, [], WrongKey;
    }
    delivered, close := ReceiveWith(key, recvIv, reader);
  }

  lemma OnlyOne(key: Bytes, iv: Bytes, keyfinder: Bytes)
    ensures Find([key], iv, keyfinder) == if Derive(key, iv, KEYFINDER) == keyfinder then Some(key) else None
  {
    hide Derive;
    assert [key][1..] == [];
  }

  /** handle_connection: the first key that matches the peer's hello is answered, with that key. */
  method HandleConnection(keys: seq<Bytes>, sendIv: Bytes, packets: seq<Bytes>, reader: Reader)
    returns (said: Bytes, foundKey: Option<Bytes>, delivered: seq<Bytes>, close: Close)
    requires |sendIv| == 16
    modifies reader
    ensures (delivered, close) == Heard(keys, old(reader.Rest()))
    ensures var bytes := old(reader.Rest());
            foundKey == if |bytes| < 32 then None else Find(keys, bytes[..16], bytes[16..32])
    ensures said == if foundKey.None? then [] else Said(foundKey.value, sendIv, packets)
  {
    hide Derive, Received, Concat, Said, KeysFor, KeyState;
    var full, incomingIv, keyfinder := ReadHello(reader);
    if !full {
      return [], None, [], NoHello;
    }
    foundKey := FindFirst(keys, incomingIv, keyfinder);
    if foundKey.None? {
      return [], None, [], WrongKey;
    }
    said := WriteHello(foundKey.value, sendIv);
    var frames := WriteAllFrames(foundKey.value, sendIv, packets);
    said := said + frames;
    delivered, close := ReceiveWith(foundKey.value, incomingIv, reader);
  }

  method FindFirst(keys: seq<Bytes>, iv: Bytes, keyfinder: Bytes) returns (foundKey: Option<Bytes>)
    ensures foundKey == Find(keys, iv, keyfinder)
  {
    hide Derive;
    foundKey := None;
    assert keys[0..] == keys;
    for i := 0 to |keys|
      invariant foundKey == None && Find(keys[i..], iv, keyfinder) == Find(keys, iv, keyfinder)
    {
      var expectedKeyfinder := DeriveKey3(keys[i], iv, KEYFINDER);
      if expectedKeyfinder == keyfinder {
        foundKey := Some(keys[i]);
        break;
      }
      assert keys[i..][1..] == keys[i + 1..];
    }
  }
}
