/** The encrypted stream of one connection: the frames that travel, and what a receiver makes of any part of them. */
module Session {
  import opened Wire
  import opened Sponge

  const BUFFER_SIZE := 65_536
  const MAX_PACKET := 65_535
  const OVERHEAD := 18

  // ---------- What travels ----------

  function ToByte(n: nat): byte
    requires n < 256
  {
    n as byte
  }

  function FromByte(b: byte): (n: nat)
    ensures n < 256
  {
    b as nat
  }

  lemma RawByteRoundTrip(n: nat)
    requires n < 256
    ensures (n as byte) as nat == n
  {
    assert n % 256 == n;
  }

  lemma NumberRoundTrip(n: nat)
    requires n < 256
    ensures FromByte(ToByte(n)) == n
  {
    RawByteRoundTrip(n);
  }

  function LittleEndian16(n: nat): (b: Bytes)
    requires n <= MAX_PACKET
    ensures |b| == 2
  {
    [ToByte(n % 256), ToByte(n / 256)]
  }

  function FromLittleEndian16(b: Bytes): (n: nat)
    requires |b| == 2
    ensures n <= MAX_PACKET
  {
    FromByte(b[0]) + 256 * FromByte(b[1])
  }

  lemma LengthRoundTrip(n: nat)
    requires n <= MAX_PACKET
    ensures FromLittleEndian16(LittleEndian16(n)) == n
  {
    hide ToByte, FromByte;
    NumberRoundTrip(n % 256);
    NumberRoundTrip(n / 256);
  }

  /** The low byte first. */
  lemma LengthBytes(low: byte, high: byte)
    ensures FromLittleEndian16([low, high]) == low as nat + 256 * high as nat
    ensures LittleEndian16(0x0102) == [2, 1]
  {
    hide ToByte;
    TwoAndOne();
  }

  lemma TwoAndOne()
    ensures ToByte(1) == 1 && ToByte(2) == 2
  {
  }

  function MacOf(macKey: Bytes, packet: Bytes): (mac: Bytes)
    ensures |mac| == 16
  {
    MultiOf([macKey, packet])
  }

  /** What the 16-bit length field of a packet holds. */
  function LengthField(packet: Bytes): (n: nat)
    ensures n <= MAX_PACKET && n <= |packet| && (|packet| <= MAX_PACKET ==> n == |packet|)
    ensures |packet| > MAX_PACKET ==> n + MAX_PACKET < |packet|
  {
    |packet| % (MAX_PACKET + 1)
  }

  /** One frame before encryption. */
  function Frame(macKey: Bytes, packet: Bytes): (f: Bytes)
    ensures |f| == |packet| + OVERHEAD
  {
    LittleEndian16(LengthField(packet)) + packet + MacOf(macKey, packet)
  }

  predicate Fit(packets: seq<Bytes>) {
    forall p :: p in packets ==> |p| <= MAX_PACKET
  }

  function NonEmpty(packets: seq<Bytes>): (r: seq<Bytes>)
    ensures Fit(packets) ==> Fit(r)
  {
    if packets == [] then []
    else (if packets[0] == [] then [] else [packets[0]]) + NonEmpty(packets[1..])
  }

  function Frames(macKey: Bytes, packets: seq<Bytes>): Bytes
    decreases |packets|
  {
    if packets == [] then [] else Frame(macKey, packets[0]) + Frames(macKey, packets[1..])
  }

  /** The bytes a connection sends for a list of packets, from byte `used` of its keystream on. */
  function Stream(start: Bytes, used: nat, macKey: Bytes, packets: seq<Bytes>): Bytes
    requires |start| == 48
  {
    Applied(start, used, Frames(macKey, packets))
  }

  // ---------- What a receiver makes of a stream ----------

  datatype Ending =
    | EndOfStream    // no byte is left, or too few for what is being read
    | BadMac

  /** The packets delivered from the bytes of a stream, and why the loop stops. */
  function Received(start: Bytes, used: nat, macKey: Bytes, bytes: Bytes): (seq<Bytes>, Ending)
    requires |start| == 48
    decreases |bytes|
  {
    if |bytes| < 2 then ([], EndOfStream)
    else
      var count := FromLittleEndian16(Applied(start, used, bytes[..2]));
      if |bytes| < count + OVERHEAD then ([], EndOfStream)
      else
        var packet := Applied(start, used + 2, bytes[2..2 + count]);
        var mac := Applied(start, used + 2 + count, bytes[2 + count..count + OVERHEAD]);
        if MacOf(macKey, packet) != mac then ([], BadMac)
        else
          var rest := Received(start, used + count + OVERHEAD, macKey, bytes[count + OVERHEAD..]);
          ([packet] + rest.0, rest.1)
  }

  /** How many packets have their whole frame among the first k bytes. */
  function Complete(packets: seq<Bytes>, k: nat): (m: nat)
    ensures m <= |packets|
    decreases |packets|
  {
    if packets == [] || k < |packets[0]| + OVERHEAD then 0
    else 1 + Complete(packets[1..], k - |packets[0]| - OVERHEAD)
  }

  lemma {:induction false} AllComplete(macKey: Bytes, packets: seq<Bytes>)
    ensures Complete(packets, |Frames(macKey, packets)|) == |packets|
    decreases |packets|
  {
    hide Frame;
    if packets != [] {
      AllComplete(macKey, packets[1..]);
    }
  }

  lemma DecryptSlice(start: Bytes, used: nat, data: Bytes, i: nat, j: nat)
    requires |start| == 48 && i <= j <= |data|
    ensures Applied(start, used + i, Applied(start, used, data)[i..j]) == data[i..j]
  {
    hide Applied;
    assert data == data[..i] + data[i..j] + data[j..];
    AppliedConcat(start, used, data[..i] + data[i..j], data[j..]);
    AppliedConcat(start, used, data[..i], data[i..j]);
    var sent := Applied(start, used + i, data[i..j]);
    assert Applied(start, used, data)[i..j] == sent;
    AppliedTwice(start, used + i, data[i..j]);
  }

  lemma FrameParts(macKey: Bytes, packet: Bytes)
    ensures var f := Frame(macKey, packet);
            f[0..2] == LittleEndian16(LengthField(packet)) && f[2..2 + |packet|] == packet
                && f[2 + |packet|..] == MacOf(macKey, packet)
  {
    hide LittleEndian16, MacOf;
  }

  /** A receiver at the right place of the keystream reads one frame back. */
  lemma OneFrameReceived(start: Bytes, used: nat, macKey: Bytes, packet: Bytes, more: Bytes)
    requires |start| == 48 && |packet| <= MAX_PACKET
    ensures var sent := Applied(start, used, Frame(macKey, packet));
            var rest := Received(start, used + |packet| + OVERHEAD, macKey, more);
            Received(start, used, macKey, sent + more) == ([packet] + rest.0, rest.1)
  {
    hide Applied, Frame, MacOf, LittleEndian16, FromLittleEndian16;
    var f := Frame(macKey, packet);
    var sent := Applied(start, used, f);
    var bytes := sent + more;
    var n := |packet|;
    FrameParts(macKey, packet);
    LengthRoundTrip(n);
    DecryptSlice(start, used, f, 0, 2);
    DecryptSlice(start, used, f, 2, 2 + n);
    DecryptSlice(start, used, f, 2 + n, n + OVERHEAD);
    assert bytes[..2] == sent[0..2];
    assert bytes[2..2 + n] == sent[2..2 + n];
    assert bytes[2 + n..n + OVERHEAD] == sent[2 + n..n + OVERHEAD];
    assert f[2 + n..n + OVERHEAD] == f[2 + n..];
    assert bytes[n + OVERHEAD..] == more;
  }

  /** Whatever arrives in place of the MAC: the packet is delivered exactly if it is its MAC, and otherwise all ends. */
  lemma OnlyTheMacOpens(start: Bytes, used: nat, macKey: Bytes, packet: Bytes, mac: Bytes, more: Bytes)
    requires |start| == 48 && |packet| <= MAX_PACKET && |mac| == 16
    ensures var sent := Applied(start, used, LittleEndian16(|packet|) + packet + mac);
            var rest := Received(start, used + |packet| + OVERHEAD, macKey, more);
            Received(start, used, macKey, sent + more)
            == if mac == MacOf(macKey, packet) then ([packet] + rest.0, rest.1) else ([], BadMac)
  {
    hide Applied, MacOf, LittleEndian16, FromLittleEndian16;
    var f := LittleEndian16(|packet|) + packet + mac;
    var (sent, n) := (Applied(start, used, f), |packet|);
    var bytes := sent + more;
    LengthRoundTrip(n);
    DecryptSlice(start, used, f, 0, 2);
    DecryptSlice(start, used, f, 2, 2 + n);
    DecryptSlice(start, used, f, 2 + n, n + OVERHEAD);
    assert f[0..2] == LittleEndian16(n) && f[2..2 + n] == packet && f[2 + n..n + OVERHEAD] == mac;
    assert bytes[..2] == sent[0..2];
    assert bytes[2..2 + n] == sent[2..2 + n];
    assert bytes[2 + n..n + OVERHEAD] == sent[2 + n..n + OVERHEAD];
    assert bytes[n + OVERHEAD..] == more;
  }

  /** A cut frame is not delivered and raises no MAC failure. */
  lemma CutFrameWaits(start: Bytes, used: nat, macKey: Bytes, packet: Bytes, k: nat)
    requires |start| == 48 && |packet| <= MAX_PACKET && k < |packet| + OVERHEAD
    ensures Received(start, used, macKey, Applied(start, used, Frame(macKey, packet))[..k]) == ([], EndOfStream)
  {
    hide Applied, Frame, MacOf, LittleEndian16, FromLittleEndian16;
    var f := Frame(macKey, packet);
    var bytes := Applied(start, used, f)[..k];
    if k >= 2 {
      FrameParts(macKey, packet);
      LengthRoundTrip(|packet|);
      DecryptSlice(start, used, f, 0, 2);
      assert bytes[..2] == Applied(start, used, f)[0..2];
    }
  }

  lemma StreamStep(start: Bytes, used: nat, macKey: Bytes, packets: seq<Bytes>)
    requires |start| == 48 && packets != []
    ensures Stream(start, used, macKey, packets)
            == Applied(start, used, Frame(macKey, packets[0]))
               + Stream(start, used + |packets[0]| + OVERHEAD, macKey, packets[1..])
  {
    hide Applied, Frame;
    AppliedConcat(start, used, Frame(macKey, packets[0]), Frames(macKey, packets[1..]));
  }

  /**
   * Any prefix of a stream yields exactly the packets whose frames are complete in it, in order, and never a MAC
   * failure.
   */
  lemma {:induction false} PrefixYieldsPrefix(start: Bytes, used: nat, macKey: Bytes, packets: seq<Bytes>, k: nat)
    requires |start| == 48 && Fit(packets) && k <= |Stream(start, used, macKey, packets)|
    ensures Received(start, used, macKey, Stream(start, used, macKey, packets)[..k])
            == (packets[..Complete(packets, k)], EndOfStream)
    decreases |packets|
  {
    hide Applied, Frame, Received;
    if packets == [] {
      assert |Stream(start, used, macKey, packets)| == 0;
      NothingReceived(start, used, macKey);
    } else {
      StreamStep(start, used, macKey, packets);
      var sent := Applied(start, used, Frame(macKey, packets[0]));
      var rest := Stream(start, used + |sent|, macKey, packets[1..]);
      hide Stream;
      if k < |sent| {
        assert (sent + rest)[..k] == sent[..k];
        CutFrameWaits(start, used, macKey, packets[0], k);
      } else {
        assert (sent + rest)[..k] == sent + rest[..k - |sent|];
        OneFrameReceived(start, used, macKey, packets[0], rest[..k - |sent|]);
        PrefixYieldsPrefix(start, used + |sent|, macKey, packets[1..], k - |sent|);
        var m := Complete(packets[1..], k - |sent|);
        assert packets[..m + 1] == [packets[0]] + packets[1..][..m];
      }
    }
  }

  lemma NothingReceived(start: Bytes, used: nat, macKey: Bytes)
    requires |start| == 48
    ensures Received(start, used, macKey, []) == ([], EndOfStream)
  {
  }

  lemma {:induction false} FramesConcat(macKey: Bytes, a: seq<Bytes>, b: seq<Bytes>)
    ensures Frames(macKey, a + b) == Frames(macKey, a) + Frames(macKey, b)
    decreases |a|
  {
    hide Frame;
    if a == [] {
      assert a + b == b;
    } else {
      assert (a + b)[1..] == a[1..] + b;
      FramesConcat(macKey, a[1..], b);
    }
  }

  lemma {:induction false} NonEmptyConcat(a: seq<Bytes>, b: seq<Bytes>)
    ensures NonEmpty(a + b) == NonEmpty(a) + NonEmpty(b)
    decreases |a|
  {
    if a == [] {
      assert a + b == b;
    } else {
      assert (a + b)[0] == a[0] && (a + b)[1..] == a[1..] + b;
      NonEmptyConcat(a[1..], b);
    }
  }

  lemma FramesMore(macKey: Bytes, packets: seq<Bytes>, packet: Bytes)
    ensures Frames(macKey, packets + [packet]) == Frames(macKey, packets) + Frame(macKey, packet)
  {
    hide Frame;
    FramesConcat(macKey, packets, [packet]);
    assert [packet][1..] == [];
    assert Frames(macKey, [packet]) == Frame(macKey, packet) + [] == Frame(macKey, packet);
  }

  lemma NonEmptyMore(packets: seq<Bytes>, packet: Bytes)
    ensures NonEmpty(packets + [packet]) == if packet == [] then NonEmpty(packets) else NonEmpty(packets) + [packet]
  {
    NonEmptyConcat(packets, [packet]);
    assert NonEmpty([packet]) == if packet == [] then [] else [packet];
    hide NonEmpty;
    assert NonEmpty(packets) + [] == NonEmpty(packets);
  }

  /** One more packet adds its encrypted frame, or nothing when it is empty. */
  lemma StreamGrows(start: Bytes, macKey: Bytes, packets: seq<Bytes>, packet: Bytes)
    requires |start| == 48
    ensures var (sent, next) := (NonEmpty(packets), NonEmpty(packets + [packet]));
            Stream(start, 0, macKey, next)
            == Stream(start, 0, macKey, sent)
               + if packet == [] then [] else Applied(start, |Stream(start, 0, macKey, sent)|, Frame(macKey, packet))
  {
    hide Applied, Frame, Frames, NonEmpty;
    var sent := NonEmpty(packets);
    NonEmptyMore(packets, packet);
    if packet == [] {
      assert Stream(start, 0, macKey, sent) + [] == Stream(start, 0, macKey, sent);
    } else {
      FramesMore(macKey, sent, packet);
      AppliedConcat(start, 0, Frames(macKey, sent), Frame(macKey, packet));
    }
  }
}
