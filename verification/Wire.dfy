/** Bytes, little-endian fields, the packet header and IP destinations, as both implementations read them. */
module Wire {
  type byte = bv8
  type Bytes = seq<byte>

  /** An IPv4 address is its 4 bytes and an IPv6 address its 16 bytes, so equality is equality of addresses. */
  type Address = Bytes

  datatype Option<+T> = None | Some(value: T)

  const HEADER := 9
  const FRESH_MILLIS := 180_000

  function StoreU64(v: bv64): (b: Bytes)
    ensures |b| == 8
  {
    [(v & 0xff) as byte, ((v >> 8) & 0xff) as byte, ((v >> 16) & 0xff) as byte, ((v >> 24) & 0xff) as byte,
     ((v >> 32) & 0xff) as byte, ((v >> 40) & 0xff) as byte, ((v >> 48) & 0xff) as byte, ((v >> 56) & 0xff) as byte]
  }

  function LoadU64(b: Bytes): bv64
    requires |b| >= 8
  {
    b[0] as bv64 | (b[1] as bv64 << 8) | (b[2] as bv64 << 16) | (b[3] as bv64 << 24)
    | (b[4] as bv64 << 32) | (b[5] as bv64 << 40) | (b[6] as bv64 << 48) | (b[7] as bv64 << 56)
  }

  lemma U64RoundTrip(v: bv64)
    ensures LoadU64(StoreU64(v)) == v
  {
  }

  /** Protocol.Packet: the 8-byte timestamp, the command, the payload. */
  function Packet(command: byte, payload: Bytes, stamp: bv64): (p: Bytes)
    ensures |p| == HEADER + |payload|
    ensures p[8] == command && p[HEADER..] == payload
    ensures Timestamp(p) == stamp as nat
  {
    var p := StoreU64(stamp) + [command] + payload;
    assert p[..8] == StoreU64(stamp);
    LoadPrefix(p);
    U64RoundTrip(stamp);
    p
  }

  lemma LoadPrefix(p: Bytes)
    requires |p| >= 8
    ensures LoadU64(p) == LoadU64(p[..8])
  {
  }

  function Timestamp(packet: Bytes): nat
    requires |packet| >= HEADER
  {
    LoadU64(packet) as nat
  }

  /** Protocol.Fresh: at most three minutes from the local clock, in either direction. */
  predicate Fresh(timestamp: nat, now: nat) {
    (if timestamp > now then timestamp - now else now - timestamp) <= FRESH_MILLIS
  }

  /** Protocol.Destination: an IPv4 header whose stated length fits, or an IPv6 header. */
  function Destination(ip: Bytes): (r: Option<Address>)
    ensures r.Some? ==> |r.value| == 4 || |r.value| == 16
  {
    if |ip| >= 20 && ip[0] >> 4 == 4 && ip[0] & 15 >= 5 && |ip| >= (ip[0] & 15) as int * 4 then Some(ip[16..20])
    else if |ip| >= 40 && ip[0] >> 4 == 6 then Some(ip[24..40])
    else None
  }

  /** The destination rule of the Rust packet loop, which reads the version nibble only. */
  function RustDestination(ip: Bytes): Option<Address> {
    if |ip| >= 20 && ip[0] >> 4 == 4 then Some(ip[16..20])
    else if |ip| >= 40 && ip[0] >> 4 == 6 then Some(ip[24..40])
    else None
  }

  // ---------- Facts about real bytes ----------

  /** Little-endian: the low byte first. */
  lemma LowByteFirst()
    ensures StoreU64(0x0807_0605_0403_0201) == [1, 2, 3, 4, 5, 6, 7, 8]
    ensures LoadU64([1, 2, 3, 4, 5, 6, 7, 8]) == 0x0807_0605_0403_0201
  {
  }

  /** Three minutes, the limit included, on both sides of the local clock. */
  lemma FreshIff(timestamp: nat, now: nat)
    ensures Fresh(timestamp, now) <==> now - 3 * 60 * 1000 <= timestamp <= now + 3 * 60 * 1000
  {
  }

  /** The two halves of the first byte of an IP packet: its version, and the 32-bit words of an IPv4 header. */
  function Version(first: byte): byte {
    first / 16
  }

  function HeaderWords(first: byte): byte {
    first % 16
  }

  lemma Halves(first: byte)
    ensures first >> 4 == Version(first) && first & 15 == HeaderWords(first)
  {
  }

  /**
   * The .NET program finds the destination after the first 16 bytes of a complete IPv4 header, options included, and
   * after the first 24 bytes of an IPv6 header, and nowhere else.
   */
  lemma DestinationIff(ip: Bytes, address: Address)
    ensures Destination(ip) == Some(address)
            <==> || (&& |ip| >= 20 && Version(ip[0]) == 4 && 5 <= HeaderWords(ip[0])
                     && |ip| >= 4 * HeaderWords(ip[0]) as nat && address == ip[16..20])
                 || (|ip| >= 40 && Version(ip[0]) == 6 && address == ip[24..40])
  {
    if ip != [] {
      Halves(ip[0]);
    }
  }

  /** So source and destination of a plain IPv4 or IPv6 packet are where they belong. */
  lemma PlainDestination(first: byte, head: Bytes, source: Address, target: Address, data: Bytes)
    requires (first == 0x45 && |head| == 11 && |source| == |target| == 4)
             || (first == 0x60 && |head| == 7 && |source| == |target| == 16)
    ensures var ip := [first] + head + source + target + data;
            Destination(ip) == Some(target) && RustDestination(ip) == Some(target)
  {
    var ip := [first] + head + source + target + data;
    assert first == 0x45 ==> ip[16..20] == target;
    assert first == 0x60 ==> ip[24..40] == target;
  }

  /** The Rust program takes what the .NET one takes, and IPv4 headers of any stated length. */
  lemma RustTakesMore(ip: Bytes)
    ensures Destination(ip).Some? ==> RustDestination(ip) == Destination(ip)
    ensures RustDestination(ip).Some? && Destination(ip).None? <==>
              && |ip| >= 20 && Version(ip[0]) == 4
              && (HeaderWords(ip[0]) < 5 || |ip| < 4 * HeaderWords(ip[0]) as nat)
  {
    if ip != [] {
      Halves(ip[0]);
    }
  }
}
