/** What one node does with one packet, as a function of its state: the packet loops of both implementations. */
module PacketStep {
  import opened Wire
  import opened RouteTable
  import opened SeenPackets

  const TRACE_TTL: byte := 32

  /** The hash of the duplicate cache, and the address of a node name (None when it is not valid UTF-8). */
  datatype Env = Env(fingerprint: Bytes -> bv64, resolve: Bytes -> Option<Address>)

  /** The clock reading of the freshness test, and the stamps of packets created while processing. */
  datatype Clock = Clock(now: nat, reply: bv64, forward: bv64)

  datatype Node<L(==)> = Node(
    impl: Impl, name: Bytes, owned: set<Address>, table: Table<L>, seen: Window<bv64>,
    hasTun: bool, written: seq<Bytes>, traces: map<Bytes, seq<(Bytes, byte)>>)

  /** A packet for every registered link, or for one link. */
  datatype Send<L> = All(packet: Bytes) | Via(link: L, packet: Bytes)

  datatype Message =
    | Tracer(address: Address)
    | FloodOnly
    | Data(destination: Address, ip: Bytes)
    | Probe
    | Reply
    | Ignored

  /** The address a packet announces: commands 0 (a name), 1 (IPv6) and 2 (IPv4). */
  function TracerOf(env: Env, packet: Bytes): Option<Address> {
    if |packet| < HEADER then None
    else if packet[8] == 0 then env.resolve(packet[HEADER..])
    else if (packet[8] == 1 && |packet| == HEADER + 16) || (packet[8] == 2 && |packet| == HEADER + 4)
      then Some(packet[HEADER..])
    else None
  }

  /** The two packet loops read the destination of an IP packet slightly differently. */
  function DestinationAt(impl: Impl, ip: Bytes): Option<Address> {
    if impl.Rust? then RustDestination(ip) else Destination(ip)
  }

  function Parse(impl: Impl, env: Env, packet: Bytes): Message
    requires |packet| >= HEADER
  {
    var (command, payload, tracer) := (packet[8], packet[HEADER..], TracerOf(env, packet));
    if tracer.Some? then Tracer(tracer.value)
    else if command == 0 && impl.Rust? then FloodOnly
    else if command == 3 then
      match DestinationAt(impl, payload)
      case Some(d) => Data(d, payload)
      case None => Ignored
    else if command == 4 && |payload| == 41 && impl.DotNet? then Probe
    else if command == 5 && |payload| > 9 && impl.DotNet? then Reply
    else Ignored
  }

  function SendTo<L(==)>(t: Table<L>, a: Address, packet: Bytes): seq<Send<L>> {
    if a in t.routes then [Via(t.routes[a].link, packet)] else []
  }

  // Probe payload: nonce (8), TTL (1), target (16), source (16).
  function Target(payload: Bytes): Address
    requires |payload| == 41
  {
    payload[9..25]
  }

  function Source(payload: Bytes): Address
    requires |payload| == 41
  {
    payload[25..41]
  }

  predicate MayHop(ttl: byte) {
    ttl > 1
  }

  predicate PassesOn<L(==)>(node: Node<L>, payload: Bytes)
    requires |payload| == 41
  {
    MayHop(payload[8]) && Target(payload) !in node.owned
  }

  function OneHopFewer(payload: Bytes): (r: Bytes)
    requires |payload| == 41
    ensures |r| == 41
  {
    payload[8 := payload[8] - 1]
  }

  /** Answers the tracing node, then passes the probe on with one hop less unless it ends here. */
  function HandleProbe<L(==)>(node: Node<L>, payload: Bytes, clock: Clock): seq<Send<L>>
    requires |payload| == 41
  {
    SendTo(node.table, Source(payload), Packet(5, payload[..9] + node.name, clock.reply))
    + if PassesOn(node, payload)
      then SendTo(node.table, Target(payload), Packet(4, OneHopFewer(payload), clock.forward))
      else []
  }

  /** What an accepted packet makes the node do. */
  function Act<L(==)>(env: Env, node: Node<L>, packet: Bytes, link: L, clock: Clock): (Node<L>, seq<Send<L>>)
    requires |packet| >= HEADER
  {
    var payload := packet[HEADER..];
    match Parse(node.impl, env, packet)
    case Tracer(a) =>
      (node.(table := node.table.Learn(node.impl, Timestamp(packet), a, link)), [All(packet)])
    case FloodOnly => (node, [All(packet)])
    case Data(d, ip) =>
      if d !in node.owned then (node, SendTo(node.table, d, packet))
      else if node.hasTun then (node.(written := node.written + [ip]), [])
      else (node, [])
    case Probe => (node, HandleProbe(node, payload, clock))
    case Reply =>
      var nonce := payload[..8];
      if nonce !in node.traces then (node, [])
      else (node.(traces := node.traces[nonce := node.traces[nonce] + [(payload[9..], payload[8])]]), [])
    case Ignored => (node, [])
  }

  /** Whether a packet passes the length, freshness and duplicate tests. */
  predicate Accepts<L(==)>(env: Env, node: Node<L>, packet: Bytes, clock: Clock) {
    |packet| >= HEADER && Fresh(Timestamp(packet), clock.now) && !node.seen.Has(env.fingerprint(packet))
  }

  function Process<L(==)>(env: Env, node: Node<L>, packet: Bytes, link: L, clock: Clock): (Node<L>, seq<Send<L>>) {
    if !Accepts(env, node, packet, clock) then (node, [])
    else Act(env, node.(seen := node.seen.Add(env.fingerprint(packet)).1), packet, link, clock)
  }

  /** The three ways to announce an address: a name that resolves to it, its 16 bytes, or its 4 bytes. */
  lemma AnnouncesIff(env: Env, packet: Bytes, a: Address)
    ensures TracerOf(env, packet) == Some(a)
            <==> && |packet| >= 9
                 && ((packet[8] == 0 && env.resolve(packet[9..]) == Some(a))
                     || (packet[8] == 1 && |a| == 16 && packet[9..] == a)
                     || (packet[8] == 2 && |a| == 4 && packet[9..] == a))
  {
  }

  /** A node takes notice of a packet exactly if it is long enough, within three minutes, and not in its cache. */
  lemma NoticedIff<L>(env: Env, node: Node<L>, packet: Bytes, link: L, clock: Clock)
    requires node.seen.capacity > 0
    ensures Process(env, node, packet, link, clock).0.seen != node.seen
            <==> && |packet| >= 9 && env.fingerprint(packet) !in node.seen.order
                 && clock.now - 180_000 <= LoadU64(packet) as nat <= clock.now + 180_000
    ensures Process(env, node, packet, link, clock).0.seen == node.seen ==>
              Process(env, node, packet, link, clock) == (node, [])
  {
    hide LoadU64, Parse, HandleProbe, Window.Add;
    var hash := env.fingerprint(packet);
    if hash !in node.seen.order {
      AddChanges(node.seen, hash);
    }
    ActLeavesCache(env, node.(seen := node.seen.Add(hash).1), packet, link, clock);
    hide Act;
  }

  lemma AddChanges(w: Window<bv64>, hash: bv64)
    requires w.capacity > 0 && hash !in w.order
    ensures w.Add(hash).1 != w
  {
    AddedIsKnown(w, hash);
  }

  lemma ActLeavesCache<L>(env: Env, node: Node<L>, packet: Bytes, link: L, clock: Clock)
    ensures |packet| >= HEADER ==> Act(env, node, packet, link, clock).0.seen == node.seen
  {
    hide LoadU64, Parse, HandleProbe;
  }

  /** A name that cannot be read is passed on by the Rust program and dropped by the .NET one; neither learns. */
  lemma UnreadableName<L>(env: Env, node: Node<L>, packet: Bytes, link: L, clock: Clock)
    requires Accepts(env, node, packet, clock) && packet[8] == 0 && env.resolve(packet[HEADER..]).None?
    ensures Process(env, node, packet, link, clock)
            == (node.(seen := node.seen.Add(env.fingerprint(packet)).1), if node.impl.Rust? then [All(packet)] else [])
  {
    hide Accepts, LoadU64;
  }

  /** Only announcements are flooded, unchanged; whatever goes to a single link announces nothing. */
  lemma SendsKeepKinds<L>(env: Env, node: Node<L>, packet: Bytes, link: L, clock: Clock, s: Send<L>)
    requires s in Process(env, node, packet, link, clock).1
    ensures Accepts(env, node, packet, clock)
    ensures s.All? ==> s.packet == packet && (packet[8] == 0 || TracerOf(env, packet).Some?)
    ensures s.Via? ==> TracerOf(env, s.packet).None?
    ensures s.Via? ==> exists a :: a in node.table.routes && s.link == node.table.routes[a].link
  {
    hide DestinationAt;
    hide Fresh;
    hide LoadU64;
    var accepting := node.(seen := node.seen.Add(env.fingerprint(packet)).1);
    assert s in Act(env, accepting, packet, link, clock).1;
    match Parse(node.impl, env, packet)
    case Tracer(_) =>
    case FloodOnly =>
    case Data(_, _) =>
    case Probe => ProbeSends(accepting, packet[HEADER..], clock, s, env);
    case Reply =>
    case Ignored =>
  }

  lemma ProbeSends<L>(node: Node<L>, payload: Bytes, clock: Clock, s: Send<L>, env: Env)
    requires |payload| == 41 && s in HandleProbe(node, payload, clock)
    ensures s.Via? && TracerOf(env, s.packet).None?
    ensures exists a :: a in node.table.routes && s.link == node.table.routes[a].link
  {
    hide LoadU64;
  }

  /**
   * Byte for byte: first the answer along the route to the source, with the nonce and the TTL as they came and the name
   * of the node; last, if the TTL is above 1 and the target is not here, the probe along the route to the target, with
   * the TTL lowered by one and nothing else changed.
   */
  lemma AnswerThenProbe<L>(node: Node<L>, payload: Bytes, clock: Clock)
    requires |payload| == 41
    ensures var (source, sends) := (payload[25..41], HandleProbe(node, payload, clock));
            source in node.table.routes ==>
              sends != [] && sends[0] == Via(node.table.routes[source].link,
                                             Packet(5, payload[..8] + [payload[8]] + node.name, clock.reply))
    ensures var (target, sends) := (payload[9..25], HandleProbe(node, payload, clock));
            payload[8] > 1 && target !in node.owned && target in node.table.routes ==>
              sends != [] && sends[|sends| - 1]
                             == Via(node.table.routes[target].link,
                                    Packet(4, payload[..8] + [payload[8] - 1] + payload[9..], clock.forward))
  {
    hide Packet;
    assert payload[..8] + [payload[8]] + node.name == payload[..9] + node.name;
    assert payload[..8] + [payload[8] - 1] + payload[9..] == OneHopFewer(payload);
  }

  /** Processing never changes who a node is or which links it has. */
  lemma ProcessKeepsIdentity<L>(env: Env, node: Node<L>, packet: Bytes, link: L, clock: Clock)
    ensures var n := Process(env, node, packet, link, clock).0;
            n.impl == node.impl && n.name == node.name && n.owned == node.owned && n.table.peers == node.table.peers
  {
    hide Parse;
    hide HandleProbe;
    hide Fresh;
    hide LoadU64;
  }
}
