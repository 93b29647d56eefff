/** The packet loops of both programs, proved to take exactly the steps of the network model. */
module MeshNode {
  import opened Wire
  import opened RouteTable
  import opened PacketStep
  import opened Routing
  import opened SeenPackets

  class MeshNode {
    const env: Env
    const name: Bytes
    const ourAddresses: set<Address>
    const hasTun: bool
    const routing: Routing
    const seen: SeenPackets
    var written: seq<Bytes>
    var traces: map<Bytes, seq<(Bytes, byte)>>

    constructor (env: Env, name: Bytes, ourAddresses: set<Address>, hasTun: bool)
      ensures Valid() && routing.View() == Table({}, map[]) && seen.View().order == []
      ensures fresh(routing) && fresh(seen) && written == [] && traces == map[]
      ensures seen.capacity == 16_384
    {
      this.env, this.name, this.ourAddresses, this.hasTun := env, name, ourAddresses, hasTun;
      this.routing := new Routing();
      this.seen := new SeenPackets(env.fingerprint, 16_384);
      this.written, this.traces := [], map[];
    }

    ghost predicate Valid()
      reads this, routing, routing.peers, seen
    {
      routing.Valid() && seen.Valid() && seen.fingerprint == env.fingerprint
    }

    ghost function View(): Node<Peer>
      reads this, routing, seen
    {
      Node(DotNet, name, ourAddresses, routing.View(), seen.View(), hasTun, written, traces)
    }

    /** Replies to the tracing node, lowers the TTL in place, and passes the probe on. */
    method HandleProbe(payload: array<byte>, clock: Clock)
      requires Valid() && payload.Length == 41
      modifies payload, routing.peers`outgoing
      ensures Valid()
      ensures forall p :: p in routing.peers ==>
                p.outgoing == old(p.outgoing)
                              + Queued(PacketStep.HandleProbe(View(), old(payload[..]), clock), routing.peers, p)
    {
      ghost var arrived := payload[..];
      assert payload[25..41] == Source(arrived) && payload[..9] == arrived[..9];
      hide Packet;
      hide Queued;
      hide PassesOn;
      hide OneHopFewer;
      hide PacketStep.HandleProbe;
      ProbeQueues(View(), arrived, clock, routing.peers);
      routing.Send(payload[25..41], Packet(5, payload[..9] + name, clock.reply));
      PassOn(payload, clock);
    }

    method PassOn(payload: array<byte>, clock: Clock)
      requires Valid() && payload.Length == 41
      modifies payload, routing.peers`outgoing
      ensures Valid()
      ensures var arrived := old(payload[..]);
              forall p :: p in routing.peers ==>
                p.outgoing == old(p.outgoing)
                              + (if PassesOn(View(), arrived)
                                 then Queued(SendTo(routing.View(), Target(arrived),
                                                    Packet(4, OneHopFewer(arrived), clock.forward)),
                                             routing.peers, p)
                                 else [])
    {
      hide Packet;
      hide Queued;
      hide OneHopFewer;
      hide MayHop;
      ghost var arrived := payload[..];
      var target := payload[9..25];
      assert target == Target(arrived);
      if MayHop(payload[8]) && target !in ourAddresses {
        LowerTtl(payload);
        routing.Send(target, Packet(4, payload[..], clock.forward));
      }
    }

    static method LowerTtl(payload: array<byte>)
      requires payload.Length == 41
      modifies payload
      ensures payload[..] == OneHopFewer(old(payload[..]))
    {
      payload[8] := payload[8] - 1;
    }

    method ProcessPacket(packet: Bytes, peer: Peer, clock: Clock)
      requires Valid()
      modifies this, routing, seen, routing.peers`outgoing
      ensures Valid() && routing.peers == old(routing.peers)
      ensures View() == Process(env, old(View()), packet, peer, clock).0
      ensures forall p :: p in routing.peers ==>
                p.outgoing == old(p.outgoing) + Queued(Process(env, old(View()), packet, peer, clock).1, routing.peers,
                                                       p)
    {
      if |packet| < HEADER {
        return;
      }
      var timestamp := LoadU64(packet) as nat;
      if !Fresh(timestamp, clock.now) {
        return;
      }
      var duplicate := seen.Add(packet);
      if duplicate {
        return;
      }
      ActOn(packet, peer, clock);
    }

    /** The switch on the command of a fresh packet not seen before. */
    method ActOn(packet: Bytes, peer: Peer, clock: Clock)
      requires Valid() && |packet| >= HEADER
      modifies this, routing, routing.peers`outgoing
      ensures Valid() && routing.peers == old(routing.peers)
      ensures View() == Act(env, old(View()), packet, peer, clock).0
      ensures forall p :: p in routing.peers ==>
                p.outgoing == old(p.outgoing) + Queued(Act(env, old(View()), packet, peer, clock).1, routing.peers, p)
    {
      hide PacketStep.HandleProbe;
      hide Destination;
      hide RustDestination;
      hide LoadU64;
      hide SendTo;
      var (command, payload) := (packet[8], packet[HEADER..]);
      var address: Option<Address> := None;
      if command == 0 {
        address := env.resolve(payload);
      } else if (command == 1 && |payload| == 16) || (command == 2 && |payload| == 4) {
        address := Some(payload);
      } else if command == 3 {
        Forward(packet);
      } else if command == 4 && |payload| == 41 {
        var buffer := CopyOf(payload);
        HandleProbe(buffer, clock);
      } else if command == 5 && |payload| > 9 {
        Record(payload);
      }
      if address.Some? {
        routing.Learn(LoadU64(packet) as nat, address.value, peer);
        routing.Broadcast(packet);
      }
    }

    static method CopyOf(payload: Bytes) returns (buffer: array<byte>)
      ensures fresh(buffer) && buffer[..] == payload
    {
      buffer := new byte[|payload|](i requires 0 <= i < |payload| => payload[i]);
    }

    /** A reply to one of our traces: keep the name and the TTL it carries. */
    method Record(payload: Bytes)
      requires |payload| > 9
      modifies this`traces
      ensures traces == if payload[..8] !in old(traces) then old(traces)
                        else old(traces)[payload[..8] := old(traces)[payload[..8]] + [(payload[9..], payload[8])]]
    {
      var nonce := payload[..8];
      if nonce in traces {
        traces := traces[nonce := traces[nonce] + [(payload[9..], payload[8])]];
      }
    }

    /** A data packet: to the TUN of an owner, or along the route. */
    method Forward(packet: Bytes)
      requires Valid() && |packet| >= HEADER
      modifies this`written, routing.peers`outgoing
      ensures Valid()
      ensures var d := Destination(packet[HEADER..]);
              && written == old(written) + (if d.Some? && d.value in ourAddresses && hasTun
                                            then [packet[HEADER..]] else [])
              && forall p :: p in routing.peers ==>
                   p.outgoing == old(p.outgoing)
                                 + (if d.None? || d.value in ourAddresses then []
                                    else Queued(SendTo(routing.View(), d.value, packet), routing.peers, p))
    {
      var destination := Destination(packet[HEADER..]);
      if destination.None? {
        return;
      }
      if destination.value in ourAddresses {
        if hasTun {
          written := written + [packet[HEADER..]];
        }
      } else {
        routing.Send(destination.value, packet);
      }
    }
  }

  lemma ProbeQueues<L>(node: Node<L>, payload: Bytes, clock: Clock, peers: set<L>)
    requires |payload| == 41
    ensures forall p :: p in peers ==>
              Queued(HandleProbe(node, payload, clock), peers, p)
              == Queued(SendTo(node.table, Source(payload), Packet(5, payload[..9] + node.name, clock.reply)), peers, p)
                 + (if PassesOn(node, payload)
                    then Queued(SendTo(node.table, Target(payload), Packet(4, OneHopFewer(payload), clock.forward)),
                                peers, p)
                    else [])
  {
    hide Packet;
    hide PassesOn;
    hide OneHopFewer;
    forall p | p in peers {
      QueuedConcat(SendTo(node.table, Source(payload), Packet(5, payload[..9] + node.name, clock.reply)),
                   if PassesOn(node, payload)
                   then SendTo(node.table, Target(payload), Packet(4, OneHopFewer(payload), clock.forward))
                       else [], peers, p);
    }
  }

  lemma {:induction false} QueuedConcat<L>(a: seq<Send<L>>, b: seq<Send<L>>, peers: set<L>, p: L)
    ensures Queued(a + b, peers, p) == Queued(a, peers, p) + Queued(b, peers, p)
    decreases |a|
  {
    hide *;
    if a == [] {
      assert a + b == b;
      assert Queued(a, peers, p) == [] by { QueuedNothing(peers, p); }
    } else {
      assert (a + b)[0] == a[0] && (a + b)[1..] == a[1..] + b;
      QueuedConcat(a[1..], b, peers, p);
      QueuedStep(a, peers, p);
      QueuedStep(a + b, peers, p);
    }
  }

  lemma QueuedNothing<L>(peers: set<L>, p: L)
    ensures Queued([], peers, p) == []
  {
  }

  lemma QueuedStep<L>(sends: seq<Send<L>>, peers: set<L>, p: L)
    requires sends != []
    ensures Queued(sends, peers, p)
            == (if (if sends[0].All? then p in peers else p == sends[0].link) then [sends[0].packet] else [])
               + Queued(sends[1..], peers, p)
  {
  }

  // ---------- The Rust packet loop and its actor ----------

  /** What the Rust loop posts to the actor for a packet it acts on. */
  function Posts<L(==)>(env: Env, ourIps: set<Address>, packet: Bytes, link: L): seq<ActorMessage<L>>
    requires |packet| >= HEADER
  {
    match Parse(Rust, env, packet)
    case Tracer(a) => [AddFastestTo(Timestamp(packet), a, link), SendToAll(packet)]
    case FloodOnly => [SendToAll(packet)]
    case Data(d, _) => if d in ourIps then [] else [SendToFastest(d, packet)]
    case _ => []
  }

  lemma ActorRunOne<L>(t: Table<L>, m: ActorMessage<L>)
    ensures ActorRun(t, [m]) == ActorStep(t, m)
  {
    var one := [m];
    assert one[1..] == [];
    var (after, sends) := ActorStep(t, m);
    assert sends + [] == sends;
    assert ActorRun(after, one[1..]) == (after, []);
  }

  lemma ActorRunTwo<L>(t: Table<L>, m: ActorMessage<L>, n: ActorMessage<L>)
    ensures var first := ActorStep(t, m);
            var second := ActorStep(first.0, n);
            ActorRun(t, [m, n]) == (second.0, first.1 + second.1)
  {
    assert [m, n][1..] == [n];
    ActorRunOne(ActorStep(t, m).0, n);
  }

  /** The loop followed by the actor working off its mailbox is the node step of the network model. */
  lemma RustLoopThenActorIsProcess<L>(env: Env, node: Node<L>, packet: Bytes, link: L, clock: Clock)
    requires node.impl.Rust? && Accepts(env, node, packet, clock)
    ensures var (after, sends) := Process(env, node, packet, link, clock);
            && (after.table, sends) == ActorRun(node.table, Posts(env, node.owned, packet, link))
            && after.seen == node.seen.Add(env.fingerprint(packet)).1
  {
    hide DestinationAt;
    hide LoadU64;
    hide Fresh;
    hide ActorRun;
    var t := node.table;
    match Parse(Rust, env, packet)
    case Tracer(a) =>
      var learn := AddFastestTo(Timestamp(packet), a, link);
      ActorRunTwo(t, learn, SendToAll(packet));
      assert ActorStep(t, learn).1 + [All(packet)] == [All(packet)];
    case FloodOnly =>
      ActorRunOne(t, SendToAll(packet));
    case Data(d, _) =>
      if d !in node.owned {
        ActorRunOne(t, SendToFastest(d, packet));
      } else {
        NothingPosted(t);
      }
    case _ =>
      NothingPosted(t);
  }

  lemma NothingPosted<L>(t: Table<L>)
    ensures ActorRun(t, []) == (t, [])
  {
  }

  /** The Rust loop indexes IP data without a length test: on shorter data it panics. */
  predicate LongEnough(packet: Bytes) {
    |packet| >= HEADER && packet[8] == 3 ==>
      var payload := packet[HEADER..];
      && |payload| > 0
      && (payload[0] >> 4 == 4 ==> |payload| >= 20)
      && (payload[0] >> 4 == 6 ==> |payload| >= 40)
  }

  /**
   * So it panics on no data, on IPv4 data shorter than a header without options, and on IPv6 data shorter than a
   * header; and on nothing that has a destination for either program.
   */
  lemma TooShortIff(packet: Bytes)
    requires |packet| >= HEADER && packet[8] == 3
    ensures var ip := packet[HEADER..];
            && (!LongEnough(packet) <==> || ip == [] || (Version(ip[0]) == 4 && |ip| < 20)
                                         || (Version(ip[0]) == 6 && |ip| < 40))
            && (RustDestination(ip).Some? || Destination(ip).Some? ==> LongEnough(packet))
  {
    if packet[HEADER..] != [] {
      Halves(packet[HEADER..][0]);
    }
  }

  class RustNode {
    const env: Env
    const ourIps: set<Address>
    const hasTun: bool
    const seen: SeenPackets
    var written: seq<Bytes>
    var mailbox: seq<ActorMessage<Peer>>

    constructor (env: Env, ourIps: set<Address>, hasTun: bool)
      ensures Valid() && seen.View().order == [] && fresh(seen) && written == [] && mailbox == []
      ensures seen.capacity == 16_384
    {
      this.env, this.ourIps, this.hasTun := env, ourIps, hasTun;
      this.seen := new SeenPackets(env.fingerprint, 16_384);
      this.written, this.mailbox := [], [];
    }

    ghost predicate Valid()
      reads this, seen
    {
      seen.Valid() && seen.fingerprint == env.fingerprint
    }

    /** The node as the network model sees it, with the table the actor holds. */
    ghost function View(table: Table<Peer>, name: Bytes): Node<Peer>
      reads this, seen
    {
      Node(Rust, name, ourIps, table, seen.View(), hasTun, written, map[])
    }

    /** One turn of the packet loop. It panics exactly on fresh, unseen IP data that is too short. */
    method ProcessPacket(data: Bytes, sender: Peer, clock: Clock, ghost table: Table<Peer>, ghost name: Bytes)
      returns (panics: bool)
      requires Valid()
      modifies this, seen
      ensures Valid()
      ensures panics <==> Accepts(env, old(View(table, name)), data, clock) && !LongEnough(data)
      ensures var (was, now) := (old(View(table, name)), View(table, name));
              var after := Process(env, was, data, sender, clock).0;
              && now.seen == after.seen && now.written == after.written
              && mailbox == old(mailbox) + (if Accepts(env, was, data, clock)
                                            then Posts(env, ourIps, data, sender) else [])
    {
      hide LoadU64;
      if |data| < HEADER {
        return false;
      }
      if !Fresh(LoadU64(data) as nat, clock.now) {
        return false;
      }
      var duplicate := seen.Add(data);
      if duplicate {
        return false;
      }
      panics := React(data, sender, clock, table, name);
    }

    method React(data: Bytes, sender: Peer, clock: Clock, ghost table: Table<Peer>, ghost name: Bytes)
      returns (panics: bool)
      requires Valid() && |data| >= HEADER
      modifies this`written, this`mailbox
      ensures panics <==> !LongEnough(data)
      ensures written == Act(env, old(View(table, name)), data, sender, clock).0.written
      ensures mailbox == old(mailbox) + Posts(env, ourIps, data, sender)
    {
      hide LoadU64;
      var (cmd, payload) := (data[8], data[HEADER..]);
      panics := false;
      var addr := if cmd == 0 then env.resolve(payload)
                  else if (cmd == 1 && |payload| == 16) || (cmd == 2 && |payload| == 4) then Some(payload) else None;
      if addr.Some? {
        mailbox := mailbox + [AddFastestTo(LoadU64(data) as nat, addr.value, sender)] + [SendToAll(data)];
      } else if cmd == 0 {
        mailbox := mailbox + [SendToAll(data)];
      } else if cmd == 3 {
        panics := Deliver(data);
      }
    }

    method Deliver(data: Bytes) returns (panics: bool)
      requires |data| >= HEADER && data[8] == 3
      modifies this`written, this`mailbox
      ensures panics <==> !LongEnough(data)
      ensures var d := RustDestination(data[HEADER..]);
              && written == old(written) + (if d.Some? && d.value in ourIps && hasTun then [data[HEADER..]] else [])
              && mailbox == old(mailbox) + (if d.Some? && d.value !in ourIps
                                            then [SendToFastest(d.value, data)] else [])
    {
      var payload := data[HEADER..];
      if payload == [] {
        return true;
      }
      var version := payload[0] >> 4;
      if version != 4 && version != 6 {
        return false;
      }
      if |payload| < (if version == 4 then 20 else 40) {
        return true;
      }
      var target := if version == 4 then payload[16..20] else payload[24..40];
      if target !in ourIps {
        mailbox := mailbox + [SendToFastest(target, data)];
      } else if hasTun {
        written := written + [payload];
      }
      panics := false;
    }
  }
}
