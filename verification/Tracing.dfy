/** Probes of a trace: at most 32 deliveries, whatever the routes do. */
module Tracing {
  import opened Wire
  import opened RouteTable
  import opened PacketStep
  import opened Network
  import opened Sums

  predicate IsProbe(packet: Bytes, nonce: Bytes) {
    |packet| == HEADER + 41 && packet[8] == 4 && packet[9..17] == nonce
  }

  /** The nodes a message may still visit, if it is a probe with this nonce: even a spent one is delivered once. */
  function HopsOf(packet: Bytes, nonce: Bytes): nat {
    if IsProbe(packet, nonce) then More(packet[17]) else 0
  }

  function More(ttl: byte): nat {
    if ttl == 0 then 1 else ttl as nat
  }

  /** The visits left after this one. */
  function Fewer(ttl: byte): nat {
    More(ttl) - 1
  }

  function Hops(nonce: Bytes): Msg -> nat {
    (m: Msg) => HopsOf(m.packet, nonce)
  }

  ghost function HopsLeft(s: Net, nonce: Bytes): nat {
    Sum(s.flight, Hops(nonce))
  }

  /** Deliveries of probes with this nonce. */
  function Visits(steps: seq<Step>, nonce: Bytes): nat {
    if steps == [] then 0
    else (if steps[0].Deliver? && IsProbe(steps[0].m.packet, nonce) then 1 else 0) + Visits(steps[1..], nonce)
  }

  function TracesStarted(steps: seq<Step>, nonce: Bytes): nat {
    if steps == [] then 0
    else (if steps[0].Trace? && steps[0].nonce == nonce then 1 else 0) + TracesStarted(steps[1..], nonce)
  }

  // ---------- At most 32 visits ----------

  lemma ByteDown(b: byte)
    requires b > 1
    ensures More(b - 1) == Fewer(b)
  {
  }

  lemma ToOneHops(t: Table<End>, a: Address, packet: Bytes, rest: seq<Send<End>>, peers: set<End>, nonce: Bytes)
    ensures Sum(Emitted(peers, SendTo(t, a, packet) + rest), Hops(nonce))
            <= HopsOf(packet, nonce) + Sum(Emitted(peers, rest), Hops(nonce))
  {
    hide HopsOf;
    if a in t.routes {
      var (m, sends) := (Msg(t.routes[a].link, packet), SendTo(t, a, packet) + rest);
      assert sends[1..] == rest;
      SumOne(m, Hops(nonce));
      SumUnion(multiset{m}, Emitted(peers, rest), Hops(nonce));
    } else {
      assert SendTo(t, a, packet) + rest == rest;
    }
  }

  lemma HopsOfPacket(command: byte, payload: Bytes, stamp: bv64, nonce: Bytes)
    ensures command != 4 ==> HopsOf(Packet(command, payload, stamp), nonce) == 0
    ensures command == 4 && |payload| == 41 && payload[..8] != nonce ==>
            HopsOf(Packet(command, payload, stamp), nonce) == 0
    ensures command == 4 && |payload| == 41 && payload[..8] == nonce ==>
              HopsOf(Packet(command, payload, stamp), nonce) == More(payload[8])
  {
    var packet := Packet(command, payload, stamp);
    hide Packet;
    if |payload| == 41 {
      assert packet[17] == packet[HEADER..][8] && packet[9..17] == packet[HEADER..][..8];
    }
  }

  lemma OneHopLess(payload: Bytes, stamp: bv64, nonce: Bytes)
    requires |payload| == 41 && payload[8] > 1
    ensures HopsOf(Packet(4, OneHopFewer(payload), stamp), nonce)
            == if payload[..8] == nonce then Fewer(payload[8]) else 0
  {
    HopsOfPacket(4, OneHopFewer(payload), stamp, nonce);
    hide Packet;
    hide HopsOf;
    assert OneHopFewer(payload)[..8] == payload[..8];
    ByteDown(payload[8]);
  }

  /** What a node sends on behalf of a probe has fewer hops left than the probe had. */
  lemma ProbeHops(node: Node<End>, payload: Bytes, clock: Clock, peers: set<End>, nonce: Bytes)
    requires |payload| == 41
    ensures Sum(Emitted(peers, HandleProbe(node, payload, clock)), Hops(nonce))
            <= if payload[..8] == nonce then Fewer(payload[8]) else 0
  {
    hide LoadU64;
    hide StoreU64;
    hide HopsOf;
    hide Emitted;
    hide Fewer;
    HopsOfPacket(5, payload[..9] + node.name, clock.reply, nonce);
    if PassesOn(node, payload) {
      ForwardHops(node.table, payload, clock.forward, peers, nonce);
      TwoSends(node.table, Source(payload), Packet(5, payload[..9] + node.name, clock.reply),
               SendTo(node.table, Target(payload), Packet(4, OneHopFewer(payload), clock.forward)),
               if payload[..8] == nonce then Fewer(payload[8]) else 0, peers, nonce);
    } else {
      TwoSends(node.table, Source(payload), Packet(5, payload[..9] + node.name, clock.reply), [], 0, peers, nonce) by {
        NothingSent(peers, nonce);
      }
    }
  }

  lemma ForwardHops(t: Table<End>, payload: Bytes, stamp: bv64, peers: set<End>, nonce: Bytes)
    requires |payload| == 41 && payload[8] > 1
    ensures Sum(Emitted(peers, SendTo(t, Target(payload), Packet(4, OneHopFewer(payload), stamp))), Hops(nonce))
            <= if payload[..8] == nonce then Fewer(payload[8]) else 0
  {
    var forward := Packet(4, OneHopFewer(payload), stamp);
    OneHopLess(payload, stamp, nonce);
    hide Packet;
    hide HopsOf;
    hide Fewer;
    TwoSends(t, Target(payload), forward, [], 0, peers, nonce);
    assert SendTo(t, Target(payload), forward) + [] == SendTo(t, Target(payload), forward);
  }

  lemma TwoSends(t: Table<End>, a: Address, packet: Bytes, rest: seq<Send<End>>, bound: nat, peers: set<End>,
                 nonce: Bytes)
    requires Sum(Emitted(peers, rest), Hops(nonce)) <= bound
    ensures Sum(Emitted(peers, SendTo(t, a, packet) + rest), Hops(nonce)) <= HopsOf(packet, nonce) + bound
  {
    ToOneHops(t, a, packet, rest, peers, nonce);
  }

  lemma NothingSent(peers: set<End>, nonce: Bytes)
    ensures Sum(Emitted(peers, []), Hops(nonce)) == 0
  {
  }

  /** Other packets cause no probe at all. */
  lemma OtherHops(env: Env, node: Node<End>, packet: Bytes, link: End, clock: Clock, peers: set<End>, nonce: Bytes)
    requires !(|packet| == HEADER + 41 && packet[8] == 4)
    ensures Sum(Emitted(peers, Process(env, node, packet, link, clock).1), Hops(nonce)) == 0
  {
    var sends := Process(env, node, packet, link, clock).1;
    forall m | m in Emitted(peers, sends) ensures Hops(nonce)(m) == 0 {
      EmittedFrom(peers, sends, m);
      if All(m.packet) in sends {
        SendsKeepKinds(env, node, packet, link, clock, All(m.packet));
      } else {
        SendsKeepKinds(env, node, packet, link, clock, Via(m.via, m.packet));
        ViaSameCommand(env, node, packet, link, clock, Via(m.via, m.packet));
      }
    }
    hide Process;
    hide Hops;
    SumZero(Emitted(peers, sends), Hops(nonce));
  }

  lemma ViaSameCommand(env: Env, node: Node<End>, packet: Bytes, link: End, clock: Clock, s: Send<End>)
    requires !(|packet| == HEADER + 41 && packet[8] == 4) && s in Process(env, node, packet, link, clock).1
    ensures s.packet == packet
  {
    hide DestinationAt;
    hide Fresh;
    hide LoadU64;
  }

  /** A node drops a probe, or handles it. */
  lemma ProbeOrNothing(env: Env, node: Node<End>, packet: Bytes, link: End, clock: Clock)
    requires |packet| == HEADER + 41 && packet[8] == 4
    ensures Process(env, node, packet, link, clock).1 == []
            || exists n :: Process(env, node, packet, link, clock).1 == HandleProbe(n, packet[HEADER..], clock)
  {
    hide HandleProbe;
    hide DestinationAt;
    hide Fresh;
    hide LoadU64;
    var accepting := node.(seen := node.seen.Add(env.fingerprint(packet)).1);
    assert Process(env, node, packet, link, clock).1 == []
           || Process(env, node, packet, link, clock).1 == HandleProbe(accepting, packet[HEADER..], clock);
  }

  lemma DeliveryHops(env: Env, node: Node<End>, packet: Bytes, link: End, clock: Clock, peers: set<End>, nonce: Bytes)
    ensures Sum(Emitted(peers, Process(env, node, packet, link, clock).1), Hops(nonce))
            + (if IsProbe(packet, nonce) then 1 else 0) <= HopsOf(packet, nonce)
  {
    if |packet| == HEADER + 41 && packet[8] == 4 {
      var payload := packet[HEADER..];
      assert payload[..8] == packet[9..17] && payload[8] == packet[17];
      ProbeOrNothing(env, node, packet, link, clock);
      hide Process;
      NothingSent(peers, nonce);
      if Process(env, node, packet, link, clock).1 != [] {
        var n :| Process(env, node, packet, link, clock).1 == HandleProbe(n, payload, clock);
        hide Emitted;
        hide HandleProbe;
        ProbeHops(n, payload, clock, peers, nonce);
      }
    } else {
      OtherHops(env, node, packet, link, clock, peers, nonce);
    }
  }

  lemma StartHops(nonce: Bytes, target: Address, source: Address, stamp: bv64, other: Bytes)
    requires |nonce| == 8 && |target| == 16 && |source| == 16
    ensures HopsOf(Packet(4, TracePayload(nonce, target, source), stamp), other) == if nonce == other then 32 else 0
  {
    var payload := TracePayload(nonce, target, source);
    assert payload[..8] == nonce && payload[8] == TRACE_TTL;
    HopsOfPacket(4, payload, stamp, other);
  }

  lemma AddsHops(s: Net, s': Net, extra: multiset<Msg>, nonce: Bytes)
    requires s'.flight == s.flight + extra
    ensures HopsLeft(s', nonce) == HopsLeft(s, nonce) + Sum(extra, Hops(nonce))
  {
    SumUnion(s.flight, extra, Hops(nonce));
  }

  lemma OriginatedHops(t: Table<End>, a: Address, packet: Bytes, nonce: Bytes)
    ensures Sum(Emitted({}, SendTo(t, a, packet)), Hops(nonce)) <= HopsOf(packet, nonce)
  {
    TwoSends(t, a, packet, [], 0, {}, nonce);
    assert SendTo(t, a, packet) + [] == SendTo(t, a, packet);
  }

  lemma AnnouncedHops(env: Env, node: Node<End>, command: byte, payload: Bytes, stamp: bv64, peers: set<End>,
                      nonce: Bytes)
    requires OwnAnnouncement(env, node, command, payload)
    ensures Sum(ToAll(peers, Packet(command, payload, stamp)), Hops(nonce)) == 0
  {
    HopsOfPacket(command, payload, stamp, nonce);
    hide HopsOf;
    hide Packet;
    SumZero(ToAll(peers, Packet(command, payload, stamp)), Hops(nonce));
  }

  lemma DeliverSpendsHops(env: Env, s: Net, m: Msg, clock: Clock, nonce: Bytes)
    requires Enabled(env, s, Deliver(m, clock))
    ensures HopsLeft(Apply(env, s, Deliver(m, clock)), nonce) + (if IsProbe(m.packet, nonce) then 1 else 0)
            <= HopsLeft(s, nonce)
  {
    var (node, rest) := (s.nodes[m.via.to], s.(flight := s.flight - multiset{m}));
    var sends := Process(env, node, m.packet, Twin(m.via), clock).1;
    SumRemove(s.flight, Hops(nonce), m);
    AddsHops(rest, Apply(env, s, Deliver(m, clock)), Emitted(node.table.peers, sends), nonce);
    DeliveryHops(env, node, m.packet, Twin(m.via), clock, node.table.peers, nonce);
    hide Process;
    hide HopsOf;
    hide IsProbe;
    assert Hops(nonce)(m) == HopsOf(m.packet, nonce);
  }

  lemma LoseHops(env: Env, s: Net, m: Msg, nonce: Bytes)
    requires Enabled(env, s, Lose(m))
    ensures HopsLeft(Apply(env, s, Lose(m)), nonce) <= HopsLeft(s, nonce)
  {
    hide Hops;
    SumRemove(s.flight, Hops(nonce), m);
  }

  lemma AnnounceHops(env: Env, s: Net, n: nat, command: byte, payload: Bytes, stamp: bv64, nonce: Bytes)
    requires Enabled(env, s, Announce(n, command, payload, stamp))
    ensures HopsLeft(Apply(env, s, Announce(n, command, payload, stamp)), nonce) == HopsLeft(s, nonce)
  {
    hide Packet, Hops, ToAll, HopsLeft, OwnAnnouncement;
    var extra := ToAll(s.nodes[n].table.peers, Packet(command, payload, stamp));
    AnnouncedHops(env, s.nodes[n], command, payload, stamp, s.nodes[n].table.peers, nonce);
    AddsHops(s, Apply(env, s, Announce(n, command, payload, stamp)), extra, nonce);
  }

  lemma FromTunHops(env: Env, s: Net, n: nat, ip: Bytes, stamp: bv64, nonce: Bytes)
    requires Enabled(env, s, FromTun(n, ip, stamp))
    ensures HopsLeft(Apply(env, s, FromTun(n, ip, stamp)), nonce) == HopsLeft(s, nonce)
  {
    hide Packet, Hops, HopsOf, SendTo, Emitted, HopsLeft, DestinationAt;
    var (t, a, packet) := (s.nodes[n].table, DestinationAt(s.nodes[n].impl, ip).value, Packet(3, ip, stamp));
    HopsOfPacket(3, ip, stamp, nonce);
    OriginatedHops(t, a, packet, nonce);
    AddsHops(s, Apply(env, s, FromTun(n, ip, stamp)), Emitted({}, SendTo(t, a, packet)), nonce);
  }

  lemma TraceHops(env: Env, s: Net, step: Step, nonce: Bytes)
    requires step.Trace? && Enabled(env, s, step)
    ensures HopsLeft(Apply(env, s, step), nonce) <= HopsLeft(s, nonce) + if step.nonce == nonce then 32 else 0
  {
    hide Packet, Hops, HopsOf, SendTo, Emitted, HopsLeft, TracePayload;
    var t := s.nodes[step.n].table;
    var packet := Packet(4, TracePayload(step.nonce, step.target, step.source), step.stamp);
    StartHops(step.nonce, step.target, step.source, step.stamp, nonce);
    OriginatedHops(t, step.target, packet, nonce);
    AddsHops(s, Apply(env, s, step), Emitted({}, SendTo(t, step.target, packet)), nonce);
  }

  lemma LinkHops(env: Env, s: Net, step: Step, nonce: Bytes)
    requires (step.Open? || step.Close?) && Enabled(env, s, step)
    ensures HopsLeft(Apply(env, s, step), nonce) == HopsLeft(s, nonce)
  {
  }

  /** A visit spends a hop, a trace brings 32, and nothing else adds any. */
  lemma StepSpendsHops(env: Env, s: Net, step: Step, nonce: Bytes)
    requires Enabled(env, s, step)
    ensures HopsLeft(Apply(env, s, step), nonce) + Visits([step], nonce)
            <= HopsLeft(s, nonce) + 32 * TracesStarted([step], nonce)
  {
    hide Apply, Enabled, HopsLeft, IsProbe;
    match step
    case Deliver(m, clock) => DeliverSpendsHops(env, s, m, clock, nonce);
    case Lose(m) => LoseHops(env, s, m, nonce);
    case Announce(n, command, payload, stamp) => AnnounceHops(env, s, n, command, payload, stamp, nonce);
    case FromTun(n, ip, stamp) => FromTunHops(env, s, n, ip, stamp, nonce);
    case Trace(_, _, _, _, _) => TraceHops(env, s, step, nonce);
    case Open(_) => LinkHops(env, s, step, nonce);
    case Close(_) => LinkHops(env, s, step, nonce);
  }

  lemma {:induction false} RunSpendsHops(env: Env, s: Net, steps: seq<Step>, nonce: Bytes)
    requires Runs(env, s, steps)
    ensures HopsLeft(Final(env, s, steps), nonce) + Visits(steps, nonce)
            <= HopsLeft(s, nonce) + 32 * TracesStarted(steps, nonce)
    decreases steps
  {
    if steps != [] {
      hide IsProbe;
      hide HopsLeft;
      StepSpendsHops(env, s, steps[0], nonce);
      assert Visits(steps, nonce) == Visits([steps[0]], nonce) + Visits(steps[1..], nonce);
      assert TracesStarted(steps, nonce) == TracesStarted([steps[0]], nonce) + TracesStarted(steps[1..], nonce);
      hide Apply;
      hide Enabled;
      RunSpendsHops(env, Apply(env, s, steps[0]), steps[1..], nonce);
    }
  }

  /** In any run, even with routing loops and lost links, the probes of one trace are delivered at most 32 times. */
  lemma ProbeVisitsAtMost32(env: Env, s: Net, steps: seq<Step>, nonce: Bytes)
    requires Initial(s) && Runs(env, s, steps)
    ensures Visits(steps, nonce) <= 32 * TracesStarted(steps, nonce)
  {
    RunSpendsHops(env, s, steps, nonce);
  }
}
