/** Packets under way while routes keep changing: progress, integrity, and no second forwarding. */
module DataInMotion {
  import opened Wire
  import opened RouteTable
  import opened PacketStep
  import opened Network
  import opened LoopFreedom
  import opened SeenPackets
  import opened Flood
  import opened Eviction

  // ---------- Progress ----------

  /** Where a route points now will own d, or hold a strictly better route than this one, at any later time. */
  lemma NextHopStaysAhead(env: Env, s: Net, steps: seq<Step>, n: nat, d: Address)
    requires Inv(env, s, d, 0) && Runs(env, s, steps) && SteadfastRun(env, s, steps, d)
    requires s.Knows(n, d) && !s.Owns(n, d)
    ensures (n, d) in s.learned
    ensures Backs(Final(env, s, steps), s.RouteOf(n, d).link.to, d, s.RouteOf(n, d).timestamp, s.learned[(n, d)])
  {
    assert Forwards(s, n, d, 0) && RouteOk(s, n, d);
    RunImproves(env, s, steps, d);
    BacksLater(s, Final(env, s, steps), s.RouteOf(n, d).link.to, d, s.RouteOf(n, d).timestamp, s.learned[(n, d)]);
  }

  /**
   * The journey of a packet for d: at each node but the last it leaves by the route of that moment, and the network
   * runs on (legs[i]) before the next node handles it.
   */
  ghost predicate Journey(env: Env, s: Net, d: Address, path: seq<nat>, legs: seq<seq<Step>>)
    decreases legs
  {
    && |path| == |legs| + 1
    && (legs == [] ||
        (&& s.Knows(path[0], d) && !s.Owns(path[0], d) && s.RouteOf(path[0], d).link.to == path[1]
         && Runs(env, s, legs[0]) && SteadfastRun(env, s, legs[0], d)
         && Journey(env, Final(env, s, legs[0]), d, path[1..], legs[1..])))
  }

  ghost function Arrival(env: Env, s: Net, d: Address, path: seq<nat>, legs: seq<seq<Step>>): Net
    requires Journey(env, s, d, path, legs)
    decreases legs
  {
    if legs == [] then s else Arrival(env, Final(env, s, legs[0]), d, path[1..], legs[1..])
  }

  /**
   * However many hops later, the packet is at an owner of d, or at a node with a better route than the one first
   * used.
   */
  lemma {:induction false} JourneyMakesProgress(env: Env, s: Net, d: Address, path: seq<nat>, legs: seq<seq<Step>>)
    requires Inv(env, s, d, 0) && Journey(env, s, d, path, legs) && legs != []
    ensures (path[0], d) in s.learned
    ensures Backs(Arrival(env, s, d, path, legs), path[|path| - 1], d,
                  s.RouteOf(path[0], d).timestamp, s.learned[(path[0], d)])
    decreases legs
  {
    var s' := Final(env, s, legs[0]);
    NextHopStaysAhead(env, s, legs[0], path[0], d);
    RunImproves(env, s, legs[0], d);
    hide Inv;
    hide Runs;
    if |legs| > 1 {
      JourneyMakesProgress(env, s', d, path[1..], legs[1..]);
    }
  }

  // ---------- Integrity ----------

  predicate IsData(packet: Bytes) {
    |packet| >= HEADER && packet[8] == 3
  }

  /** The IP packets read from TUN interfaces in a run. */
  function Originals(steps: seq<Step>): set<Bytes> {
    if steps == [] then {} else (if steps[0].FromTun? then {steps[0].ip} else {}) + Originals(steps[1..])
  }

  /** Data in flight and data written to a TUN is one of the given IP packets, and is written only at an owner. */
  ghost predicate Genuine(s: Net, originals: set<Bytes>) {
    && (forall m :: m in s.flight && IsData(m.packet) ==> m.packet[HEADER..] in originals)
    && (forall n :: 0 <= n < |s.nodes| ==> GenuineTun(s.nodes[n], originals))
  }

  ghost predicate GenuineTun(node: Node<End>, originals: set<Bytes>) {
    forall w :: w in node.written ==> w in originals && Delivered(node, w)
  }

  predicate Delivered(node: Node<End>, w: Bytes) {
    DestinationAt(node.impl, w).Some? && DestinationAt(node.impl, w).value in node.owned
  }

  lemma ProcessData(env: Env, node: Node<End>, packet: Bytes, link: End, clock: Clock)
    ensures var after := Process(env, node, packet, link, clock).0;
            forall w :: w in after.written ==>
              w in node.written || (IsData(packet) && w == packet[HEADER..] && Delivered(after, w))
  {
    hide HandleProbe;
    hide Fresh;
    hide LoadU64;
    hide DestinationAt;
    ProcessKeepsIdentity(env, node, packet, link, clock);
  }

  lemma SentData(env: Env, node: Node<End>, packet: Bytes, link: End, clock: Clock, s: Send<End>)
    requires s in Process(env, node, packet, link, clock).1 && IsData(s.packet)
    ensures s.packet == packet
  {
    hide Fresh, LoadU64, DestinationAt, HandleProbe, IsData, TracerOf;
    var accepting := node.(seen := node.seen.Add(env.fingerprint(packet)).1);
    if |packet| == HEADER + 41 && Parse(node.impl, env, packet).Probe? {
      ProbeSendsNoData(accepting, packet[HEADER..], clock, s);
    }
  }

  lemma ProbeSendsNoData(node: Node<End>, payload: Bytes, clock: Clock, s: Send<End>)
    requires |payload| == 41 && s in HandleProbe(node, payload, clock)
    ensures !IsData(s.packet)
  {
    DataPacket(5, payload[..9] + node.name, clock.reply);
    DataPacket(4, OneHopFewer(payload), clock.forward);
    hide Packet, IsData;
  }

  lemma DeliverFlightGenuine(env: Env, s: Net, m: Msg, clock: Clock, originals: set<Bytes>, f: Msg)
    requires Enabled(env, s, Deliver(m, clock)) && Genuine(s, originals)
    requires f in Apply(env, s, Deliver(m, clock)).flight && IsData(f.packet)
    ensures f.packet[HEADER..] in originals
  {
    DeliverFlight(env, s, m, clock, f);
    hide Apply;
    hide Process;
    if f !in s.flight && f.packet != m.packet {
      SentData(env, s.nodes[m.via.to], m.packet, Twin(m.via), clock, Via(f.via, f.packet));
    }
  }

  lemma DeliverWritten(env: Env, s: Net, m: Msg, clock: Clock, originals: set<Bytes>)
    requires Enabled(env, s, Deliver(m, clock)) && Genuine(s, originals)
    ensures GenuineTun(Process(env, s.nodes[m.via.to], m.packet, Twin(m.via), clock).0, originals)
  {
    var node := s.nodes[m.via.to];
    assert GenuineTun(node, originals);
    ProcessData(env, node, m.packet, Twin(m.via), clock);
    ProcessKeepsIdentity(env, node, m.packet, Twin(m.via), clock);
    hide Process;
    hide DestinationAt;
  }

  lemma DeliverGenuine(env: Env, s: Net, m: Msg, clock: Clock, originals: set<Bytes>)
    requires Enabled(env, s, Deliver(m, clock)) && Genuine(s, originals)
    ensures Genuine(Apply(env, s, Deliver(m, clock)), originals)
  {
    var s' := Apply(env, s, Deliver(m, clock));
    DeliverWritten(env, s, m, clock, originals);
    hide GenuineTun;
    hide Process;
    hide Emitted;
    assert forall n :: 0 <= n < |s'.nodes| ==> GenuineTun(s'.nodes[n], originals);
    hide Apply;
    forall f | f in s'.flight && IsData(f.packet) ensures f.packet[HEADER..] in originals {
      DeliverFlightGenuine(env, s, m, clock, originals, f);
    }
  }

  lemma AddGenuine(s: Net, s': Net, extra: multiset<Msg>, originals: set<Bytes>, more: set<Bytes>)
    requires Genuine(s, originals) && s'.flight == s.flight + extra && |s'.nodes| == |s.nodes|
    requires forall n :: 0 <= n < |s.nodes| ==>
               && s'.nodes[n].written == s.nodes[n].written && s'.nodes[n].owned == s.nodes[n].owned
               && s'.nodes[n].impl == s.nodes[n].impl
    requires forall m :: m in extra && IsData(m.packet) ==> m.packet[HEADER..] in more
    ensures Genuine(s', originals + more)
  {
    hide DestinationAt;
  }

  lemma OriginateGenuine(s: Net, s': Net, t: Table<End>, a: Address, packet: Bytes, originals: set<Bytes>,
                         more: set<Bytes>)
    requires Genuine(s, originals) && s'.flight == s.flight + Emitted({}, SendTo(t, a, packet))
             && |s'.nodes| == |s.nodes|
    requires forall n :: 0 <= n < |s.nodes| ==>
               && s'.nodes[n].written == s.nodes[n].written && s'.nodes[n].owned == s.nodes[n].owned
               && s'.nodes[n].impl == s.nodes[n].impl
    requires IsData(packet) ==> packet[HEADER..] in more
    ensures Genuine(s', originals + more)
  {
    SentToOne(t, a, packet);
    AddGenuine(s, s', Emitted({}, SendTo(t, a, packet)), originals, more);
  }

  lemma FromTunGenuine(env: Env, s: Net, n: nat, ip: Bytes, stamp: bv64, originals: set<Bytes>)
    requires Enabled(env, s, FromTun(n, ip, stamp)) && Genuine(s, originals)
    ensures Genuine(Apply(env, s, FromTun(n, ip, stamp)), originals + {ip})
  {
    var (t, a) := (s.nodes[n].table, DestinationAt(s.nodes[n].impl, ip).value);
    DataPacket(3, ip, stamp);
    hide Genuine, IsData, Packet, SendTo, Emitted, DestinationAt;
    OriginateGenuine(s, Apply(env, s, FromTun(n, ip, stamp)), t, a, Packet(3, ip, stamp), originals, {ip});
  }

  lemma TraceGenuine(env: Env, s: Net, step: Step, originals: set<Bytes>)
    requires step.Trace? && Enabled(env, s, step) && Genuine(s, originals)
    ensures Genuine(Apply(env, s, step), originals + {})
  {
    var payload := TracePayload(step.nonce, step.target, step.source);
    DataPacket(4, payload, step.stamp);
    hide Genuine, IsData, Packet, SendTo, Emitted, TracePayload;
    OriginateGenuine(s, Apply(env, s, step), s.nodes[step.n].table, step.target, Packet(4, payload, step.stamp),
                     originals, {});
  }

  lemma AnnounceGenuine(env: Env, s: Net, n: nat, command: byte, payload: Bytes, stamp: bv64, originals: set<Bytes>)
    requires Enabled(env, s, Announce(n, command, payload, stamp)) && Genuine(s, originals)
    ensures Genuine(Apply(env, s, Announce(n, command, payload, stamp)), originals + {})
  {
    var (peers, packet) := (s.nodes[n].table.peers, Packet(command, payload, stamp));
    DataPacket(command, payload, stamp);
    SentToAll(peers, packet);
    assert command != 3;
    var s' := Apply(env, s, Announce(n, command, payload, stamp));
    assert s'.nodes == s.nodes && s'.flight == s.flight + ToAll(peers, packet);
    hide *;
    AddGenuine(s, s', ToAll(peers, packet), originals, {});
  }

  lemma LinkGenuine(env: Env, s: Net, step: Step, originals: set<Bytes>)
    requires (step.Open? || step.Close?) && Enabled(env, s, step) && Genuine(s, originals)
    ensures Genuine(Apply(env, s, step), originals + {})
  {
    hide Genuine;
    AddGenuine(s, Apply(env, s, step), multiset{}, originals, {});
  }

  lemma StepGenuine(env: Env, s: Net, step: Step, originals: set<Bytes>)
    requires Enabled(env, s, step) && Genuine(s, originals)
    ensures Genuine(Apply(env, s, step), originals + Originals([step]))
  {
    assert Originals([step]) == if step.FromTun? then {step.ip} else {};
    hide *;
    assert originals + {} == originals;
    match step
    case Deliver(m, clock) => DeliverGenuine(env, s, m, clock, originals);
    case FromTun(n, ip, stamp) => FromTunGenuine(env, s, n, ip, stamp, originals);
    case Trace(_, _, _, _, _) => TraceGenuine(env, s, step, originals);
    case Announce(n, command, payload, stamp) => AnnounceGenuine(env, s, n, command, payload, stamp, originals);
    case Lose(m) => LoseGenuine(env, s, m, originals);
    case Open(_) => LinkGenuine(env, s, step, originals);
    case Close(_) => LinkGenuine(env, s, step, originals);
  }

  lemma DataPacket(command: byte, payload: Bytes, stamp: bv64)
    ensures IsData(Packet(command, payload, stamp)) <==> command == 3
    ensures |Packet(command, payload, stamp)| >= HEADER && Packet(command, payload, stamp)[HEADER..] == payload
  {
  }

  lemma LoseGenuine(env: Env, s: Net, m: Msg, originals: set<Bytes>)
    requires Enabled(env, s, Lose(m)) && Genuine(s, originals)
    ensures Genuine(Apply(env, s, Lose(m)), originals + {})
  {
    hide Delivered;
    hide IsData;
  }

  lemma {:induction false} RunGenuine(env: Env, s: Net, steps: seq<Step>, originals: set<Bytes>)
    requires Runs(env, s, steps) && Genuine(s, originals)
    ensures Genuine(Final(env, s, steps), originals + Originals(steps))
    decreases steps
  {
    if steps == [] {
      assert originals + Originals(steps) == originals;
    } else {
      StepGenuine(env, s, steps[0], originals);
      hide Genuine;
      hide Apply;
      hide Enabled;
      RunGenuine(env, Apply(env, s, steps[0]), steps[1..], originals + Originals([steps[0]]));
      assert originals + Originals([steps[0]]) + Originals(steps[1..]) == originals + Originals(steps);
    }
  }

  /**
   * In any run at all, a TUN receives only whole IP packets that some node read from its TUN, at an owner of the
   * destination.
   */
  lemma TunWritesAreOriginals(env: Env, s: Net, steps: seq<Step>, n: nat, w: Bytes)
    requires Initial(s) && (forall i :: 0 <= i < |s.nodes| ==> s.nodes[i].written == []) && Runs(env, s, steps)
    requires n < |Final(env, s, steps).nodes| && w in Final(env, s, steps).nodes[n].written
    ensures w in Originals(steps) && Delivered(Final(env, s, steps).nodes[n], w)
  {
    RunGenuine(env, s, steps, {});
  }

  // ---------- At most once ----------

  /** The step makes node n act on packet p. */
  predicate Handles(env: Env, s: Net, step: Step, n: nat, p: Bytes) {
    && step.Deliver? && step.m.packet == p && step.m.via.to == n && n < |s.nodes|
    && Accepts(env, s.nodes[n], p, step.clock)
  }

  function Handlings(env: Env, s: Net, steps: seq<Step>, n: nat, p: Bytes): nat
    requires Runs(env, s, steps)
    decreases steps
  {
    if steps == [] then 0
    else
      (if Handles(env, s, steps[0], n, p) then 1 else 0) + Handlings(env, Apply(env, s, steps[0]), steps[1..], n, p)
  }

  lemma HandledIsKnown(env: Env, s: Net, step: Step, n: nat, p: Bytes)
    requires Enabled(env, s, step) && Caching(s, n)
    ensures Caching(Apply(env, s, step), n)
    ensures Handles(env, s, step, n, p) ==> !Processed(env, s, n, p) && Processed(env, Apply(env, s, step), n, p)
  {
    StepAges(env, s, step, n, p);
    CacheEffect(env, s, step, n);
    AddedIsKnown(s.nodes[n].seen, env.fingerprint(p));
    hide Apply, Enabled, Fresh, LoadU64;
  }

  lemma {:induction false} HandledOnceWhileKept(env: Env, s: Net, steps: seq<Step>, n: nat, p: Bytes)
    requires Runs(env, s, steps) && Caching(s, n) && NeverEvicts(env, s, steps, n, p)
    ensures Handlings(env, s, steps, n, p) <= if Processed(env, s, n, p) then 0 else 1
    decreases steps
  {
    if steps != [] {
      HandledIsKnown(env, s, steps[0], n, p);
      hide Processed, Handles, Apply, Enabled;
      HandledOnceWhileKept(env, Apply(env, s, steps[0]), steps[1..], n, p);
    }
  }

  /**
   * A node acts on a packet (forwards, floods, writes or answers it) at most once, unless it has accepted as many other
   * packets after it as its cache has places.
   */
  lemma HandledAtMostOnce(env: Env, s: Net, steps: seq<Step>, n: nat, p: Bytes)
    requires Runs(env, s, steps) && Caching(s, n) && FewOthers(env, s, steps, n, p)
    ensures Handlings(env, s, steps, n, p) <= if Processed(env, s, n, p) then 0 else 1
  {
    NeverEvictsIff(env, s, steps, n, p);
    HandledOnceWhileKept(env, s, steps, n, p);
  }
}
