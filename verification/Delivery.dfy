/** A packet read from a TUN and carried along the routes of the moment comes out at the TUN of an owner, once. */
module Delivery {
  import opened Wire
  import opened PacketStep
  import opened Network
  import opened LoopFreedom
  import Sets

  // ---------- The links of routes have both ends ----------

  predicate Whole(s: Net, e: End) {
    e in s.joined && Twin(e) in s.joined
  }

  /** What was learned over a link can be sent over it. Every step keeps this. */
  ghost predicate Usable(s: Net) {
    && (forall n: nat, d :: s.Knows(n, d) ==> Whole(s, s.RouteOf(n, d).link))
    && (forall m :: m in s.flight ==> m.via in s.joined)
  }

  lemma RouteIsUsable(s: Net, n: nat, a: Address, packet: Bytes, m: Msg)
    requires Usable(s) && n < |s.nodes| && m in Emitted({}, SendTo(s.nodes[n].table, a, packet))
    ensures m.via in s.joined
  {
    EmittedFrom({}, SendTo(s.nodes[n].table, a, packet), m);
    assert s.Knows(n, a);
    hide Emitted;
  }

  lemma SilentVia(env: Env, s: Net, step: Step, m: Msg)
    requires Enabled(env, s, step) && IsSilent(step) && Linked(s) && Usable(s) && m in Apply(env, s, step).flight
    ensures m.via in s.joined
  {
    hide Packet, Emitted, SendTo, DestinationAt, TracePayload, LoadU64, OwnAnnouncement, TracerOf, Whole;
    if m !in s.flight {
      match step
      case FromTun(n, ip, stamp) =>
        RouteIsUsable(s, n, DestinationAt(s.nodes[n].impl, ip).value, Packet(3, ip, stamp), m);
      case Trace(n, nonce, target, source, stamp) =>
        RouteIsUsable(s, n, target, Packet(4, TracePayload(nonce, target, source), stamp), m);
      case Announce(n, command, payload, stamp) =>
        assert m.via in s.nodes[n].table.peers;
      case _ =>
    }
  }

  lemma SilentKeepsUsable(env: Env, s: Net, step: Step)
    requires Enabled(env, s, step) && IsSilent(step) && Linked(s) && Usable(s)
    ensures Usable(Apply(env, s, step))
  {
    var s' := Apply(env, s, step);
    assert s.joined <= s'.joined;
    SilentRouting(env, s, step);
    hide Apply, Enabled, Linked;
    forall m | m in s'.flight ensures m.via in s'.joined {
      SilentVia(env, s, step, m);
    }
    forall n: nat, d | s'.Knows(n, d) ensures Whole(s', s'.RouteOf(n, d).link) {
      assert s.Knows(n, d) && Whole(s, s.RouteOf(n, d).link);
    }
  }

  lemma CloseKeepsUsable(env: Env, s: Net, e: End)
    requires Enabled(env, s, Close(e)) && Usable(s)
    ensures Usable(Apply(env, s, Close(e)))
  {
    var s' := Apply(env, s, Close(e));
    CloseEffect(env, s, e, 0, []);
    hide Apply, Enabled;
    forall n: nat, d | s'.Knows(n, d) ensures Whole(s', s'.RouteOf(n, d).link) {
      CloseEffect(env, s, e, n, d);
      assert Whole(s, s.RouteOf(n, d).link);
    }
  }

  lemma DeliverVia(env: Env, s: Net, m: Msg, clock: Clock, f: Msg)
    requires Enabled(env, s, Deliver(m, clock)) && Linked(s) && Usable(s)
    requires f in Apply(env, s, Deliver(m, clock)).flight
    ensures f.via in s.joined
  {
    DeliverFlight(env, s, m, clock, f);
    var node := s.nodes[m.via.to];
    if f !in s.flight && f.via !in node.table.peers {
      SendsKeepKinds(env, node, m.packet, Twin(m.via), clock, Via(f.via, f.packet));
      hide Process, Accepts, Apply;
      var a :| a in node.table.routes && f.via == node.table.routes[a].link;
      assert s.Knows(m.via.to, a) && Whole(s, s.RouteOf(m.via.to, a).link);
    }
    hide Process, Accepts, Apply;
  }

  lemma DeliverKeepsUsable(env: Env, s: Net, m: Msg, clock: Clock)
    requires Enabled(env, s, Deliver(m, clock)) && Linked(s) && Usable(s)
    ensures Usable(Apply(env, s, Deliver(m, clock)))
  {
    var s' := Apply(env, s, Deliver(m, clock));
    DeliverPeers(env, s, m, clock);
    assert m in s.flight && m.via in s.joined && Twin(m.via) in s.joined && Twin(Twin(m.via)) == m.via;
    hide Apply, Linked, TracerOf, LoadU64;
    forall n: nat, d | s'.Knows(n, d) ensures Whole(s', s'.RouteOf(n, d).link) {
      DeliverEffect(env, s, m, clock, n, d);
      assert s.Knows(n, d) ==> Whole(s, s.RouteOf(n, d).link);
    }
    forall f | f in s'.flight ensures f.via in s'.joined {
      DeliverVia(env, s, m, clock, f);
    }
  }

  lemma {:induction false} RunKeepsUsable(env: Env, s: Net, steps: seq<Step>)
    requires Runs(env, s, steps) && Linked(s) && Usable(s)
    ensures Usable(Final(env, s, steps))
    decreases steps
  {
    if steps != [] {
      hide Apply, Enabled, Linked, Usable;
      var step := steps[0];
      StepKeepsLinked(env, s, step);
      if step.Close? {
        CloseKeepsUsable(env, s, step.e);
      } else if step.Deliver? {
        DeliverKeepsUsable(env, s, step.m, step.clock);
      } else {
        SilentKeepsUsable(env, s, step);
      }
      RunKeepsUsable(env, Apply(env, s, step), steps[1..]);
    }
  }

  // ---------- One hop ----------

  /** A data packet whose IP header says where it goes, in the reading of either program. */
  predicate DataFor(packet: Bytes, d: Address) {
    |packet| >= HEADER && packet[8] == 3 && Destination(packet[HEADER..]) == Some(d)
  }

  /** Nothing that decides about forwarding is different. */
  predicate SameTables(s: Net, s': Net) {
    && |s'.nodes| == |s.nodes| && s'.learned == s.learned && s'.joined == s.joined
    && forall n :: 0 <= n < |s.nodes| ==>
         && s'.nodes[n].table == s.nodes[n].table && s'.nodes[n].owned == s.nodes[n].owned
         && s'.nodes[n].hasTun == s.nodes[n].hasTun
  }

  /** What the node writes to its TUN for a packet it is the end of. */
  function Written(node: Node<End>, ip: Bytes): seq<Bytes> {
    node.written + if node.hasTun then [ip] else []
  }

  lemma DataStep(env: Env, node: Node<End>, packet: Bytes, link: End, clock: Clock, d: Address)
    requires DataFor(packet, d) && Accepts(env, node, packet, clock)
    ensures var (after, sends) := Process(env, node, packet, link, clock);
            && after.table == node.table && after.owned == node.owned && after.hasTun == node.hasTun
            && after.written == (if d in node.owned then Written(node, packet[HEADER..]) else node.written)
            && (d !in node.owned && d in node.table.routes ==> sends == [Via(node.table.routes[d].link, packet)])
  {
    hide Destination, RustDestination, LoadU64, Fresh;
    RustTakesMore(packet[HEADER..]);
    assert TracerOf(env, packet).None?;
    assert Parse(node.impl, env, packet) == Data(d, packet[HEADER..]);
    assert node.written + [] == node.written;
  }

  /** The receiver of a data packet writes it or sends it on; nothing else changes. */
  lemma DataHop(env: Env, s: Net, d: Address, m: Msg, clock: Clock)
    requires DataFor(m.packet, d) && Enabled(env, s, Deliver(m, clock))
    requires Accepts(env, s.nodes[m.via.to], m.packet, clock)
    ensures var (k, s') := (m.via.to, Apply(env, s, Deliver(m, clock)));
            && SameTables(s, s')
            && (forall n :: 0 <= n < |s.nodes| && n != k ==> s'.nodes[n] == s.nodes[n])
            && s'.nodes[k].written
               == (if s.Owns(k, d) then Written(s.nodes[k], m.packet[HEADER..]) else s.nodes[k].written)
            && (!s.Owns(k, d) && s.Knows(k, d) ==> Msg(s.RouteOf(k, d).link, m.packet) in s'.flight)
  {
    var node := s.nodes[m.via.to];
    var (after, sends) := Process(env, node, m.packet, Twin(m.via), clock);
    DataStep(env, node, m.packet, Twin(m.via), clock, d);
    NoAnnouncement(env, m.packet, d);
    DeliveryIs(env, s, m, clock, after, sends);
    hide *;
    var s' := Apply(env, s, Deliver(m, clock));
    OthersStay(s, s', m.via.to, after);
    if !s.Owns(m.via.to, d) && s.Knows(m.via.to, d) {
      SentOn(node.table.peers, s.RouteOf(m.via.to, d).link, m.packet);
    }
    OwnsIs(s, m.via.to, d);
  }

  lemma OwnsIs(s: Net, n: nat, d: Address)
    requires n < |s.nodes|
    ensures s.Owns(n, d) <==> d in s.nodes[n].owned
    ensures s.Knows(n, d) <==> d in s.nodes[n].table.routes
    ensures s.Knows(n, d) ==> s.RouteOf(n, d) == s.nodes[n].table.routes[d]
  {
  }

  lemma OthersStay(s: Net, s': Net, k: nat, after: Node<End>)
    requires k < |s.nodes| && s'.nodes == s.nodes[k := after] && s'.learned == s.learned && s'.joined == s.joined
    requires after.table == s.nodes[k].table && after.owned == s.nodes[k].owned && after.hasTun == s.nodes[k].hasTun
    ensures SameTables(s, s') && s'.nodes[k] == after
    ensures forall n :: 0 <= n < |s.nodes| && n != k ==> s'.nodes[n] == s.nodes[n]
  {
  }

  /** A delivery that announces nothing. */
  lemma DeliveryIs(env: Env, s: Net, m: Msg, clock: Clock, after: Node<End>, sends: seq<Send<End>>)
    requires Enabled(env, s, Deliver(m, clock)) && TracerOf(env, m.packet).None?
    requires (after, sends) == Process(env, s.nodes[m.via.to], m.packet, Twin(m.via), clock)
    ensures var s' := Apply(env, s, Deliver(m, clock));
            && s'.nodes == s.nodes[m.via.to := after] && s'.learned == s.learned && s'.joined == s.joined
            && s'.flight == s.flight - multiset{m} + Emitted(s.nodes[m.via.to].table.peers, sends)
  {
    hide Process, TracerOf, Emitted;
  }

  lemma NoAnnouncement(env: Env, packet: Bytes, d: Address)
    requires DataFor(packet, d)
    ensures TracerOf(env, packet).None?
  {
    hide Destination;
  }

  lemma SentOn(peers: set<End>, link: End, packet: Bytes)
    ensures Msg(link, packet) in Emitted(peers, [Via(link, packet)])
  {
  }

  // ---------- All the way ----------

  /** Routes for d lead to better routes, over links that have both ends. */
  ghost predicate Paved(s: Net, d: Address) {
    RoutesOk(s, d, 0) && forall n: nat :: s.Knows(n, d) ==> PavedAt(s, n, d)
  }

  predicate PavedAt(s: Net, n: nat, d: Address)
    requires s.Knows(n, d)
  {
    var e := s.RouteOf(n, d).link;
    (n, d) in s.learned && e.to < |s.nodes| && Twin(e) in s.joined
  }

  lemma SamePaved(s: Net, s': Net, d: Address)
    requires SameTables(s, s') && Paved(s, d)
    ensures Paved(s', d)
  {
    forall n: nat | Forwards(s', n, d, 0) ensures RouteOk(s', n, d) {
      assert Forwards(s, n, d, 0) && RouteOk(s, n, d);
    }
    forall n: nat | s'.Knows(n, d) ensures PavedAt(s', n, d) {
      assert s.Knows(n, d) && PavedAt(s, n, d);
    }
  }

  lemma {:induction false} SameWay(s: Net, s': Net, d: Address, n: nat, hops: nat)
    requires SameTables(s, s')
    ensures Follow(s', d, n, hops) == Follow(s, d, n, hops)
    ensures s.Knows(n, d) && (n, d) in s.learned ==> Ahead(s', d, n) == Ahead(s, d, n)
    decreases hops
  {
    if hops > 0 && !s.Owns(n, d) && s.Knows(n, d) {
      SameWay(s, s', d, s.RouteOf(n, d).link.to, hops - 1);
    }
  }

  /** The nodes a packet for d at n may still visit, n included: owners, and nodes with a better route. */
  ghost predicate MayVisit(s: Net, d: Address, n: nat, k: nat) {
    k == n || s.Owns(k, d) || (!s.Owns(n, d) && s.Knows(n, d) && (n, d) in s.learned && k in Ahead(s, d, n))
  }

  /** Whether the nodes that may be visited take the packet. */
  ghost predicate Awaited(env: Env, s: Net, d: Address, packet: Bytes, n: nat) {
    forall k :: 0 <= k < |s.nodes| && MayVisit(s, d, n, k) ==> !s.nodes[k].seen.Has(env.fingerprint(packet))
  }

  /** Node n is an owner, or has a route with fewer than `hops` better ones. */
  ghost predicate Near(s: Net, d: Address, n: nat, hops: nat) {
    s.Owns(n, d) || (s.Knows(n, d) && (n, d) in s.learned && |Ahead(s, d, n)| < hops)
  }

  /** The next hop is nearer, and visits only what n might have visited, but n itself no more. */
  lemma NextIsNearer(s: Net, d: Address, n: nat, hops: nat)
    requires Paved(s, d) && s.Knows(n, d) && !s.Owns(n, d) && Near(s, d, n, hops)
    ensures var k := s.RouteOf(n, d).link.to;
            && hops > 0 && Near(s, d, k, hops - 1)
            && !MayVisit(s, d, k, n) && forall j :: MayVisit(s, d, k, j) ==> MayVisit(s, d, n, j)
  {
    var k := s.RouteOf(n, d).link.to;
    assert Forwards(s, n, d, 0) && RouteOk(s, n, d);
    if !s.Owns(k, d) {
      assert k in Ahead(s, d, n) && k !in Ahead(s, d, k) && Ahead(s, d, k) <= Ahead(s, d, n);
      SubsetSmaller(Ahead(s, d, k), Ahead(s, d, n), k);
    }
  }

  /** A data packet that has arrived at n is carried to an owner, hop by hop. */
  lemma {:induction false} CarriedToOwner(env: Env, s: Net, d: Address, m: Msg, clock: Clock, hops: nat)
    returns (steps: seq<Step>)
    requires Paved(s, d) && DataFor(m.packet, d) && Fresh(Timestamp(m.packet), clock.now)
    requires Enabled(env, s, Deliver(m, clock)) && Near(s, d, m.via.to, hops) && Awaited(env, s, d, m.packet, m.via.to)
    ensures Runs(env, s, steps) && |steps| <= hops + 1
    ensures forall x :: x in steps ==> x.Deliver? && x.m.packet == m.packet && x.clock == clock
    ensures ArrivedAt(s, Final(env, s, steps), Follow(s, d, m.via.to, hops), d, m.packet)
    decreases hops
  {
    hide *;
    var (n, step) := (m.via.to, Deliver(m, clock));
    var s' := Apply(env, s, step);
    TakenHere(env, s, d, m, clock);
    DataHop(env, s, d, m, clock);
    One(env, s, step);
    steps := [step];
    if s.Owns(n, d) {
      OwnerStays(s, d, n, hops);
      WrittenHere(s, s', n, d, m.packet);
    } else {
      KnowsTheWay(s, d, n, hops);
      var on := Msg(s.RouteOf(n, d).link, m.packet);
      NextIsNearer(s, d, n, hops);
      NextIsAwaited(env, s, s', d, m.packet, n, hops);
      SamePaved(s, s', d);
      SameWay(s, s', d, on.via.to, hops - 1);
      NextEnabled(env, s, s', d, n, on, clock);
      var rest := CarriedToOwner(env, s', d, on, clock, hops - 1);
      Then(env, s, s', step, rest);
      WrittenThere(s, s', Final(env, s', rest), n, Follow(s', d, on.via.to, hops - 1), d, m.packet);
      steps := [step] + rest;
    }
  }

  lemma TakenHere(env: Env, s: Net, d: Address, m: Msg, clock: Clock)
    requires DataFor(m.packet, d) && Fresh(Timestamp(m.packet), clock.now)
    requires Enabled(env, s, Deliver(m, clock)) && Awaited(env, s, d, m.packet, m.via.to)
    ensures Accepts(env, s.nodes[m.via.to], m.packet, clock)
  {
    hide Fresh, LoadU64, Destination;
    assert MayVisit(s, d, m.via.to, m.via.to);
  }

  lemma KnowsTheWay(s: Net, d: Address, n: nat, hops: nat)
    requires Paved(s, d) && Near(s, d, n, hops) && !s.Owns(n, d)
    ensures s.Knows(n, d) && PavedAt(s, n, d) && hops > 0
    ensures Follow(s, d, n, hops) == Follow(s, d, s.RouteOf(n, d).link.to, hops - 1)
  {
  }

  lemma NextEnabled(env: Env, s: Net, s': Net, d: Address, n: nat, on: Msg, clock: Clock)
    requires SameTables(s, s') && s.Knows(n, d) && PavedAt(s, n, d)
    requires on.via == s.RouteOf(n, d).link && on in s'.flight
    ensures Enabled(env, s', Deliver(on, clock))
  {
  }

  lemma Then(env: Env, s: Net, s': Net, step: Step, rest: seq<Step>)
    requires Enabled(env, s, step) && s' == Apply(env, s, step) && Runs(env, s', rest)
    ensures Runs(env, s, [step] + rest) && Final(env, s, [step] + rest) == Final(env, s', rest)
  {
    hide Enabled, Apply;
    assert ([step] + rest)[1..] == rest;
  }

  lemma WrittenHere(s: Net, s': Net, o: nat, d: Address, packet: Bytes)
    requires SameTables(s, s') && s.Owns(o, d) && DataFor(packet, d)
    requires forall n :: 0 <= n < |s.nodes| && n != o ==> s'.nodes[n] == s.nodes[n]
    requires s'.nodes[o].written == Written(s.nodes[o], packet[HEADER..])
    ensures ArrivedAt(s, s', o, d, packet)
  {
    hide Destination, Written;
  }

  lemma WrittenThere(s: Net, s': Net, s'': Net, n: nat, o: nat, d: Address, packet: Bytes)
    requires SameTables(s, s') && n < |s.nodes| && s'.nodes[n].written == s.nodes[n].written
    requires forall j :: 0 <= j < |s.nodes| && j != n ==> s'.nodes[j] == s.nodes[j]
    requires ArrivedAt(s', s'', o, d, packet)
    ensures ArrivedAt(s, s'', o, d, packet)
  {
  }

  lemma NextIsAwaited(env: Env, s: Net, s': Net, d: Address, packet: Bytes, n: nat, hops: nat)
    requires SameTables(s, s') && s.Knows(n, d) && Awaited(env, s, d, packet, n)
    requires forall j :: 0 <= j < |s.nodes| && j != n ==> s'.nodes[j] == s.nodes[j]
    requires var k := s.RouteOf(n, d).link.to;
             && hops > 0 && Near(s, d, k, hops - 1) && !MayVisit(s, d, k, n)
             && forall j :: MayVisit(s, d, k, j) ==> MayVisit(s, d, n, j)
    ensures var k := s.RouteOf(n, d).link.to;
            Near(s', d, k, hops - 1) && Awaited(env, s', d, packet, k)
  {
    var k := s.RouteOf(n, d).link.to;
    SameWay(s, s', d, k, 0);
    hide Follow, Ahead;
    assert forall j :: MayVisit(s', d, k, j) <==> MayVisit(s, d, k, j);
  }

  /** Node o owns d and has written the packet, if it has a TUN; no other node wrote anything, and no route changed. */
  ghost predicate ArrivedAt(s: Net, s': Net, o: nat, d: Address, packet: Bytes)
  {
    && SameTables(s, s') && s.Owns(o, d) && |packet| >= HEADER
    && s'.nodes[o].written == Written(s.nodes[o], packet[HEADER..])
    && forall n :: 0 <= n < |s.nodes| && n != o ==> s'.nodes[n].written == s.nodes[n].written
  }

  /** Reading from the TUN puts the packet on the way of the route, and changes nothing else. */
  lemma TunSends(env: Env, s: Net, n: nat, d: Address, ip: Bytes, stamp: bv64)
    requires s.Knows(n, d) && s.nodes[n].hasTun && Destination(ip) == Some(d) && |ip| <= 0xffff - HEADER
    ensures Enabled(env, s, FromTun(n, ip, stamp))
    ensures var s' := Apply(env, s, FromTun(n, ip, stamp));
            && s'.nodes == s.nodes && s'.learned == s.learned && s'.joined == s.joined
            && s'.flight == s.flight + multiset{Msg(s.RouteOf(n, d).link, Packet(3, ip, stamp))}
  {
    hide Destination, RustDestination, Packet;
    RustTakesMore(ip);
    var sends := SendTo(s.nodes[n].table, d, Packet(3, ip, stamp));
    assert sends == [Via(s.RouteOf(n, d).link, Packet(3, ip, stamp))] && sends[1..] == [];
    assert Emitted({}, sends) == multiset{Msg(s.RouteOf(n, d).link, Packet(3, ip, stamp))} + Emitted({}, []);
  }

  /**
   * In every reachable state of a network whose steps were benign for d: what a node with a route for d reads from its
   * TUN is enabled to travel, with at most one delivery for each node, to the owner its route leads to, which writes
   * it to its TUN. The stamp must be fresh, and no node may remember the packet.
   */
  lemma DataReachesOwner(env: Env, s: Net, before: seq<Step>, d: Address, n: nat, ip: Bytes, stamp: bv64, clock: Clock)
    returns (steps: seq<Step>)
    requires Initial(s) && Runs(env, s, before) && BenignRun(env, s, before, d, 0)
    requires var f := Final(env, s, before);
             && f.Knows(n, d) && !f.Owns(n, d) && f.nodes[n].hasTun
             && forall k :: 0 <= k < |f.nodes| ==> !f.nodes[k].seen.Has(env.fingerprint(Packet(3, ip, stamp)))
    requires Destination(ip) == Some(d) && |ip| <= 0xffff - HEADER && Fresh(stamp as nat, clock.now)
    ensures var f := Final(env, s, before);
            var run := [FromTun(n, ip, stamp)] + steps;
            && Runs(env, f, run) && |steps| <= |s.nodes|
            && ArrivedAt(f, Final(env, f, run), Follow(f, d, n, |s.nodes|), d, Packet(3, ip, stamp))
    ensures forall x :: x in steps ==> x.Deliver? && x.m.packet == Packet(3, ip, stamp) && x.clock == clock
  {
    var f := Final(env, s, before);
    Prepared(env, s, before, d);
    steps := FromHere(env, f, d, n, ip, stamp, clock);
  }

  lemma Prepared(env: Env, s: Net, before: seq<Step>, d: Address)
    requires Initial(s) && Runs(env, s, before) && BenignRun(env, s, before, d, 0)
    ensures Paved(Final(env, s, before), d) && |Final(env, s, before).nodes| == |s.nodes|
  {
    var f := Final(env, s, before);
    InitialIsOk(env, s, d, 0);
    InitialIsLinked(s);
    RunKeeps(env, s, before, d, 0);
    RunKeepsUsable(env, s, before);
    hide Initial, Runs, BenignRun, Final;
    forall n: nat | f.Knows(n, d) ensures PavedAt(f, n, d) {
      assert RouteLinked(f, n, d) && Whole(f, f.RouteOf(n, d).link);
    }
  }

  lemma FromHere(env: Env, f: Net, d: Address, n: nat, ip: Bytes, stamp: bv64, clock: Clock)
    returns (steps: seq<Step>)
    requires Paved(f, d) && f.Knows(n, d) && !f.Owns(n, d) && f.nodes[n].hasTun
    requires forall k :: 0 <= k < |f.nodes| ==> !f.nodes[k].seen.Has(env.fingerprint(Packet(3, ip, stamp)))
    requires Destination(ip) == Some(d) && |ip| <= 0xffff - HEADER && Fresh(stamp as nat, clock.now)
    ensures var run := [FromTun(n, ip, stamp)] + steps;
            && Runs(env, f, run) && |steps| <= |f.nodes|
            && ArrivedAt(f, Final(env, f, run), Follow(f, d, n, |f.nodes|), d, Packet(3, ip, stamp))
    ensures forall x :: x in steps ==> x.Deliver? && x.m.packet == Packet(3, ip, stamp) && x.clock == clock
  {
    hide *;
    var (tun, hops) := (FromTun(n, ip, stamp), |f.nodes|);
    TunSends(env, f, n, d, ip, stamp);
    var (f', m) := (Apply(env, f, tun), Msg(f.RouteOf(n, d).link, Packet(3, ip, stamp)));
    AllNear(f, d, n);
    KnowsTheWay(f, d, n, hops);
    NextIsNearer(f, d, n, hops);
    assert SameTables(f, f') by { SameNodes(f, f'); }
    SamePaved(f, f', d);
    SameWay(f, f', d, m.via.to, hops - 1);
    NextEnabled(env, f, f', d, n, m, clock);
    NearStays(f, f', d, m.via.to, hops - 1);
    NobodyHasIt(env, f', d, m.packet, m.via.to);
    DataForIs(ip, stamp, d);
    steps := CarriedToOwner(env, f', d, m, clock, hops - 1);
    Then(env, f, f', tun, steps);
    SameStart(f, f', Final(env, f', steps), Follow(f, d, n, hops), d, m.packet);
  }

  lemma SameNodes(f: Net, f': Net)
    requires f'.nodes == f.nodes && f'.learned == f.learned && f'.joined == f.joined
    ensures SameTables(f, f')
  {
  }

  lemma NearStays(s: Net, s': Net, d: Address, n: nat, hops: nat)
    requires SameTables(s, s') && Near(s, d, n, hops)
    ensures Near(s', d, n, hops)
  {
    SameWay(s, s', d, n, 0);
    hide Ahead, Follow;
  }

  lemma NobodyHasIt(env: Env, s: Net, d: Address, packet: Bytes, n: nat)
    requires forall k :: 0 <= k < |s.nodes| ==> !s.nodes[k].seen.Has(env.fingerprint(packet))
    ensures Awaited(env, s, d, packet, n)
  {
  }

  lemma DataForIs(ip: Bytes, stamp: bv64, d: Address)
    requires Destination(ip) == Some(d)
    ensures DataFor(Packet(3, ip, stamp), d) && Timestamp(Packet(3, ip, stamp)) == stamp as nat
  {
    hide Destination, LoadU64;
  }

  lemma SameStart(f: Net, f': Net, s: Net, o: nat, d: Address, packet: Bytes)
    requires SameTables(f, f') && f'.nodes == f.nodes && ArrivedAt(f', s, o, d, packet)
    ensures ArrivedAt(f, s, o, d, packet)
  {
  }

  lemma AllNear(f: Net, d: Address, n: nat)
    requires Paved(f, d) && f.Knows(n, d)
    ensures Near(f, d, n, |f.nodes|)
  {
    assert PavedAt(f, n, d);
    if !f.Owns(n, d) {
      Sets.FewBelow(Ahead(f, d, n) + {n}, |f.nodes|);
      assert n !in Ahead(f, d, n);
    }
  }
}
