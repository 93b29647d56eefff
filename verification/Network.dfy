/**
 * A mesh of .NET and Rust nodes as a transition system. Messages in flight are a multiset, so any order is possible.
 */
module Network {
  import opened Wire
  import opened RouteTable
  import opened PacketStep

  /** One node's side of a connection: its Peer object (.NET) or sender (Rust). */
  datatype End = End(at: nat, to: nat, id: nat, side: bool)

  function Twin(e: End): End {
    End(e.to, e.at, e.id, !e.side)
  }

  datatype Msg = Msg(via: End, packet: Bytes)

  /** `joined` holds every end ever registered; `learned` records when each route was last replaced. */
  datatype Net = Net(
    nodes: seq<Node<End>>, joined: set<End>, flight: multiset<Msg>,
    clock: nat, learned: map<(nat, Address), nat>)
  {
    predicate Knows(n: nat, d: Address) {
      n < |nodes| && d in nodes[n].table.routes
    }

    predicate Owns(n: nat, d: Address) {
      n < |nodes| && d in nodes[n].owned
    }

    function RouteOf(n: nat, d: Address): Route<End>
      requires Knows(n, d)
    {
      nodes[n].table.routes[d]
    }
  }

  datatype Step =
    | Open(e: End)
    | Close(e: End)
    | Lose(m: Msg)
    | Announce(n: nat, command: byte, payload: Bytes, stamp: bv64)
    | Deliver(m: Msg, clock: Clock)
    | FromTun(n: nat, ip: Bytes, stamp: bv64)
    | Trace(n: nat, nonce: Bytes, target: Address, source: Address, stamp: bv64)

  /** A node announces its own name with command 0 and each of its own IPv4 addresses with command 2. */
  predicate OwnAnnouncement(env: Env, node: Node<End>, command: byte, payload: Bytes) {
    || (command == 0 && payload == node.name && env.resolve(payload).Some? && env.resolve(payload).value in node.owned)
    || (command == 2 && |payload| == 4 && payload in node.owned)
  }

  predicate Enabled(env: Env, s: Net, step: Step) {
    match step
    case Open(e) => e.at < |s.nodes| && e.to < |s.nodes|
    case Close(e) => e.at < |s.nodes| && e in s.nodes[e.at].table.peers
    case Lose(m) => m in s.flight
    case Announce(n, command, payload, _) => n < |s.nodes| && OwnAnnouncement(env, s.nodes[n], command, payload)
    case Deliver(m, _) => m in s.flight && m.via.to < |s.nodes| && Twin(m.via) in s.joined
    case FromTun(n, ip, _) =>
      n < |s.nodes| && s.nodes[n].hasTun && DestinationAt(s.nodes[n].impl, ip).Some? && |ip| <= 0xffff - HEADER
    case Trace(n, nonce, target, source, _) =>
      n < |s.nodes| && s.nodes[n].impl.DotNet? && |nonce| == 8 && |target| == 16 && |source| == 16
      && source in s.nodes[n].owned
  }

  function ToAll(peers: set<End>, packet: Bytes): multiset<Msg> {
    multiset(set e | e in peers :: Msg(e, packet))
  }

  function Emitted(peers: set<End>, sends: seq<Send<End>>): multiset<Msg> {
    if sends == [] then multiset{}
    else
      (match sends[0] case All(p) => ToAll(peers, p) case Via(e, p) => multiset{Msg(e, p)}) + Emitted(peers, sends[1..])
  }

  function TracePayload(nonce: Bytes, target: Address, source: Address): Bytes {
    nonce + [TRACE_TTL] + target + source
  }

  function Apply(env: Env, s: Net, step: Step): Net
    requires Enabled(env, s, step)
  {
    match step
    case Open(e) =>
      s.(nodes := s.nodes[e.at := s.nodes[e.at].(table := s.nodes[e.at].table.Add(e))], joined := s.joined + {e})
    case Close(e) =>
      s.(nodes := s.nodes[e.at := s.nodes[e.at].(table := s.nodes[e.at].table.Remove(s.nodes[e.at].impl, e))])
    case Lose(m) => s.(flight := s.flight - multiset{m})
    case Announce(n, command, payload, stamp) =>
      s.(flight := s.flight + ToAll(s.nodes[n].table.peers, Packet(command, payload, stamp)))
    case Deliver(m, clock) =>
      var (k, node) := (m.via.to, s.nodes[m.via.to]);
      var (after, sends) := Process(env, node, m.packet, Twin(m.via), clock);
      Net(s.nodes[k := after], s.joined, s.flight - multiset{m} + Emitted(node.table.peers, sends), s.clock + 1,
          if after.table == node.table || TracerOf(env, m.packet).None? then s.learned
          else s.learned[(k, TracerOf(env, m.packet).value) := s.clock])
    case FromTun(n, ip, stamp) =>
      s.(flight := s.flight + Emitted({}, SendTo(s.nodes[n].table, DestinationAt(s.nodes[n].impl, ip).value,
                                                 Packet(3, ip, stamp))))
    case Trace(n, nonce, target, source, stamp) =>
      s.(nodes := s.nodes[n := s.nodes[n].(traces := s.nodes[n].traces[nonce := []])],
         flight := s.flight + Emitted({}, SendTo(s.nodes[n].table, target,
                                                 Packet(4, TracePayload(nonce, target, source), stamp))))
  }

  /** A run is a sequence of steps, each enabled in the state before it. */
  predicate Runs(env: Env, s: Net, steps: seq<Step>)
    decreases steps
  {
    steps == [] || (Enabled(env, s, steps[0]) && Runs(env, Apply(env, s, steps[0]), steps[1..]))
  }

  function Final(env: Env, s: Net, steps: seq<Step>): Net
    requires Runs(env, s, steps)
    decreases steps
  {
    if steps == [] then s else Final(env, Apply(env, s, steps[0]), steps[1..])
  }

  lemma {:induction false} RunsConcat(env: Env, s: Net, a: seq<Step>, b: seq<Step>)
    requires Runs(env, s, a) && Runs(env, Final(env, s, a), b)
    ensures Runs(env, s, a + b) && Final(env, s, a + b) == Final(env, Final(env, s, a), b)
    decreases a
  {
    hide Apply;
    hide Enabled;
    if a == [] {
      assert a + b == b;
    } else {
      assert (a + b)[0] == a[0] && (a + b)[1..] == a[1..] + b;
      RunsConcat(env, Apply(env, s, a[0]), a[1..], b);
    }
  }

  lemma One(env: Env, s: Net, x: Step)
    requires Enabled(env, s, x)
    ensures Runs(env, s, [x]) && Final(env, s, [x]) == Apply(env, s, x)
  {
    assert [x][1..] == [];
  }

  lemma Two(env: Env, s: Net, x: Step, y: Step)
    requires Enabled(env, s, x) && Enabled(env, Apply(env, s, x), y)
    ensures Runs(env, s, [x, y]) && Final(env, s, [x, y]) == Apply(env, Apply(env, s, x), y)
  {
    One(env, s, x);
    One(env, Apply(env, s, x), y);
    RunsConcat(env, s, [x], [y]);
    assert [x, y] == [x] + [y];
  }

  /** Nodes that have just started: no links, no routes, nothing in flight. */
  predicate Initial(s: Net) {
    && s.joined == {} && s.flight == multiset{} && s.clock == 0 && s.learned == map[]
    && forall n :: 0 <= n < |s.nodes| ==> s.nodes[n].table == Table({}, map[]) && s.nodes[n].seen.order == []
  }

  lemma EmittedFrom(peers: set<End>, sends: seq<Send<End>>, m: Msg)
    requires m in Emitted(peers, sends)
    ensures (All(m.packet) in sends && m.via in peers) || Via(m.via, m.packet) in sends
  {
    if m !in Emitted(peers, sends[1..]) {
      assert sends[0] in sends;
    }
  }

  /**
   * After a delivery, a message in flight was there before, or is the delivered packet flooded, or goes to one link.
   */
  lemma DeliverFlight(env: Env, s: Net, m: Msg, clock: Clock, f: Msg)
    requires Enabled(env, s, Deliver(m, clock)) && f in Apply(env, s, Deliver(m, clock)).flight
    ensures var (node, sends) := (s.nodes[m.via.to], Process(env, s.nodes[m.via.to], m.packet, Twin(m.via), clock).1);
            || f in s.flight
            || (All(m.packet) in sends && f.packet == m.packet && f.via in node.table.peers)
            || Via(f.via, f.packet) in sends
  {
    var (node, sends) := (s.nodes[m.via.to], Process(env, s.nodes[m.via.to], m.packet, Twin(m.via), clock).1);
    hide Process;
    hide Accepts;
    if f !in s.flight {
      EmittedFrom(node.table.peers, sends, f);
      if All(f.packet) in sends {
        SendsKeepKinds(env, node, m.packet, Twin(m.via), clock, All(f.packet));
      }
    }
  }

  /** The only change of a table is one accepted announcement. */
  lemma LearnEffect(env: Env, node: Node<End>, packet: Bytes, link: End, clock: Clock)
    ensures var (was, now) := (node.table, Process(env, node, packet, link, clock).0.table);
            now == was || (&& TracerOf(env, packet).Some?
                           && var (a, t) := (TracerOf(env, packet).value, Timestamp(packet));
                             && (node.impl.Rust? || link in was.peers)
                             && (a in was.routes ==> t > was.routes[a].timestamp)
                             && now == was.(routes := was.routes[a := Route(t, link)]))
  {
    hide DestinationAt;
    hide HandleProbe;
    hide Fresh;
    hide LoadU64;
  }

  lemma FloodedIsOffered(env: Env, node: Node<End>, packet: Bytes, link: End, clock: Clock)
    requires TracerOf(env, packet).Some? && All(packet) in Process(env, node, packet, link, clock).1
    ensures Process(env, node, packet, link, clock).0.table
            == node.table.Learn(node.impl, Timestamp(packet), TracerOf(env, packet).value, link)
  {
    hide DestinationAt, HandleProbe, Fresh, LoadU64, TracerOf;
  }

  /**
   * Who floods an announcement holds a route at least as new, exactly when it may learn from the link or held one
   * before.
   */
  lemma FloodsWhatItKnows(env: Env, node: Node<End>, packet: Bytes, link: End, clock: Clock)
    requires TracerOf(env, packet).Some? && All(packet) in Process(env, node, packet, link, clock).1
    ensures var (a, t) := (TracerOf(env, packet).value, Timestamp(packet));
            var (was, now) := (node.table, Process(env, node, packet, link, clock).0.table);
            && (a in now.routes && now.routes[a].timestamp >= t
                <==> node.impl.Rust? || link in was.peers || (a in was.routes && was.routes[a].timestamp >= t))
            && (!(node.impl.Rust? || link in was.peers) ==> now == was)
  {
    FloodedIsOffered(env, node, packet, link, clock);
    hide Process, TracerOf, LoadU64;
  }

  /** What a node announces parses, everywhere, as an announcement of an address it owns. */
  lemma AnnouncesOwned(env: Env, node: Node<End>, command: byte, payload: Bytes, stamp: bv64)
    requires OwnAnnouncement(env, node, command, payload)
    ensures TracerOf(env, Packet(command, payload, stamp)).Some?
    ensures TracerOf(env, Packet(command, payload, stamp)).value in node.owned
  {
  }

  lemma NotTracer(env: Env, command: byte, payload: Bytes, stamp: bv64)
    requires 3 <= command
    ensures TracerOf(env, Packet(command, payload, stamp)).None?
  {
  }
}
