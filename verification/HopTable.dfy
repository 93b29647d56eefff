/**
 * What a trace shows. A reply is sent to the next hop towards the tracer and goes no further: a node that receives a
 * reply to somebody else's trace drops it. So a hop appears in the table exactly when its route to the tracer is a
 * direct link.
 */
module HopTable {
  import opened Wire
  import opened PacketStep
  import opened Network
  import opened Sums
  import opened Tracing

  /** What the tracer reads in a reply: a name, and the TTL the probe had there. */
  type Row = (Bytes, byte)

  predicate IsReplyOf(packet: Bytes, nonce: Bytes) {
    |packet| >= HEADER + 9 && packet[8] == 5 && packet[9..17] == nonce
  }

  predicate OfTrace(packet: Bytes, nonce: Bytes) {
    IsProbe(packet, nonce) || IsReplyOf(packet, nonce)
  }

  function RowOf(reply: Bytes): Row
    requires |reply| >= HEADER + 9
  {
    (reply[HEADER + 9..], reply[HEADER + 8])
  }

  /** Whether a reply is recorded by a tracer that accepts it: its name must not be empty. */
  predicate Recordable(packet: Bytes, nonce: Bytes) {
    IsReplyOf(packet, nonce) && |packet| > HEADER + 9
  }

  // ---------- One packet ----------

  /** No relay: a .NET or Rust node that receives a reply sends nothing. */
  lemma RepliesEndHere(env: Env, node: Node<End>, packet: Bytes, link: End, clock: Clock)
    requires |packet| >= HEADER && packet[8] == 5
    ensures Process(env, node, packet, link, clock).1 == []
    ensures Process(env, node, packet, link, clock).0.table == node.table
  {
    hide Fresh;
    hide LoadU64;
  }

  /** So delivering a reply ends it: nothing else joins the flight, and no other node and no table changes. */
  lemma ReplyIsNotRelayed(env: Env, s: Net, m: Msg, clock: Clock)
    requires Enabled(env, s, Deliver(m, clock)) && |m.packet| >= HEADER && m.packet[8] == 5
    ensures var s' := Apply(env, s, Deliver(m, clock));
            && s'.flight == s.flight - multiset{m} && |s'.nodes| == |s.nodes|
            && s'.nodes[m.via.to].table == s.nodes[m.via.to].table
            && forall n :: 0 <= n < |s.nodes| && n != m.via.to ==> s'.nodes[n] == s.nodes[n]
  {
    RepliesEndHere(env, s.nodes[m.via.to], m.packet, Twin(m.via), clock);
    hide Process, TracerOf;
  }

  /** A running trace gains exactly the row of a reply to it that its node accepts. */
  lemma ProcessTraces(env: Env, node: Node<End>, packet: Bytes, link: End, clock: Clock, nonce: Bytes)
    requires nonce in node.traces && |nonce| == 8
    ensures var after := Process(env, node, packet, link, clock).0;
            && nonce in after.traces
            && after.traces[nonce]
               == node.traces[nonce]
                  + if node.impl.DotNet? && Accepts(env, node, packet, clock) && Recordable(packet, nonce)
                      then [RowOf(packet)] else []
  {
    hide Fresh;
    hide LoadU64;
    hide DestinationAt;
    hide HandleProbe;
    if |packet| >= HEADER + 9 {
      var payload := packet[HEADER..];
      assert payload[..8] == packet[9..17] && payload[9..] == packet[HEADER + 9..] && payload[8] == packet[HEADER + 8];
    }
    assert node.traces[nonce] + [] == node.traces[nonce];
  }

  lemma PacketOfTrace(command: byte, payload: Bytes, stamp: bv64, nonce: Bytes)
    ensures OfTrace(Packet(command, payload, stamp), nonce)
            <==> |payload| >= 9 && payload[..8] == nonce && (command == 5 || (command == 4 && |payload| == 41))
    ensures IsProbe(Packet(command, payload, stamp), nonce)
            <==> |payload| == 41 && command == 4 && payload[..8] == nonce
    ensures IsReplyOf(Packet(command, payload, stamp), nonce)
            <==> |payload| >= 9 && command == 5 && payload[..8] == nonce
    ensures |payload| >= 9 ==> RowOf(Packet(command, payload, stamp)) == (payload[9..], payload[8])
  {
    var packet := Packet(command, payload, stamp);
    hide Packet;
    if |payload| >= 9 {
      assert packet[9..17] == packet[HEADER..][..8] && packet[HEADER + 9..] == packet[HEADER..][9..];
    }
  }

  /** The one message a send along a route is, if there is a route. */
  function Along1(node: Node<End>, a: Address, packet: Bytes): multiset<Msg> {
    if a in node.table.routes then multiset{Msg(node.table.routes[a].link, packet)} else multiset{}
  }

  lemma EmittedAlong(peers: set<End>, node: Node<End>, a: Address, packet: Bytes, rest: seq<Send<End>>)
    ensures Emitted(peers, SendTo(node.table, a, packet) + rest) == Along1(node, a, packet) + Emitted(peers, rest)
  {
    var sends := SendTo(node.table, a, packet) + rest;
    if a in node.table.routes {
      assert sends[0] == Via(node.table.routes[a].link, packet) && sends[1..] == rest;
    } else {
      assert sends == rest;
    }
  }

  function ReplyTo(node: Node<End>, payload: Bytes, clock: Clock): Bytes
    requires |payload| == 41
  {
    Packet(5, payload[..9] + node.name, clock.reply)
  }

  function Onward(payload: Bytes, clock: Clock): Bytes
    requires |payload| == 41
  {
    Packet(4, OneHopFewer(payload), clock.forward)
  }

  /**
   * A .NET node that accepts a probe sends its reply along its route to the source, and the probe on towards the
   * target.
   */
  lemma ProbeEmits(env: Env, node: Node<End>, packet: Bytes, link: End, clock: Clock, nonce: Bytes)
    requires node.impl.DotNet? && IsProbe(packet, nonce) && Accepts(env, node, packet, clock)
    ensures var payload := packet[HEADER..];
            Emitted(node.table.peers, Process(env, node, packet, link, clock).1)
            == Along1(node, Source(payload), ReplyTo(node, payload, clock))
               + if PassesOn(node, payload) then Along1(node, Target(payload), Onward(payload, clock)) else multiset{}
  {
    var payload := packet[HEADER..];
    var (reply, onward) := (ReplyTo(node, payload, clock), Onward(payload, clock));
    ProbeIsHandled(env, node, packet, link, clock, nonce);
    hide Process;
    hide Packet;
    hide PassesOn;
    hide OneHopFewer;
    hide Along1;
    var last := if PassesOn(node, payload) then SendTo(node.table, Target(payload), onward) else [];
    EmittedAlong(node.table.peers, node, Source(payload), reply, last);
    if PassesOn(node, payload) {
      EmittedAlong(node.table.peers, node, Target(payload), onward, []);
      assert last + [] == last;
    }
  }

  lemma ProbeIsHandled(env: Env, node: Node<End>, packet: Bytes, link: End, clock: Clock, nonce: Bytes)
    requires node.impl.DotNet? && IsProbe(packet, nonce) && Accepts(env, node, packet, clock)
    ensures var payload := packet[HEADER..];
            Process(env, node, packet, link, clock).1
            == SendTo(node.table, Source(payload), ReplyTo(node, payload, clock))
               + if PassesOn(node, payload) then SendTo(node.table, Target(payload), Onward(payload, clock)) else []
  {
    hide Fresh;
    hide LoadU64;
    hide Packet;
    hide OneHopFewer;
    hide MayHop;
  }

  /** A packet that is not of this trace causes none that is. */
  lemma OthersEmitNone(env: Env, node: Node<End>, packet: Bytes, link: End, clock: Clock, peers: set<End>, nonce: Bytes)
    requires !OfTrace(packet, nonce) && |nonce| == 8
    ensures forall m :: m in Emitted(peers, Process(env, node, packet, link, clock).1) ==> !OfTrace(m.packet, nonce)
  {
    var sends := Process(env, node, packet, link, clock).1;
    forall m | m in Emitted(peers, sends)
      ensures !OfTrace(m.packet, nonce)
    {
      EmittedFrom(peers, sends, m);
      if All(m.packet) in sends {
        SendsKeepKinds(env, node, packet, link, clock, All(m.packet));
      } else if |packet| == HEADER + 41 && packet[8] == 4 {
        ForeignProbe(env, node, packet, link, clock, Via(m.via, m.packet), nonce);
      } else {
        ViaSameCommand(env, node, packet, link, clock, Via(m.via, m.packet));
      }
    }
  }

  lemma ForeignProbe(env: Env, node: Node<End>, packet: Bytes, link: End, clock: Clock, s: Send<End>, nonce: Bytes)
    requires |packet| == HEADER + 41 && packet[8] == 4 && packet[9..17] != nonce && |nonce| == 8
    requires s in Process(env, node, packet, link, clock).1
    ensures !OfTrace(s.packet, nonce)
  {
    var payload := packet[HEADER..];
    assert payload[..8] == packet[9..17];
    ProbeOrNothing(env, node, packet, link, clock);
    var n :| Process(env, node, packet, link, clock).1 == HandleProbe(n, payload, clock);
    hide *;
    ForeignSends(n, payload, clock, s, nonce);
  }

  lemma ForeignSends(node: Node<End>, payload: Bytes, clock: Clock, s: Send<End>, nonce: Bytes)
    requires |payload| == 41 && payload[..8] != nonce && |nonce| == 8 && s in HandleProbe(node, payload, clock)
    ensures !OfTrace(s.packet, nonce)
  {
    var (answer, onward) := (payload[..9] + node.name, OneHopFewer(payload));
    PacketOfTrace(5, answer, clock.reply, nonce);
    PacketOfTrace(4, onward, clock.forward, nonce);
    assert answer[..8] == payload[..8] && onward[..8] == payload[..8];
    hide Packet, OfTrace, OneHopFewer;
  }

  // ---------- A trace over stable routes ----------

  /**
   * Tracer t looks for `target` and is reached at `source`; path holds the hops n1..nk, names their names, and direct
   * says which of them are .NET nodes that have t itself as the next hop towards the source.
   */
  datatype Setting = Setting(
    t: nat, nonce: Bytes, target: Address, source: Address, path: seq<nat>, names: seq<Bytes>, direct: seq<bool>)
  {
    predicate WellFormed() {
      && |nonce| == 8 && |target| == 16 && |source| == 16
      && |path| > 0 && |names| == |path| && |direct| == |path|
    }

    /** The hops a probe reaches. */
    function Reach(): nat {
      if |path| < 32 then |path| else 32
    }

    /** Whether hop i + 1 is a .NET node with a name and the tracer itself as next hop towards the source. */
    predicate Shown(i: nat)
      requires WellFormed() && i < |path|
    {
      direct[i] && names[i] != []
    }
  }

  /** A probe for the target goes no further than node n: it owns the target, is a Rust node, or has no route. */
  predicate EndsAt(s: Net, n: nat, target: Address) {
    n < |s.nodes| && (s.nodes[n].impl.Rust? || s.Owns(n, target) || !s.Knows(n, target))
  }

  /**
   * Routes as the setting says: the path follows next hops of .NET nodes until a probe can go no further or has used
   * all its 32 hops, and replies go directly back where `direct` says so.
   */
  ghost predicate Stable(s: Net, x: Setting)
    requires x.WellFormed()
  {
    && x.t < |s.nodes| && s.nodes[x.t].impl.DotNet?
    && (forall i :: 0 <= i < |x.path| ==> x.path[i] < |s.nodes|)
    && (forall i :: 0 <= i < |x.path| ==> HopStable(s, x, i))
  }

  predicate HopStable(s: Net, x: Setting, i: nat)
    requires x.WellFormed() && i < |x.path|
  {
    var n := x.path[i];
    && n < |s.nodes| && s.nodes[n].name == x.names[i]
    && (x.direct[i] <==> s.nodes[n].impl.DotNet? && s.Knows(n, x.source) && s.RouteOf(n, x.source).link.to == x.t)
    && (if i == |x.path| - 1 then EndsAt(s, n, x.target) || |x.path| >= 32
        else !EndsAt(s, n, x.target) && s.RouteOf(n, x.target).link.to == x.path[i + 1])
  }

  ghost predicate RoutesInside(s: Net, target: Address) {
    forall n: nat :: s.Knows(n, target) ==> s.RouteOf(n, target).link.to < |s.nodes|
  }

  /** The nodes a probe visits from node n on. */
  ghost function NextHops(s: Net, n: nat, target: Address, hops: nat): (path: seq<nat>)
    requires n < |s.nodes| && RoutesInside(s, target)
    ensures |path| > 0 && path[0] == n
    decreases hops
  {
    if hops <= 1 || EndsAt(s, n, target) then [n]
    else [n] + NextHops(s, s.RouteOf(n, target).link.to, target, hops - 1)
  }

  lemma {:induction false} NextHopsFollow(s: Net, n: nat, target: Address, hops: nat, i: nat)
    requires n < |s.nodes| && RoutesInside(s, target) && hops > 0 && i < |NextHops(s, n, target, hops)|
    ensures var path := NextHops(s, n, target, hops);
            && path[i] < |s.nodes|
            && (if i == |path| - 1 then EndsAt(s, path[i], target) || |path| == hops
                else !EndsAt(s, path[i], target) && s.RouteOf(path[i], target).link.to == path[i + 1])
    decreases hops
  {
    if i > 0 {
      NextHopsFollow(s, s.RouteOf(n, target).link.to, target, hops - 1, i - 1);
    } else if hops > 1 && !EndsAt(s, n, target) {
      var rest := NextHops(s, s.RouteOf(n, target).link.to, target, hops - 1);
      assert NextHops(s, n, target, hops) == [n] + rest;
    }
  }

  function NameOf(s: Net, n: nat): Bytes {
    if n < |s.nodes| then s.nodes[n].name else []
  }

  predicate BackDirectly(s: Net, n: nat, source: Address, t: nat) {
    n < |s.nodes| && s.nodes[n].impl.DotNet? && s.Knows(n, source) && s.RouteOf(n, source).link.to == t
  }

  /** In every state the chain of next hops, whatever it ends with or wherever it loops, makes a setting. */
  lemma EveryTraceHasAPath(s: Net, t: nat, nonce: Bytes, target: Address, source: Address) returns (x: Setting)
    requires t < |s.nodes| && s.nodes[t].impl.DotNet? && s.Knows(t, target) && RoutesInside(s, target)
    requires |nonce| == 8 && |target| == |source| == 16
    ensures x.WellFormed() && Stable(s, x) && x.path[0] == s.RouteOf(t, target).link.to
    ensures x.t == t && x.nonce == nonce && x.target == target && x.source == source
  {
    var path := NextHops(s, s.RouteOf(t, target).link.to, target, 32);
    var names := seq(|path|, i requires 0 <= i < |path| => NameOf(s, path[i]));
    var direct := seq(|path|, i requires 0 <= i < |path| => BackDirectly(s, path[i], source, t));
    x := Setting(t, nonce, target, source, path, names, direct);
    forall i | 0 <= i < |path|
      ensures path[i] < |s.nodes| && HopStable(s, x, i)
    {
      hide NextHops, EndsAt;
      NextHopsFollow(s, s.RouteOf(t, target).link.to, target, 32, i);
      assert x.names[i] == NameOf(s, path[i]) && x.direct[i] == BackDirectly(s, path[i], source, t);
    }
    hide HopStable, NextHops;
  }

  /** Nothing of this trace is lost, its nonce is not used again, and its packets are accepted where they arrive. */
  ghost predicate Quiet(env: Env, s: Net, step: Step, nonce: Bytes)
    requires Enabled(env, s, step)
  {
    match step
    case Lose(m) => !OfTrace(m.packet, nonce)
    case Trace(_, other, _, _, _) => other != nonce
    case Deliver(m, clock) => OfTrace(m.packet, nonce) ==> Accepts(env, s.nodes[m.via.to], m.packet, clock)
    case _ => true
  }

  ghost predicate QuietRun(env: Env, s: Net, steps: seq<Step>, x: Setting)
    requires x.WellFormed() && Runs(env, s, steps)
    decreases steps
  {
    && Stable(s, x)
    && (steps != [] ==> Quiet(env, s, steps[0], x.nonce) && QuietRun(env, Apply(env, s, steps[0]), steps[1..], x))
  }

  // ---------- The ledger of a trace ----------

  /** The TTL of the probe at hop j + 1. */
  function Ttl(j: nat): byte {
    if j == 0 then TRACE_TTL else Ttl(j - 1) - 1
  }

  lemma {:induction false} TtlIs(j: nat)
    requires j < 32
    ensures Ttl(j) as nat == 32 - j && (MayHop(Ttl(j)) <==> j < 31)
  {
    if j > 0 {
      TtlIs(j - 1);
      LowerByte(Ttl(j - 1), Ttl(j));
    }
    NatOfByte(Ttl(j));
  }

  lemma LowerByte(b: byte, c: byte)
    requires b as nat >= 2 && c == b - 1
    ensures c as nat == b as nat - 1
  {
    assert b != 0;
  }

  lemma NatOfByte(b: byte)
    ensures b > 1 <==> b as nat > 1
  {
  }

  function ProbePayload(x: Setting, j: nat): (p: Bytes)
    requires x.WellFormed()
    ensures |p| == 41
  {
    x.nonce + [Ttl(j)] + x.target + x.source
  }

  function RowAt(x: Setting, i: nat): Row
    requires x.WellFormed() && i < |x.path|
  {
    (x.names[i], Ttl(i))
  }

  /** The rows of the first j hops that are shown, in order. */
  function ShownRows(x: Setting, j: nat): seq<Row>
    requires x.WellFormed() && j <= |x.path|
  {
    if j == 0 then [] else ShownRows(x, j - 1) + if x.Shown(j - 1) then [RowAt(x, j - 1)] else []
  }

  function ProbeMsg(nonce: Bytes): Msg -> bool {
    (m: Msg) => IsProbe(m.packet, nonce)
  }

  ghost function Probes(s: Net, nonce: Bytes): multiset<Msg> {
    Filter(s.flight, ProbeMsg(nonce))
  }

  /** The probe on its way to hop j + 1. */
  predicate Heading(m: Msg, x: Setting, j: nat)
    requires x.WellFormed() && j < |x.path|
  {
    m.via.to == x.path[j] && IsProbe(m.packet, x.nonce) && m.packet[HEADER..] == ProbePayload(x, j)
  }

  ghost predicate ProbeAt(probes: multiset<Msg>, x: Setting, j: nat)
    requires x.WellFormed() && j <= x.Reach()
  {
    if j == x.Reach() then probes == multiset{} else exists m :: probes == multiset{m} && Heading(m, x, j)
  }

  /** Replies under way to the tracer that will be recorded as this row. */
  function Bringing(x: Setting, row: Row): Msg -> nat {
    (m: Msg) => if m.via.to == x.t && Recordable(m.packet, x.nonce) && RowOf(m.packet) == row then 1 else 0
  }

  ghost function UnderWay(s: Net, x: Setting, row: Row): nat {
    Sum(s.flight, Bringing(x, row))
  }

  predicate Recording(s: Net, x: Setting) {
    x.t < |s.nodes| && x.nonce in s.nodes[x.t].traces
  }

  function Records(s: Net, x: Setting): seq<Row>
    requires Recording(s, x)
  {
    s.nodes[x.t].traces[x.nonce]
  }

  /** Each row of the hops passed that is shown is recorded or under way, once, and there is nothing else. */
  ghost predicate Balanced(s: Net, x: Setting, j: nat)
    requires x.WellFormed() && j <= |x.path| && Recording(s, x)
  {
    forall row: Row :: multiset(Records(s, x))[row] + UnderWay(s, x, row) == multiset(ShownRows(x, j))[row]
  }

  ghost predicate Ledger(s: Net, x: Setting, j: nat)
    requires x.WellFormed()
  {
    && j <= x.Reach() && Recording(s, x) && ProbeAt(Probes(s, x.nonce), x, j) && Balanced(s, x, j)
  }

  // ---------- Each step keeps the books ----------

  lemma ProbesChange(s: Net, s': Net, nonce: Bytes, gone: multiset<Msg>, extra: multiset<Msg>)
    requires gone <= s.flight && s'.flight == s.flight - gone + extra
    ensures Probes(s', nonce) + Filter(gone, ProbeMsg(nonce)) == Probes(s, nonce) + Filter(extra, ProbeMsg(nonce))
  {
    hide ProbeMsg;
    var kept := s.flight - gone;
    assert s.flight == kept + gone;
    FilterUnion(kept, gone, ProbeMsg(nonce));
    FilterUnion(kept, extra, ProbeMsg(nonce));
  }

  lemma UnderWayChange(s: Net, s': Net, x: Setting, row: Row, gone: multiset<Msg>, extra: multiset<Msg>)
    requires gone <= s.flight && s'.flight == s.flight - gone + extra
    ensures UnderWay(s', x, row) + Sum(gone, Bringing(x, row)) == UnderWay(s, x, row) + Sum(extra, Bringing(x, row))
  {
    hide Bringing;
    var kept := s.flight - gone;
    assert s.flight == kept + gone;
    SumUnion(kept, gone, Bringing(x, row));
    SumUnion(kept, extra, Bringing(x, row));
  }

  /** Traffic of the trace stays as it is when what is added and removed is not of the trace. */
  lemma SameTraffic(s: Net, s': Net, x: Setting, j: nat, gone: multiset<Msg>, extra: multiset<Msg>)
    requires x.WellFormed() && Ledger(s, x, j) && gone <= s.flight && s'.flight == s.flight - gone + extra
    requires forall m :: m in gone || m in extra ==> !OfTrace(m.packet, x.nonce)
    requires Recording(s', x) && Records(s', x) == Records(s, x)
    ensures Ledger(s', x, j)
  {
    hide OfTrace;
    hide ProbeAt;
    hide ShownRows;
    hide Probes;
    hide UnderWay;
    hide Records;
    hide Recording;
    NoProbesIn(gone, x.nonce);
    NoProbesIn(extra, x.nonce);
    ProbesChange(s, s', x.nonce, gone, extra);
    assert Probes(s', x.nonce) == Probes(s', x.nonce) + multiset{} == Probes(s, x.nonce) + multiset{}
           == Probes(s, x.nonce);
    forall row: Row
      ensures UnderWay(s', x, row) == UnderWay(s, x, row)
    {
      NoRepliesIn(gone, x, row);
      NoRepliesIn(extra, x, row);
      UnderWayChange(s, s', x, row, gone, extra);
    }
  }

  lemma NoProbesIn(f: multiset<Msg>, nonce: Bytes)
    requires forall m :: m in f ==> !OfTrace(m.packet, nonce)
    ensures Filter(f, ProbeMsg(nonce)) == multiset{}
  {
    hide IsProbe;
    hide IsReplyOf;
    FilterNone(f, ProbeMsg(nonce));
  }

  lemma NoRepliesIn(f: multiset<Msg>, x: Setting, row: Row)
    requires forall m :: m in f ==> !OfTrace(m.packet, x.nonce)
    ensures Sum(f, Bringing(x, row)) == 0
  {
    hide IsProbe;
    hide IsReplyOf;
    hide RowOf;
    SumZero(f, Bringing(x, row));
  }

  lemma SilentRecords(env: Env, s: Net, step: Step, x: Setting)
    requires x.WellFormed() && Recording(s, x) && Enabled(env, s, step) && Quiet(env, s, step, x.nonce)
             && !step.Deliver?
    ensures Recording(Apply(env, s, step), x) && Records(Apply(env, s, step), x) == Records(s, x)
  {
    hide OfTrace;
    hide Emitted;
    hide Packet;
  }

  lemma AnnouncedOther(env: Env, s: Net, n: nat, command: byte, payload: Bytes, stamp: bv64, x: Setting, j: nat)
    requires x.WellFormed() && Ledger(s, x, j) && Enabled(env, s, Announce(n, command, payload, stamp))
    ensures Ledger(Apply(env, s, Announce(n, command, payload, stamp)), x, j)
  {
    var s' := Apply(env, s, Announce(n, command, payload, stamp));
    LedgerRecords(s, x, j);
    SilentRecords(env, s, Announce(n, command, payload, stamp), x);
    PacketOfTrace(command, payload, stamp, x.nonce);
    hide Ledger;
    hide OfTrace;
    hide Packet;
    hide Records;
    SameTraffic(s, s', x, j, multiset{}, ToAll(s.nodes[n].table.peers, Packet(command, payload, stamp)));
  }

  lemma TracedOther(env: Env, s: Net, step: Step, x: Setting, j: nat)
    requires x.WellFormed() && Ledger(s, x, j) && Enabled(env, s, step) && Quiet(env, s, step, x.nonce) && step.Trace?
    ensures Ledger(Apply(env, s, step), x, j)
  {
    var s' := Apply(env, s, step);
    var payload := TracePayload(step.nonce, step.target, step.source);
    assert payload[..8] == step.nonce;
    LedgerRecords(s, x, j);
    SilentRecords(env, s, step, x);
    PacketOfTrace(4, payload, step.stamp, x.nonce);
    hide Ledger;
    hide OfTrace;
    hide Packet;
    hide Records;
    hide TracePayload;
    SendOther(s, s', x, j, s.nodes[step.n], step.target, Packet(4, payload, step.stamp));
  }

  lemma DataSentOther(env: Env, s: Net, step: Step, x: Setting, j: nat)
    requires x.WellFormed() && Ledger(s, x, j) && Enabled(env, s, step) && step.FromTun?
    ensures Ledger(Apply(env, s, step), x, j)
  {
    LedgerRecords(s, x, j);
    SilentRecords(env, s, step, x);
    PacketOfTrace(3, step.ip, step.stamp, x.nonce);
    hide Ledger;
    hide OfTrace;
    hide Packet;
    hide Records;
    hide DestinationAt;
    SendOther(s, Apply(env, s, step), x, j, s.nodes[step.n], DestinationAt(s.nodes[step.n].impl, step.ip).value,
              Packet(3, step.ip, step.stamp));
  }

  /** Every step that delivers nothing keeps the books. */
  lemma SilentStepKeeps(env: Env, s: Net, step: Step, x: Setting, j: nat)
    requires x.WellFormed() && Ledger(s, x, j) && Enabled(env, s, step) && Quiet(env, s, step, x.nonce)
             && !step.Deliver?
    ensures Ledger(Apply(env, s, step), x, j)
  {
    LedgerRecords(s, x, j);
    SilentRecords(env, s, step, x);
    hide Ledger;
    hide OfTrace;
    hide Records;
    hide Recording;
    match step
    case Announce(n, command, payload, stamp) => AnnouncedOther(env, s, n, command, payload, stamp, x, j);
    case FromTun(_, _, _) => DataSentOther(env, s, step, x, j);
    case Trace(_, _, _, _, _) => TracedOther(env, s, step, x, j);
    case Lose(m) => SameTraffic(s, Apply(env, s, step), x, j, multiset{m}, multiset{});
    case Open(_) => SameTraffic(s, Apply(env, s, step), x, j, multiset{}, multiset{});
    case Close(_) => SameTraffic(s, Apply(env, s, step), x, j, multiset{}, multiset{});
    case Deliver(_, _) => assert false;
  }

  lemma LedgerRecords(s: Net, x: Setting, j: nat)
    requires x.WellFormed() && Ledger(s, x, j)
    ensures Recording(s, x)
  {
  }

  lemma SendOther(s: Net, s': Net, x: Setting, j: nat, node: Node<End>, a: Address, packet: Bytes)
    requires x.WellFormed() && Ledger(s, x, j) && !OfTrace(packet, x.nonce)
    requires s'.flight == s.flight + Emitted({}, SendTo(node.table, a, packet))
    requires Recording(s, x) && Recording(s', x) && Records(s', x) == Records(s, x)
    ensures Ledger(s', x, j)
  {
    hide Ledger;
    hide OfTrace;
    EmittedAlong({}, node, a, packet, []);
    assert SendTo(node.table, a, packet) + [] == SendTo(node.table, a, packet);
    SameTraffic(s, s', x, j, multiset{}, Emitted({}, SendTo(node.table, a, packet)));
  }

  /** What a delivery does to the records of the tracer. */
  lemma DeliverRecords(env: Env, s: Net, m: Msg, clock: Clock, x: Setting)
    requires x.WellFormed() && Recording(s, x) && Enabled(env, s, Deliver(m, clock)) && s.nodes[x.t].impl.DotNet?
    ensures var s' := Apply(env, s, Deliver(m, clock));
            && Recording(s', x)
            && Records(s', x)
               == Records(s, x)
                  + if m.via.to == x.t && Accepts(env, s.nodes[x.t], m.packet, clock) && Recordable(m.packet, x.nonce)
                    then [RowOf(m.packet)] else []
  {
    hide Accepts;
    hide Recordable;
    if m.via.to == x.t {
      ProcessTraces(env, s.nodes[x.t], m.packet, Twin(m.via), clock, x.nonce);
      hide Process;
    } else {
      hide Process;
      assert Records(s, x) + [] == Records(s, x);
    }
  }

  lemma DeliverFlights(env: Env, s: Net, m: Msg, clock: Clock)
    requires Enabled(env, s, Deliver(m, clock))
    ensures var node := s.nodes[m.via.to];
            Apply(env, s, Deliver(m, clock)).flight
            == s.flight - multiset{m} + Emitted(node.table.peers, Process(env, node, m.packet, Twin(m.via), clock).1)
  {
    hide Process;
  }

  lemma OtherDeliveryKeeps(env: Env, s: Net, m: Msg, clock: Clock, x: Setting, j: nat)
    requires x.WellFormed() && Ledger(s, x, j) && Enabled(env, s, Deliver(m, clock)) && s.nodes[x.t].impl.DotNet?
    requires !OfTrace(m.packet, x.nonce)
    ensures Ledger(Apply(env, s, Deliver(m, clock)), x, j)
  {
    var node := s.nodes[m.via.to];
    LedgerRecords(s, x, j);
    DeliverRecords(env, s, m, clock, x);
    assert Records(s, x) + [] == Records(s, x);
    DeliverFlights(env, s, m, clock);
    OthersEmitNone(env, node, m.packet, Twin(m.via), clock, node.table.peers, x.nonce);
    hide Ledger;
    hide Process;
    hide Apply;
    hide IsProbe;
    hide Records;
    SameTraffic(s, Apply(env, s, Deliver(m, clock)), x, j, multiset{m},
                Emitted(node.table.peers, Process(env, node, m.packet, Twin(m.via), clock).1));
  }

  /** A reply that arrives leaves the traffic and, at the tracer, enters the records. */
  lemma ReplyDeliveryKeeps(env: Env, s: Net, m: Msg, clock: Clock, x: Setting, j: nat)
    requires x.WellFormed() && Ledger(s, x, j) && Enabled(env, s, Deliver(m, clock)) && s.nodes[x.t].impl.DotNet?
    requires IsReplyOf(m.packet, x.nonce) && Accepts(env, s.nodes[m.via.to], m.packet, clock)
    ensures Ledger(Apply(env, s, Deliver(m, clock)), x, j)
  {
    var (s', node) := (Apply(env, s, Deliver(m, clock)), s.nodes[m.via.to]);
    LedgerRecords(s, x, j);
    DeliverRecords(env, s, m, clock, x);
    DeliverFlights(env, s, m, clock);
    RepliesEndHere(env, node, m.packet, Twin(m.via), clock);
    hide Process;
    hide Apply;
    hide Accepts;
    hide Records;
    hide Recordable;
    assert s'.flight == s.flight - multiset{m} + multiset{};
    ReplyLeavesProbes(s, s', x.nonce, m);
    ReplyBalance(s, s', m, x, j);
  }

  lemma ReplyLeavesProbes(s: Net, s': Net, nonce: Bytes, m: Msg)
    requires m in s.flight && s'.flight == s.flight - multiset{m} + multiset{}
    requires IsReplyOf(m.packet, nonce)
    ensures Probes(s', nonce) == Probes(s, nonce)
  {
    FilterOne(m, ProbeMsg(nonce));
    FilterNone(multiset{}, ProbeMsg(nonce));
    ProbesChange(s, s', nonce, multiset{m}, multiset{});
    hide Probes;
    assert Probes(s', nonce) == Probes(s', nonce) + multiset{} == Probes(s, nonce) + multiset{} == Probes(s, nonce);
  }

  lemma ReplyBalance(s: Net, s': Net, m: Msg, x: Setting, j: nat)
    requires x.WellFormed() && j <= |x.path| && Recording(s, x) && Recording(s', x) && Balanced(s, x, j)
    requires m in s.flight && s'.flight == s.flight - multiset{m} + multiset{}
    requires Records(s', x)
             == Records(s, x) + if m.via.to == x.t && Recordable(m.packet, x.nonce) then [RowOf(m.packet)] else []
    ensures Balanced(s', x, j)
  {
    hide Recordable;
    hide RowOf;
    hide ShownRows;
    hide Records;
    hide Recording;
    hide UnderWay;
    forall row: Row
      ensures multiset(Records(s', x))[row] + UnderWay(s', x, row) == multiset(ShownRows(x, j))[row]
    {
      UnderWayChange(s, s', x, row, multiset{m}, multiset{});
      SumOne(m, Bringing(x, row));
      NoSum(Bringing(x, row));
    }
  }

  lemma NoSum(w: Msg -> nat)
    ensures Sum(multiset{}, w) == 0
  {
  }

  // ---------- A probe arrives at the next hop ----------

  lemma PayloadParts(x: Setting, j: nat)
    requires x.WellFormed()
    ensures var p := ProbePayload(x, j);
            && p[..8] == x.nonce && p[8] == Ttl(j) && Target(p) == x.target && Source(p) == x.source
            && OneHopFewer(p) == ProbePayload(x, j + 1)
  {
    hide Ttl;
    assert Ttl(j + 1) == Ttl(j) - 1 by { TtlNext(j); }
    assert OneHopFewer(ProbePayload(x, j)) == ProbePayload(x, j + 1);
  }

  lemma TtlNext(j: nat)
    ensures Ttl(j + 1) == Ttl(j) - 1
  {
  }

  lemma ReplyFacts(x: Setting, j: nat, node: Node<End>, clock: Clock)
    requires x.WellFormed()
    ensures var reply := ReplyTo(node, ProbePayload(x, j), clock);
            && !IsProbe(reply, x.nonce) && IsReplyOf(reply, x.nonce) && RowOf(reply) == (node.name, Ttl(j))
            && (Recordable(reply, x.nonce) <==> node.name != [])
  {
    var p := ProbePayload(x, j);
    PayloadParts(x, j);
    hide ProbePayload;
    var answer := p[..9] + node.name;
    assert answer[..8] == p[..8] && answer[9..] == node.name && answer[8] == p[8];
    PacketOfTrace(5, answer, clock.reply, x.nonce);
    hide IsProbe;
    hide IsReplyOf;
    hide RowOf;
  }

  lemma OnwardFacts(x: Setting, j: nat, clock: Clock)
    requires x.WellFormed()
    ensures var onward := Onward(ProbePayload(x, j), clock);
            && IsProbe(onward, x.nonce) && !IsReplyOf(onward, x.nonce) && onward[HEADER..] == ProbePayload(x, j + 1)
  {
    PayloadParts(x, j);
    PayloadParts(x, j + 1);
    hide ProbePayload;
    PacketOfTrace(4, ProbePayload(x, j + 1), clock.forward, x.nonce);
    hide IsProbe;
    hide IsReplyOf;
  }

  /** The only probe under way is the one that arrives, so it is on its way to the next hop. */
  lemma ArrivesInTurn(s: Net, m: Msg, x: Setting, j: nat)
    requires x.WellFormed() && Ledger(s, x, j) && m in s.flight && IsProbe(m.packet, x.nonce)
    ensures j < x.Reach() && Probes(s, x.nonce) == multiset{m} && Heading(m, x, j)
  {
    hide Heading;
    FilterAt(s.flight, ProbeMsg(x.nonce), m);
    assert m in Probes(s, x.nonce);
    var m0 :| Probes(s, x.nonce) == multiset{m0} && Heading(m0, x, j);
  }

  lemma GoesOnIff(s: Net, x: Setting, j: nat)
    requires x.WellFormed() && Stable(s, x) && j < x.Reach() && x.path[j] < |s.nodes|
    ensures var node := s.nodes[x.path[j]];
            node.impl.DotNet? && PassesOn(node, ProbePayload(x, j)) && x.target in node.table.routes
            <==> j + 1 < x.Reach()
  {
    PayloadParts(x, j);
    TtlIs(j);
    hide ProbePayload;
    hide Ttl;
    hide MayHop;
    assert HopStable(s, x, j);
  }

  function ReplyFrom(s: Net, x: Setting, j: nat, clock: Clock): multiset<Msg>
    requires x.WellFormed() && j < |x.path| && x.path[j] < |s.nodes|
  {
    var node := s.nodes[x.path[j]];
    if node.impl.Rust? then multiset{} else Along1(node, x.source, ReplyTo(node, ProbePayload(x, j), clock))
  }

  function OnwardFrom(s: Net, x: Setting, j: nat, clock: Clock): multiset<Msg>
    requires x.WellFormed() && j < |x.path| && x.path[j] < |s.nodes|
  {
    if j + 1 < x.Reach() then Along1(s.nodes[x.path[j]], x.target, Onward(ProbePayload(x, j), clock)) else multiset{}
  }

  /** A Rust node that accepts a probe sends nothing. */
  lemma RustIgnoresProbes(env: Env, node: Node<End>, packet: Bytes, link: End, clock: Clock, nonce: Bytes)
    requires node.impl.Rust? && IsProbe(packet, nonce)
    ensures Process(env, node, packet, link, clock).1 == []
  {
    hide Fresh, LoadU64;
  }

  lemma NoRouteNoSend(node: Node<End>, a: Address, packet: Bytes)
    ensures a !in node.table.routes ==> Along1(node, a, packet) == multiset{}
  {
  }

  lemma HopEmits(env: Env, s: Net, m: Msg, clock: Clock, x: Setting, j: nat)
    requires x.WellFormed() && Stable(s, x) && Enabled(env, s, Deliver(m, clock))
    requires j < x.Reach() && x.path[j] < |s.nodes| && Heading(m, x, j)
    requires Accepts(env, s.nodes[m.via.to], m.packet, clock)
    ensures Apply(env, s, Deliver(m, clock)).flight
            == s.flight - multiset{m} + (ReplyFrom(s, x, j, clock) + OnwardFrom(s, x, j, clock))
  {
    var node := s.nodes[m.via.to];
    assert HopStable(s, x, j);
    DeliverFlights(env, s, m, clock);
    if node.impl.Rust? {
      RustIgnoresProbes(env, node, m.packet, Twin(m.via), clock, x.nonce);
    } else {
      ProbeEmits(env, node, m.packet, Twin(m.via), clock, x.nonce);
      NoRouteNoSend(node, x.target, Onward(ProbePayload(x, j), clock));
    }
    PayloadParts(x, j);
    GoesOnIff(s, x, j);
    hide Process;
    hide Apply;
    hide Accepts;
    hide Along1;
    hide PassesOn;
    hide ProbePayload;
    hide HopStable;
    hide IsProbe;
    hide ReplyTo;
    hide Onward;
  }

  /** What goes on is the probe for the next hop, if there is one within reach. */
  lemma OnwardIsNext(s: Net, x: Setting, j: nat, clock: Clock)
    requires x.WellFormed() && Stable(s, x) && j < x.Reach() && x.path[j] < |s.nodes|
    ensures ProbeAt(OnwardFrom(s, x, j, clock), x, j + 1)
    ensures Filter(OnwardFrom(s, x, j, clock), ProbeMsg(x.nonce)) == OnwardFrom(s, x, j, clock)
    ensures forall row: Row :: Sum(OnwardFrom(s, x, j, clock), Bringing(x, row)) == 0
  {
    assert HopStable(s, x, j);
    hide HopStable;
    hide IsReplyOf;
    hide IsProbe;
    hide ProbePayload;
    hide Onward;
    OnwardFacts(x, j, clock);
    if j + 1 < x.Reach() {
      NextHop(s, x, j);
      var m := Msg(s.nodes[x.path[j]].table.routes[x.target].link, Onward(ProbePayload(x, j), clock));
      assert OnwardFrom(s, x, j, clock) == multiset{m} && Heading(m, x, j + 1);
      FilterOne(m, ProbeMsg(x.nonce));
      forall row: Row ensures Sum(multiset{m}, Bringing(x, row)) == 0 { SumOne(m, Bringing(x, row)); }
    } else {
      FilterNone(multiset{}, ProbeMsg(x.nonce));
      forall row: Row ensures Sum(multiset{}, Bringing(x, row)) == 0 { NoSum(Bringing(x, row)); }
    }
  }

  lemma NextHop(s: Net, x: Setting, j: nat)
    requires x.WellFormed() && Stable(s, x) && j + 1 < x.Reach() && x.path[j] < |s.nodes|
    ensures x.target in s.nodes[x.path[j]].table.routes
    ensures s.nodes[x.path[j]].table.routes[x.target].link.to == x.path[j + 1]
  {
    assert HopStable(s, x, j);
  }

  /** The reply brings the row of this hop to the tracer exactly when the hop is to be shown. */
  lemma ReplyBringsRow(s: Net, x: Setting, j: nat, clock: Clock, row: Row)
    requires x.WellFormed() && Stable(s, x) && j < x.Reach() && x.path[j] < |s.nodes|
    ensures Filter(ReplyFrom(s, x, j, clock), ProbeMsg(x.nonce)) == multiset{}
    ensures Sum(ReplyFrom(s, x, j, clock), Bringing(x, row)) == if x.Shown(j) && row == RowAt(x, j) then 1 else 0
  {
    var node := s.nodes[x.path[j]];
    DirectIff(s, x, j);
    ReplyFacts(x, j, node, clock);
    hide IsReplyOf;
    hide IsProbe;
    hide RowOf;
    hide Recordable;
    hide ProbePayload;
    hide ReplyTo;
    hide Stable;
    if node.impl.DotNet? && x.source in node.table.routes {
      var m := Msg(node.table.routes[x.source].link, ReplyTo(node, ProbePayload(x, j), clock));
      assert ReplyFrom(s, x, j, clock) == multiset{m};
      FilterOne(m, ProbeMsg(x.nonce));
      SumOne(m, Bringing(x, row));
    } else {
      FilterNone(multiset{}, ProbeMsg(x.nonce));
      NoSum(Bringing(x, row));
    }
  }

  lemma DirectIff(s: Net, x: Setting, j: nat)
    requires x.WellFormed() && Stable(s, x) && j < |x.path|
    ensures x.path[j] < |s.nodes| && s.nodes[x.path[j]].name == x.names[j]
    ensures var routes := s.nodes[x.path[j]].table.routes;
            x.direct[j] <==> s.nodes[x.path[j]].impl.DotNet? && x.source in routes && routes[x.source].link.to == x.t
  {
    assert HopStable(s, x, j);
  }

  lemma HopBalance(s: Net, s': Net, m: Msg, x: Setting, j: nat, back: multiset<Msg>, on: multiset<Msg>)
    requires x.WellFormed() && j < |x.path| && Recording(s, x) && Recording(s', x) && Balanced(s, x, j)
    requires m in s.flight && !IsReplyOf(m.packet, x.nonce) && Records(s', x) == Records(s, x)
    requires s'.flight == s.flight - multiset{m} + (back + on)
    requires forall row: Row :: Sum(on, Bringing(x, row)) == 0
    requires forall row: Row :: Sum(back, Bringing(x, row)) == if x.Shown(j) && row == RowAt(x, j) then 1 else 0
    ensures Balanced(s', x, j + 1)
  {
    hide IsReplyOf;
    hide RowOf;
    hide Records;
    hide Recording;
    hide UnderWay;
    forall row: Row
      ensures multiset(Records(s', x))[row] + UnderWay(s', x, row) == multiset(ShownRows(x, j + 1))[row]
    {
      UnderWayChange(s, s', x, row, multiset{m}, back + on);
      SumOne(m, Bringing(x, row));
      SumUnion(back, on, Bringing(x, row));
    }
  }

  lemma OnlyOnward(s: Net, s': Net, nonce: Bytes, m: Msg, back: multiset<Msg>, on: multiset<Msg>)
    requires m in s.flight && IsProbe(m.packet, nonce) && Probes(s, nonce) == multiset{m}
    requires s'.flight == s.flight - multiset{m} + (back + on)
    requires Filter(back, ProbeMsg(nonce)) == multiset{} && Filter(on, ProbeMsg(nonce)) == on
    ensures Probes(s', nonce) == on
  {
    hide Probes;
    FilterOne(m, ProbeMsg(nonce));
    FilterUnion(back, on, ProbeMsg(nonce));
    ProbesChange(s, s', nonce, multiset{m}, back + on);
    hide IsProbe;
    assert multiset{} + on == on;
    assert Probes(s', nonce) == Probes(s', nonce) + multiset{m} - multiset{m} == multiset{m} + on - multiset{m} == on;
  }

  lemma HopLedger(s: Net, s': Net, m: Msg, clock: Clock, x: Setting, j: nat)
    requires x.WellFormed() && Stable(s, x) && j < x.Reach() && x.path[j] < |s.nodes|
    requires Recording(s, x) && Recording(s', x) && Balanced(s, x, j) && Records(s', x) == Records(s, x)
    requires m in s.flight && IsProbe(m.packet, x.nonce) && Probes(s, x.nonce) == multiset{m}
    requires s'.flight == s.flight - multiset{m} + (ReplyFrom(s, x, j, clock) + OnwardFrom(s, x, j, clock))
    ensures Ledger(s', x, j + 1)
  {
    var (back, on) := (ReplyFrom(s, x, j, clock), OnwardFrom(s, x, j, clock));
    assert !IsReplyOf(m.packet, x.nonce);
    hide *;
    OnwardIsNext(s, x, j, clock);
    forall row: Row
      ensures Filter(back, ProbeMsg(x.nonce)) == multiset{}
      ensures Sum(back, Bringing(x, row)) == if x.Shown(j) && row == RowAt(x, j) then 1 else 0
    {
      ReplyBringsRow(s, x, j, clock, row);
    }
    ReplyBringsRow(s, x, j, clock, RowAt(x, j));
    OnlyOnward(s, s', x.nonce, m, back, on);
    HopBalance(s, s', m, x, j, back, on);
    LedgerIs(s', x, j + 1);
  }

  lemma LedgerIs(s: Net, x: Setting, j: nat)
    requires x.WellFormed() && j <= x.Reach() && Recording(s, x) && ProbeAt(Probes(s, x.nonce), x, j)
             && Balanced(s, x, j)
    ensures Ledger(s, x, j)
  {
  }

  lemma ProbeDeliveryKeeps(env: Env, s: Net, m: Msg, clock: Clock, x: Setting, j: nat)
    requires x.WellFormed() && Ledger(s, x, j) && Stable(s, x) && Enabled(env, s, Deliver(m, clock))
    requires IsProbe(m.packet, x.nonce) && Accepts(env, s.nodes[m.via.to], m.packet, clock)
    ensures j < x.Reach() && Ledger(Apply(env, s, Deliver(m, clock)), x, j + 1)
  {
    ArrivesInTurn(s, m, x, j);
    HopEmits(env, s, m, clock, x, j);
    DeliverRecords(env, s, m, clock, x);
    assert !Recordable(m.packet, x.nonce);
    assert Records(s, x) + [] == Records(s, x);
    var s' := Apply(env, s, Deliver(m, clock));
    hide Apply;
    hide Accepts;
    hide Stable;
    hide Records;
    hide IsProbe;
    hide Heading;
    hide ReplyFrom;
    hide OnwardFrom;
    hide Recordable;
    HopLedger(s, s', m, clock, x, j);
  }

  // ---------- Whole traces ----------

  lemma StepKeepsBooks(env: Env, s: Net, step: Step, x: Setting, j: nat) returns (k: nat)
    requires x.WellFormed() && Ledger(s, x, j) && Stable(s, x) && Enabled(env, s, step) && Quiet(env, s, step, x.nonce)
    ensures Ledger(Apply(env, s, step), x, k)
  {
    assert s.nodes[x.t].impl.DotNet?;
    hide Ledger;
    hide Stable;
    hide Apply;
    hide IsProbe;
    hide IsReplyOf;
    k := j;
    if !step.Deliver? {
      SilentStepKeeps(env, s, step, x, j);
    } else if IsProbe(step.m.packet, x.nonce) {
      ProbeDeliveryKeeps(env, s, step.m, step.clock, x, j);
      k := j + 1;
    } else if IsReplyOf(step.m.packet, x.nonce) {
      ReplyDeliveryKeeps(env, s, step.m, step.clock, x, j);
    } else {
      OtherDeliveryKeeps(env, s, step.m, step.clock, x, j);
    }
  }

  lemma {:induction false} RunKeepsBooks(env: Env, s: Net, steps: seq<Step>, x: Setting, j: nat) returns (k: nat)
    requires x.WellFormed() && Ledger(s, x, j) && Runs(env, s, steps) && QuietRun(env, s, steps, x)
    ensures Ledger(Final(env, s, steps), x, k)
    decreases steps
  {
    k := j;
    if steps != [] {
      hide Ledger;
      hide Apply;
      hide Enabled;
      hide Quiet;
      hide Stable;
      k := StepKeepsBooks(env, s, steps[0], x, j);
      k := RunKeepsBooks(env, Apply(env, s, steps[0]), steps[1..], x, k);
    }
  }

  /** The trace starts: its nonce is new, and t routes the target over the first hop. */
  ghost predicate Begins(env: Env, s: Net, x: Setting, stamp: bv64) {
    && x.WellFormed() && Stable(s, x)
    && Enabled(env, s, Trace(x.t, x.nonce, x.target, x.source, stamp))
    && s.Knows(x.t, x.target) && s.RouteOf(x.t, x.target).link.to == x.path[0]
    && (forall m :: m in s.flight ==> !OfTrace(m.packet, x.nonce))
  }

  function Started(env: Env, s: Net, x: Setting, stamp: bv64): Net
    requires Enabled(env, s, Trace(x.t, x.nonce, x.target, x.source, stamp))
  {
    Apply(env, s, Trace(x.t, x.nonce, x.target, x.source, stamp))
  }

  lemma FirstProbe(env: Env, s: Net, x: Setting, stamp: bv64) returns (m: Msg)
    requires Begins(env, s, x, stamp)
    ensures Started(env, s, x, stamp).flight == s.flight + multiset{m}
    ensures Recording(Started(env, s, x, stamp), x) && Records(Started(env, s, x, stamp), x) == []
    ensures Heading(m, x, 0) && !IsReplyOf(m.packet, x.nonce)
  {
    var payload := TracePayload(x.nonce, x.target, x.source);
    assert payload == ProbePayload(x, 0);
    PayloadParts(x, 0);
    PacketOfTrace(4, payload, stamp, x.nonce);
    var packet := Packet(4, payload, stamp);
    EmittedAlong({}, s.nodes[x.t], x.target, packet, []);
    assert SendTo(s.nodes[x.t].table, x.target, packet) + [] == SendTo(s.nodes[x.t].table, x.target, packet);
    m := Msg(s.RouteOf(x.t, x.target).link, packet);
    hide IsProbe;
    hide IsReplyOf;
    hide Packet;
    hide Stable;
  }

  lemma NothingUnderWay(s: Net, s': Net, x: Setting, m: Msg, row: Row)
    requires s'.flight == s.flight + multiset{m} && !IsReplyOf(m.packet, x.nonce)
    requires forall f :: f in s.flight ==> !OfTrace(f.packet, x.nonce)
    ensures UnderWay(s', x, row) == 0
  {
    NoRepliesIn(s.flight, x, row);
    hide OfTrace, IsReplyOf;
    SumUnion(s.flight, multiset{m}, Bringing(x, row));
    SumOne(m, Bringing(x, row));
  }

  lemma OneProbe(s: Net, s': Net, m: Msg, nonce: Bytes)
    requires s'.flight == s.flight + multiset{m} && IsProbe(m.packet, nonce)
    requires forall f :: f in s.flight ==> !OfTrace(f.packet, nonce)
    ensures Probes(s', nonce) == multiset{m}
  {
    NoProbesIn(s.flight, nonce);
    hide OfTrace, IsProbe;
    FilterUnion(s.flight, multiset{m}, ProbeMsg(nonce));
    FilterOne(m, ProbeMsg(nonce));
    assert multiset{} + multiset{m} == multiset{m};
  }

  lemma BooksOpen(s: Net, s': Net, x: Setting, m: Msg)
    requires x.WellFormed() && Recording(s', x) && Records(s', x) == [] && s'.flight == s.flight + multiset{m}
    requires Heading(m, x, 0) && !IsReplyOf(m.packet, x.nonce)
    requires forall f :: f in s.flight ==> !OfTrace(f.packet, x.nonce)
    ensures Ledger(s', x, 0)
  {
    hide OfTrace, IsReplyOf, IsProbe, Probes, UnderWay, Recording, Records;
    OneProbe(s, s', m, x.nonce);
    forall row: Row
      ensures UnderWay(s', x, row) == 0
    {
      NothingUnderWay(s, s', x, m, row);
    }
    assert ProbeAt(Probes(s', x.nonce), x, 0);
    hide Heading, ProbeAt;
    assert ShownRows(x, 0) == [];
    LedgerIs(s', x, 0);
  }

  lemma TraceBegins(env: Env, s: Net, x: Setting, stamp: bv64)
    requires Begins(env, s, x, stamp)
    ensures Ledger(Started(env, s, x, stamp), x, 0)
  {
    var m := FirstProbe(env, s, x, stamp);
    assert x.WellFormed() && forall f :: f in s.flight ==> !OfTrace(f.packet, x.nonce);
    hide *;
    BooksOpen(s, Started(env, s, x, stamp), x, m);
  }

  /** Nothing of the trace is under way any more. */
  ghost predicate AtRest(s: Net, nonce: Bytes) {
    forall m :: m in s.flight ==> !OfTrace(m.packet, nonce)
  }

  lemma BooksAtRest(s: Net, x: Setting, k: nat)
    requires x.WellFormed() && Ledger(s, x, k) && AtRest(s, x.nonce)
    ensures Recording(s, x) && multiset(Records(s, x)) == multiset(ShownRows(x, x.Reach()))
  {
    hide OfTrace;
    hide Heading;
    hide ShownRows;
    NoProbesIn(s.flight, x.nonce);
    NoProbeNoHop(x, k);
    forall row: Row
      ensures multiset(Records(s, x))[row] == multiset(ShownRows(x, x.Reach()))[row]
    {
      NoRepliesIn(s.flight, x, row);
    }
  }

  lemma NoProbeNoHop(x: Setting, k: nat)
    requires x.WellFormed() && k <= x.Reach() && ProbeAt(multiset{}, x, k)
    ensures k == x.Reach()
  {
    assert forall m: Msg :: m in multiset{m};
  }

  // ---------- The table ----------

  /** The sort key of a row; the table prints it plus one. */
  function Position(row: Row): int {
    TRACE_TTL as int - row.1 as int
  }

  lemma PositionIs(x: Setting, i: nat)
    requires x.WellFormed() && i < x.Reach()
    ensures Position(RowAt(x, i)) == i
  {
    TtlIs(i);
    hide Ttl;
    assert TRACE_TTL as int == 32;
  }

  ghost predicate Sorted<T(!new)>(s: seq<T>, key: T -> int) {
    forall i, j :: 0 <= i < j < |s| ==> key(s[i]) <= key(s[j])
  }

  ghost predicate StrictlySorted<T(!new)>(s: seq<T>, key: T -> int) {
    forall i, j :: 0 <= i < j < |s| ==> key(s[i]) < key(s[j])
  }

  /** A list that is strictly sorted is what any sort of any reordering of it returns. */
  lemma {:induction false} SortsTo<T(!new)>(a: seq<T>, b: seq<T>, key: T -> int)
    requires multiset(a) == multiset(b) && Sorted(b, key) && StrictlySorted(a, key)
    ensures a == b
  {
    assert |a| == |multiset(a)| == |multiset(b)| == |b|;
    if a != [] {
      SameFirst(a, b, key);
      SameRest(a, b);
      SortsTo(a[1..], b[1..], key);
      assert a == [a[0]] + a[1..] && b == [b[0]] + b[1..];
    }
  }

  lemma SameRest<T>(a: seq<T>, b: seq<T>)
    requires a != [] && b != [] && a[0] == b[0] && multiset(a) == multiset(b)
    ensures multiset(a[1..]) == multiset(b[1..])
  {
    assert a == [a[0]] + a[1..] && b == [b[0]] + b[1..];
    assert multiset(a[1..]) == multiset(a) - multiset{a[0]};
    assert multiset(b[1..]) == multiset(b) - multiset{b[0]};
  }

  lemma SameFirst<T(!new)>(a: seq<T>, b: seq<T>, key: T -> int)
    requires a != [] && b != [] && multiset(a) == multiset(b) && Sorted(b, key) && StrictlySorted(a, key)
    ensures a[0] == b[0]
  {
    assert a[0] in multiset(b) && b[0] in multiset(a);
    var j :| 0 <= j < |b| && b[j] == a[0];
    var i :| 0 <= i < |a| && a[i] == b[0];
    assert key(b[0]) <= key(b[j]);
  }

  /** The shown rows come in order of their positions. */
  lemma {:induction false} ShownRowsSorted(x: Setting, j: nat)
    requires x.WellFormed() && j <= x.Reach()
    ensures StrictlySorted(ShownRows(x, j), Position)
    ensures forall i :: 0 <= i < |ShownRows(x, j)| ==> Position(ShownRows(x, j)[i]) < j
  {
    if j > 0 {
      ShownRowsSorted(x, j - 1);
      PositionIs(x, j - 1);
      hide RowAt;
      hide Position;
    }
  }

  /** A hop within reach has its row among them exactly if it is shown. */
  lemma {:induction false} ShownRowsHold(x: Setting, j: nat, i: nat)
    requires x.WellFormed() && j <= x.Reach() && i < x.Reach()
    ensures RowAt(x, i) in ShownRows(x, j) <==> i < j && x.Shown(i)
  {
    if j > 0 {
      ShownRowsHold(x, j - 1, i);
      PositionIs(x, j - 1);
      PositionIs(x, i);
      hide RowAt;
      hide Position;
    }
  }

  /** They are as many as hops passed exactly if every hop is shown, and then each row stands at its position. */
  lemma {:induction false} ShownRowsCount(x: Setting, j: nat)
    requires x.WellFormed() && j <= x.Reach()
    ensures |ShownRows(x, j)| <= j
    ensures |ShownRows(x, j)| == j <==> forall i :: 0 <= i < j ==> x.Shown(i)
    ensures |ShownRows(x, j)| == j ==> forall i :: 0 <= i < j ==> ShownRows(x, j)[i] == RowAt(x, i)
  {
    if j > 0 {
      ShownRowsCount(x, j - 1);
      hide RowAt;
    }
  }

  /**
   * Along stable routes, with nothing lost and everything accepted, a trace that has come to rest has recorded hop
   * i + 1 exactly if that node has a name and its next hop towards the source is the tracer itself; whatever the order
   * of the replies.
   */
  lemma TraceRecordsDirectHops(env: Env, s: Net, x: Setting, stamp: bv64, steps: seq<Step>)
    requires Begins(env, s, x, stamp)
    requires Runs(env, Started(env, s, x, stamp), steps) && QuietRun(env, Started(env, s, x, stamp), steps, x)
    requires AtRest(Final(env, Started(env, s, x, stamp), steps), x.nonce)
    ensures var f := Final(env, Started(env, s, x, stamp), steps);
            && Recording(f, x) && multiset(Records(f, x)) == multiset(ShownRows(x, x.Reach()))
            && forall i :: 0 <= i < x.Reach() ==> (RowAt(x, i) in Records(f, x) <==> x.direct[i] && x.names[i] != [])
  {
    var s' := Started(env, s, x, stamp);
    var f := Final(env, s', steps);
    TraceBegins(env, s, x, stamp);
    hide Ledger;
    hide Begins;
    hide Started;
    hide QuietRun;
    hide Runs;
    hide Final;
    hide AtRest;
    var k := RunKeepsBooks(env, s', steps, x, 0);
    BooksAtRest(f, x, k);
    hide ShownRows;
    hide RowAt;
    forall i | 0 <= i < x.Reach()
      ensures RowAt(x, i) in Records(f, x) <==> x.direct[i] && x.names[i] != []
    {
      ShownRowsHold(x, x.Reach(), i);
      assert RowAt(x, i) in Records(f, x) <==> RowAt(x, i) in multiset(Records(f, x));
      assert RowAt(x, i) in ShownRows(x, x.Reach()) <==> RowAt(x, i) in multiset(ShownRows(x, x.Reach()));
    }
  }

  /** The table lists the whole path (1, n1), (2, n2), ..., up to 32 hops. */
  predicate ListsPath(table: seq<Row>, x: Setting)
    requires x.WellFormed()
  {
    |table| == x.Reach() && forall i :: 0 <= i < x.Reach() ==> Position(table[i]) == i && table[i].0 == x.names[i]
  }

  lemma SortedRows(x: Setting, records: seq<Row>, table: seq<Row>)
    requires x.WellFormed() && multiset(records) == multiset(ShownRows(x, x.Reach()))
    requires multiset(table) == multiset(records) && Sorted(table, Position)
    ensures table == ShownRows(x, x.Reach())
    ensures ListsPath(table, x) <==> forall i :: 0 <= i < x.Reach() ==> x.Shown(i)
  {
    ShownRowsSorted(x, x.Reach());
    ShownRowsCount(x, x.Reach());
    SortsTo(ShownRows(x, x.Reach()), table, Position);
    hide ShownRows;
    hide Position;
    hide StrictlySorted;
    if forall i :: 0 <= i < x.Reach() ==> x.Shown(i) {
      forall i | 0 <= i < x.Reach()
        ensures Position(table[i]) == i && table[i].0 == x.names[i]
      {
        assert table[i] == RowAt(x, i);
        PositionIs(x, i);
      }
    }
  }

  /**
   * The table a trace shows, sorted from its records whatever their order: exactly the shown hops, in order of the
   * path. So it is the whole path exactly if every hop within reach has a name and answers over a direct link.
   */
  lemma TraceTable(env: Env, s: Net, x: Setting, stamp: bv64, steps: seq<Step>, table: seq<Row>)
    requires Begins(env, s, x, stamp)
    requires Runs(env, Started(env, s, x, stamp), steps) && QuietRun(env, Started(env, s, x, stamp), steps, x)
    requires var f := Final(env, Started(env, s, x, stamp), steps);
             && AtRest(f, x.nonce)
             && (Recording(f, x) ==> multiset(table) == multiset(Records(f, x)) && Sorted(table, Position))
    ensures table == ShownRows(x, x.Reach())
    ensures ListsPath(table, x) <==> forall i :: 0 <= i < x.Reach() ==> x.Shown(i)
  {
    assert x.WellFormed();
    hide *;
    TraceRecordsDirectHops(env, s, x, stamp, steps);
    SortedRows(x, Records(Final(env, Started(env, s, x, stamp), steps), x), table);
  }
}
