/**
 * A trace that misses a hop: three .NET nodes in a line 0 - 1 - 2, grown from nothing by the network's own steps. Node
 * 0 traces node 2. Node 2 answers, but its answer goes to node 1, which drops it: the table shows the first hop only.
 */
module DeadReply {
  import opened Wire
  import opened RouteTable
  import opened PacketStep
  import opened Network
  import opened Sums
  import opened Tracing
  import opened HopTable
  import Flood

  const L01 := End(0, 1, 0, false)
  const L10 := End(1, 0, 0, true)
  const L12 := End(1, 2, 1, false)
  const L21 := End(2, 1, 1, true)
  const NOW := Clock(9, 9, 9)

  /** Names of the three nodes, the addresses of node 0 (source) and node 2 (target), and the nonce of the trace. */
  datatype Cast = Cast(names: seq<Bytes>, source: Address, target: Address, nonce: Bytes) {
    predicate Fits(env: Env) {
      && |names| == 3 && names[0] != [] && names[1] != [] && names[2] != []
      && |source| == 16 && |target| == 16 && source != target && |nonce| == 8
      && env.resolve(names[0]) == Some(source) && env.resolve(names[2]) == Some(target)
    }

    function Setting(): (x: HopTable.Setting)
      requires |names| == 3
    {
      HopTable.Setting(0, nonce, target, source, [1, 2], [names[1], names[2]], [true, false])
    }
  }

  function TraceMsg(nonce: Bytes): Msg -> bool {
    (m: Msg) => OfTrace(m.packet, nonce)
  }

  ghost function Traffic(s: Net, nonce: Bytes): multiset<Msg> {
    Filter(s.flight, TraceMsg(nonce))
  }

  /** The nodes at some point: their tables and caches. */
  ghost predicate NodesAre(s: Net, c: Cast, t: seq<Table<End>>, seen: seq<seq<bv64>>) {
    && |s.nodes| == |t| == |seen| == |c.names| == 3
    && (forall k :: 0 <= k < 3 ==> NodeIs(s.nodes[k], c.names[k], t[k], seen[k]) && t[k].peers <= s.joined)
    && c.source in s.nodes[0].owned && c.target in s.nodes[2].owned
    && c.target !in s.nodes[0].owned && c.target !in s.nodes[1].owned
  }

  predicate NodeIs(node: Node<End>, name: Bytes, t: Table<End>, seen: seq<bv64>) {
    node.impl == DotNet && node.name == name && node.table == t && node.seen.order == seen && node.seen.capacity >= 8
  }

  /** With that, some announcements in flight and no packet of the trace. */
  ghost predicate Scene(s: Net, c: Cast, t: seq<Table<End>>, seen: seq<seq<bv64>>, f: set<Msg>) {
    NodesAre(s, c, t, seen) && (forall m :: m in f ==> m in s.flight) && Traffic(s, c.nonce) == multiset{}
  }

  lemma TrafficChange(s: Net, s': Net, gone: multiset<Msg>, extra: multiset<Msg>, nonce: Bytes)
    requires gone <= s.flight && s'.flight == s.flight - gone + extra
    ensures Traffic(s', nonce) + Filter(gone, TraceMsg(nonce)) == Traffic(s, nonce) + Filter(extra, TraceMsg(nonce))
  {
    hide TraceMsg;
    var kept := s.flight - gone;
    assert s.flight == kept + gone;
    FilterUnion(kept, gone, TraceMsg(nonce));
    FilterUnion(kept, extra, TraceMsg(nonce));
  }

  lemma NoTraffic(s: Net, s': Net, gone: multiset<Msg>, extra: multiset<Msg>, nonce: Bytes)
    requires gone <= s.flight && s'.flight == s.flight - gone + extra && Traffic(s, nonce) == multiset{}
    requires forall m :: m in gone || m in extra ==> !OfTrace(m.packet, nonce)
    ensures Traffic(s', nonce) == multiset{}
  {
    hide OfTrace;
    hide Traffic;
    FilterNone(gone, TraceMsg(nonce));
    FilterNone(extra, TraceMsg(nonce));
    TrafficChange(s, s', gone, extra, nonce);
    assert Traffic(s', nonce) == Traffic(s', nonce) + multiset{} == multiset{} + multiset{} == multiset{};
  }

  lemma Opening(env: Env, s: Net, c: Cast, e: End, t: seq<Table<End>>, seen: seq<seq<bv64>>)
    requires Scene(s, c, t, seen, {}) && e.at < 3 && e.to < 3
    ensures Enabled(env, s, Open(e))
    ensures Scene(Apply(env, s, Open(e)), c, t[e.at := t[e.at].Add(e)], seen, {})
  {
  }

  /** Node k announces its name over link e. */
  lemma Announcing(env: Env, s: Net, c: Cast, k: nat, e: End, t: seq<Table<End>>, seen: seq<seq<bv64>>, f: set<Msg>)
    requires Scene(s, c, t, seen, f) && c.Fits(env) && (k == 0 || k == 2) && e in t[k].peers
    ensures var step := Announce(k, 0, c.names[k], 9);
            && Enabled(env, s, step)
            && Scene(Apply(env, s, step), c, t, seen, f + {Msg(e, Packet(0, c.names[k], 9))})
  {
    var (step, packet, peers) := (Announce(k, 0, c.names[k], 9), Packet(0, c.names[k], 9), t[k].peers);
    PacketOfTrace(0, c.names[k], 9, c.nonce);
    assert NodeIs(s.nodes[k], c.names[k], t[k], seen[k]);
    hide Packet, OfTrace, Traffic, ToAll;
    var s' := Apply(env, s, step);
    assert s'.flight == s.flight - multiset{} + ToAll(peers, packet);
    assert NodesAre(s', c, t, seen);
    hide Scene, NodesAre, NodeIs, Apply;
    AllSent(peers, packet, e);
    SceneAfter(s, s', c, t, seen, t, seen, f, multiset{}, ToAll(peers, packet), {}, Msg(e, packet));
    assert f - {} == f;
  }

  lemma AllSent(peers: set<End>, packet: Bytes, e: End)
    ensures forall m :: m in ToAll(peers, packet) ==> m.packet == packet
    ensures e in peers ==> Msg(e, packet) in ToAll(peers, packet)
  {
  }

  /** Some messages leave the flight and others join it; `next` is one of these. */
  lemma SceneAfter(s: Net, s': Net, c: Cast, t: seq<Table<End>>, seen: seq<seq<bv64>>, t': seq<Table<End>>,
                   seen': seq<seq<bv64>>, f: set<Msg>, gone: multiset<Msg>, extra: multiset<Msg>, g: set<Msg>,
                   next: Msg)
    requires Scene(s, c, t, seen, f) && NodesAre(s', c, t', seen')
    requires gone <= s.flight && s'.flight == s.flight - gone + extra
    requires (forall m :: m in gone ==> m in g) && next in extra
    requires forall m :: m in gone || m in extra ==> !OfTrace(m.packet, c.nonce)
    ensures Scene(s', c, t', seen', f - g + {next})
  {
    hide OfTrace, Traffic, NodesAre;
    NoTraffic(s, s', gone, extra, c.nonce);
  }

  /** Node k hears an announcement for the first time and floods it, also over link e. */
  lemma Hearing(env: Env, s: Net, c: Cast, m: Msg, e: End, a: Address, t: seq<Table<End>>, seen: seq<seq<bv64>>,
                f: set<Msg>)
    requires Scene(s, c, t, seen, f) && m in f && m.via.to < 3
    requires Twin(m.via) in t[m.via.to].peers && e in t[m.via.to].peers
    requires TracerOf(env, m.packet) == Some(a) && Fresh(Timestamp(m.packet), 9) && !OfTrace(m.packet, c.nonce)
    requires env.fingerprint(m.packet) !in seen[m.via.to] && |seen[m.via.to]| < 8
    ensures Enabled(env, s, Deliver(m, NOW))
    ensures var k := m.via.to;
            Scene(Apply(env, s, Deliver(m, NOW)), c, t[k := t[k].Learn(DotNet, Timestamp(m.packet), a, Twin(m.via))],
                  seen[k := seen[k] + [env.fingerprint(m.packet)]], f - {m} + {Msg(e, m.packet)})
  {
    var (k, peers) := (m.via.to, t[m.via.to].peers);
    assert NodeIs(s.nodes[k], c.names[k], t[k], seen[k]);
    assert Enabled(env, s, Deliver(m, NOW));
    Flood.DeliverFirst(env, s, m, NOW);
    hide Apply, Enabled, TracerOf, Fresh, LoadU64, OfTrace, Traffic, ToAll;
    var s' := Apply(env, s, Deliver(m, NOW));
    HeardNodes(env, s, s', c, m, a, t, seen);
    hide NodesAre, NodeIs;
    AllSent(peers, m.packet, e);
    SceneAfter(s, s', c, t, seen, t[k := t[k].Learn(DotNet, Timestamp(m.packet), a, Twin(m.via))],
               seen[k := seen[k] + [env.fingerprint(m.packet)]], f, multiset{m}, ToAll(peers, m.packet), {m},
               Msg(e, m.packet));
  }

  lemma HeardNodes(env: Env, s: Net, s': Net, c: Cast, m: Msg, a: Address, t: seq<Table<End>>, seen: seq<seq<bv64>>)
    requires NodesAre(s, c, t, seen) && m.via.to < 3 && s'.joined == s.joined
    requires env.fingerprint(m.packet) !in seen[m.via.to] && |seen[m.via.to]| < 8 && |m.packet| >= HEADER
    requires var (k, node) := (m.via.to, s.nodes[m.via.to]);
             s'.nodes == s.nodes[k := node.(
                 seen := node.seen.Add(env.fingerprint(m.packet)).1,
                 table := node.table.Learn(DotNet, Timestamp(m.packet), a, Twin(m.via)))]
    ensures var k := m.via.to;
            NodesAre(s', c, t[k := t[k].Learn(DotNet, Timestamp(m.packet), a, Twin(m.via))],
                     seen[k := seen[k] + [env.fingerprint(m.packet)]])
  {
    hide LoadU64;
    assert NodeIs(s.nodes[m.via.to], c.names[m.via.to], t[m.via.to], seen[m.via.to]);
  }

  // ---------- The network grows and the two ends become known ----------

  const GROW := [Open(L01), Open(L10), Open(L12), Open(L21)]

  function Hello(c: Cast, k: nat): Bytes
    requires k < |c.names|
  {
    Packet(0, c.names[k], 9)
  }

  function Spread(c: Cast, k: nat, first: End, second: End): seq<Step>
    requires k < |c.names|
  {
    [Announce(k, 0, c.names[k], 9), Deliver(Msg(first, Hello(c, k)), NOW), Deliver(Msg(second, Hello(c, k)), NOW)]
  }

  function Tables(routes: seq<map<Address, Route<End>>>): seq<Table<End>>
    requires |routes| == 3
  {
    [Table({L01}, routes[0]), Table({L10, L12}, routes[1]), Table({L21}, routes[2])]
  }

  lemma HelloFacts(env: Env, c: Cast, k: nat)
    requires c.Fits(env) && (k == 0 || k == 2)
    ensures TracerOf(env, Hello(c, k)) == Some(if k == 0 then c.source else c.target)
    ensures Timestamp(Hello(c, k)) == 9 && Fresh(Timestamp(Hello(c, k)), 9) && !OfTrace(Hello(c, k), c.nonce)
  {
    PacketOfTrace(0, c.names[k], 9, c.nonce);
    hide LoadU64;
    hide StoreU64;
    hide OfTrace;
  }

  lemma RunGrow(env: Env, s: Net, c: Cast)
    requires Scene(s, c, [Table({}, map[]), Table({}, map[]), Table({}, map[])], [[], [], []], {})
    ensures Runs(env, s, GROW)
    ensures Scene(Final(env, s, GROW), c, Tables([map[], map[], map[]]), [[], [], []], {})
  {
    hide Apply;
    hide Enabled;
    hide Scene;
    var none: Table<End> := Table({}, map[]);
    var seen: seq<seq<bv64>> := [[], [], []];
    var t := [none, none, none];
    Opening(env, s, c, L01, t, seen);
    var (s1, t1) := (Apply(env, s, Open(L01)), t[0 := none.Add(L01)]);
    Opening(env, s1, c, L10, t1, seen);
    var (s2, t2) := (Apply(env, s1, Open(L10)), t1[1 := none.Add(L10)]);
    Opening(env, s2, c, L12, t2, seen);
    var (s3, t3) := (Apply(env, s2, Open(L12)), t2[1 := none.Add(L10).Add(L12)]);
    Opening(env, s3, c, L21, t3, seen);
    assert none.Add(L01) == Table({L01}, map[]) && none.Add(L21) == Table({L21}, map[]);
    assert none.Add(L10).Add(L12) == Table({L10, L12}, map[]);
    assert t3[2 := none.Add(L21)] == Tables([map[], map[], map[]]);
    Two(env, s, Open(L01), Open(L10));
    Two(env, s2, Open(L12), Open(L21));
    RunsConcat(env, s, [Open(L01), Open(L10)], [Open(L12), Open(L21)]);
    assert GROW == [Open(L01), Open(L10)] + [Open(L12), Open(L21)];
  }

  /** Node 2 announces itself: node 1 and then node 0 learn the target. */
  lemma RunSpreadTarget(env: Env, s: Net, c: Cast)
    requires Scene(s, c, Tables([map[], map[], map[]]), [[], [], []], {}) && c.Fits(env)
    ensures Runs(env, s, Spread(c, 2, L21, L10))
    ensures var h := env.fingerprint(Hello(c, 2));
            Scene(Final(env, s, Spread(c, 2, L21, L10)), c,
                  Tables([map[c.target := Route(9, L01)], map[c.target := Route(9, L12)], map[]]), [[h], [h], []],
                  {Msg(L01, Hello(c, 2))})
  {
    hide Apply;
    hide Enabled;
    hide Scene;
    hide Fresh;
    var (hello, h) := (Hello(c, 2), env.fingerprint(Hello(c, 2)));
    HelloFacts(env, c, 2);
    hide TracerOf;
    hide Timestamp;
    hide OfTrace;
    var t: seq<Table<End>> := Tables([map[], map[], map[]]);
    var seen: seq<seq<bv64>> := [[], [], []];
    Announcing(env, s, c, 2, L21, t, seen, {});
    hide Hello;
    hide Packet;
    var s1 := Apply(env, s, Announce(2, 0, c.names[2], 9));
    Hearing(env, s1, c, Msg(L21, hello), L10, c.target, t, seen, {} + {Msg(L21, hello)});
    var (s2, t2) := (Apply(env, s1, Deliver(Msg(L21, hello), NOW)),
                     Tables([map[], map[c.target := Route(9, L12)], map[]]));
    assert t[1 := t[1].Learn(DotNet, 9, c.target, L12)] == t2;
    assert [] + [h] == [h] && seen[1 := [h]] == [[], [h], []];
    assert {} + {Msg(L21, hello)} - {Msg(L21, hello)} + {Msg(L10, hello)} == {Msg(L10, hello)};
    Hearing(env, s2, c, Msg(L10, hello), L01, c.target, t2, [[], [h], []], {Msg(L10, hello)});
    assert t2[0 := t2[0].Learn(DotNet, 9, c.target, L01)]
           == Tables([map[c.target := Route(9, L01)], map[c.target := Route(9, L12)], map[]]);
    assert [[], [h], []][0 := [h]] == [[h], [h], []];
    assert {Msg(L10, hello)} - {Msg(L10, hello)} + {Msg(L01, hello)} == {Msg(L01, hello)};
    Three(env, s, Announce(2, 0, c.names[2], 9), Deliver(Msg(L21, hello), NOW), Deliver(Msg(L10, hello), NOW));
  }

  lemma Three(env: Env, s: Net, a: Step, b: Step, c: Step)
    requires Enabled(env, s, a) && Enabled(env, Apply(env, s, a), b) && Enabled(env, Apply(env, Apply(env, s, a), b), c)
    ensures Runs(env, s, [a, b, c]) && Final(env, s, [a, b, c]) == Apply(env, Apply(env, Apply(env, s, a), b), c)
  {
    hide Apply;
    hide Enabled;
    Two(env, s, a, b);
    One(env, Apply(env, Apply(env, s, a), b), c);
    RunsConcat(env, s, [a, b], [c]);
    assert [a, b, c] == [a, b] + [c];
  }

  function LineTables(c: Cast): seq<Table<End>> {
    Tables([map[c.target := Route(9, L01)], map[c.target := Route(9, L12), c.source := Route(9, L10)],
            map[c.source := Route(9, L21)]])
  }

  /** Node 0 announces itself: node 1 and then node 2 learn the source. */
  lemma RunSpreadSource(env: Env, s: Net, c: Cast)
    requires c.Fits(env) && env.fingerprint(Hello(c, 0)) != env.fingerprint(Hello(c, 2))
    requires var h := env.fingerprint(Hello(c, 2));
             Scene(s, c, Tables([map[c.target := Route(9, L01)], map[c.target := Route(9, L12)], map[]]),
                   [[h], [h], []],
                   {Msg(L01, Hello(c, 2))})
    ensures Runs(env, s, Spread(c, 0, L01, L12))
    ensures var (g, h) := (env.fingerprint(Hello(c, 0)), env.fingerprint(Hello(c, 2)));
            NodesAre(Final(env, s, Spread(c, 0, L01, L12)), c, LineTables(c), [[h], [h, g], [g]])
    ensures Traffic(Final(env, s, Spread(c, 0, L01, L12)), c.nonce) == multiset{}
  {
    hide Apply;
    hide Enabled;
    hide Scene;
    hide Fresh;
    var (hello, g, h) := (Hello(c, 0), env.fingerprint(Hello(c, 0)), env.fingerprint(Hello(c, 2)));
    var (other, seen) := (Msg(L01, Hello(c, 2)), [[h], [h], []]);
    HelloFacts(env, c, 0);
    hide TracerOf;
    hide Timestamp;
    hide OfTrace;
    var t := Tables([map[c.target := Route(9, L01)], map[c.target := Route(9, L12)], map[]]);
    Announcing(env, s, c, 0, L01, t, seen, {other});
    hide Hello;
    hide Packet;
    var s1 := Apply(env, s, Announce(0, 0, c.names[0], 9));
    Hearing(env, s1, c, Msg(L01, hello), L12, c.source, t, seen, {other} + {Msg(L01, hello)});
    var s2 := Apply(env, s1, Deliver(Msg(L01, hello), NOW));
    var routes := map[c.target := Route(9, L12), c.source := Route(9, L10)];
    var t2 := Tables([map[c.target := Route(9, L01)], routes, map[]]);
    assert t[1 := t[1].Learn(DotNet, 9, c.source, L10)] == t2;
    assert [h] + [g] == [h, g] && seen[1 := [h, g]] == [[h], [h, g], []];
    var f := {other} + {Msg(L01, hello)} - {Msg(L01, hello)} + {Msg(L12, hello)};
    Hearing(env, s2, c, Msg(L12, hello), L21, c.source, t2, [[h], [h, g], []], f);
    assert t2[2 := t2[2].Learn(DotNet, 9, c.source, L21)] == LineTables(c);
    assert [] + [g] == [g] && [[h], [h, g], []][2 := [g]] == [[h], [h, g], [g]];
    Three(env, s, Announce(0, 0, c.names[0], 9), Deliver(Msg(L01, hello), NOW), Deliver(Msg(L12, hello), NOW));
    SceneParts(Final(env, s, Spread(c, 0, L01, L12)), c, LineTables(c), [[h], [h, g], [g]],
               f - {Msg(L12, hello)} + {Msg(L21, hello)});
  }

  lemma SceneParts(s: Net, c: Cast, t: seq<Table<End>>, seen: seq<seq<bv64>>, f: set<Msg>)
    requires Scene(s, c, t, seen, f)
    ensures NodesAre(s, c, t, seen) && Traffic(s, c.nonce) == multiset{}
  {
  }

  function Growing(c: Cast): seq<Step>
    requires |c.names| == 3
  {
    GROW + Spread(c, 2, L21, L10) + Spread(c, 0, L01, L12)
  }

  lemma RunGrowing(env: Env, s: Net, c: Cast)
    requires Scene(s, c, [Table({}, map[]), Table({}, map[]), Table({}, map[])], [[], [], []], {})
    requires c.Fits(env) && env.fingerprint(Hello(c, 0)) != env.fingerprint(Hello(c, 2))
    ensures Runs(env, s, Growing(c))
    ensures var (g, h) := (env.fingerprint(Hello(c, 0)), env.fingerprint(Hello(c, 2)));
            NodesAre(Final(env, s, Growing(c)), c, LineTables(c), [[h], [h, g], [g]])
    ensures Traffic(Final(env, s, Growing(c)), c.nonce) == multiset{}
  {
    hide Runs;
    hide Final;
    hide Scene;
    hide NodesAre;
    hide Traffic;
    hide Spread;
    hide Hello;
    RunGrow(env, s, c);
    RunSpreadTarget(env, Final(env, s, GROW), c);
    RunsConcat(env, s, GROW, Spread(c, 2, L21, L10));
    RunSpreadSource(env, Final(env, s, GROW + Spread(c, 2, L21, L10)), c);
    RunsConcat(env, s, GROW + Spread(c, 2, L21, L10), Spread(c, 0, L01, L12));
  }

  // ---------- The trace ----------

  /** The probe on its way to node k + 1, and the answer of node k. */
  function ProbeTo(c: Cast, k: nat): Bytes
    requires |c.names| == 3 && c.Setting().WellFormed()
  {
    Packet(4, ProbePayload(c.Setting(), k), 9)
  }

  function AnswerOf(c: Cast, k: nat): Bytes
    requires |c.names| == 3 && c.Setting().WellFormed() && 0 < k < 3
  {
    Packet(5, ProbePayload(c.Setting(), k - 1)[..9] + c.names[k], 9)
  }

  /** The fingerprints of the six packets; no two packets that meet at a node share theirs. */
  datatype Marks = Marks(hello0: bv64, hello2: bv64, probe1: bv64, probe2: bv64, answer1: bv64, answer2: bv64) {
    predicate Differ() {
      && hello0 != hello2 && probe1 != hello0 && probe1 != hello2 && probe2 != hello0 && answer1 != hello2
      && answer2 != hello0 && answer2 != hello2 && answer2 != probe1
    }
  }

  function MarksOf(env: Env, c: Cast): Marks
    requires |c.names| == 3 && c.Setting().WellFormed()
  {
    Marks(env.fingerprint(Hello(c, 0)), env.fingerprint(Hello(c, 2)), env.fingerprint(ProbeTo(c, 0)),
          env.fingerprint(ProbeTo(c, 1)), env.fingerprint(AnswerOf(c, 1)), env.fingerprint(AnswerOf(c, 2)))
  }

  lemma Swapped(a: multiset<Msg>, b: multiset<Msg>, m: Msg, extra: multiset<Msg>)
    requires b + multiset{m} == a + extra && m in a
    ensures b == a - multiset{m} + extra
  {
    assert b == b + multiset{m} - multiset{m} == a + extra - multiset{m};
  }

  lemma MarkFacts(env: Env, c: Cast, w: Marks)
    requires |c.names| == 3 && c.Setting().WellFormed() && w == MarksOf(env, c) && w.Differ()
    ensures env.fingerprint(Hello(c, 0)) == w.hello0 && env.fingerprint(Hello(c, 2)) == w.hello2 && w.hello0 != w.hello2
    ensures env.fingerprint(ProbeTo(c, 0)) == w.probe1 && w.probe1 !in [w.hello2, w.hello0]
    ensures env.fingerprint(ProbeTo(c, 1)) == w.probe2 && w.probe2 !in [w.hello0]
    ensures env.fingerprint(AnswerOf(c, 1)) == w.answer1 && w.answer1 !in [w.hello2]
    ensures env.fingerprint(AnswerOf(c, 2)) == w.answer2 && w.answer2 !in [w.hello2, w.hello0, w.probe1]
  {
    hide Hello;
    hide ProbeTo;
    hide AnswerOf;
  }

  lemma CastFacts(env: Env, c: Cast)
    requires c.Fits(env)
    ensures |c.names| == 3 && c.Setting().WellFormed() && c.Setting().nonce == c.nonce
  {
  }

  lemma TrafficStep(s: Net, s': Net, m: Msg, extra: multiset<Msg>, nonce: Bytes)
    requires m in s.flight && s'.flight == s.flight - multiset{m} + extra
    requires OfTrace(m.packet, nonce) && forall e :: e in extra ==> OfTrace(e.packet, nonce)
    ensures Traffic(s', nonce) == Traffic(s, nonce) - multiset{m} + extra
  {
    FilterOne(m, TraceMsg(nonce));
    FilterAt(s.flight, TraceMsg(nonce), m);
    assert m in Traffic(s, nonce);
    FilterAll(extra, nonce);
    hide *;
    TrafficChange(s, s', multiset{m}, extra, nonce);
    Swapped(Traffic(s, nonce), Traffic(s', nonce), m, extra);
  }

  lemma FilterAll(f: multiset<Msg>, nonce: Bytes)
    requires forall m :: m in f ==> OfTrace(m.packet, nonce)
    ensures Filter(f, TraceMsg(nonce)) == f
  {
    hide OfTrace;
    forall m
      ensures Filter(f, TraceMsg(nonce))[m] == f[m]
    {
      FilterAt(f, TraceMsg(nonce), m);
    }
  }

  /** Accepting a probe or a reply changes nothing of a node but its cache and its records. */
  lemma TracePacketNode(env: Env, node: Node<End>, packet: Bytes, link: End, clock: Clock)
    requires Accepts(env, node, packet, clock) && (packet[8] == 4 || packet[8] == 5)
    ensures var after := Process(env, node, packet, link, clock).0;
            && after.table == node.table && after.impl == node.impl && after.name == node.name
               && after.owned == node.owned
            && after.seen == node.seen.Add(env.fingerprint(packet)).1
  {
    hide HandleProbe;
    hide Fresh;
    hide LoadU64;
  }

  /** A packet of the trace arrives at node k: it is accepted, and only the cache and the records of k change. */
  lemma Arrival(env: Env, s: Net, c: Cast, m: Msg, t: seq<Table<End>>, seen: seq<seq<bv64>>)
    requires NodesAre(s, c, t, seen) && m in s.flight && m.via.to < 3 && Twin(m.via) in t[m.via.to].peers
    requires |m.packet| >= HEADER && (m.packet[8] == 4 || m.packet[8] == 5) && Timestamp(m.packet) == 9
    requires env.fingerprint(m.packet) !in seen[m.via.to] && |seen[m.via.to]| < 8
    ensures Enabled(env, s, Deliver(m, NOW)) && Accepts(env, s.nodes[m.via.to], m.packet, NOW)
    ensures NodesAre(Apply(env, s, Deliver(m, NOW)), c, t,
                     seen[m.via.to := seen[m.via.to] + [env.fingerprint(m.packet)]])
  {
    var k := m.via.to;
    assert NodeIs(s.nodes[k], c.names[k], t[k], seen[k]);
    TracePacketNode(env, s.nodes[k], m.packet, Twin(m.via), NOW);
    hide Process;
    hide LoadU64;
  }

  lemma LineIsStable(env: Env, s: Net, c: Cast, seen: seq<seq<bv64>>)
    requires NodesAre(s, c, LineTables(c), seen) && c.Fits(env)
    ensures Stable(s, c.Setting())
  {
    var x := c.Setting();
    assert NodeIs(s.nodes[0], c.names[0], LineTables(c)[0], seen[0]);
    assert NodeIs(s.nodes[1], c.names[1], LineTables(c)[1], seen[1]);
    assert NodeIs(s.nodes[2], c.names[2], LineTables(c)[2], seen[2]);
    assert HopStable(s, x, 0);
    assert HopStable(s, x, 1);
  }

  lemma PacketFacts(env: Env, c: Cast, k: nat)
    requires c.Fits(env) && k < 2
    ensures var (x, probe, answer) := (c.Setting(), ProbeTo(c, k), AnswerOf(c, k + 1));
            && IsProbe(probe, c.nonce) && probe[HEADER..] == ProbePayload(x, k) && Timestamp(probe) == 9
               && probe[8] == 4
            && IsReplyOf(answer, c.nonce) && Timestamp(answer) == 9 && answer[8] == 5 && |answer| >= HEADER
  {
    var x := c.Setting();
    PayloadParts(x, k);
    hide ProbePayload;
    var row := ProbePayload(x, k)[..9] + c.names[k + 1];
    assert row[..8] == ProbePayload(x, k)[..8];
    PacketOfTrace(4, ProbePayload(x, k), 9, c.nonce);
    PacketOfTrace(5, row, 9, c.nonce);
    hide IsProbe;
    hide IsReplyOf;
  }

  /** What hop k + 1 sends when the probe arrives. */
  lemma LineEmits(env: Env, s: Net, c: Cast, seen: seq<seq<bv64>>, k: nat)
    requires NodesAre(s, c, LineTables(c), seen) && c.Fits(env) && k < 2
    ensures ReplyFrom(s, c.Setting(), k, NOW) == multiset{Msg(if k == 0 then L10 else L21, AnswerOf(c, k + 1))}
    ensures OnwardFrom(s, c.Setting(), k, NOW) == if k == 0 then multiset{Msg(L12, ProbeTo(c, 1))} else multiset{}
  {
    var x := c.Setting();
    assert NodeIs(s.nodes[k + 1], c.names[k + 1], LineTables(c)[k + 1], seen[k + 1]);
    PayloadParts(x, k);
    hide ProbePayload;
    hide OneHopFewer;
    hide Packet;
    assert c.source != c.target;
  }

  lemma UnderWayIs(s: Net, nonce: Bytes, m: Msg)
    requires m in Traffic(s, nonce)
    ensures m in s.flight
  {
    FilterAt(s.flight, TraceMsg(nonce), m);
  }

  function ProbeMsgTo(c: Cast, k: nat): Msg
    requires |c.names| == 3 && c.Setting().WellFormed()
  {
    Msg(if k == 0 then L01 else L12, ProbeTo(c, k))
  }

  function AnswerMsgOf(c: Cast, k: nat): Msg
    requires |c.names| == 3 && c.Setting().WellFormed() && 0 < k < 3
  {
    Msg(if k == 1 then L10 else L21, AnswerOf(c, k))
  }

  /** The probe arrives at node k + 1. */
  lemma ProbeArrives(env: Env, s: Net, c: Cast, seen: seq<seq<bv64>>, k: nat)
    requires c.Fits(env) && NodesAre(s, c, LineTables(c), seen) && k < 2 && ProbeMsgTo(c, k) in Traffic(s, c.nonce)
    requires env.fingerprint(ProbeTo(c, k)) !in seen[k + 1] && |seen[k + 1]| < 8
    ensures var m := ProbeMsgTo(c, k);
            && Enabled(env, s, Deliver(m, NOW)) && Quiet(env, s, Deliver(m, NOW), c.nonce)
            && Accepts(env, s.nodes[m.via.to], m.packet, NOW)
            && NodesAre(Apply(env, s, Deliver(m, NOW)), c, LineTables(c),
                        seen[k + 1 := seen[k + 1] + [env.fingerprint(ProbeTo(c, k))]])
  {
    var m := ProbeMsgTo(c, k);
    UnderWayIs(s, c.nonce, m);
    PacketFacts(env, c, k);
    hide ProbeTo;
    hide AnswerOf;
    hide Traffic;
    hide Timestamp;
    hide OfTrace;
    hide ProbePayload;
    Arrival(env, s, c, m, LineTables(c), seen);
    hide Apply;
    hide Accepts;
    hide NodesAre;
  }

  lemma SentIs(c: Cast, k: nat)
    requires |c.names| == 3 && k < 2 && |c.source| == |c.target| == 16 && |c.nonce| == 8
    ensures (if k == 0 then multiset{AnswerMsgOf(c, 1), ProbeMsgTo(c, 1)} else multiset{AnswerMsgOf(c, 2)})
            == multiset{Msg(if k == 0 then L10 else L21, AnswerOf(c, k + 1))}
               + if k == 0 then multiset{Msg(L12, ProbeTo(c, 1))} else multiset{}
  {
    hide AnswerOf, ProbeTo;
  }

  lemma ProbeTraffic(env: Env, s: Net, c: Cast, seen: seq<seq<bv64>>, k: nat)
    requires c.Fits(env) && NodesAre(s, c, LineTables(c), seen) && k < 2 && ProbeMsgTo(c, k) in Traffic(s, c.nonce)
    requires env.fingerprint(ProbeTo(c, k)) !in seen[k + 1] && |seen[k + 1]| < 8
    requires Enabled(env, s, Deliver(ProbeMsgTo(c, k), NOW))
    ensures Traffic(Apply(env, s, Deliver(ProbeMsgTo(c, k), NOW)), c.nonce)
            == Traffic(s, c.nonce) - multiset{ProbeMsgTo(c, k)}
               + if k == 0 then multiset{AnswerMsgOf(c, 1), ProbeMsgTo(c, 1)} else multiset{AnswerMsgOf(c, 2)}
  {
    var (x, m) := (c.Setting(), ProbeMsgTo(c, k));
    UnderWayIs(s, c.nonce, m);
    assert m.via.to == x.path[k] && x.path[k] < |s.nodes| && k < x.Reach();
    PacketFacts(env, c, k);
    PacketFacts(env, c, 1);
    var extra := ReplyFrom(s, x, k, NOW) + OnwardFrom(s, x, k, NOW);
    assert Heading(m, x, k);
    CastFacts(env, c);
    assert OfTrace(m.packet, c.nonce) && OfTrace(AnswerOf(c, k + 1), c.nonce) && OfTrace(ProbeTo(c, 1), c.nonce);
    var sent := if k == 0 then multiset{AnswerMsgOf(c, 1), ProbeMsgTo(c, 1)} else multiset{AnswerMsgOf(c, 2)};
    SentIs(c, k);
    hide *;
    ProbeArrives(env, s, c, seen, k);
    LineIsStable(env, s, c, seen);
    LineEmits(env, s, c, seen, k);
    HopEmits(env, s, m, NOW, x, k);
    assert extra == sent;
    TrafficStep(s, Apply(env, s, Deliver(m, NOW)), m, extra, c.nonce);
  }

  /** The answer of node k arrives at node k - 1 and goes no further. */
  lemma AnswerArrives(env: Env, s: Net, c: Cast, seen: seq<seq<bv64>>, k: nat)
    requires c.Fits(env) && NodesAre(s, c, LineTables(c), seen) && 0 < k < 3 && AnswerMsgOf(c, k) in Traffic(s, c.nonce)
    requires env.fingerprint(AnswerOf(c, k)) !in seen[k - 1] && |seen[k - 1]| < 8
    ensures var m := AnswerMsgOf(c, k);
            && Enabled(env, s, Deliver(m, NOW)) && Quiet(env, s, Deliver(m, NOW), c.nonce)
            && NodesAre(Apply(env, s, Deliver(m, NOW)), c, LineTables(c),
                        seen[k - 1 := seen[k - 1] + [env.fingerprint(AnswerOf(c, k))]])
            && Traffic(Apply(env, s, Deliver(m, NOW)), c.nonce) == Traffic(s, c.nonce) - multiset{m}
  {
    var m := AnswerMsgOf(c, k);
    UnderWayIs(s, c.nonce, m);
    PacketFacts(env, c, k - 1);
    hide ProbeTo;
    hide AnswerOf;
    hide Traffic;
    hide Timestamp;
    hide IsProbe;
    hide IsReplyOf;
    Arrival(env, s, c, m, LineTables(c), seen);
    DeliverFlights(env, s, m, NOW);
    RepliesEndHere(env, s.nodes[m.via.to], m.packet, Twin(m.via), NOW);
    hide Apply;
    hide Process;
    hide Accepts;
    hide NodesAre;
    TrafficStep(s, Apply(env, s, Deliver(m, NOW)), m, multiset{}, c.nonce);
    assert Traffic(s, c.nonce) - multiset{m} + multiset{} == Traffic(s, c.nonce) - multiset{m};
  }

  /** The trace packets in the order in which this run delivers them. */
  function TraceRun(c: Cast): seq<Step>
    requires |c.names| == 3 && c.Setting().WellFormed()
  {
    [Deliver(ProbeMsgTo(c, 0), NOW), Deliver(ProbeMsgTo(c, 1), NOW), Deliver(AnswerMsgOf(c, 1), NOW),
     Deliver(AnswerMsgOf(c, 2), NOW)]
  }

  /** One quiet step before a quiet run. */
  lemma QuietStep(env: Env, s: Net, step: Step, rest: seq<Step>, x: HopTable.Setting)
    requires x.WellFormed() && Stable(s, x) && Enabled(env, s, step) && Quiet(env, s, step, x.nonce)
    requires Runs(env, Apply(env, s, step), rest) && QuietRun(env, Apply(env, s, step), rest, x)
    ensures Runs(env, s, [step] + rest) && QuietRun(env, s, [step] + rest, x)
    ensures Final(env, s, [step] + rest) == Final(env, Apply(env, s, step), rest)
  {
    hide Apply;
    hide Enabled;
    hide Quiet;
    hide Stable;
    assert ([step] + rest)[1..] == rest;
  }

  lemma NoStep(env: Env, s: Net, x: HopTable.Setting)
    requires x.WellFormed() && Stable(s, x)
    ensures Runs(env, s, []) && QuietRun(env, s, [], x) && Final(env, s, []) == s
  {
    hide Stable;
  }

  lemma TraceRunIs(c: Cast)
    requires |c.names| == 3 && c.Setting().WellFormed()
    ensures TraceRun(c) == [Deliver(ProbeMsgTo(c, 0), NOW)] + TraceRun(c)[1..]
    ensures TraceRun(c)[1..]
            == [Deliver(ProbeMsgTo(c, 1), NOW)] + [Deliver(AnswerMsgOf(c, 1), NOW), Deliver(AnswerMsgOf(c, 2), NOW)]
  {
    hide ProbeMsgTo;
    hide AnswerMsgOf;
  }

  lemma SecondAnswer(env: Env, s: Net, c: Cast, seen: seq<seq<bv64>>, w: Marks)
    requires c.Fits(env) && w == MarksOf(env, c) && w.Differ() && NodesAre(s, c, LineTables(c), seen)
    requires |seen| == 3 && seen[1] == [w.hello2, w.hello0, w.probe1]
             && Traffic(s, c.nonce) == multiset{AnswerMsgOf(c, 2)}
    ensures var rest := [Deliver(AnswerMsgOf(c, 2), NOW)];
            && Runs(env, s, rest) && QuietRun(env, s, rest, c.Setting())
            && Traffic(Final(env, s, rest), c.nonce) == multiset{}
  {
    hide *;
    CastFacts(env, c);
    MarkFacts(env, c, w);
    AnswerArrives(env, s, c, seen, 2);
    var (step, x) := (Deliver(AnswerMsgOf(c, 2), NOW), c.Setting());
    LineIsStable(env, s, c, seen);
    LineIsStable(env, Apply(env, s, step), c, seen[1 := seen[1] + [w.answer2]]);
    NoStep(env, Apply(env, s, step), x);
    QuietStep(env, s, step, [], x);
    assert [step] + [] == [step];
  }

  lemma FirstAnswer(env: Env, s: Net, c: Cast, seen: seq<seq<bv64>>, w: Marks)
    requires c.Fits(env) && w == MarksOf(env, c) && w.Differ() && NodesAre(s, c, LineTables(c), seen)
    requires |seen| == 3 && seen[0] == [w.hello2] && seen[1] == [w.hello2, w.hello0, w.probe1]
    requires Traffic(s, c.nonce) == multiset{AnswerMsgOf(c, 1), AnswerMsgOf(c, 2)}
    ensures var rest := [Deliver(AnswerMsgOf(c, 1), NOW), Deliver(AnswerMsgOf(c, 2), NOW)];
            && Runs(env, s, rest) && QuietRun(env, s, rest, c.Setting())
            && Traffic(Final(env, s, rest), c.nonce) == multiset{}
  {
    hide *;
    CastFacts(env, c);
    MarkFacts(env, c, w);
    AnswerArrives(env, s, c, seen, 1);
    var (step, x) := (Deliver(AnswerMsgOf(c, 1), NOW), c.Setting());
    LineIsStable(env, s, c, seen);
    assert multiset{AnswerMsgOf(c, 1), AnswerMsgOf(c, 2)} - multiset{AnswerMsgOf(c, 1)} == multiset{AnswerMsgOf(c, 2)};
    SecondAnswer(env, Apply(env, s, step), c, seen[0 := seen[0] + [w.answer1]], w);
    QuietStep(env, s, step, [Deliver(AnswerMsgOf(c, 2), NOW)], x);
    assert [step] + [Deliver(AnswerMsgOf(c, 2), NOW)] == [step, Deliver(AnswerMsgOf(c, 2), NOW)];
  }

  lemma SecondProbe(env: Env, s: Net, c: Cast, seen: seq<seq<bv64>>, w: Marks)
    requires c.Fits(env) && w == MarksOf(env, c) && w.Differ() && NodesAre(s, c, LineTables(c), seen)
    requires seen == [[w.hello2], [w.hello2, w.hello0, w.probe1], [w.hello0]]
    requires Traffic(s, c.nonce) == multiset{AnswerMsgOf(c, 1), ProbeMsgTo(c, 1)}
    ensures var rest := TraceRun(c)[1..];
            && Runs(env, s, rest) && QuietRun(env, s, rest, c.Setting())
            && Traffic(Final(env, s, rest), c.nonce) == multiset{}
  {
    hide *;
    CastFacts(env, c);
    MarkFacts(env, c, w);
    var (step, x) := (Deliver(ProbeMsgTo(c, 1), NOW), c.Setting());
    var rest := [Deliver(AnswerMsgOf(c, 1), NOW), Deliver(AnswerMsgOf(c, 2), NOW)];
    TraceRunIs(c);
    ProbeArrives(env, s, c, seen, 1);
    ProbeTraffic(env, s, c, seen, 1);
    LineIsStable(env, s, c, seen);
    assert multiset{AnswerMsgOf(c, 1), ProbeMsgTo(c, 1)} - multiset{ProbeMsgTo(c, 1)} + multiset{AnswerMsgOf(c, 2)}
           == multiset{AnswerMsgOf(c, 1), AnswerMsgOf(c, 2)};
    FirstAnswer(env, Apply(env, s, step), c, seen[2 := seen[2] + [w.probe2]], w);
    QuietStep(env, s, step, rest, x);
  }

  lemma WholeTrace(env: Env, s: Net, c: Cast, seen: seq<seq<bv64>>, w: Marks)
    requires c.Fits(env) && w == MarksOf(env, c) && w.Differ() && NodesAre(s, c, LineTables(c), seen)
    requires seen == [[w.hello2], [w.hello2, w.hello0], [w.hello0]] && Traffic(s, c.nonce) == multiset{ProbeMsgTo(c, 0)}
    ensures Runs(env, s, TraceRun(c)) && QuietRun(env, s, TraceRun(c), c.Setting())
    ensures Traffic(Final(env, s, TraceRun(c)), c.nonce) == multiset{}
  {
    hide *;
    CastFacts(env, c);
    MarkFacts(env, c, w);
    var (step, x) := (Deliver(ProbeMsgTo(c, 0), NOW), c.Setting());
    TraceRunIs(c);
    ProbeArrives(env, s, c, seen, 0);
    ProbeTraffic(env, s, c, seen, 0);
    LineIsStable(env, s, c, seen);
    assert multiset{ProbeMsgTo(c, 0)} - multiset{ProbeMsgTo(c, 0)} + multiset{AnswerMsgOf(c, 1), ProbeMsgTo(c, 1)}
           == multiset{AnswerMsgOf(c, 1), ProbeMsgTo(c, 1)};
    assert [w.hello2, w.hello0] + [w.probe1] == [w.hello2, w.hello0, w.probe1];
    assert seen[1 := seen[1] + [w.probe1]] == [[w.hello2], [w.hello2, w.hello0, w.probe1], [w.hello0]];
    SecondProbe(env, Apply(env, s, step), c, seen[1 := seen[1] + [w.probe1]], w);
    QuietStep(env, s, step, TraceRun(c)[1..], x);
  }

  lemma TraceStarts(env: Env, s: Net, c: Cast, seen: seq<seq<bv64>>)
    requires c.Fits(env) && NodesAre(s, c, LineTables(c), seen) && Traffic(s, c.nonce) == multiset{}
    ensures Begins(env, s, c.Setting(), 9)
    ensures NodesAre(Started(env, s, c.Setting(), 9), c, LineTables(c), seen)
    ensures Started(env, s, c.Setting(), 9).flight == s.flight + multiset{ProbeMsgTo(c, 0)}
  {
    var x := c.Setting();
    LineIsStable(env, s, c, seen);
    assert NodeIs(s.nodes[0], c.names[0], LineTables(c)[0], seen[0]);
    forall m | m in s.flight
      ensures !OfTrace(m.packet, c.nonce)
    {
      FilterAt(s.flight, TraceMsg(c.nonce), m);
    }
    hide OfTrace;
    hide Stable;
    hide Traffic;
    var payload := TracePayload(c.nonce, c.target, c.source);
    assert payload == ProbePayload(x, 0);
    hide Packet;
    hide ProbePayload;
    hide TracePayload;
    EmittedAlong({}, s.nodes[0], c.target, Packet(4, payload, 9), []);
    assert SendTo(s.nodes[0].table, c.target, Packet(4, payload, 9)) + []
           == SendTo(s.nodes[0].table, c.target, Packet(4, payload, 9));
  }

  lemma StartTraffic(env: Env, s: Net, c: Cast, s': Net)
    requires c.Fits(env) && Traffic(s, c.nonce) == multiset{} && s'.flight == s.flight + multiset{ProbeMsgTo(c, 0)}
    ensures Traffic(s', c.nonce) == multiset{ProbeMsgTo(c, 0)}
  {
    PacketFacts(env, c, 0);
    hide ProbeTo;
    hide AnswerOf;
    hide IsProbe;
    hide IsReplyOf;
    FilterUnion(s.flight, multiset{ProbeMsgTo(c, 0)}, TraceMsg(c.nonce));
    FilterOne(ProbeMsgTo(c, 0), TraceMsg(c.nonce));
    assert multiset{} + multiset{ProbeMsgTo(c, 0)} == multiset{ProbeMsgTo(c, 0)};
  }

  lemma NothingUnderWay(s: Net, nonce: Bytes)
    requires Traffic(s, nonce) == multiset{}
    ensures AtRest(s, nonce)
  {
    hide OfTrace;
    forall m | m in s.flight
      ensures !OfTrace(m.packet, nonce)
    {
      FilterAt(s.flight, TraceMsg(nonce), m);
    }
  }

  lemma OneRow(c: Cast, records: seq<Row>)
    requires |c.names| == 3 && c.Setting().WellFormed() && c.names[1] != []
    requires multiset(records) == multiset(ShownRows(c.Setting(), c.Setting().Reach()))
    ensures records == [RowAt(c.Setting(), 0)]
  {
    var x := c.Setting();
    assert ShownRows(x, 0) == [];
    assert ShownRows(x, 1) == [RowAt(x, 0)];
    assert x.Reach() == 2 && ShownRows(x, 2) == [RowAt(x, 0)];
    hide RowAt;
    hide ShownRows;
    assert |records| == |multiset(records)| == 1;
    assert records[0] in multiset(records);
  }

  lemma EmptyScene(s: Net, c: Cast)
    requires Initial(s) && NodesAre(s, c, [Table({}, map[]), Table({}, map[]), Table({}, map[])], [[], [], []])
    ensures Scene(s, c, [Table({}, map[]), Table({}, map[]), Table({}, map[])], [[], [], []], {})
  {
    hide NodesAre;
    hide OfTrace;
    FilterNone(s.flight, TraceMsg(c.nonce));
  }

  lemma FirstRow(env: Env, c: Cast)
    requires c.Fits(env)
    ensures RowAt(c.Setting(), 0) == (c.names[1], TRACE_TTL) && c.names[1] != []
  {
  }

  /**
   * From every start of three .NET nodes with these names, unless the fingerprints of the six packets collide: the
   * line grows, node 0 traces node 2, every packet of the trace arrives and is accepted, and the table has the first
   * hop only.
   */
  lemma SecondHopMissing(env: Env, s: Net, c: Cast)
    requires c.Fits(env) && Initial(s) && MarksOf(env, c).Differ()
    requires NodesAre(s, c, [Table({}, map[]), Table({}, map[]), Table({}, map[])], [[], [], []])
    ensures Runs(env, s, Growing(c)) && Begins(env, Final(env, s, Growing(c)), c.Setting(), 9)
    ensures var s1 := Started(env, Final(env, s, Growing(c)), c.Setting(), 9);
            && Runs(env, s1, TraceRun(c)) && QuietRun(env, s1, TraceRun(c), c.Setting())
            && AtRest(Final(env, s1, TraceRun(c)), c.nonce)
            && Recording(Final(env, s1, TraceRun(c)), c.Setting())
            && Records(Final(env, s1, TraceRun(c)), c.Setting()) == [(c.names[1], TRACE_TTL)]
  {
    var (x, w) := (c.Setting(), MarksOf(env, c));
    hide *;
    CastFacts(env, c);
    MarkFacts(env, c, w);
    EmptyScene(s, c);
    FirstRow(env, c);
    RunGrowing(env, s, c);
    var grown := Final(env, s, Growing(c));
    var seen := [[w.hello2], [w.hello2, w.hello0], [w.hello0]];
    TraceStarts(env, grown, c, seen);
    var s1 := Started(env, grown, x, 9);
    StartTraffic(env, grown, c, s1);
    WholeTrace(env, s1, c, seen, w);
    NothingUnderWay(Final(env, s1, TraceRun(c)), c.nonce);
    TraceRecordsDirectHops(env, grown, x, 9, TraceRun(c));
    OneRow(c, Records(Final(env, s1, TraceRun(c)), x));
  }
}
