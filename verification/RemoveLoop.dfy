/**
 * Why loop freedom needs both halves of its hypothesis: two concrete runs of three .NET nodes that end in a two-node
 * loop. Node 0 owns d. In the first run node 1 refloods an old announcement towards node 2 slowly; node 2 hears a newer
 * one directly, tells node 1, loses its link to node 0, and then learns the old announcement from node 1. In the second
 * run no route is ever forgotten: node 1 learns d from node 2, loses its link to node 0, and then floods a newer
 * announcement that was still under way on it, without learning from it.
 */
module RemoveLoop {
  import opened Wire
  import opened RouteTable
  import opened PacketStep
  import opened Network
  import LoopFreedom
  import Flood

  const A01 := End(0, 1, 0, false)
  const A10 := End(1, 0, 0, true)
  const A12 := End(1, 2, 0, false)
  const A21 := End(2, 1, 0, true)
  const A02 := End(0, 2, 0, false)
  const A20 := End(2, 0, 0, true)
  const NOW := Clock(9, 0, 0)

  function Older(d: Address): Bytes {
    Packet(2, d, 9)
  }

  function Newer(d: Address): Bytes {
    Packet(2, d, 10)
  }

  /** The three nodes at some point of the run: tables, caches of nodes 1 and 2, and some messages in flight. */
  ghost predicate At(
    s: Net, d: Address, t0: set<End>, t1: Table<End>, t2: Table<End>, c1: seq<bv64>, c2: seq<bv64>, f: set<Msg>)
  {
    && |s.nodes| == 3
    && DotNetNode(s.nodes[0], t0) && DotNetNode(s.nodes[1], t1.peers) && DotNetNode(s.nodes[2], t2.peers)
    && d in s.nodes[0].owned && d !in s.nodes[1].owned && d !in s.nodes[2].owned
    && s.nodes[1].table == t1 && s.nodes[2].table == t2
    && s.nodes[1].seen.order == c1 && s.nodes[2].seen.order == c2
    && (forall m :: m in f ==> m in s.flight)
    && t0 + t1.peers + t2.peers <= s.joined
  }

  ghost predicate DotNetNode(node: Node<End>, peers: set<End>) {
    node.impl == DotNet && node.seen.capacity >= 2 && node.table.peers == peers
  }

  lemma Packets(env: Env, d: Address)
    requires |d| == 4
    ensures TracerOf(env, Older(d)) == Some(d) && Timestamp(Older(d)) == 9 && Fresh(Timestamp(Older(d)), 9)
    ensures TracerOf(env, Newer(d)) == Some(d) && Timestamp(Newer(d)) == 10 && Fresh(Timestamp(Newer(d)), 9)
    ensures Older(d) == Packet(2, d, 9) && Newer(d) == Packet(2, d, 10)
  {
    hide LoadU64;
    hide StoreU64;
  }

  const PHASE1 := [Open(A01), Open(A10), Open(A12), Open(A21)]

  function Phase2(d: Address): seq<Step> {
    [Announce(0, 2, d, 9), Deliver(Msg(A01, Older(d)), NOW)]
  }

  const PHASE3 := [Open(A02), Open(A20)]

  function Phase4(d: Address): seq<Step> {
    [Announce(0, 2, d, 10), Deliver(Msg(A02, Newer(d)), NOW)]
  }

  function Phase5(d: Address): seq<Step> {
    [Deliver(Msg(A21, Newer(d)), NOW)]
  }

  function Phase6(d: Address): seq<Step> {
    [Close(A20), Deliver(Msg(A12, Older(d)), NOW)]
  }

  lemma Opening(s: Net, env: Env, d: Address, e: End, t0: set<End>, t1: Table<End>, t2: Table<End>, c1: seq<bv64>,
                c2: seq<bv64>, f: set<Msg>)
    requires At(s, d, t0, t1, t2, c1, c2, f) && e.at < 3 && e.to < 3
    ensures Enabled(env, s, Open(e))
    ensures At(Apply(env, s, Open(e)), d, if e.at == 0 then t0 + {e} else t0, if e.at == 1 then t1.Add(e) else t1,
               if e.at == 2 then t2.Add(e) else t2, c1, c2, f)
  {
  }

  lemma Announcing(
    s: Net, env: Env, d: Address, stamp: bv64, e: End, t0: set<End>, t1: Table<End>, t2: Table<End>, c1: seq<bv64>,
    c2: seq<bv64>, f: set<Msg>)
    requires At(s, d, t0, t1, t2, c1, c2, f) && e in t0 && |d| == 4
    ensures Enabled(env, s, Announce(0, 2, d, stamp))
    ensures At(Apply(env, s, Announce(0, 2, d, stamp)), d, t0, t1, t2, c1, c2, f + {Msg(e, Packet(2, d, stamp))})
  {
    hide Packet;
  }

  /** Node 1 hears an announcement of d it does not know yet, and floods it to every link. */
  lemma HeardBy1(
    s: Net, env: Env, d: Address, m: Msg, on: End, t0: set<End>, t1: Table<End>, t2: Table<End>, c1: seq<bv64>,
    c2: seq<bv64>, f: set<Msg>)
    requires At(s, d, t0, t1, t2, c1, c2, f) && m in f && m.via.to == 1 && Twin(m.via) in t1.peers && on in t1.peers
    requires TracerOf(env, m.packet) == Some(d) && Fresh(Timestamp(m.packet), 9) && env.fingerprint(m.packet) !in c1
             && |c1| < 2
    ensures Enabled(env, s, Deliver(m, NOW))
    ensures At(Apply(env, s, Deliver(m, NOW)), d, t0, t1.Learn(DotNet, Timestamp(m.packet), d, Twin(m.via)), t2,
               c1 + [env.fingerprint(m.packet)], c2, f - {m} + {Msg(on, m.packet)})
  {
    Flood.DeliverFirst(env, s, m, NOW);
    hide Apply;
    hide TracerOf;
    hide Fresh;
    hide LoadU64;
    assert Msg(on, m.packet) in ToAll(t1.peers, m.packet);
  }

  lemma HeardBy2(
    s: Net, env: Env, d: Address, m: Msg, on: End, t0: set<End>, t1: Table<End>, t2: Table<End>, c1: seq<bv64>,
    c2: seq<bv64>, f: set<Msg>)
    requires At(s, d, t0, t1, t2, c1, c2, f) && m in f && m.via.to == 2 && Twin(m.via) in t2.peers && on in t2.peers
    requires TracerOf(env, m.packet) == Some(d) && Fresh(Timestamp(m.packet), 9) && env.fingerprint(m.packet) !in c2
             && |c2| < 2
    ensures Enabled(env, s, Deliver(m, NOW))
    ensures At(Apply(env, s, Deliver(m, NOW)), d, t0, t1, t2.Learn(DotNet, Timestamp(m.packet), d, Twin(m.via)),
               c1, c2 + [env.fingerprint(m.packet)], f - {m} + {Msg(on, m.packet)})
  {
    Flood.DeliverFirst(env, s, m, NOW);
    hide Apply;
    hide TracerOf;
    hide Fresh;
    hide LoadU64;
    assert Msg(on, m.packet) in ToAll(t2.peers, m.packet);
  }

  lemma Closing(s: Net, env: Env, d: Address, t0: set<End>, t1: Table<End>, t2: Table<End>, c1: seq<bv64>,
                c2: seq<bv64>, f: set<Msg>)
    requires At(s, d, t0, t1, t2, c1, c2, f) && A20 in t2.peers
    ensures Enabled(env, s, Close(A20))
    ensures At(Apply(env, s, Close(A20)), d, t0, t1, t2.Remove(DotNet, A20), c1, c2, f)
  {
  }

  lemma Replaced(a: Msg, b: Msg, c: Msg)
    requires a != b
    ensures {a, b} - {b} + {c} == {a, c}
  {
  }

  lemma Relearned(peers: set<End>, d: Address, t: nat, e: End, t': nat, e': End)
    requires e' in peers && t < t'
    ensures Table(peers, map[d := Route(t, e)]).Learn(DotNet, t', d, e') == Table(peers, map[d := Route(t', e')])
  {
  }

  // ---------- The run ----------

  lemma RunPhase1(s: Net, env: Env, d: Address)
    requires At(s, d, {}, Table({}, map[]), Table({}, map[]), [], [], {})
    ensures Runs(env, s, PHASE1)
    ensures At(Final(env, s, PHASE1), d, {A01}, Table({A10, A12}, map[]), Table({A21}, map[]), [], [], {})
  {
    hide Apply;
    hide Enabled;
    hide At;
    var none: Table<End> := Table({}, map[]);
    Opening(s, env, d, A01, {}, none, none, [], [], {});
    var s1 := Apply(env, s, Open(A01));
    Opening(s1, env, d, A10, {A01}, none, none, [], [], {});
    var s2 := Apply(env, s1, Open(A10));
    Opening(s2, env, d, A12, {A01}, none.Add(A10), none, [], [], {});
    var s3 := Apply(env, s2, Open(A12));
    Opening(s3, env, d, A21, {A01}, none.Add(A10).Add(A12), none, [], [], {});
    Two(env, s, Open(A01), Open(A10));
    Two(env, s2, Open(A12), Open(A21));
    RunsConcat(env, s, [Open(A01), Open(A10)], [Open(A12), Open(A21)]);
    assert PHASE1 == [Open(A01), Open(A10)] + [Open(A12), Open(A21)];
    assert none.Add(A10).Add(A12) == Table({A10, A12}, map[]) && none.Add(A21) == Table({A21}, map[]);
    assert {} + {A01} == {A01};
  }

  lemma RunPhase2(s: Net, env: Env, d: Address)
    requires At(s, d, {A01}, Table({A10, A12}, map[]), Table({A21}, map[]), [], [], {}) && |d| == 4
    ensures Runs(env, s, Phase2(d))
    ensures At(Final(env, s, Phase2(d)), d, {A01}, Table({A10, A12}, map[d := Route(9, A10)]), Table({A21}, map[]),
               [env.fingerprint(Older(d))], [], {Msg(A12, Older(d))})
  {
    hide Apply;
    hide Enabled;
    hide At;
    var (t1, t2) := (Table({A10, A12}, map[]), Table({A21}, map[]));
    Announcing(s, env, d, 9, A01, {A01}, t1, t2, [], [], {});
    Packets(env, d);
    hide Older;
    hide Newer;
    hide TracerOf;
    hide Fresh;
    hide Timestamp;
    var m := Msg(A01, Older(d));
    assert {} + {m} == {m} && {m} - {m} + {Msg(A12, Older(d))} == {Msg(A12, Older(d))};
    HeardBy1(Apply(env, s, Announce(0, 2, d, 9)), env, d, m, A12, {A01}, t1, t2, [], [], {m});
    Two(env, s, Announce(0, 2, d, 9), Deliver(m, NOW));
    assert [] + [env.fingerprint(Older(d))] == [env.fingerprint(Older(d))];
  }

  lemma RunPhase3(s: Net, env: Env, d: Address, t1: Table<End>, c1: seq<bv64>, f: set<Msg>)
    requires At(s, d, {A01}, t1, Table({A21}, map[]), c1, [], f)
    ensures Runs(env, s, PHASE3)
    ensures At(Final(env, s, PHASE3), d, {A01, A02}, t1, Table({A21, A20}, map[]), c1, [], f)
  {
    hide Apply;
    hide Enabled;
    hide At;
    var t2: Table<End> := Table({A21}, map[]);
    Opening(s, env, d, A02, {A01}, t1, t2, c1, [], f);
    var s1 := Apply(env, s, Open(A02));
    Opening(s1, env, d, A20, {A01} + {A02}, t1, t2, c1, [], f);
    Two(env, s, Open(A02), Open(A20));
    assert {A01} + {A02} == {A01, A02} && t2.Add(A20) == Table({A21, A20}, map[]);
  }

  lemma RunPhase4(s: Net, env: Env, d: Address, t1: Table<End>, c1: seq<bv64>)
    requires At(s, d, {A01, A02}, t1, Table({A21, A20}, map[]), c1, [], {Msg(A12, Older(d))}) && |d| == 4
    ensures Runs(env, s, Phase4(d))
    ensures At(Final(env, s, Phase4(d)), d, {A01, A02}, t1, Table({A21, A20}, map[d := Route(10, A20)]),
               c1, [env.fingerprint(Newer(d))], {Msg(A12, Older(d)), Msg(A21, Newer(d))})
  {
    hide Apply;
    hide Enabled;
    hide At;
    var (t0, t2, waiting, m) := ({A01, A02}, Table({A21, A20}, map[]), Msg(A12, Older(d)), Msg(A02, Newer(d)));
    Announcing(s, env, d, 10, A02, t0, t1, t2, c1, [], {waiting});
    Packets(env, d);
    hide Older;
    hide Newer;
    hide TracerOf;
    hide Fresh;
    hide Timestamp;
    HeardBy2(Apply(env, s, Announce(0, 2, d, 10)), env, d, m, A21, t0, t1, t2, c1, [], {waiting} + {m});
    Two(env, s, Announce(0, 2, d, 10), Deliver(m, NOW));
    assert {waiting} + {m} - {m} + {Msg(A21, Newer(d))} == {waiting, Msg(A21, Newer(d))};
    assert [] + [env.fingerprint(Newer(d))] == [env.fingerprint(Newer(d))];
  }

  lemma RunPhase5(s: Net, env: Env, d: Address, t0: set<End>, t1: Table<End>)
    requires At(s, d, t0, t1, Table({A21, A20}, map[d := Route(10, A20)]),
                [env.fingerprint(Older(d))], [env.fingerprint(Newer(d))], {Msg(A12, Older(d)), Msg(A21, Newer(d))})
    requires t1 == Table({A10, A12}, map[d := Route(9, A10)]) && |d| == 4
    requires env.fingerprint(Older(d)) != env.fingerprint(Newer(d))
    ensures Runs(env, s, Phase5(d))
    ensures At(Final(env, s, Phase5(d)), d, t0, Table({A10, A12}, map[d := Route(10, A12)]),
               Table({A21, A20}, map[d := Route(10, A20)]), [env.fingerprint(Older(d))] + [env.fingerprint(Newer(d))],
               [env.fingerprint(Newer(d))], {Msg(A12, Newer(d)), Msg(A12, Older(d))})
  {
    hide Apply;
    hide Enabled;
    hide At;
    var (t2, waiting, m) := (Table({A21, A20}, map[d := Route(10, A20)]), Msg(A12, Older(d)), Msg(A21, Newer(d)));
    var (c1, c2) := ([env.fingerprint(Older(d))], [env.fingerprint(Newer(d))]);
    Packets(env, d);
    hide Older;
    hide Newer;
    hide TracerOf;
    hide Fresh;
    hide Timestamp;
    HeardBy1(s, env, d, m, A12, t0, t1, t2, c1, c2, {waiting, m});
    One(env, s, Deliver(m, NOW));
    Replaced(waiting, m, Msg(A12, Newer(d)));
    assert {waiting, Msg(A12, Newer(d))} == {Msg(A12, Newer(d)), waiting};
    Relearned(t1.peers, d, 9, A10, 10, A12);
  }

  lemma RunPhase6(s: Net, env: Env, d: Address, t0: set<End>, t1: Table<End>, c1: seq<bv64>)
    requires At(s, d, t0, t1, Table({A21, A20}, map[d := Route(10, A20)]), c1, [env.fingerprint(Newer(d))],
                {Msg(A12, Newer(d)), Msg(A12, Older(d))})
    requires |d| == 4 && env.fingerprint(Older(d)) != env.fingerprint(Newer(d))
    ensures Runs(env, s, Phase6(d))
    ensures At(Final(env, s, Phase6(d)), d, t0, t1, Table({A21}, map[d := Route(9, A21)]), c1,
               [env.fingerprint(Newer(d))] + [env.fingerprint(Older(d))], {Msg(A12, Newer(d)), Msg(A21, Older(d))})
  {
    hide Apply;
    hide Enabled;
    hide At;
    var (m, t2) := (Msg(A12, Older(d)), Table({A21, A20}, map[d := Route(10, A20)]));
    Packets(env, d);
    hide Older;
    hide Newer;
    hide TracerOf;
    hide Fresh;
    hide Timestamp;
    Closing(s, env, d, t0, t1, t2, c1, [env.fingerprint(Newer(d))], {Msg(A12, Newer(d)), m});
    var s1 := Apply(env, s, Close(A20));
    assert t2.Remove(DotNet, A20) == Table({A21}, map[]);
    HeardBy2(s1, env, d, m, A21, t0, t1, Table({A21}, map[]), c1, [env.fingerprint(Newer(d))], {Msg(A12, Newer(d)), m});
    Two(env, s, Close(A20), Deliver(m, NOW));
    var none: Table<End> := Table({A21}, map[]);
    assert none.Learn(DotNet, 9, d, A21) == Table({A21}, map[d := Route(9, A21)]);
    assert m != Msg(A12, Newer(d));
    Replaced(Msg(A12, Newer(d)), m, Msg(A21, Older(d)));
  }

  lemma RunUpTo4(s: Net, env: Env, d: Address)
    requires At(s, d, {}, Table({}, map[]), Table({}, map[]), [], [], {}) && |d| == 4
    ensures Runs(env, s, PHASE1 + Phase2(d) + PHASE3 + Phase4(d))
    ensures At(Final(env, s, PHASE1 + Phase2(d) + PHASE3 + Phase4(d)), d, {A01, A02},
               Table({A10, A12}, map[d := Route(9, A10)]), Table({A21, A20}, map[d := Route(10, A20)]),
               [env.fingerprint(Older(d))], [env.fingerprint(Newer(d))], {Msg(A12, Older(d)), Msg(A21, Newer(d))})
  {
    hide At;
    hide Runs;
    hide Final;
    hide Phase2;
    hide Phase4;
    var t1 := Table({A10, A12}, map[d := Route(9, A10)]);
    RunPhase1(s, env, d);
    RunPhase2(Final(env, s, PHASE1), env, d);
    RunsConcat(env, s, PHASE1, Phase2(d));
    RunPhase3(Final(env, s, PHASE1 + Phase2(d)), env, d, t1, [env.fingerprint(Older(d))], {Msg(A12, Older(d))});
    RunsConcat(env, s, PHASE1 + Phase2(d), PHASE3);
    RunPhase4(Final(env, s, PHASE1 + Phase2(d) + PHASE3), env, d, t1, [env.fingerprint(Older(d))]);
    RunsConcat(env, s, PHASE1 + Phase2(d) + PHASE3, Phase4(d));
  }

  function LoopRun(d: Address): seq<Step> {
    PHASE1 + Phase2(d) + PHASE3 + Phase4(d) + Phase5(d) + Phase6(d)
  }

  lemma FacingEachOther(s: Net, d: Address, t0: set<End>, t1: Table<End>, t2: Table<End>, c1: seq<bv64>, c2: seq<bv64>,
                        f: set<Msg>)
    requires At(s, d, t0, t1, t2, c1, c2, f)
    requires d in t1.routes && t1.routes[d].link == A12 && d in t2.routes && t2.routes[d].link == A21
    ensures LoopFreedom.Chain(s, d, [1, 2, 1])
  {
  }

  /**
   * From any start of three .NET nodes of which only node 0 owns d, whenever the two announcements have different
   * fingerprints, this run ends with nodes 1 and 2 pointing at each other: without `Benign`, loop freedom is false.
   */
  lemma RemoveCanLoop(env: Env, s: Net, d: Address)
    requires Initial(s) && At(s, d, {}, Table({}, map[]), Table({}, map[]), [], [], {}) && |d| == 4
    requires env.fingerprint(Older(d)) != env.fingerprint(Newer(d))
    ensures Runs(env, s, LoopRun(d))
    ensures LoopFreedom.Chain(Final(env, s, LoopRun(d)), d, [1, 2, 1])
  {
    hide At;
    hide Runs;
    hide Final;
    hide Phase5;
    hide Phase6;
    hide LoopFreedom.Chain;
    var (start, t1) := (PHASE1 + Phase2(d) + PHASE3 + Phase4(d), Table({A10, A12}, map[d := Route(10, A12)]));
    RunUpTo4(s, env, d);
    RunPhase5(Final(env, s, start), env, d, {A01, A02}, Table({A10, A12}, map[d := Route(9, A10)]));
    RunsConcat(env, s, start, Phase5(d));
    var c1 := [env.fingerprint(Older(d))] + [env.fingerprint(Newer(d))];
    RunPhase6(Final(env, s, start + Phase5(d)), env, d, {A01, A02}, t1, c1);
    RunsConcat(env, s, start + Phase5(d), Phase6(d));
    FacingEachOther(Final(env, s, LoopRun(d)), d, {A01, A02}, t1, Table({A21}, map[d := Route(9, A21)]), c1,
                    [env.fingerprint(Newer(d))] + [env.fingerprint(Older(d))],
                    {Msg(A12, Newer(d)), Msg(A21, Older(d))});
  }

  // ---------- The second run ----------

  function SpreadOlder(d: Address): seq<Step> {
    [Announce(0, 2, d, 9), Deliver(Msg(A02, Older(d)), NOW)]
  }

  function TellNode1(d: Address): seq<Step> {
    [Deliver(Msg(A21, Older(d)), NOW), Announce(0, 2, d, 10)]
  }

  function BeforeClose(d: Address): seq<Step> {
    PHASE1 + PHASE3 + SpreadOlder(d) + TellNode1(d)
  }

  function AfterClose(d: Address): seq<Step> {
    [Deliver(Msg(A01, Newer(d)), NOW), Deliver(Msg(A12, Newer(d)), NOW)]
  }

  lemma RunSpreadOlder(s: Net, env: Env, d: Address)
    requires At(s, d, {A01, A02}, Table({A10, A12}, map[]), Table({A21, A20}, map[]), [], [], {}) && |d| == 4
    ensures Runs(env, s, SpreadOlder(d))
    ensures At(Final(env, s, SpreadOlder(d)), d, {A01, A02}, Table({A10, A12}, map[]),
               Table({A21, A20}, map[d := Route(9, A20)]), [], [env.fingerprint(Older(d))], {Msg(A21, Older(d))})
  {
    hide Apply;
    hide Enabled;
    hide At;
    var (t0, t1, t2, m) := ({A01, A02}, Table({A10, A12}, map[]), Table({A21, A20}, map[]), Msg(A02, Older(d)));
    Announcing(s, env, d, 9, A02, t0, t1, t2, [], [], {});
    Packets(env, d);
    hide Older;
    hide Newer;
    hide TracerOf;
    hide Fresh;
    hide Timestamp;
    assert {} + {m} == {m} && {m} - {m} + {Msg(A21, Older(d))} == {Msg(A21, Older(d))};
    HeardBy2(Apply(env, s, Announce(0, 2, d, 9)), env, d, m, A21, t0, t1, t2, [], [], {m});
    Two(env, s, Announce(0, 2, d, 9), Deliver(m, NOW));
    assert [] + [env.fingerprint(Older(d))] == [env.fingerprint(Older(d))];
  }

  lemma RunTellNode1(s: Net, env: Env, d: Address, t2: Table<End>, c2: seq<bv64>)
    requires At(s, d, {A01, A02}, Table({A10, A12}, map[]), t2, [], c2, {Msg(A21, Older(d))}) && |d| == 4
    ensures Runs(env, s, TellNode1(d))
    ensures At(Final(env, s, TellNode1(d)), d, {A01, A02}, Table({A10, A12}, map[d := Route(9, A12)]), t2,
               [env.fingerprint(Older(d))], c2, {Msg(A12, Older(d)), Msg(A01, Newer(d))})
  {
    hide Apply;
    hide Enabled;
    hide At;
    var (t0, t1, m) := ({A01, A02}, Table({A10, A12}, map[]), Msg(A21, Older(d)));
    Packets(env, d);
    hide Older;
    hide Newer;
    hide TracerOf;
    hide Fresh;
    hide Timestamp;
    HeardBy1(s, env, d, m, A12, t0, t1, t2, [], c2, {m});
    var s1 := Apply(env, s, Deliver(m, NOW));
    assert {m} - {m} + {Msg(A12, Older(d))} == {Msg(A12, Older(d))};
    assert [] + [env.fingerprint(Older(d))] == [env.fingerprint(Older(d))];
    var learned := Table({A10, A12}, map[d := Route(9, A12)]);
    assert t1.Learn(DotNet, 9, d, A12) == learned;
    Announcing(s1, env, d, 10, A01, t0, learned, t2, [env.fingerprint(Older(d))], c2, {Msg(A12, Older(d))});
    Two(env, s, Deliver(m, NOW), Announce(0, 2, d, 10));
    assert {Msg(A12, Older(d))} + {Msg(A01, Newer(d))} == {Msg(A12, Older(d)), Msg(A01, Newer(d))};
  }

  /** The link that node 1 loses carries no route, so nothing is forgotten. */
  lemma ClosingAt1(s: Net, env: Env, d: Address, t0: set<End>, t2: Table<End>, c1: seq<bv64>, c2: seq<bv64>,
                   f: set<Msg>)
    requires At(s, d, t0, Table({A10, A12}, map[d := Route(9, A12)]), t2, c1, c2, f)
    ensures Enabled(env, s, Close(A10)) && forall a :: !LoopFreedom.RoutesOver(s, A10, a)
    ensures At(Apply(env, s, Close(A10)), d, t0, Table({A12}, map[d := Route(9, A12)]), t2, c1, c2, f)
    ensures A10 in Apply(env, s, Close(A10)).joined
  {
    assert Table({A10, A12}, map[d := Route(9, A12)]).Remove(DotNet, A10) == Table({A12}, map[d := Route(9, A12)]);
  }

  /** Node 1 floods what comes from the removed link and learns nothing. */
  lemma FloodsBlindly(s: Net, env: Env, d: Address, t0: set<End>, t2: Table<End>, c1: seq<bv64>, c2: seq<bv64>,
                      f: set<Msg>)
    requires At(s, d, t0, Table({A12}, map[d := Route(9, A12)]), t2, c1, c2, f) && A10 in s.joined && |d| == 4
    requires Msg(A01, Newer(d)) in f && env.fingerprint(Newer(d)) !in c1 && |c1| < 2
    ensures Enabled(env, s, Deliver(Msg(A01, Newer(d)), NOW))
    ensures At(Apply(env, s, Deliver(Msg(A01, Newer(d)), NOW)), d, t0, Table({A12}, map[d := Route(9, A12)]), t2,
               c1 + [env.fingerprint(Newer(d))], c2, f - {Msg(A01, Newer(d))} + {Msg(A12, Newer(d))})
  {
    var m := Msg(A01, Newer(d));
    Packets(env, d);
    Flood.DeliverFirst(env, s, m, NOW);
    hide Apply;
    hide TracerOf;
    hide Fresh;
    hide LoadU64;
    assert Msg(A12, m.packet) in ToAll({A12}, m.packet);
  }

  lemma RunAfterClose(s: Net, env: Env, d: Address, t0: set<End>)
    requires At(s, d, t0, Table({A12}, map[d := Route(9, A12)]), Table({A21, A20}, map[d := Route(9, A20)]),
                [env.fingerprint(Older(d))], [env.fingerprint(Older(d))], {Msg(A12, Older(d)), Msg(A01, Newer(d))})
    requires A10 in s.joined && |d| == 4 && env.fingerprint(Older(d)) != env.fingerprint(Newer(d))
    ensures Runs(env, s, AfterClose(d))
    ensures LoopFreedom.Chain(Final(env, s, AfterClose(d)), d, [1, 2, 1])
  {
    hide Apply;
    hide Enabled;
    hide At;
    hide LoopFreedom.Chain;
    var (t1, t2) := (Table({A12}, map[d := Route(9, A12)]), Table({A21, A20}, map[d := Route(9, A20)]));
    var (c, waiting, m) := ([env.fingerprint(Older(d))], Msg(A12, Older(d)), Msg(A12, Newer(d)));
    Packets(env, d);
    hide Older;
    hide Newer;
    hide TracerOf;
    hide Fresh;
    hide Timestamp;
    FloodsBlindly(s, env, d, t0, t2, c, c, {waiting, Msg(A01, Newer(d))});
    var s1 := Apply(env, s, Deliver(Msg(A01, Newer(d)), NOW));
    var f := {waiting, Msg(A01, Newer(d))} - {Msg(A01, Newer(d))} + {m};
    HeardBy2(s1, env, d, m, A21, t0, t1, t2, c + [env.fingerprint(Newer(d))], c, f);
    Two(env, s, Deliver(Msg(A01, Newer(d)), NOW), Deliver(m, NOW));
    Relearned(t2.peers, d, 9, A20, 10, A21);
    FacingEachOther(Apply(env, s1, Deliver(m, NOW)), d, t0, t1, Table({A21, A20}, map[d := Route(10, A21)]),
                    c + [env.fingerprint(Newer(d))], c + [env.fingerprint(Newer(d))], f - {m} + {Msg(A21, Newer(d))});
  }

  lemma RunBeforeClose(s: Net, env: Env, d: Address)
    requires At(s, d, {}, Table({}, map[]), Table({}, map[]), [], [], {}) && |d| == 4
    ensures Runs(env, s, BeforeClose(d))
    ensures At(Final(env, s, BeforeClose(d)), d, {A01, A02}, Table({A10, A12}, map[d := Route(9, A12)]),
               Table({A21, A20}, map[d := Route(9, A20)]), [env.fingerprint(Older(d))], [env.fingerprint(Older(d))],
               {Msg(A12, Older(d)), Msg(A01, Newer(d))})
  {
    hide At;
    hide Runs;
    hide Final;
    hide SpreadOlder;
    hide TellNode1;
    RunPhase1(s, env, d);
    RunPhase3(Final(env, s, PHASE1), env, d, Table({A10, A12}, map[]), [], {});
    RunsConcat(env, s, PHASE1, PHASE3);
    RunSpreadOlder(Final(env, s, PHASE1 + PHASE3), env, d);
    RunsConcat(env, s, PHASE1 + PHASE3, SpreadOlder(d));
    RunTellNode1(Final(env, s, PHASE1 + PHASE3 + SpreadOlder(d)), env, d, Table({A21, A20}, map[d := Route(9, A20)]),
                 [env.fingerprint(Older(d))]);
    RunsConcat(env, s, PHASE1 + PHASE3 + SpreadOlder(d), TellNode1(d));
  }

  /**
   * From the same starts the second run ends in the same loop, although its only removal makes no node forget a route:
   * the flood of an announcement from a removed link alone can break loop freedom.
   */
  lemma BlindFloodCanLoop(env: Env, s: Net, d: Address)
    requires Initial(s) && At(s, d, {}, Table({}, map[]), Table({}, map[]), [], [], {}) && |d| == 4
    requires env.fingerprint(Older(d)) != env.fingerprint(Newer(d))
    ensures Runs(env, s, BeforeClose(d)) && Enabled(env, Final(env, s, BeforeClose(d)), Close(A10))
    ensures forall a :: !LoopFreedom.RoutesOver(Final(env, s, BeforeClose(d)), A10, a)
    ensures Runs(env, s, BeforeClose(d) + [Close(A10)] + AfterClose(d))
    ensures LoopFreedom.Chain(Final(env, s, BeforeClose(d) + [Close(A10)] + AfterClose(d)), d, [1, 2, 1])
  {
    hide At;
    hide Runs;
    hide Final;
    hide BeforeClose;
    hide AfterClose;
    hide LoopFreedom.Chain;
    hide LoopFreedom.RoutesOver;
    hide Enabled;
    hide Apply;
    RunBeforeClose(s, env, d);
    var s1 := Final(env, s, BeforeClose(d));
    var c := [env.fingerprint(Older(d))];
    ClosingAt1(s1, env, d, {A01, A02}, Table({A21, A20}, map[d := Route(9, A20)]), c, c,
               {Msg(A12, Older(d)), Msg(A01, Newer(d))});
    One(env, s1, Close(A10));
    RunsConcat(env, s, BeforeClose(d), [Close(A10)]);
    RunAfterClose(Apply(env, s1, Close(A10)), env, d, {A01, A02});
    RunsConcat(env, s, BeforeClose(d) + [Close(A10)], AfterClose(d));
  }
}
