/** One announcement over fixed links: whom it reaches, what it costs, and that it comes to rest. */
module Flood {
  import opened Wire
  import opened RouteTable
  import opened SeenPackets
  import opened PacketStep
  import opened Network

  predicate Processed(env: Env, s: Net, n: nat, p: Bytes) {
    n < |s.nodes| && s.nodes[n].seen.Has(env.fingerprint(p))
  }

  /** Connections are registered at both ends and stay inside the network. */
  ghost predicate Wired(s: Net) {
    forall n, e :: 0 <= n < |s.nodes| && e in s.nodes[n].table.peers ==>
      e.at == n && e.to < |s.nodes| && Twin(e) in s.nodes[e.to].table.peers
  }

  /**
   * The hypotheses about announcement p, one step at a time: links stay fixed, no copy is lost, the announcement is not
   * repeated, it is fresh wherever it arrives, no other delivered packet has its fingerprint (all that is Still), and
   * no cache evicts it.
   */
  predicate Calm(env: Env, s: Net, step: Step, p: Bytes)
    requires Enabled(env, s, step)
  {
    && Still(env, s, step, p)
    && (step.Deliver? && step.m.packet != p ==>
          (Processed(env, s, step.m.via.to, p) ==> Processed(env, Apply(env, s, step), step.m.via.to, p)))
  }

  predicate Still(env: Env, s: Net, step: Step, p: Bytes)
    requires Enabled(env, s, step)
  {
    match step
    case Open(_) => false
    case Close(_) => false
    case Lose(m) => m.packet != p
    case Announce(_, command, payload, stamp) => Packet(command, payload, stamp) != p
    case Deliver(m, clock) =>
      if m.packet == p then |p| >= HEADER && Fresh(Timestamp(p), clock.now) && s.nodes[m.via.to].seen.capacity > 0
      else env.fingerprint(m.packet) != env.fingerprint(p)
    case _ => true
  }

  ghost predicate CalmRun(env: Env, s: Net, steps: seq<Step>, p: Bytes)
    requires Runs(env, s, steps)
    decreases steps
  {
    steps == [] || (Calm(env, s, steps[0], p) && CalmRun(env, Apply(env, s, steps[0]), steps[1..], p))
  }

  predicate Carries(s: Net, p: Bytes) {
    exists m :: m in s.flight && m.packet == p
  }

  // ---------- The effect of the steps of a calm run ----------

  predicate SameLinks(s: Net, s': Net) {
    && |s'.nodes| == |s.nodes|
    && forall n :: 0 <= n < |s.nodes| ==>
         s'.nodes[n].table.peers == s.nodes[n].table.peers && s'.nodes[n].impl == s.nodes[n].impl
  }

  /** A duplicate is dropped without a trace. */
  lemma DeliverAgain(env: Env, s: Net, m: Msg, clock: Clock)
    requires Enabled(env, s, Deliver(m, clock)) && Processed(env, s, m.via.to, m.packet)
    ensures Apply(env, s, Deliver(m, clock)) == s.(flight := s.flight - multiset{m}, clock := s.clock + 1)
  {
  }

  /** The first copy is remembered, learned from, and flooded to every link. */
  lemma DeliverFirst(env: Env, s: Net, m: Msg, clock: Clock)
    requires Enabled(env, s, Deliver(m, clock)) && !Processed(env, s, m.via.to, m.packet)
    requires TracerOf(env, m.packet).Some? && Fresh(Timestamp(m.packet), clock.now)
    ensures var (s', k, node) := (Apply(env, s, Deliver(m, clock)), m.via.to, s.nodes[m.via.to]);
            && s'.nodes == s.nodes[k := node.(
                 seen := node.seen.Add(env.fingerprint(m.packet)).1,
                 table := node.table.Learn(node.impl, Timestamp(m.packet), TracerOf(env, m.packet).value, Twin(m.via)))]
            && s'.flight == s.flight - multiset{m} + ToAll(node.table.peers, m.packet)
  {
    hide Fresh;
    hide LoadU64;
    assert Emitted(s.nodes[m.via.to].table.peers, [All(m.packet)]) == ToAll(s.nodes[m.via.to].table.peers, m.packet);
  }

  /** Another packet leaves the copies of p, who processed it, and the routes at least as good as they were. */
  lemma DeliverOther(env: Env, s: Net, m: Msg, clock: Clock, p: Bytes, f: Msg)
    requires Enabled(env, s, Deliver(m, clock)) && m.packet != p && TracerOf(env, p).Some? && f.packet == p
    ensures f in Apply(env, s, Deliver(m, clock)).flight <==> f in s.flight
  {
    DeliverOtherEmits(env, s, m, clock, p);
    hide Process;
    hide Accepts;
  }

  lemma DeliverOtherEmits(env: Env, s: Net, m: Msg, clock: Clock, p: Bytes)
    requires Enabled(env, s, Deliver(m, clock)) && m.packet != p && TracerOf(env, p).Some?
    ensures var (node, sends) := (s.nodes[m.via.to], Process(env, s.nodes[m.via.to], m.packet, Twin(m.via), clock).1);
            forall f :: f in Emitted(node.table.peers, sends) ==> f.packet != p
  {
    var (node, sends) := (s.nodes[m.via.to], Process(env, s.nodes[m.via.to], m.packet, Twin(m.via), clock).1);
    hide Process;
    hide Accepts;
    forall f | f in Emitted(node.table.peers, sends) ensures f.packet != p {
      EmittedFrom(node.table.peers, sends, f);
      if All(f.packet) in sends {
        SendsKeepKinds(env, node, m.packet, Twin(m.via), clock, All(f.packet));
      } else {
        SendsKeepKinds(env, node, m.packet, Twin(m.via), clock, Via(f.via, f.packet));
      }
    }
  }

  /** Who has processed p changes only by delivering p. */
  lemma DeliverOtherSeen(env: Env, s: Net, m: Msg, clock: Clock, p: Bytes)
    requires Enabled(env, s, Deliver(m, clock)) && m.packet != p && Calm(env, s, Deliver(m, clock), p)
    ensures forall n: nat :: Processed(env, Apply(env, s, Deliver(m, clock)), n, p) <==> Processed(env, s, n, p)
  {
    hide Parse;
    hide HandleProbe;
    hide Fresh;
    hide LoadU64;
    hide TracerOf;
    hide Emitted;
  }

  /** The steps of a calm run that deliver nothing change no table, no cache and no copy of p. */
  lemma SilentStep(env: Env, s: Net, step: Step, p: Bytes)
    requires Enabled(env, s, step) && Calm(env, s, step, p) && !step.Deliver? && TracerOf(env, p).Some?
    ensures var s' := Apply(env, s, step);
            && SameLinks(s, s')
            && (forall n :: 0 <= n < |s.nodes| ==>
                  s'.nodes[n].table == s.nodes[n].table && s'.nodes[n].seen == s.nodes[n].seen)
            && (forall f: Msg :: f.packet == p ==> (f in s'.flight <==> f in s.flight))
  {
    hide TracerOf, Packet, Processed, Emitted, SendTo, ToAll, DestinationAt;
    match step
    case FromTun(n, ip, stamp) =>
      NotTracer(env, 3, ip, stamp);
      SentToOne(s.nodes[n].table, DestinationAt(s.nodes[n].impl, ip).value, Packet(3, ip, stamp));
    case Trace(n, nonce, target, source, stamp) =>
      NotTracer(env, 4, TracePayload(nonce, target, source), stamp);
      SentToOne(s.nodes[n].table, target, Packet(4, TracePayload(nonce, target, source), stamp));
    case Announce(n, command, payload, stamp) =>
      SentToAll(s.nodes[n].table.peers, Packet(command, payload, stamp));
    case _ =>
  }

  lemma SentToAll(peers: set<End>, packet: Bytes)
    ensures forall f :: f in ToAll(peers, packet) ==> f.packet == packet
  {
  }

  lemma SentToOne(t: Table<End>, a: Address, packet: Bytes)
    ensures forall f :: f in Emitted({}, SendTo(t, a, packet)) ==> f.packet == packet
  {
    forall f | f in Emitted({}, SendTo(t, a, packet)) ensures f.packet == packet {
      EmittedFrom({}, SendTo(t, a, packet), f);
    }
  }

  // ---------- Coverage ----------

  /**
   * Whoever sent out p has, per link, a copy in flight or a neighbour that processed p; whoever processed p has a
   * route.
   */
  ghost predicate Covering(env: Env, s: Net, o: nat, p: Bytes) {
    && Wired(s) && TracerOf(env, p).Some?
    && (forall m :: m in s.flight && m.packet == p ==> m.via.at < |s.nodes| && m.via in s.nodes[m.via.at].table.peers)
    && (forall n, e :: 0 <= n < |s.nodes| && (n == o || Processed(env, s, n, p)) && e in s.nodes[n].table.peers ==>
          Msg(e, p) in s.flight || Processed(env, s, e.to, p))
    && (forall n: nat :: Processed(env, s, n, p) ==> Informed(env, s, n, p))
  }

  predicate Informed(env: Env, s: Net, n: nat, p: Bytes) {
    && |p| >= HEADER && TracerOf(env, p).Some?
    && s.Knows(n, TracerOf(env, p).value) && s.RouteOf(n, TracerOf(env, p).value).timestamp >= Timestamp(p)
  }

  /**
   * Coverage survives a step that drops copies only at nodes that processed p and floods where p was just processed.
   */
  lemma CoversNext(env: Env, s: Net, s': Net, o: nat, p: Bytes)
    requires Covering(env, s, o, p) && SameLinks(s, s')
    requires forall n: nat :: Processed(env, s, n, p) ==> Processed(env, s', n, p)
    requires forall n: nat :: Processed(env, s', n, p) ==> Informed(env, s', n, p)
    requires forall f: Msg :: f.packet == p && f in s.flight ==> f in s'.flight || Processed(env, s', f.via.to, p)
    requires forall f: Msg :: f.packet == p && f in s'.flight ==>
               f in s.flight || (f.via.at < |s.nodes| && f.via in s.nodes[f.via.at].table.peers)
    requires forall n, e ::
               (0 <= n < |s.nodes| && Processed(env, s', n, p) && !Processed(env, s, n, p)
                && e in s.nodes[n].table.peers) ==>
               Msg(e, p) in s'.flight
    ensures Covering(env, s', o, p)
  {
    hide Processed;
    hide Informed;
    hide TracerOf;
    forall n, e | 0 <= n < |s'.nodes| && (n == o || Processed(env, s', n, p)) && e in s'.nodes[n].table.peers
      ensures Msg(e, p) in s'.flight || Processed(env, s', e.to, p)
    {
      if n == o || Processed(env, s, n, p) {
        assert Msg(e, p) in s.flight || Processed(env, s, e.to, p);
        assert Msg(e, p).packet == p;
      }
    }
  }

  lemma DeliverAgainCovers(env: Env, s: Net, m: Msg, clock: Clock, o: nat)
    requires Covering(env, s, o, m.packet) && Enabled(env, s, Deliver(m, clock))
             && Processed(env, s, m.via.to, m.packet)
    ensures Covering(env, Apply(env, s, Deliver(m, clock)), o, m.packet)
  {
    DeliverAgain(env, s, m, clock);
    var s' := Apply(env, s, Deliver(m, clock));
    hide Apply;
    hide TracerOf;
    assert SameLinks(s, s');
    forall n: nat ensures Processed(env, s', n, m.packet) <==> Processed(env, s, n, m.packet) { }
    forall n: nat | Processed(env, s, n, m.packet) ensures Informed(env, s', n, m.packet) {
      assert Informed(env, s, n, m.packet);
    }
    hide Processed;
    hide Informed;
    CoversNext(env, s, s', o, m.packet);
  }

  lemma FirstIsProcessed(env: Env, s: Net, m: Msg, clock: Clock)
    requires Enabled(env, s, Deliver(m, clock)) && !Processed(env, s, m.via.to, m.packet)
    requires TracerOf(env, m.packet).Some? && Calm(env, s, Deliver(m, clock), m.packet)
    ensures SameLinks(s, Apply(env, s, Deliver(m, clock)))
    ensures forall n: nat ::
              Processed(env, Apply(env, s, Deliver(m, clock)), n, m.packet)
              <==> n == m.via.to || Processed(env, s, n, m.packet)
  {
    DeliverFirst(env, s, m, clock);
    AddedIsKnown(s.nodes[m.via.to].seen, env.fingerprint(m.packet));
    hide Apply;
    hide Calm;
    hide TracerOf;
  }

  lemma FirstIsInformed(env: Env, s: Net, m: Msg, clock: Clock, n: nat)
    requires Enabled(env, s, Deliver(m, clock)) && !Processed(env, s, m.via.to, m.packet)
    requires TracerOf(env, m.packet).Some? && Calm(env, s, Deliver(m, clock), m.packet)
    requires Twin(m.via) in s.nodes[m.via.to].table.peers
    requires n == m.via.to || Informed(env, s, n, m.packet)
    ensures Informed(env, Apply(env, s, Deliver(m, clock)), n, m.packet)
  {
    DeliverFirst(env, s, m, clock);
    assert |m.packet| >= HEADER;
    hide Apply;
    hide Calm;
    hide TracerOf;
  }

  lemma DeliverFirstCovers(env: Env, s: Net, m: Msg, clock: Clock, o: nat)
    requires Covering(env, s, o, m.packet) && Enabled(env, s, Deliver(m, clock))
             && !Processed(env, s, m.via.to, m.packet)
    requires Calm(env, s, Deliver(m, clock), m.packet)
    ensures Covering(env, Apply(env, s, Deliver(m, clock)), o, m.packet)
  {
    DeliverFirst(env, s, m, clock);
    FirstIsProcessed(env, s, m, clock);
    var (s', p, k) := (Apply(env, s, Deliver(m, clock)), m.packet, m.via.to);
    assert Twin(m.via) in s.nodes[k].table.peers;
    hide Apply, TracerOf, Calm, Processed, Informed, Fresh, LoadU64;
    forall n: nat | Processed(env, s', n, p) ensures Informed(env, s', n, p) {
      FirstIsInformed(env, s, m, clock, n);
    }
    CoversNext(env, s, s', o, p);
  }

  lemma DeliverOtherCovers(env: Env, s: Net, m: Msg, clock: Clock, o: nat, p: Bytes)
    requires Covering(env, s, o, p) && Enabled(env, s, Deliver(m, clock)) && m.packet != p
    requires Calm(env, s, Deliver(m, clock), p)
    ensures Covering(env, Apply(env, s, Deliver(m, clock)), o, p)
  {
    var s' := Apply(env, s, Deliver(m, clock));
    DeliverOtherSeen(env, s, m, clock, p);
    DeliverOtherTables(env, s, m, clock, p);
    forall f: Msg | f.packet == p ensures f in s'.flight <==> f in s.flight { DeliverOther(env, s, m, clock, p, f); }
    hide Apply;
    hide Processed;
    hide Informed;
    hide Calm;
    hide TracerOf;
    CoversNext(env, s, s', o, p);
  }

  lemma DeliverOtherTables(env: Env, s: Net, m: Msg, clock: Clock, p: Bytes)
    requires Enabled(env, s, Deliver(m, clock))
    ensures SameLinks(s, Apply(env, s, Deliver(m, clock)))
    ensures forall n: nat :: Informed(env, s, n, p) ==> Informed(env, Apply(env, s, Deliver(m, clock)), n, p)
  {
    LearnEffect(env, s.nodes[m.via.to], m.packet, Twin(m.via), clock);
    ProcessKeepsIdentity(env, s.nodes[m.via.to], m.packet, Twin(m.via), clock);
    hide Process;
    hide TracerOf;
    hide LoadU64;
  }

  lemma SilentCovers(env: Env, s: Net, step: Step, o: nat, p: Bytes)
    requires Covering(env, s, o, p) && Enabled(env, s, step) && Calm(env, s, step, p) && !step.Deliver?
    ensures Covering(env, Apply(env, s, step), o, p)
  {
    SilentStep(env, s, step, p);
    hide Apply;
    hide Calm;
    hide TracerOf;
    assert forall n: nat :: Informed(env, s, n, p) ==> Informed(env, Apply(env, s, step), n, p);
    hide Informed;
    CoversNext(env, s, Apply(env, s, step), o, p);
  }

  lemma StepCovers(env: Env, s: Net, step: Step, o: nat, p: Bytes)
    requires Covering(env, s, o, p) && Enabled(env, s, step) && Calm(env, s, step, p)
    ensures Covering(env, Apply(env, s, step), o, p)
  {
    hide Covering;
    hide Apply;
    hide Calm;
    hide Enabled;
    if !step.Deliver? {
      SilentCovers(env, s, step, o, p);
    } else if step.m.packet != p {
      DeliverOtherCovers(env, s, step.m, step.clock, o, p);
    } else if Processed(env, s, step.m.via.to, p) {
      DeliverAgainCovers(env, s, step.m, step.clock, o);
    } else {
      DeliverFirstCovers(env, s, step.m, step.clock, o);
    }
  }

  lemma {:induction false} RunCovers(env: Env, s: Net, steps: seq<Step>, o: nat, p: Bytes)
    requires Covering(env, s, o, p) && Runs(env, s, steps) && CalmRun(env, s, steps, p)
    ensures Covering(env, Final(env, s, steps), o, p)
    decreases steps
  {
    if steps != [] {
      hide Covering;
      hide Calm;
      hide Apply;
      hide Enabled;
      StepCovers(env, s, steps[0], o, p);
      RunCovers(env, Apply(env, s, steps[0]), steps[1..], o, p);
    }
  }
}
