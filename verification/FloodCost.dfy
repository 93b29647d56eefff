/** The flood of one announcement as an exact budget, and the theorems about a flood that has come to rest. */
module FloodCost {
  import opened Wire
  import opened PacketStep
  import opened Network
  import opened Sums
  import opened Flood
  import opened Eviction
  import opened LoopFreedom

  function CopyOf(p: Bytes): Msg -> nat {
    (m: Msg) => if m.packet == p then 1 else 0
  }

  /** Copies of p in flight. */
  ghost function Copies(s: Net, p: Bytes): nat {
    Sum(s.flight, CopyOf(p))
  }

  /** The summed degrees of those among the first k nodes that have (or have not) processed p. */
  function Degrees(env: Env, s: Net, p: Bytes, processed: bool, k: nat): nat
    requires k <= |s.nodes|
  {
    if k == 0 then 0
    else
      Degrees(env, s, p, processed, k - 1)
      + if Processed(env, s, k - 1, p) == processed then |s.nodes[k - 1].table.peers| else 0
  }

  ghost function Budget(env: Env, s: Net, p: Bytes): nat {
    Copies(s, p) + Degrees(env, s, p, false, |s.nodes|)
  }

  function Deliveries(steps: seq<Step>, p: Bytes): nat {
    if steps == [] then 0
    else (if steps[0].Deliver? && steps[0].m.packet == p then 1 else 0) + Deliveries(steps[1..], p)
  }

  // ---------- Copies ----------

  lemma {:induction false} AsManyAsPeers(peers: set<End>, p: Bytes)
    ensures |set e | e in peers :: Msg(e, p)| == |peers|
  {
    if peers != {} {
      var x :| x in peers;
      AsManyAsPeers(peers - {x}, p);
      assert (set e | e in peers :: Msg(e, p)) == (set e | e in peers - {x} :: Msg(e, p)) + {Msg(x, p)};
    }
  }

  lemma FloodedCopies(peers: set<End>, p: Bytes)
    ensures Sum(ToAll(peers, p), CopyOf(p)) == |peers|
  {
    AsManyAsPeers(peers, p);
    SumOnes(set e | e in peers :: Msg(e, p), CopyOf(p));
  }

  /** A weight that counts nothing but copies of p. */
  ghost predicate CountsCopies(w: Msg -> nat, p: Bytes) {
    forall m: Msg :: m.packet != p ==> w(m) == 0
  }

  lemma AddNoCopies(s: Net, s': Net, extra: multiset<Msg>, w: Msg -> nat, p: Bytes)
    requires s'.flight == s.flight + extra && CountsCopies(w, p) && forall m :: m in extra ==> m.packet != p
    ensures Sum(s'.flight, w) == Sum(s.flight, w)
  {
    SumUnion(s.flight, extra, w);
    SumZero(extra, w);
  }

  lemma SilentCopies(env: Env, s: Net, step: Step, w: Msg -> nat, p: Bytes)
    requires Enabled(env, s, step) && Calm(env, s, step, p) && !step.Deliver? && TracerOf(env, p).Some?
             && CountsCopies(w, p)
    ensures Sum(Apply(env, s, step).flight, w) == Sum(s.flight, w)
  {
    hide TracerOf, Packet, CountsCopies, Emitted, SendTo, ToAll, DestinationAt, LoadU64;
    match step
    case FromTun(n, ip, stamp) =>
      var (t, a, packet) := (s.nodes[n].table, DestinationAt(s.nodes[n].impl, ip).value, Packet(3, ip, stamp));
      NotTracer(env, 3, ip, stamp);
      SentToOne(t, a, packet);
      AddNoCopies(s, Apply(env, s, step), Emitted({}, SendTo(t, a, packet)), w, p);
    case Trace(n, nonce, target, source, stamp) =>
      var packet := Packet(4, TracePayload(nonce, target, source), stamp);
      NotTracer(env, 4, TracePayload(nonce, target, source), stamp);
      SentToOne(s.nodes[n].table, target, packet);
      AddNoCopies(s, Apply(env, s, step), Emitted({}, SendTo(s.nodes[n].table, target, packet)), w, p);
    case Announce(n, command, payload, stamp) =>
      SentToAll(s.nodes[n].table.peers, Packet(command, payload, stamp));
      AddNoCopies(s, Apply(env, s, step), ToAll(s.nodes[n].table.peers, Packet(command, payload, stamp)), w, p);
    case Lose(m) =>
      SumRemove(s.flight, w, m);
      NoCopy(w, p, m);
    case _ =>
  }

  lemma NoCopy(w: Msg -> nat, p: Bytes, m: Msg)
    requires CountsCopies(w, p) && m.packet != p
    ensures w(m) == 0
  {
  }

  lemma OtherCopies(env: Env, s: Net, m: Msg, clock: Clock, w: Msg -> nat, p: Bytes)
    requires Enabled(env, s, Deliver(m, clock)) && m.packet != p && TracerOf(env, p).Some? && CountsCopies(w, p)
    ensures Sum(Apply(env, s, Deliver(m, clock)).flight, w) == Sum(s.flight, w)
  {
    DeliverOtherEmits(env, s, m, clock, p);
    var sends := Process(env, s.nodes[m.via.to], m.packet, Twin(m.via), clock).1;
    var rest := s.(flight := s.flight - multiset{m});
    hide Process, Emitted, TracerOf, CountsCopies;
    SumRemove(s.flight, w, m);
    NoCopy(w, p, m);
    AddNoCopies(rest, Apply(env, s, Deliver(m, clock)), Emitted(s.nodes[m.via.to].table.peers, sends), w, p);
  }

  lemma FirstCopies(env: Env, s: Net, m: Msg, clock: Clock, w: Msg -> nat)
    requires Enabled(env, s, Deliver(m, clock)) && !Processed(env, s, m.via.to, m.packet)
    requires TracerOf(env, m.packet).Some? && Calm(env, s, Deliver(m, clock), m.packet)
    ensures Sum(Apply(env, s, Deliver(m, clock)).flight, w) + w(m)
            == Sum(s.flight, w) + Sum(ToAll(s.nodes[m.via.to].table.peers, m.packet), w)
  {
    DeliverFirst(env, s, m, clock);
    hide Apply;
    SumRemove(s.flight, w, m);
    SumUnion(s.flight - multiset{m}, ToAll(s.nodes[m.via.to].table.peers, m.packet), w);
  }

  // ---------- Degrees ----------

  lemma {:induction false} DegreesSame(env: Env, s: Net, s': Net, p: Bytes, processed: bool, k: nat)
    requires SameLinks(s, s') && k <= |s.nodes|
    requires forall n: nat :: Processed(env, s', n, p) <==> Processed(env, s, n, p)
    ensures Degrees(env, s', p, processed, k) == Degrees(env, s, p, processed, k)
  {
    hide Processed;
    if k > 0 {
      DegreesSame(env, s, s', p, processed, k - 1);
    }
  }

  lemma {:induction false} DegreesDrop(env: Env, s: Net, s': Net, p: Bytes, j: nat, k: nat)
    requires SameLinks(s, s') && k <= |s.nodes| && j < |s.nodes| && !Processed(env, s, j, p)
    requires forall n: nat :: Processed(env, s', n, p) <==> n == j || Processed(env, s, n, p)
    ensures Degrees(env, s', p, false, k) + (if j < k then |s.nodes[j].table.peers| else 0)
            == Degrees(env, s, p, false, k)
  {
    hide Processed;
    if k > 0 {
      DegreesDrop(env, s, s', p, j, k - 1);
    }
  }

  // ---------- The budget ----------

  lemma AgainCopies(env: Env, s: Net, m: Msg, clock: Clock, w: Msg -> nat)
    requires Enabled(env, s, Deliver(m, clock)) && Processed(env, s, m.via.to, m.packet)
    ensures Sum(Apply(env, s, Deliver(m, clock)).flight, w) + w(m) == Sum(s.flight, w)
    ensures SameLinks(s, Apply(env, s, Deliver(m, clock)))
    ensures forall n: nat :: Processed(env, Apply(env, s, Deliver(m, clock)), n, m.packet)
              <==> Processed(env, s, n, m.packet)
  {
    DeliverAgain(env, s, m, clock);
    hide Apply;
    SumRemove(s.flight, w, m);
  }

  lemma SilentSpendsNothing(env: Env, s: Net, step: Step, p: Bytes)
    requires Enabled(env, s, step) && Calm(env, s, step, p) && !step.Deliver? && TracerOf(env, p).Some?
    ensures Budget(env, Apply(env, s, step), p) == Budget(env, s, p)
    ensures SameLinks(s, Apply(env, s, step))
  {
    SilentStep(env, s, step, p);
    SilentCopies(env, s, step, CopyOf(p), p);
    hide Apply;
    hide Calm;
    hide TracerOf;
    DegreesSame(env, s, Apply(env, s, step), p, false, |s.nodes|);
  }

  lemma OtherSpendsNothing(env: Env, s: Net, m: Msg, clock: Clock, p: Bytes)
    requires Enabled(env, s, Deliver(m, clock)) && Calm(env, s, Deliver(m, clock), p) && m.packet != p
             && TracerOf(env, p).Some?
    ensures Budget(env, Apply(env, s, Deliver(m, clock)), p) == Budget(env, s, p)
    ensures SameLinks(s, Apply(env, s, Deliver(m, clock)))
  {
    hide Apply, Enabled, Calm, Processed, Degrees, TracerOf, Sum;
    DeliverOtherSeen(env, s, m, clock, p);
    DeliverOtherTables(env, s, m, clock, p);
    OtherCopies(env, s, m, clock, CopyOf(p), p);
    DegreesSame(env, s, Apply(env, s, Deliver(m, clock)), p, false, |s.nodes|);
  }

  lemma AgainSpendsOne(env: Env, s: Net, m: Msg, clock: Clock)
    requires Enabled(env, s, Deliver(m, clock)) && Processed(env, s, m.via.to, m.packet)
    ensures Budget(env, Apply(env, s, Deliver(m, clock)), m.packet) + 1 == Budget(env, s, m.packet)
    ensures SameLinks(s, Apply(env, s, Deliver(m, clock)))
  {
    hide Apply, Enabled, Processed, Degrees, Sum;
    AgainCopies(env, s, m, clock, CopyOf(m.packet));
    DegreesSame(env, s, Apply(env, s, Deliver(m, clock)), m.packet, false, |s.nodes|);
  }

  lemma FirstSpendsOne(env: Env, s: Net, m: Msg, clock: Clock)
    requires Enabled(env, s, Deliver(m, clock)) && !Processed(env, s, m.via.to, m.packet)
    requires Calm(env, s, Deliver(m, clock), m.packet) && TracerOf(env, m.packet).Some?
    ensures Budget(env, Apply(env, s, Deliver(m, clock)), m.packet) + 1 == Budget(env, s, m.packet)
    ensures SameLinks(s, Apply(env, s, Deliver(m, clock)))
  {
    assert m.via.to < |s.nodes|;
    hide Apply, Enabled, Calm, Processed, Degrees, Sum, TracerOf, ToAll;
    FirstIsProcessed(env, s, m, clock);
    FirstCopies(env, s, m, clock, CopyOf(m.packet));
    FloodedCopies(s.nodes[m.via.to].table.peers, m.packet);
    DegreesDrop(env, s, Apply(env, s, Deliver(m, clock)), m.packet, m.via.to, |s.nodes|);
  }

  /** Every delivery of p spends exactly one unit; no other step changes the budget. */
  lemma DeliverySpendsOne(env: Env, s: Net, step: Step, p: Bytes)
    requires Enabled(env, s, step) && Calm(env, s, step, p) && TracerOf(env, p).Some?
    ensures Budget(env, Apply(env, s, step), p) + Deliveries([step], p) == Budget(env, s, p)
    ensures SameLinks(s, Apply(env, s, step))
  {
    hide Apply, Enabled, Calm, Processed, Budget, TracerOf, SameLinks;
    if !step.Deliver? {
      SilentSpendsNothing(env, s, step, p);
    } else if step.m.packet != p {
      OtherSpendsNothing(env, s, step.m, step.clock, p);
    } else if Processed(env, s, step.m.via.to, p) {
      AgainSpendsOne(env, s, step.m, step.clock);
    } else {
      FirstSpendsOne(env, s, step.m, step.clock);
    }
  }

  lemma SameNodes(s: Net, s': Net)
    requires SameLinks(s, s')
    ensures |s'.nodes| == |s.nodes|
  {
  }

  lemma SameLinksChain(s: Net, s': Net, s'': Net)
    requires SameLinks(s, s') && SameLinks(s', s'')
    ensures SameLinks(s, s'')
  {
  }

  lemma {:induction false} RunSpends(env: Env, s: Net, steps: seq<Step>, p: Bytes)
    requires Runs(env, s, steps) && CalmRun(env, s, steps, p) && TracerOf(env, p).Some?
    ensures Budget(env, Final(env, s, steps), p) + Deliveries(steps, p) == Budget(env, s, p)
    ensures SameLinks(s, Final(env, s, steps))
    decreases steps
  {
    if steps == [] {
      assert SameLinks(s, s);
    } else {
      hide TracerOf;
      hide Budget;
      hide Calm;
      hide Enabled;
      hide Apply;
      hide SameLinks;
      var s' := Apply(env, s, steps[0]);
      DeliverySpendsOne(env, s, steps[0], p);
      RunSpends(env, s', steps[1..], p);
      SameLinksChain(s, s', Final(env, s, steps));
    }
  }

  // ---------- The theorems ----------

  /** Nobody has met announcement p yet. */
  ghost predicate Unheard(env: Env, s: Net, p: Bytes) {
    && Wired(s)
    && (forall n: nat :: !Processed(env, s, n, p))
    && (forall m :: m in s.flight ==> m.packet != p)
  }

  lemma AnnouncementCovers(env: Env, s: Net, o: nat, command: byte, payload: Bytes, stamp: bv64)
    requires Enabled(env, s, Announce(o, command, payload, stamp)) && Unheard(env, s, Packet(command, payload, stamp))
    ensures Covering(env, Apply(env, s, Announce(o, command, payload, stamp)), o, Packet(command, payload, stamp))
    ensures SameLinks(s, Apply(env, s, Announce(o, command, payload, stamp)))
    ensures forall n: nat ::
              !Processed(env, Apply(env, s, Announce(o, command, payload, stamp)), n, Packet(command, payload, stamp))
  {
    var (s', p, peers) := (Apply(env, s, Announce(o, command, payload, stamp)), Packet(command, payload, stamp),
                           s.nodes[o].table.peers);
    AnnouncesOwned(env, s.nodes[o], command, payload, stamp);
    hide TracerOf;
    hide Packet;
    forall n: nat ensures !Processed(env, s', n, p) {
      assert !Processed(env, s, n, p);
    }
    assert forall e :: e in peers ==> Msg(e, p) in ToAll(peers, p);
    hide Processed;
    hide Informed;
  }

  lemma AnnouncementStarts(env: Env, s: Net, o: nat, command: byte, payload: Bytes, stamp: bv64)
    requires Enabled(env, s, Announce(o, command, payload, stamp)) && Unheard(env, s, Packet(command, payload, stamp))
    ensures var (s', p) := (Apply(env, s, Announce(o, command, payload, stamp)), Packet(command, payload, stamp));
            && Covering(env, s', o, p) && SameLinks(s, s')
            && Budget(env, s', p) == |s.nodes[o].table.peers| + Degrees(env, s', p, false, |s.nodes|)
            && Degrees(env, s', p, true, |s.nodes|) == 0
  {
    var (s', p, peers) := (Apply(env, s, Announce(o, command, payload, stamp)), Packet(command, payload, stamp),
                           s.nodes[o].table.peers);
    AnnouncementCovers(env, s, o, command, payload, stamp);
    hide Packet;
    hide Covering;
    hide Processed;
    SumZero(s.flight, CopyOf(p));
    SumUnion(s.flight, ToAll(peers, p), CopyOf(p));
    FloodedCopies(peers, p);
    NoneProcessed(env, s', p, |s.nodes|);
  }

  lemma {:induction false} NoneProcessed(env: Env, s: Net, p: Bytes, k: nat)
    requires k <= |s.nodes| && forall n: nat :: !Processed(env, s, n, p)
    ensures Degrees(env, s, p, true, k) == 0
  {
    hide Processed;
    if k > 0 {
      NoneProcessed(env, s, p, k - 1);
    }
  }

  /** A walk over registered links, from node o to the far end of its last link. */
  predicate Walk(s: Net, o: nat, walk: seq<End>) {
    && |walk| > 0 && walk[0].at == o
    && (forall i :: 0 <= i < |walk| ==> walk[i].at < |s.nodes| && walk[i] in s.nodes[walk[i].at].table.peers)
    && (forall i :: 0 <= i < |walk| - 1 ==> walk[i].to == walk[i + 1].at)
  }

  lemma {:induction false} AtRestCovers(env: Env, s: Net, o: nat, p: Bytes, walk: seq<End>)
    requires Covering(env, s, o, p) && !Carries(s, p) && Walk(s, o, walk)
    ensures Processed(env, s, walk[|walk| - 1].to, p)
  {
    var last := |walk| - 1;
    if last > 0 {
      AtRestCovers(env, s, o, p, walk[..last]);
      assert walk[..last][last - 1].to == walk[last].at;
    }
    assert Msg(walk[last], p) in s.flight ==> Carries(s, p);
  }

  /** The flood of an announcement that came to rest reached every node a walk leads to, and left it a route as new. */
  lemma FloodReachesEveryone(
    env: Env, s: Net, o: nat, command: byte, payload: Bytes, stamp: bv64, steps: seq<Step>, walk: seq<End>)
    requires Enabled(env, s, Announce(o, command, payload, stamp)) && Unheard(env, s, Packet(command, payload, stamp))
    requires var s1 := Apply(env, s, Announce(o, command, payload, stamp));
             && Runs(env, s1, steps) && CalmRun(env, s1, steps, Packet(command, payload, stamp))
             && !Carries(Final(env, s1, steps), Packet(command, payload, stamp))
    requires Walk(s, o, walk)
    ensures var (f, p, n) := (Final(env, Apply(env, s, Announce(o, command, payload, stamp)), steps),
                              Packet(command, payload, stamp), walk[|walk| - 1].to);
            Processed(env, f, n, p) && Informed(env, f, n, p)
  {
    var (s1, p) := (Apply(env, s, Announce(o, command, payload, stamp)), Packet(command, payload, stamp));
    AnnouncementStarts(env, s, o, command, payload, stamp);
    hide Apply;
    hide Enabled;
    hide Packet;
    RunCovers(env, s1, steps, o, p);
    RunSpends(env, s1, steps, p);
    AtRestCovers(env, Final(env, s1, steps), o, p, walk);
  }

  /** Following next hops from any node the flood reached leads to an owner in at most |nodes| hops. */
  lemma FloodLeadsToOwner(
    env: Env, s: Net, o: nat, command: byte, payload: Bytes, stamp: bv64, steps: seq<Step>, walk: seq<End>,
    d: Address, t: nat)
    requires Inv(env, s, d, t)
    requires TracerOf(env, Packet(command, payload, stamp)) == Some(d) && t <= stamp as nat
    requires Enabled(env, s, Announce(o, command, payload, stamp)) && Unheard(env, s, Packet(command, payload, stamp))
    requires var s1 := Apply(env, s, Announce(o, command, payload, stamp));
             && Runs(env, s1, steps) && CalmRun(env, s1, steps, Packet(command, payload, stamp))
             && BenignRun(env, s1, steps, d, t)
             && !Carries(Final(env, s1, steps), Packet(command, payload, stamp))
    requires Walk(s, o, walk)
    ensures var (f, n) := (Final(env, Apply(env, s, Announce(o, command, payload, stamp)), steps), walk[|walk| - 1].to);
            && f.Knows(n, d) && f.Owns(Follow(f, d, n, |f.nodes|), d)
            && forall path :: Chain(f, d, path) && path[0] == n ==>
                 forall i, j :: 0 <= i < j < |path| ==> path[i] != path[j]
  {
    FloodReachesEveryone(env, s, o, command, payload, stamp, steps, walk);
    StepKeeps(env, s, Announce(o, command, payload, stamp), d, t);
    var s1 := Apply(env, s, Announce(o, command, payload, stamp));
    hide Apply;
    hide Enabled;
    hide TracerOf;
    hide Packet;
    hide Linked;
    hide MessagesOk;
    hide RoutesOk;
    hide Chain;
    RunKeeps(env, s1, steps, d, t);
    var (f, n) := (Final(env, s1, steps), walk[|walk| - 1].to);
    LeadsToOwner(f, d, t, n);
    forall path | Chain(f, d, path) && path[0] == n
      ensures forall i, j :: 0 <= i < j < |path| ==> path[i] != path[j]
    {
      ChainStartsForwarding(f, d, t, path);
      ChainNeverRepeats(f, d, t, path);
    }
  }

  /** At rest, the announcement has cost deg(origin) plus the degrees of all nodes that processed it. */
  lemma FloodCostsDegrees(env: Env, s: Net, o: nat, command: byte, payload: Bytes, stamp: bv64, steps: seq<Step>)
    requires Enabled(env, s, Announce(o, command, payload, stamp)) && Unheard(env, s, Packet(command, payload, stamp))
    requires var s1 := Apply(env, s, Announce(o, command, payload, stamp));
             && Runs(env, s1, steps) && CalmRun(env, s1, steps, Packet(command, payload, stamp))
             && !Carries(Final(env, s1, steps), Packet(command, payload, stamp))
    ensures var (f, p) := (Final(env, Apply(env, s, Announce(o, command, payload, stamp)), steps),
                           Packet(command, payload, stamp));
            |f.nodes| == |s.nodes| &&
            Deliveries(steps, p) == |s.nodes[o].table.peers| + Degrees(env, f, p, true, |f.nodes|)
  {
    var (s1, p) := (Apply(env, s, Announce(o, command, payload, stamp)), Packet(command, payload, stamp));
    AnnouncementStarts(env, s, o, command, payload, stamp);
    hide Apply;
    hide Enabled;
    hide Packet;
    hide TracerOf;
    hide CalmRun;
    RunSpends(env, s1, steps, p);
    var f := Final(env, s1, steps);
    SumZero(f.flight, CopyOf(p));
    SameTotal(env, s1, f, p, |s.nodes|);
  }

  lemma {:induction false} SameTotal(env: Env, s: Net, s': Net, p: Bytes, k: nat)
    requires SameLinks(s, s') && k <= |s.nodes|
    ensures Degrees(env, s, p, true, k) + Degrees(env, s, p, false, k)
            == Degrees(env, s', p, true, k) + Degrees(env, s', p, false, k)
  {
    hide Processed;
    if k > 0 {
      SameTotal(env, s, s', p, k - 1);
    }
  }

  /** However far it got, an announcement is delivered at most deg(origin) plus all degrees times. */
  lemma FloodEnds(env: Env, s: Net, o: nat, command: byte, payload: Bytes, stamp: bv64, steps: seq<Step>)
    requires Enabled(env, s, Announce(o, command, payload, stamp)) && Unheard(env, s, Packet(command, payload, stamp))
    requires var s1 := Apply(env, s, Announce(o, command, payload, stamp));
             Runs(env, s1, steps) && CalmRun(env, s1, steps, Packet(command, payload, stamp))
    ensures var s1 := Apply(env, s, Announce(o, command, payload, stamp));
            |s1.nodes| == |s.nodes| &&
            Deliveries(steps, Packet(command, payload, stamp))
              <= |s.nodes[o].table.peers| + Degrees(env, s1, Packet(command, payload, stamp), false, |s.nodes|)
  {
    AnnouncementStarts(env, s, o, command, payload, stamp);
    hide Apply;
    hide Enabled;
    hide Packet;
    hide TracerOf;
    RunSpends(env, Apply(env, s, Announce(o, command, payload, stamp)), steps, Packet(command, payload, stamp));
  }

  // ---------- Link by link ----------

  function OnLink(x: Msg): Msg -> nat {
    (m: Msg) => if m == x then 1 else 0
  }

  /** Deliveries of one message: a packet over a link. */
  function DeliveriesOver(steps: seq<Step>, x: Msg): nat {
    if steps == [] then 0
    else (if steps[0].Deliver? && steps[0].m == x then 1 else 0) + DeliveriesOver(steps[1..], x)
  }

  lemma FloodedOnLink(peers: set<End>, p: Bytes, e: End)
    ensures Sum(ToAll(peers, p), OnLink(Msg(e, p))) == if e in peers then 1 else 0
  {
    var (all, x) := (ToAll(peers, p), Msg(e, p));
    if e in peers {
      assert x in all && all[x] == 1;
      SumRemove(all, OnLink(x), x);
      SumZero(all - multiset{x}, OnLink(x));
    } else {
      SumZero(all, OnLink(x));
    }
  }

  /** A link of node n takes a copy when n processes p, and gives it up when it is delivered. */
  lemma StepOverLink(env: Env, s: Net, step: Step, p: Bytes, e: End)
    requires Enabled(env, s, step) && Calm(env, s, step, p) && TracerOf(env, p).Some?
    requires Wired(s) && e.at < |s.nodes| && e in s.nodes[e.at].table.peers
    ensures var (s', w) := (Apply(env, s, step), OnLink(Msg(e, p)));
            Sum(s'.flight, w) + DeliveriesOver([step], Msg(e, p)) + (if Processed(env, s, e.at, p) then 1 else 0)
            == Sum(s.flight, w) + if Processed(env, s', e.at, p) then 1 else 0
  {
    var w := OnLink(Msg(e, p));
    assert CountsCopies(w, p);
    assert step.Deliver? ==> step.m.via.to < |s.nodes|;
    assert DeliveriesOver([step], Msg(e, p)) == if step.Deliver? then w(step.m) else 0;
    if !step.Deliver? {
      SilentStep(env, s, step, p);
      SilentCopies(env, s, step, w, p);
      SilentProcessed(env, s, step, p);
    } else if step.m.packet != p {
      hide *;
      DeliverOtherSeen(env, s, step.m, step.clock, p);
      OtherCopies(env, s, step.m, step.clock, w, p);
      NoCopy(w, p, step.m);
    } else if Processed(env, s, step.m.via.to, p) {
      hide *;
      AgainCopies(env, s, step.m, step.clock, w);
    } else {
      var k := step.m.via.to;
      assert e in s.nodes[k].table.peers <==> k == e.at;
      hide *;
      FirstIsProcessed(env, s, step.m, step.clock);
      FirstCopies(env, s, step.m, step.clock, w);
      FloodedOnLink(s.nodes[k].table.peers, p, e);
    }
  }

  lemma SilentProcessed(env: Env, s: Net, step: Step, p: Bytes)
    requires Enabled(env, s, step) && Calm(env, s, step, p) && !step.Deliver? && TracerOf(env, p).Some?
    ensures forall n: nat :: Processed(env, Apply(env, s, step), n, p) <==> Processed(env, s, n, p)
  {
    SilentStep(env, s, step, p);
    hide Apply, Calm, TracerOf;
  }

  lemma WiredStays(s: Net, s': Net)
    requires Wired(s) && SameLinks(s, s')
    ensures Wired(s')
  {
  }

  lemma {:induction false} RunOverLink(env: Env, s: Net, steps: seq<Step>, p: Bytes, e: End)
    requires Runs(env, s, steps) && CalmRun(env, s, steps, p) && TracerOf(env, p).Some?
    requires Wired(s) && e.at < |s.nodes| && e in s.nodes[e.at].table.peers
    ensures var (f, w) := (Final(env, s, steps), OnLink(Msg(e, p)));
            Sum(f.flight, w) + DeliveriesOver(steps, Msg(e, p)) + (if Processed(env, s, e.at, p) then 1 else 0)
            == Sum(s.flight, w) + if Processed(env, f, e.at, p) then 1 else 0
    decreases steps
  {
    if steps != [] {
      var s' := Apply(env, s, steps[0]);
      StepOverLink(env, s, steps[0], p, e);
      DeliverySpendsOne(env, s, steps[0], p);
      WiredStays(s, s');
      assert e.at < |s'.nodes| && e in s'.nodes[e.at].table.peers;
      hide Apply, Enabled, Calm, TracerOf, Wired, Processed, OnLink, Sum, Budget, SameLinks;
      RunOverLink(env, s', steps[1..], p, e);
    }
  }

  /**
   * At rest, every link has carried the announcement once for its node having processed it, and once more at the
   * origin.
   */
  lemma EachLinkCarries(
    env: Env, s: Net, o: nat, command: byte, payload: Bytes, stamp: bv64, steps: seq<Step>, e: End)
    requires Enabled(env, s, Announce(o, command, payload, stamp)) && Unheard(env, s, Packet(command, payload, stamp))
    requires var s1 := Apply(env, s, Announce(o, command, payload, stamp));
             && Runs(env, s1, steps) && CalmRun(env, s1, steps, Packet(command, payload, stamp))
             && !Carries(Final(env, s1, steps), Packet(command, payload, stamp))
    requires e.at < |s.nodes| && e in s.nodes[e.at].table.peers
    ensures var (f, p) := (Final(env, Apply(env, s, Announce(o, command, payload, stamp)), steps),
                           Packet(command, payload, stamp));
            DeliveriesOver(steps, Msg(e, p))
            == (if e.at == o then 1 else 0) + if Processed(env, f, e.at, p) then 1 else 0
  {
    var (s1, p) := (Apply(env, s, Announce(o, command, payload, stamp)), Packet(command, payload, stamp));
    var (f, w, peers) := (Final(env, s1, steps), OnLink(Msg(e, p)), s.nodes[o].table.peers);
    AnnouncementCovers(env, s, o, command, payload, stamp);
    assert s1.flight == s.flight + ToAll(peers, p) && s1.nodes == s.nodes;
    assert e in peers <==> e.at == o;
    assert forall m :: m in s.flight ==> m.packet != p;
    assert Wired(s1) && TracerOf(env, p).Some?;
    hide Apply, Enabled, Packet, TracerOf, Unheard, Covering, Processed, ToAll, Wired;
    SumZero(s.flight, w);
    SumUnion(s.flight, ToAll(peers, p), w);
    FloodedOnLink(peers, p, e);
    RunOverLink(env, s1, steps, p, e);
    SumZero(f.flight, w);
  }

  /**
   * In particular an originator with a link hears its own announcement, learns a route to itself from it, and sends it
   * over each of its links twice.
   */
  lemma OriginHearsItself(
    env: Env, s: Net, o: nat, command: byte, payload: Bytes, stamp: bv64, steps: seq<Step>, e: End)
    requires Enabled(env, s, Announce(o, command, payload, stamp)) && Unheard(env, s, Packet(command, payload, stamp))
    requires var s1 := Apply(env, s, Announce(o, command, payload, stamp));
             && Runs(env, s1, steps) && CalmRun(env, s1, steps, Packet(command, payload, stamp))
             && !Carries(Final(env, s1, steps), Packet(command, payload, stamp))
    requires e in s.nodes[o].table.peers
    ensures var (f, p) := (Final(env, Apply(env, s, Announce(o, command, payload, stamp)), steps),
                           Packet(command, payload, stamp));
            && Processed(env, f, o, p) && Informed(env, f, o, p)
            && DeliveriesOver(steps, Msg(e, p)) == 2
  {
    assert Walk(s, o, [e, Twin(e)]) && e.at == o && [e, Twin(e)][1].to == o;
    hide *;
    FloodReachesEveryone(env, s, o, command, payload, stamp, steps, [e, Twin(e)]);
    EachLinkCarries(env, s, o, command, payload, stamp, steps, e);
  }

  // ---------- Coming to rest ----------

  /** Every registered end was registered, and every cache has room. */
  ghost predicate Working(s: Net) {
    && (forall n, e :: 0 <= n < |s.nodes| && e in s.nodes[n].table.peers ==> e in s.joined)
    && (forall n :: 0 <= n < |s.nodes| ==> s.nodes[n].seen.capacity > 0)
  }

  /** A copy in flight can be delivered at once. */
  lemma CopyIsDeliverable(env: Env, s: Net, o: nat, p: Bytes, m: Msg, clock: Clock)
    requires Covering(env, s, o, p) && Working(s) && m in s.flight && m.packet == p
    requires |p| >= HEADER && Fresh(Timestamp(p), clock.now)
    ensures Enabled(env, s, Deliver(m, clock)) && Calm(env, s, Deliver(m, clock), p)
  {
    hide TracerOf, Processed, Informed, Fresh, LoadU64;
    assert Twin(m.via) in s.nodes[m.via.to].table.peers;
  }

  lemma JoinedStays(env: Env, s: Net, step: Step, p: Bytes)
    requires Enabled(env, s, step) && Still(env, s, step, p)
    ensures Apply(env, s, step).joined == s.joined
  {
    hide Process, Packet, Emitted, ToAll, SendTo, DestinationAt, LoadU64, TracerOf, OwnAnnouncement, Fresh;
  }

  lemma StillWorking(s: Net, s': Net)
    requires Working(s) && SameLinks(s, s') && s'.joined == s.joined
    requires forall n :: 0 <= n < |s.nodes| ==> s'.nodes[n].seen.capacity == s.nodes[n].seen.capacity
    ensures Working(s')
  {
  }

  lemma StaysWorking(env: Env, s: Net, step: Step, p: Bytes)
    requires Enabled(env, s, step) && Calm(env, s, step, p) && TracerOf(env, p).Some? && Working(s)
    ensures Working(Apply(env, s, step))
  {
    assert Still(env, s, step, p);
    hide Apply, Enabled, Calm, Still, TracerOf, Budget, Working, SameLinks, Accepting;
    var s' := Apply(env, s, step);
    DeliverySpendsOne(env, s, step, p);
    SameNodes(s, s');
    JoinedStays(env, s, step, p);
    forall n | 0 <= n < |s.nodes| ensures s'.nodes[n].seen.capacity == s.nodes[n].seen.capacity {
      CacheEffect(env, s, step, n);
    }
    StillWorking(s, s');
  }

  lemma {:induction false} RunStaysWorking(env: Env, s: Net, steps: seq<Step>, p: Bytes)
    requires Runs(env, s, steps) && CalmRun(env, s, steps, p) && TracerOf(env, p).Some? && Working(s)
    ensures Working(Final(env, s, steps))
    decreases steps
  {
    hide Apply, Enabled, Calm, TracerOf, Working;
    if steps != [] {
      StaysWorking(env, s, steps[0], p);
      RunStaysWorking(env, Apply(env, s, steps[0]), steps[1..], p);
    }
  }

  ghost function AnyCopy(s: Net, p: Bytes): (m: Msg)
    requires Carries(s, p)
    ensures m in s.flight && m.packet == p
  {
    var m :| m in s.flight && m.packet == p;
    m
  }

  /** Delivering copies, whichever comes first, ends the flood within its budget. */
  lemma {:induction false} CopiesRunOut(env: Env, s: Net, o: nat, p: Bytes, clock: Clock) returns (steps: seq<Step>)
    requires Covering(env, s, o, p) && Working(s) && |p| >= HEADER && Fresh(Timestamp(p), clock.now)
    ensures Runs(env, s, steps) && CalmRun(env, s, steps, p) && !Carries(Final(env, s, steps), p)
    ensures |steps| <= Budget(env, s, p) && forall x :: x in steps ==> x.Deliver? && x.m.packet == p
    decreases Budget(env, s, p)
  {
    steps := [];
    if Carries(s, p) {
      var m := AnyCopy(s, p);
      var step := Deliver(m, clock);
      assert TracerOf(env, p).Some?;
      assert Deliveries([step], p) == 1;
      hide Covering, Working, Calm, Apply, Enabled, TracerOf, Carries, Budget, Timestamp, Fresh, Deliveries;
      CopyIsDeliverable(env, s, o, p, m, clock);
      StepCovers(env, s, step, o, p);
      DeliverySpendsOne(env, s, step, p);
      StaysWorking(env, s, step, p);
      var rest := CopiesRunOut(env, Apply(env, s, step), o, p, clock);
      steps := [step] + rest;
      assert steps[1..] == rest;
    }
  }

  /** However far an announcement has got, delivering its copies in flight brings it to rest. */
  lemma FloodComesToRest(
    env: Env, s: Net, o: nat, command: byte, payload: Bytes, stamp: bv64, steps: seq<Step>, clock: Clock)
    returns (more: seq<Step>)
    requires Enabled(env, s, Announce(o, command, payload, stamp)) && Unheard(env, s, Packet(command, payload, stamp))
    requires Working(s) && Fresh(Timestamp(Packet(command, payload, stamp)), clock.now)
    requires var s1 := Apply(env, s, Announce(o, command, payload, stamp));
             Runs(env, s1, steps) && CalmRun(env, s1, steps, Packet(command, payload, stamp))
    ensures var (f, p) := (Final(env, Apply(env, s, Announce(o, command, payload, stamp)), steps),
                           Packet(command, payload, stamp));
            && Runs(env, f, more) && CalmRun(env, f, more, p) && !Carries(Final(env, f, more), p)
            && |more| <= Budget(env, f, p) && forall x :: x in more ==> x.Deliver? && x.m.packet == p
  {
    var (s1, p) := (Apply(env, s, Announce(o, command, payload, stamp)), Packet(command, payload, stamp));
    AnnouncementStarts(env, s, o, command, payload, stamp);
    assert Working(s1) && |p| >= HEADER && TracerOf(env, p).Some?;
    hide Apply, Enabled, Packet, Covering, Working, TracerOf, CalmRun, Unheard, Carries, Budget, Timestamp, Fresh;
    RunCovers(env, s1, steps, o, p);
    RunStaysWorking(env, s1, steps, p);
    more := CopiesRunOut(env, Final(env, s1, steps), o, p, clock);
  }
}
