/**
 * Next-hop chains never loop: every node that forwards packets for d sends them to an owner of d or to a node with a
 * strictly better route. All is said for one address d and for the routes and announcements of d from a time t on:
 * one address does not bear on another, t == 0 is the whole history, and a later t is what an announcement heals.
 */
module LoopFreedom {
  import opened Wire
  import opened PacketStep
  import opened Network
  import opened Sets

  /** Newer, or equally new and learned earlier. */
  predicate Better(t: nat, k: nat, t': nat, k': nat) {
    t > t' || (t == t' && k < k')
  }

  /** Node n owns d, or holds a route for d better than (t, k). */
  predicate Backs(s: Net, n: nat, d: Address, t: nat, k: nat) {
    s.Owns(n, d) || (s.Knows(n, d) && (n, d) in s.learned && Better(s.RouteOf(n, d).timestamp, s.learned[(n, d)], t, k))
  }

  // ---------- Links ----------

  predicate RouteLinked(s: Net, n: nat, d: Address)
    requires s.Knows(n, d)
  {
    var e := s.RouteOf(n, d).link;
    e.at == n && e.to < |s.nodes| && (n, d) in s.learned && s.learned[(n, d)] < s.clock
  }

  predicate Inside(s: Net, m: Msg) {
    m.via.at < |s.nodes| && m.via.to < |s.nodes|
  }

  /** Links, routes and messages stay inside the network, and routes were learned before now. Every step keeps this. */
  ghost predicate Linked(s: Net) {
    && (forall e :: e in s.joined ==> e.at < |s.nodes| && e.to < |s.nodes|)
    && (forall n, e :: 0 <= n < |s.nodes| && e in s.nodes[n].table.peers ==> e.at == n && e in s.joined)
    && (forall n: nat, d :: s.Knows(n, d) ==> RouteLinked(s, n, d))
    && (forall m :: m in s.flight ==> Inside(s, m))
  }

  // ---------- The invariant ----------

  /** Node n forwards packets for d by a route from time t on; an owner of d never uses a route for it. */
  predicate Forwards(s: Net, n: nat, d: Address, t: nat) {
    s.Knows(n, d) && !s.Owns(n, d) && s.RouteOf(n, d).timestamp >= t
  }

  /** Message m announces d, not before time t, to a node that might use it. */
  predicate Offers(env: Env, s: Net, m: Msg, d: Address, t: nat) {
    TracerOf(env, m.packet) == Some(d) && Timestamp(m.packet) >= t && !s.Owns(m.via.to, d)
  }

  /** The next hop of n for d owns d or has a better route. */
  predicate RouteOk(s: Net, n: nat, d: Address)
    requires s.Knows(n, d)
  {
    (n, d) in s.learned && Backs(s, s.RouteOf(n, d).link.to, d, s.RouteOf(n, d).timestamp, s.learned[(n, d)])
  }

  predicate MessageOk(s: Net, m: Msg, d: Address)
    requires |m.packet| >= HEADER
  {
    Backs(s, m.via.at, d, Timestamp(m.packet), s.clock)
  }

  ghost predicate RoutesOk(s: Net, d: Address, t: nat) {
    forall n: nat :: Forwards(s, n, d, t) ==> RouteOk(s, n, d)
  }

  ghost predicate MessagesOk(env: Env, s: Net, d: Address, t: nat) {
    forall m :: m in s.flight && Offers(env, s, m, d, t) ==> MessageOk(s, m, d)
  }

  ghost predicate Inv(env: Env, s: Net, d: Address, t: nat) {
    Linked(s) && RoutesOk(s, d, t) && MessagesOk(env, s, d, t)
  }

  // ---------- Which steps keep the invariant ----------

  /** Node n routes d over e, so that a .NET node forgets d when it removes e. */
  predicate RoutesOver(s: Net, e: End, d: Address) {
    s.Knows(e.at, d) && s.RouteOf(e.at, d).link == e
  }

  /** A .NET node that does not own d loses its route for d with e. */
  predicate Forgets(s: Net, e: End, d: Address) {
    e.at < |s.nodes| && s.nodes[e.at].impl.DotNet? && RoutesOver(s, e, d) && !s.Owns(e.at, d)
  }

  /** No other node forwards packets for d to n. */
  ghost predicate NobodyRoutesTo(s: Net, n: nat, d: Address, t: nat) {
    forall k: nat :: k != n && Forwards(s, k, d, t) ==> s.RouteOf(k, d).link.to != n
  }

  /** No announcement of d that n has sent is on its way to a node that might use it. */
  ghost predicate NothingSentBy(env: Env, s: Net, n: nat, d: Address, t: nat) {
    forall m :: m in s.flight && m.via.at == n ==> !Offers(env, s, m, d, t)
  }

  /** Removing e takes no route for d with it on which somebody relies. */
  ghost predicate Unused(env: Env, s: Net, e: End, d: Address, t: nat)
    requires Enabled(env, s, Close(e))
  {
    Forgets(s, e, d) ==> NobodyRoutesTo(s, e.at, d, t) && NothingSentBy(env, s, e.at, d, t)
  }

  /** Node n can stand behind an announcement of d: it owns d or holds a route at least as new. */
  predicate Vouches(s: Net, n: nat, d: Address, t: nat) {
    s.Owns(n, d) || (s.Knows(n, d) && s.RouteOf(n, d).timestamp >= t)
  }

  /** A .NET node accepts an announcement from a link it has removed: it floods it without learning from it. */
  predicate Blind(env: Env, s: Net, m: Msg, clock: Clock)
    requires Enabled(env, s, Deliver(m, clock))
  {
    var node := s.nodes[m.via.to];
    && node.impl.DotNet? && Twin(m.via) !in node.table.peers
    && TracerOf(env, m.packet).Some? && Accepts(env, node, m.packet, clock)
  }

  /** A blind flood of m tells owners of d only, or the node can stand behind it. */
  ghost predicate Covered(env: Env, s: Net, m: Msg, d: Address, t: nat)
    requires m.via.to < |s.nodes|
  {
    TracerOf(env, m.packet) == Some(d) && Timestamp(m.packet) >= t ==>
      || (forall e :: e in s.nodes[m.via.to].table.peers ==> s.Owns(e.to, d))
      || Vouches(s, m.via.to, d, Timestamp(m.packet))
  }

  /**
   * The hypothesis of loop freedom, which concerns .NET nodes only: nobody relies on what a removed link takes with it,
   * and what a node floods from a removed link goes to owners only, or the node can stand behind it.
   */
  ghost predicate Benign(env: Env, s: Net, step: Step, d: Address, t: nat)
    requires Enabled(env, s, step)
  {
    match step
    case Close(e) => Unused(env, s, e, d, t)
    case Deliver(m, clock) => Blind(env, s, m, clock) ==> Covered(env, s, m, d, t)
    case _ => true
  }

  ghost predicate BenignRun(env: Env, s: Net, steps: seq<Step>, d: Address, t: nat)
    requires Runs(env, s, steps)
    decreases steps
  {
    steps == [] || (Benign(env, s, steps[0], d, t) && BenignRun(env, Apply(env, s, steps[0]), steps[1..], d, t))
  }

  /** No .NET node that uses its route for d forgets it. */
  predicate Steadfast(s: Net, step: Step, d: Address) {
    step.Close? ==> !Forgets(s, step.e, d)
  }

  ghost predicate SteadfastRun(env: Env, s: Net, steps: seq<Step>, d: Address)
    requires Runs(env, s, steps)
    decreases steps
  {
    steps == []
    || (&& Benign(env, s, steps[0], d, 0) && Steadfast(s, steps[0], d)
        && SteadfastRun(env, Apply(env, s, steps[0]), steps[1..], d))
  }

  // ---------- Steps that leave routes for d alone or improve them ----------

  predicate SameOwners(s: Net, s': Net) {
    |s'.nodes| == |s.nodes| && forall n :: 0 <= n < |s.nodes| ==> s'.nodes[n].owned == s.nodes[n].owned
  }

  /** What n uses for d is what it was, or newer. */
  predicate KeptOrNewer(s: Net, s': Net, n: nat, d: Address)
    requires s.Knows(n, d)
  {
    && (n, d) in s.learned && s'.Knows(n, d) && (n, d) in s'.learned
    && (|| (s'.RouteOf(n, d) == s.RouteOf(n, d) && s'.learned[(n, d)] == s.learned[(n, d)])
        || s'.RouteOf(n, d).timestamp > s.RouteOf(n, d).timestamp)
  }

  /** Such a step keeps everything that backed a route or a message. */
  ghost predicate Improves(s: Net, s': Net, d: Address) {
    && SameOwners(s, s') && s'.clock >= s.clock
    && forall n: nat :: s.Knows(n, d) && !s.Owns(n, d) ==> KeptOrNewer(s, s', n, d)
  }

  lemma BacksLater(s: Net, s': Net, n: nat, d: Address, t: nat, k: nat)
    requires Improves(s, s', d) && Backs(s, n, d, t, k)
    ensures forall k' :: k <= k' ==> Backs(s', n, d, t, k')
  {
    assert s.Knows(n, d) && !s.Owns(n, d) ==> KeptOrNewer(s, s', n, d);
  }

  lemma OldMessage(env: Env, s: Net, s': Net, m: Msg, d: Address, t: nat)
    requires Improves(s, s', d) && MessagesOk(env, s, d, t) && m in s.flight && Offers(env, s', m, d, t)
    ensures MessageOk(s', m, d)
  {
    assert Offers(env, s, m, d, t);
    BacksLater(s, s', m.via.at, d, Timestamp(m.packet), s.clock);
    hide Improves, Offers, Backs, LoadU64, TracerOf;
  }

  lemma ImprovesChain(s: Net, s': Net, s'': Net, d: Address)
    requires Improves(s, s', d) && Improves(s', s'', d)
    ensures Improves(s, s'', d)
  {
    forall n: nat | s.Knows(n, d) && !s.Owns(n, d) ensures KeptOrNewer(s, s'', n, d) {
      assert KeptOrNewer(s, s', n, d);
      assert KeptOrNewer(s', s'', n, d);
    }
  }

  /** Tables, owners and clock stay. */
  predicate SameRouting(s: Net, s': Net) {
    && SameOwners(s, s') && s'.clock == s.clock && s'.learned == s.learned
    && forall n :: 0 <= n < |s.nodes| ==> s'.nodes[n].table.routes == s.nodes[n].table.routes
  }

  predicate IsSilent(step: Step) {
    !step.Close? && !step.Deliver?
  }

  lemma SilentRouting(env: Env, s: Net, step: Step)
    requires Enabled(env, s, step) && IsSilent(step)
    ensures SameRouting(s, Apply(env, s, step))
  {
    hide Packet, Emitted, ToAll, SendTo, DestinationAt, TracePayload, LoadU64, OwnAnnouncement, TracerOf;
  }

  lemma SameRoutingImproves(s: Net, s': Net, d: Address)
    requires SameRouting(s, s') && forall n: nat :: s.Knows(n, d) ==> RouteLinked(s, n, d)
    ensures Improves(s, s', d)
  {
  }

  // ---------- Every step keeps the links ----------

  lemma SilentLinks(env: Env, s: Net, step: Step)
    requires Enabled(env, s, step) && IsSilent(step) && Linked(s)
    ensures var s' := Apply(env, s, step);
            && (forall e :: e in s'.joined ==> e.at < |s.nodes| && e.to < |s.nodes|)
            && (forall n, e :: 0 <= n < |s'.nodes| && e in s'.nodes[n].table.peers ==> e.at == n && e in s'.joined)
  {
    hide Packet, Emitted, ToAll, SendTo, DestinationAt, TracePayload, LoadU64, OwnAnnouncement, TracerOf, RouteLinked,
        Inside;
  }

  /** What a silent step sends starts and ends in the network, and announces only what its sender owns. */
  predicate SentByOwner(env: Env, s: Net, m: Msg) {
    Inside(s, m) && (TracerOf(env, m.packet).Some? ==> s.Owns(m.via.at, TracerOf(env, m.packet).value))
  }

  lemma AnnounceSends(env: Env, s: Net, n: nat, command: byte, payload: Bytes, stamp: bv64, m: Msg)
    requires Linked(s) && Enabled(env, s, Announce(n, command, payload, stamp))
    requires m in ToAll(s.nodes[n].table.peers, Packet(command, payload, stamp))
    ensures SentByOwner(env, s, m)
  {
    AnnouncesOwned(env, s.nodes[n], command, payload, stamp);
    assert m.via in s.nodes[n].table.peers;
    hide Packet, TracerOf, RouteLinked, OwnAnnouncement;
  }

  lemma OriginateSends(env: Env, s: Net, n: nat, a: Address, command: byte, payload: Bytes, stamp: bv64, m: Msg)
    requires Linked(s) && n < |s.nodes| && command >= 3
    requires m in Emitted({}, SendTo(s.nodes[n].table, a, Packet(command, payload, stamp)))
    ensures SentByOwner(env, s, m)
  {
    NotTracer(env, command, payload, stamp);
    EmittedFrom({}, SendTo(s.nodes[n].table, a, Packet(command, payload, stamp)), m);
    hide Packet, TracerOf, Emitted;
    assert s.Knows(n, a);
  }

  lemma SilentFlight(env: Env, s: Net, step: Step, m: Msg)
    requires Enabled(env, s, step) && IsSilent(step) && Linked(s) && m in Apply(env, s, step).flight
    ensures m in s.flight || SentByOwner(env, s, m)
  {
    hide Packet, Emitted, ToAll, SendTo, DestinationAt, TracePayload, LoadU64, OwnAnnouncement, TracerOf, Linked,
        SentByOwner;
    if m !in s.flight {
      match step
      case Announce(n, command, payload, stamp) => AnnounceSends(env, s, n, command, payload, stamp, m);
      case FromTun(n, ip, stamp) =>
        OriginateSends(env, s, n, DestinationAt(s.nodes[n].impl, ip).value, 3, ip, stamp, m);
      case Trace(n, nonce, target, source, stamp) =>
        OriginateSends(env, s, n, target, 4, TracePayload(nonce, target, source), stamp, m);
      case _ =>
    }
  }

  lemma LinkedRoutesStay(s: Net, s': Net)
    requires SameRouting(s, s') && forall n: nat, d :: s.Knows(n, d) ==> RouteLinked(s, n, d)
    ensures forall n: nat, d :: s'.Knows(n, d) ==> RouteLinked(s', n, d)
  {
    forall n: nat, d | s'.Knows(n, d) ensures RouteLinked(s', n, d) {
      assert s.Knows(n, d) && RouteLinked(s, n, d);
    }
  }

  lemma SilentKeepsLinked(env: Env, s: Net, step: Step)
    requires Enabled(env, s, step) && IsSilent(step) && Linked(s)
    ensures Linked(Apply(env, s, step))
  {
    var s' := Apply(env, s, step);
    SilentLinks(env, s, step);
    SilentRouting(env, s, step);
    LinkedRoutesStay(s, s');
    hide Apply, Enabled, RouteLinked, TracerOf;
    forall m | m in s'.flight ensures Inside(s', m) {
      SilentFlight(env, s, step, m);
    }
  }

  /** What a removal leaves: every route but those over e at a .NET node, unchanged. */
  lemma CloseEffect(env: Env, s: Net, e: End, n: nat, d: Address)
    requires Enabled(env, s, Close(e))
    ensures var s' := Apply(env, s, Close(e));
            && SameOwners(s, s') && s'.flight == s.flight && s'.clock == s.clock && s'.learned == s.learned
            && s'.joined == s.joined
            && (s'.Owns(n, d) <==> s.Owns(n, d))
            && (s'.Knows(n, d) <==> s.Knows(n, d) && !(n == e.at && s.nodes[e.at].impl.DotNet? && RoutesOver(s, e, d)))
            && (s'.Knows(n, d) ==> s'.RouteOf(n, d) == s.RouteOf(n, d))
  {
  }

  lemma ClosePeers(env: Env, s: Net, e: End)
    requires Enabled(env, s, Close(e))
    ensures var s' := Apply(env, s, Close(e));
            && |s'.nodes| == |s.nodes|
            && forall n :: 0 <= n < |s.nodes| ==> s'.nodes[n].table.peers <= s.nodes[n].table.peers
  {
  }

  lemma CloseKeepsLinked(env: Env, s: Net, e: End)
    requires Enabled(env, s, Close(e)) && Linked(s)
    ensures Linked(Apply(env, s, Close(e)))
  {
    var s' := Apply(env, s, Close(e));
    ClosePeers(env, s, e);
    CloseEffect(env, s, e, 0, []);
    hide Apply, Enabled;
    forall n: nat, d | s'.Knows(n, d) ensures RouteLinked(s', n, d) {
      CloseEffect(env, s, e, n, d);
      assert RouteLinked(s, n, d);
    }
    forall m | m in s'.flight ensures Inside(s', m) {
      assert Inside(s, m);
    }
  }

  lemma DeliverPeers(env: Env, s: Net, m: Msg, clock: Clock)
    requires Enabled(env, s, Deliver(m, clock))
    ensures var s' := Apply(env, s, Deliver(m, clock));
            && s'.joined == s.joined && SameOwners(s, s') && s'.clock == s.clock + 1
            && forall n :: 0 <= n < |s.nodes| ==> s'.nodes[n].table.peers == s.nodes[n].table.peers
  {
    ProcessKeepsIdentity(env, s.nodes[m.via.to], m.packet, Twin(m.via), clock);
    hide Process;
  }

  /**
   * A delivery changes no route but, by an announcement, that of its receiver for what is announced, to a newer one.
   */
  lemma DeliverEffect(env: Env, s: Net, m: Msg, clock: Clock, n: nat, d: Address)
    requires Enabled(env, s, Deliver(m, clock))
    ensures var s' := Apply(env, s, Deliver(m, clock));
            var same := (s'.Knows(n, d) <==> s.Knows(n, d)) && (s.Knows(n, d) ==> s'.RouteOf(n, d) == s.RouteOf(n, d))
                        && ((n, d) in s'.learned <==> (n, d) in s.learned)
                        && ((n, d) in s.learned ==> s'.learned[(n, d)] == s.learned[(n, d)]);
            || same
            || (&& n == m.via.to && TracerOf(env, m.packet) == Some(d) && s'.Knows(n, d) && (n, d) in s'.learned
                && (s.Knows(n, d) ==> Timestamp(m.packet) > s.RouteOf(n, d).timestamp)
                && s'.RouteOf(n, d).timestamp == Timestamp(m.packet) && s'.RouteOf(n, d).link == Twin(m.via)
                && s'.learned[(n, d)] == s.clock)
  {
    LearnEffect(env, s.nodes[m.via.to], m.packet, Twin(m.via), clock);
    hide Process, LoadU64, TracerOf;
  }

  lemma DeliverSends(env: Env, s: Net, m: Msg, clock: Clock, f: Msg)
    requires Enabled(env, s, Deliver(m, clock)) && Linked(s) && f in Apply(env, s, Deliver(m, clock)).flight
    ensures Inside(s, f)
  {
    DeliverFlight(env, s, m, clock, f);
    var node := s.nodes[m.via.to];
    if f !in s.flight && f.via !in node.table.peers {
      SendsKeepKinds(env, node, m.packet, Twin(m.via), clock, Via(f.via, f.packet));
      hide Process, Accepts, Apply;
      var a :| a in node.table.routes && f.via == node.table.routes[a].link;
      assert s.Knows(m.via.to, a) && RouteLinked(s, m.via.to, a);
    }
    hide Process, Accepts, Apply;
  }

  lemma DeliverKeepsLinked(env: Env, s: Net, m: Msg, clock: Clock)
    requires Enabled(env, s, Deliver(m, clock)) && Linked(s)
    ensures Linked(Apply(env, s, Deliver(m, clock)))
  {
    var s' := Apply(env, s, Deliver(m, clock));
    assert Inside(s, m);
    DeliverPeers(env, s, m, clock);
    hide Apply, Enabled, TracerOf, LoadU64;
    forall n: nat, d | s'.Knows(n, d) ensures RouteLinked(s', n, d) {
      DeliverEffect(env, s, m, clock, n, d);
      assert s.Knows(n, d) ==> RouteLinked(s, n, d);
    }
    forall f | f in s'.flight ensures Inside(s', f) {
      DeliverSends(env, s, m, clock, f);
    }
  }

  lemma StepKeepsLinked(env: Env, s: Net, step: Step)
    requires Enabled(env, s, step) && Linked(s)
    ensures Linked(Apply(env, s, step)) && SameOwners(s, Apply(env, s, step))
  {
    hide Apply, Enabled, Linked;
    if step.Close? {
      CloseKeepsLinked(env, s, step.e);
      CloseEffect(env, s, step.e, 0, []);
    } else if step.Deliver? {
      DeliverKeepsLinked(env, s, step.m, step.clock);
      DeliverPeers(env, s, step.m, step.clock);
    } else {
      SilentKeepsLinked(env, s, step);
      SilentRouting(env, s, step);
    }
  }

  lemma {:induction false} RunKeepsLinked(env: Env, s: Net, steps: seq<Step>)
    requires Runs(env, s, steps) && Linked(s)
    ensures Linked(Final(env, s, steps))
    decreases steps
  {
    if steps != [] {
      hide Apply, Enabled, Linked;
      StepKeepsLinked(env, s, steps[0]);
      RunKeepsLinked(env, Apply(env, s, steps[0]), steps[1..]);
    }
  }

  // ---------- Benign steps keep the invariant ----------

  lemma SilentKeeps(env: Env, s: Net, step: Step, d: Address, t: nat)
    requires Inv(env, s, d, t) && Enabled(env, s, step) && IsSilent(step)
    ensures Inv(env, Apply(env, s, step), d, t) && Improves(s, Apply(env, s, step), d)
  {
    var s' := Apply(env, s, step);
    SilentKeepsLinked(env, s, step);
    SilentRouting(env, s, step);
    SameRoutingImproves(s, s', d);
    SameRoutesOk(s, s', d, t);
    hide Apply, Enabled, Linked, RoutesOk, TracerOf, LoadU64, Improves;
    forall m | m in s'.flight && Offers(env, s', m, d, t) ensures MessageOk(s', m, d) {
      SilentFlight(env, s, step, m);
      if m in s.flight {
        OldMessage(env, s, s', m, d, t);
      }
    }
  }

  lemma SameRoutesOk(s: Net, s': Net, d: Address, t: nat)
    requires SameRouting(s, s') && RoutesOk(s, d, t)
    ensures RoutesOk(s', d, t)
  {
    forall n: nat | Forwards(s', n, d, t) ensures RouteOk(s', n, d) {
      assert Forwards(s, n, d, t) && RouteOk(s, n, d);
    }
  }

  lemma CloseRoute(env: Env, s: Net, e: End, n: nat, d: Address, t: nat)
    requires Inv(env, s, d, t) && Enabled(env, s, Close(e)) && Forwards(Apply(env, s, Close(e)), n, d, t)
    requires Forgets(s, e, d) ==> NobodyRoutesTo(s, e.at, d, t)
    ensures RouteOk(Apply(env, s, Close(e)), n, d)
  {
    CloseEffect(env, s, e, n, d);
    assert Forwards(s, n, d, t) && RouteOk(s, n, d);
    CloseEffect(env, s, e, s.RouteOf(n, d).link.to, d);
    hide Apply, Linked;
  }

  lemma CloseMessage(env: Env, s: Net, e: End, m: Msg, d: Address, t: nat)
    requires Inv(env, s, d, t) && Enabled(env, s, Close(e)) && Unused(env, s, e, d, t) && m in s.flight
    requires Offers(env, Apply(env, s, Close(e)), m, d, t)
    ensures MessageOk(Apply(env, s, Close(e)), m, d)
  {
    CloseEffect(env, s, e, m.via.to, d);
    CloseEffect(env, s, e, m.via.at, d);
    hide Apply, Linked, TracerOf, LoadU64, NobodyRoutesTo;
    assert Offers(env, s, m, d, t) && MessageOk(s, m, d);
  }

  lemma CloseKeeps(env: Env, s: Net, e: End, d: Address, t: nat)
    requires Inv(env, s, d, t) && Enabled(env, s, Close(e)) && Unused(env, s, e, d, t)
    ensures Inv(env, Apply(env, s, Close(e)), d, t)
  {
    var s' := Apply(env, s, Close(e));
    CloseKeepsLinked(env, s, e);
    CloseEffect(env, s, e, 0, d);
    hide Apply, Linked, RouteOk, Forwards, MessageOk, Offers, Forgets, NobodyRoutesTo, NothingSentBy, Enabled;
    forall n: nat | Forwards(s', n, d, t) ensures RouteOk(s', n, d) { CloseRoute(env, s, e, n, d, t); }
    forall m | m in s'.flight && Offers(env, s', m, d, t) ensures MessageOk(s', m, d) {
      CloseMessage(env, s, e, m, d, t);
    }
  }

  lemma CloseBreaksRoute(env: Env, s: Net, e: End, d: Address, t: nat, k: nat)
    requires Enabled(env, s, Close(e)) && Forgets(s, e, d)
    requires k != e.at && Forwards(s, k, d, t) && s.RouteOf(k, d).link.to == e.at
    ensures Forwards(Apply(env, s, Close(e)), k, d, t) && !RouteOk(Apply(env, s, Close(e)), k, d)
  {
    CloseEffect(env, s, e, e.at, d);
    CloseEffect(env, s, e, k, d);
    hide Apply;
  }

  lemma CloseBreaksMessage(env: Env, s: Net, e: End, d: Address, t: nat, m: Msg)
    requires Enabled(env, s, Close(e)) && Forgets(s, e, d)
    requires m in s.flight && m.via.at == e.at && Offers(env, s, m, d, t)
    ensures var s' := Apply(env, s, Close(e)); m in s'.flight && Offers(env, s', m, d, t) && !MessageOk(s', m, d)
  {
    CloseEffect(env, s, e, e.at, d);
    CloseEffect(env, s, e, m.via.to, d);
    hide Apply, TracerOf, LoadU64;
  }

  lemma CloseKeepsIff(env: Env, s: Net, e: End, d: Address, t: nat)
    requires Inv(env, s, d, t) && Enabled(env, s, Close(e))
    ensures Inv(env, Apply(env, s, Close(e)), d, t) <==> Unused(env, s, e, d, t)
  {
    var s' := Apply(env, s, Close(e));
    hide Apply, Enabled, Linked, RouteOk, Forwards, MessageOk, Offers, Forgets;
    if Unused(env, s, e, d, t) {
      CloseKeeps(env, s, e, d, t);
    } else if !NobodyRoutesTo(s, e.at, d, t) {
      var k: nat :| k != e.at && Forwards(s, k, d, t) && s.RouteOf(k, d).link.to == e.at;
      CloseBreaksRoute(env, s, e, d, t, k);
    } else {
      var m :| m in s.flight && m.via.at == e.at && Offers(env, s, m, d, t);
      CloseBreaksMessage(env, s, e, d, t, m);
    }
  }

  lemma DeliverImproves(env: Env, s: Net, m: Msg, clock: Clock, d: Address)
    requires Linked(s) && Enabled(env, s, Deliver(m, clock))
    ensures Improves(s, Apply(env, s, Deliver(m, clock)), d)
  {
    var s' := Apply(env, s, Deliver(m, clock));
    DeliverPeers(env, s, m, clock);
    hide Apply, Enabled, TracerOf, LoadU64;
    forall n: nat | s.Knows(n, d) && !s.Owns(n, d) ensures KeptOrNewer(s, s', n, d) {
      DeliverEffect(env, s, m, clock, n, d);
      assert RouteLinked(s, n, d);
    }
  }

  lemma DeliverRoute(env: Env, s: Net, m: Msg, clock: Clock, n: nat, d: Address, t: nat)
    requires Inv(env, s, d, t) && Enabled(env, s, Deliver(m, clock))
             && Forwards(Apply(env, s, Deliver(m, clock)), n, d, t)
    ensures RouteOk(Apply(env, s, Deliver(m, clock)), n, d)
  {
    var s' := Apply(env, s, Deliver(m, clock));
    assert m in s.flight;
    DeliverPeers(env, s, m, clock);
    DeliverImproves(env, s, m, clock, d);
    DeliverEffect(env, s, m, clock, n, d);
    hide Apply, Enabled, Linked, TracerOf, LoadU64, Improves, Backs;
    if s.Knows(n, d) && s'.RouteOf(n, d) == s.RouteOf(n, d) && (n, d) in s.learned
        && s'.learned[(n, d)] == s.learned[(n, d)] {
      var r := s.RouteOf(n, d);
      assert Forwards(s, n, d, t) && RouteOk(s, n, d);
      BacksLater(s, s', r.link.to, d, r.timestamp, s.learned[(n, d)]);
    } else {
      // Learned from this message: its sender backs it, and had the route before this moment.
      assert Offers(env, s, m, d, t) && MessageOk(s, m, d);
      BacksLater(s, s', m.via.at, d, Timestamp(m.packet), s.clock);
    }
  }

  /** What a benign flood tells a node that might use it is backed by the node that sends it. */
  lemma DeliverFlood(env: Env, s: Net, m: Msg, clock: Clock, e: End, d: Address, t: nat)
    requires Inv(env, s, d, t) && Enabled(env, s, Deliver(m, clock)) && Benign(env, s, Deliver(m, clock), d, t)
    requires e in s.nodes[m.via.to].table.peers
    requires All(m.packet) in Process(env, s.nodes[m.via.to], m.packet, Twin(m.via), clock).1
    requires Offers(env, Apply(env, s, Deliver(m, clock)), Msg(e, m.packet), d, t)
    ensures MessageOk(Apply(env, s, Deliver(m, clock)), Msg(e, m.packet), d)
  {
    var (s', node, k) := (Apply(env, s, Deliver(m, clock)), s.nodes[m.via.to], m.via.to);
    assert e.at == k && s'.nodes[k].table == Process(env, node, m.packet, Twin(m.via), clock).0.table;
    DeliverPeers(env, s, m, clock);
    DeliverKeepsLinked(env, s, m, clock);
    FloodsWhatItKnows(env, node, m.packet, Twin(m.via), clock);
    SendsKeepKinds(env, node, m.packet, Twin(m.via), clock, All(m.packet));
    hide Apply, Process, Accepts, TracerOf, LoadU64;
    if s'.Knows(k, d) {
      assert RouteLinked(s', k, d);
    }
  }

  lemma DeliverUnicast(env: Env, s: Net, m: Msg, clock: Clock, e: End, packet: Bytes)
    requires Enabled(env, s, Deliver(m, clock))
    requires Via(e, packet) in Process(env, s.nodes[m.via.to], m.packet, Twin(m.via), clock).1
    ensures TracerOf(env, packet).None?
  {
    SendsKeepKinds(env, s.nodes[m.via.to], m.packet, Twin(m.via), clock, Via(e, packet));
  }

  lemma DeliverMessage(env: Env, s: Net, m: Msg, clock: Clock, f: Msg, d: Address, t: nat)
    requires Inv(env, s, d, t) && Enabled(env, s, Deliver(m, clock)) && Benign(env, s, Deliver(m, clock), d, t)
    requires f in Apply(env, s, Deliver(m, clock)).flight && Offers(env, Apply(env, s, Deliver(m, clock)), f, d, t)
    ensures MessageOk(Apply(env, s, Deliver(m, clock)), f, d)
  {
    DeliverFlight(env, s, m, clock, f);
    hide Process, Benign, Apply, LoadU64, TracerOf, RoutesOk, RouteLinked;
    if f in s.flight {
      DeliverImproves(env, s, m, clock, d);
      OldMessage(env, s, Apply(env, s, Deliver(m, clock)), f, d, t);
    } else if f.packet == m.packet && f.via in s.nodes[m.via.to].table.peers
              && All(m.packet) in Process(env, s.nodes[m.via.to], m.packet, Twin(m.via), clock).1 {
      DeliverFlood(env, s, m, clock, f.via, d, t);
    } else {
      DeliverUnicast(env, s, m, clock, f.via, f.packet);
    }
  }

  lemma DeliverKeeps(env: Env, s: Net, m: Msg, clock: Clock, d: Address, t: nat)
    requires Inv(env, s, d, t) && Enabled(env, s, Deliver(m, clock)) && Benign(env, s, Deliver(m, clock), d, t)
    ensures Inv(env, Apply(env, s, Deliver(m, clock)), d, t)
  {
    var s' := Apply(env, s, Deliver(m, clock));
    DeliverKeepsLinked(env, s, m, clock);
    hide Apply, Enabled, Linked, RouteOk, MessageOk, Benign, Forwards, Offers;
    forall n: nat | Forwards(s', n, d, t) ensures RouteOk(s', n, d) { DeliverRoute(env, s, m, clock, n, d, t); }
    forall f | f in s'.flight && Offers(env, s', f, d, t) ensures MessageOk(s', f, d) {
      DeliverMessage(env, s, m, clock, f, d, t);
    }
  }

  /** A blind flood changes no table and puts a copy on every link. */
  lemma BlindFloods(env: Env, s: Net, m: Msg, clock: Clock, e: End)
    requires Enabled(env, s, Deliver(m, clock)) && Blind(env, s, m, clock) && e in s.nodes[m.via.to].table.peers
    ensures var s' := Apply(env, s, Deliver(m, clock));
            s'.nodes[m.via.to].table == s.nodes[m.via.to].table && Msg(e, m.packet) in s'.flight
  {
    hide Fresh, LoadU64;
    assert Msg(e, m.packet) in ToAll(s.nodes[m.via.to].table.peers, m.packet);
  }

  /** If the invariant survives a blind flood to some node that might use it, the sender could stand behind it. */
  lemma DeliverNeedsCover(env: Env, s: Net, m: Msg, clock: Clock, d: Address, t: nat)
    requires Inv(env, s, d, t) && Enabled(env, s, Deliver(m, clock)) && Inv(env, Apply(env, s, Deliver(m, clock)), d, t)
    requires Blind(env, s, m, clock)
    ensures Covered(env, s, m, d, t)
  {
    var s' := Apply(env, s, Deliver(m, clock));
    if e :| e in s.nodes[m.via.to].table.peers && !s.Owns(e.to, d) {
      BlindFloods(env, s, m, clock, e);
      DeliverPeers(env, s, m, clock);
      assert e.at == m.via.to;
      hide Apply, Blind, LoadU64, TracerOf;
      if TracerOf(env, m.packet) == Some(d) && Timestamp(m.packet) >= t {
        assert Offers(env, s', Msg(e, m.packet), d, t) && MessageOk(s', Msg(e, m.packet), d);
      }
    }
  }

  lemma StepKeeps(env: Env, s: Net, step: Step, d: Address, t: nat)
    requires Inv(env, s, d, t) && Enabled(env, s, step) && Benign(env, s, step, d, t)
    ensures Inv(env, Apply(env, s, step), d, t) && |Apply(env, s, step).nodes| == |s.nodes|
  {
    assert Linked(s);
    hide Inv, Apply, Enabled, Improves, Linked;
    StepKeepsLinked(env, s, step);
    if step.Close? {
      CloseKeeps(env, s, step.e, d, t);
    } else if step.Deliver? {
      DeliverKeeps(env, s, step.m, step.clock, d, t);
    } else {
      SilentKeeps(env, s, step, d, t);
    }
  }

  /** Exactly the benign steps keep the invariant. */
  lemma StepKeepsIff(env: Env, s: Net, step: Step, d: Address, t: nat)
    requires Inv(env, s, d, t) && Enabled(env, s, step)
    ensures Inv(env, Apply(env, s, step), d, t) <==> Benign(env, s, step, d, t)
  {
    hide Inv, Apply, Unused, Blind, Covered;
    if Benign(env, s, step, d, t) {
      StepKeeps(env, s, step, d, t);
    } else {
      match step
      case Close(e) => CloseKeepsIff(env, s, e, d, t);
      case Deliver(m, clock) =>
        if Inv(env, Apply(env, s, step), d, t) {
          DeliverNeedsCover(env, s, m, clock, d, t);
        }
      case _ =>
    }
  }

  lemma CloseImproves(env: Env, s: Net, e: End, d: Address)
    requires Linked(s) && Enabled(env, s, Close(e)) && Steadfast(s, Close(e), d)
    ensures Improves(s, Apply(env, s, Close(e)), d)
  {
    var s' := Apply(env, s, Close(e));
    CloseEffect(env, s, e, 0, d);
    forall n: nat | s.Knows(n, d) && !s.Owns(n, d) ensures KeptOrNewer(s, s', n, d) {
      CloseEffect(env, s, e, n, d);
      assert RouteLinked(s, n, d);
    }
    hide Apply;
  }

  /** A step at which nobody forgets a route for d that he uses improves those routes or leaves them alone. */
  lemma StepImproves(env: Env, s: Net, step: Step, d: Address)
    requires Inv(env, s, d, 0) && Enabled(env, s, step) && Steadfast(s, step, d)
    ensures Improves(s, Apply(env, s, step), d)
  {
    assert Linked(s);
    hide Inv, Apply, Enabled, Improves, Linked, Forgets;
    if step.Close? {
      CloseImproves(env, s, step.e, d);
    } else if step.Deliver? {
      DeliverImproves(env, s, step.m, step.clock, d);
    } else {
      SilentKeeps(env, s, step, d, 0);
    }
  }

  lemma {:induction false} RunKeeps(env: Env, s: Net, steps: seq<Step>, d: Address, t: nat)
    requires Inv(env, s, d, t) && Runs(env, s, steps) && BenignRun(env, s, steps, d, t)
    ensures Inv(env, Final(env, s, steps), d, t) && |Final(env, s, steps).nodes| == |s.nodes|
    decreases steps
  {
    if steps != [] {
      hide Inv, Apply, Enabled, Benign;
      StepKeeps(env, s, steps[0], d, t);
      RunKeeps(env, Apply(env, s, steps[0]), steps[1..], d, t);
    }
  }

  /** The invariant holds in every state of the run. */
  ghost predicate InvThroughout(env: Env, s: Net, steps: seq<Step>, d: Address, t: nat)
    requires Runs(env, s, steps)
    decreases steps
  {
    Inv(env, s, d, t) && (steps != [] ==> InvThroughout(env, Apply(env, s, steps[0]), steps[1..], d, t))
  }

  /** Exactly the benign runs keep the invariant throughout. */
  lemma {:induction false} RunKeepsIff(env: Env, s: Net, steps: seq<Step>, d: Address, t: nat)
    requires Inv(env, s, d, t) && Runs(env, s, steps)
    ensures InvThroughout(env, s, steps, d, t) <==> BenignRun(env, s, steps, d, t)
    decreases steps
  {
    if steps != [] {
      hide Inv, Apply, Enabled, Benign;
      var next := Apply(env, s, steps[0]);
      StepKeepsIff(env, s, steps[0], d, t);
      if Inv(env, next, d, t) {
        RunKeepsIff(env, next, steps[1..], d, t);
      }
    }
  }

  lemma {:induction false} RunImproves(env: Env, s: Net, steps: seq<Step>, d: Address)
    requires Inv(env, s, d, 0) && Runs(env, s, steps) && SteadfastRun(env, s, steps, d)
    ensures Inv(env, Final(env, s, steps), d, 0) && Improves(s, Final(env, s, steps), d)
    decreases steps
  {
    if steps == [] {
      assert forall n: nat :: s.Knows(n, d) ==> RouteLinked(s, n, d);
    } else {
      hide Inv, Apply, Enabled, Benign, Steadfast, Improves;
      var next := Apply(env, s, steps[0]);
      StepKeeps(env, s, steps[0], d, 0);
      StepImproves(env, s, steps[0], d);
      RunImproves(env, next, steps[1..], d);
      ImprovesChain(s, next, Final(env, s, steps), d);
    }
  }

  lemma InitialIsLinked(s: Net)
    requires Initial(s)
    ensures Linked(s)
  {
  }

  lemma InitialIsOk(env: Env, s: Net, d: Address, t: nat)
    requires Initial(s)
    ensures Inv(env, s, d, t)
  {
  }

  // ---------- What the invariant means for forwarding ----------

  /** Nodes that a packet for d visits: each but the last forwards it, because it has a route and does not own d. */
  predicate Chain(s: Net, d: Address, path: seq<nat>) {
    && |path| > 0
    && forall i :: 0 <= i < |path| - 1 ==>
         !s.Owns(path[i], d) && s.Knows(path[i], d) && s.RouteOf(path[i], d).link.to == path[i + 1]
  }

  /** A chain whose first node uses a route from time t on does so all along. */
  lemma {:induction false} ChainForwards(s: Net, d: Address, t: nat, path: seq<nat>, i: nat)
    requires RoutesOk(s, d, t) && Chain(s, d, path) && Forwards(s, path[0], d, t) && i < |path| && !s.Owns(path[i], d)
    ensures Forwards(s, path[i], d, t)
  {
    if i > 0 {
      ChainForwards(s, d, t, path, i - 1);
      assert RouteOk(s, path[i - 1], d);
    }
  }

  lemma {:induction false} RanksImprove(s: Net, d: Address, t: nat, path: seq<nat>, i: nat, j: nat)
    requires RoutesOk(s, d, t) && Chain(s, d, path) && Forwards(s, path[0], d, t)
    requires i < j < |path| && !s.Owns(path[j], d)
    ensures s.Knows(path[i], d) && s.Knows(path[j], d) && (path[i], d) in s.learned && (path[j], d) in s.learned
    ensures Better(s.RouteOf(path[j], d).timestamp, s.learned[(path[j], d)],
                   s.RouteOf(path[i], d).timestamp, s.learned[(path[i], d)])
  {
    ChainForwards(s, d, t, path, j - 1);
    assert RouteOk(s, path[j - 1], d);
    if i < j - 1 {
      RanksImprove(s, d, t, path, i, j - 1);
    }
  }

  lemma ChainStartsForwarding(s: Net, d: Address, t: nat, path: seq<nat>)
    requires Chain(s, d, path) && s.Knows(path[0], d) && s.RouteOf(path[0], d).timestamp >= t
    ensures |path| > 1 ==> Forwards(s, path[0], d, t)
  {
  }

  lemma ChainNeverRepeats(s: Net, d: Address, t: nat, path: seq<nat>)
    requires RoutesOk(s, d, t) && Chain(s, d, path) && (|path| > 1 ==> Forwards(s, path[0], d, t))
    ensures forall i, j :: 0 <= i < j < |path| ==> path[i] != path[j]
  {
    forall i, j | 0 <= i < j < |path| ensures path[i] != path[j] {
      if !s.Owns(path[j], d) {
        RanksImprove(s, d, t, path, i, j);
      }
    }
  }

  /** Where a packet for d ends up after at most `hops` forwardings from n. */
  function Follow(s: Net, d: Address, n: nat, hops: nat): nat
    decreases hops
  {
    if hops == 0 || s.Owns(n, d) || !s.Knows(n, d) then n else Follow(s, d, s.RouteOf(n, d).link.to, hops - 1)
  }

  /** The nodes whose route for d is better than that of n. */
  ghost function Ahead(s: Net, d: Address, n: nat): set<nat>
    requires s.Knows(n, d) && (n, d) in s.learned
  {
    set m | 0 <= m < |s.nodes| && s.Knows(m, d) && (m, d) in s.learned
            && Better(s.RouteOf(m, d).timestamp, s.learned[(m, d)], s.RouteOf(n, d).timestamp, s.learned[(n, d)])
  }

  lemma {:induction false} FollowReachesOwner(s: Net, d: Address, t: nat, n: nat, hops: nat)
    requires RoutesOk(s, d, t) && Forwards(s, n, d, t) && (n, d) in s.learned && hops > |Ahead(s, d, n)|
    ensures s.Owns(Follow(s, d, n, hops), d)
    decreases hops
  {
    var m := s.RouteOf(n, d).link.to;
    assert RouteOk(s, n, d);
    if !s.Owns(m, d) {
      assert m in Ahead(s, d, n) && m !in Ahead(s, d, m) && Ahead(s, d, m) <= Ahead(s, d, n);
      SubsetSmaller(Ahead(s, d, m), Ahead(s, d, n), m);
      FollowReachesOwner(s, d, t, m, hops - 1);
    } else {
      OwnerStays(s, d, m, hops - 1);
    }
  }

  lemma OwnerStays(s: Net, d: Address, n: nat, hops: nat)
    requires s.Owns(n, d)
    ensures Follow(s, d, n, hops) == n
  {
  }

  /** A node with a route for d from time t on leads to an owner of d. */
  lemma LeadsToOwner(s: Net, d: Address, t: nat, n: nat)
    requires RoutesOk(s, d, t) && s.Knows(n, d) && s.RouteOf(n, d).timestamp >= t
    ensures s.Owns(Follow(s, d, n, |s.nodes|), d)
  {
    if s.Owns(n, d) {
      OwnerStays(s, d, n, |s.nodes|);
    } else {
      assert Forwards(s, n, d, t) && RouteOk(s, n, d);
      FewBelow(Ahead(s, d, n) + {n}, |s.nodes|);
      assert n !in Ahead(s, d, n);
      FollowReachesOwner(s, d, t, n, |s.nodes|);
    }
  }

  lemma SubsetSmaller(a: set<nat>, b: set<nat>, x: nat)
    requires a <= b && x in b && x !in a
    ensures |a| < |b|
  {
    assert a <= b - {x};
    SubsetSize(a, b - {x});
  }

  /** Every route for d leads to an owner of d. */
  ghost predicate AllLead(s: Net, d: Address) {
    forall n: nat :: s.Knows(n, d) ==> s.Owns(Follow(s, d, n, |s.nodes|), d)
  }

  lemma RoutesOkLead(s: Net, d: Address)
    requires RoutesOk(s, d, 0)
    ensures AllLead(s, d)
  {
    forall n: nat | s.Knows(n, d) ensures s.Owns(Follow(s, d, n, |s.nodes|), d) {
      LeadsToOwner(s, d, 0, n);
    }
  }

  /**
   * For forwarding itself a removal is harmless exactly if nobody forwards packets for d to the node that forgets d.
   */
  lemma CloseStrandsIff(env: Env, s: Net, e: End, d: Address)
    requires Inv(env, s, d, 0) && Enabled(env, s, Close(e))
    ensures AllLead(Apply(env, s, Close(e)), d) <==> (Forgets(s, e, d) ==> NobodyRoutesTo(s, e.at, d, 0))
  {
    var s' := Apply(env, s, Close(e));
    CloseEffect(env, s, e, e.at, d);
    hide Apply, RouteOk, Inside, RouteLinked;
    if Forgets(s, e, d) ==> NobodyRoutesTo(s, e.at, d, 0) {
      forall n: nat | Forwards(s', n, d, 0) ensures RouteOk(s', n, d) { CloseRoute(env, s, e, n, d, 0); }
      RoutesOkLead(s', d);
    } else {
      var k: nat :| k != e.at && Forwards(s, k, d, 0) && s.RouteOf(k, d).link.to == e.at;
      CloseEffect(env, s, e, k, d);
      assert s'.Knows(k, d) && |s'.nodes| > 0;
      assert Follow(s', d, k, |s'.nodes|) == Follow(s', d, e.at, |s'.nodes| - 1) == e.at;
    }
  }

  /**
   * And it can end in a loop: once n has forgotten d while k forwards to n, an announcement of d under way from k to n
   * makes them point at each other exactly if n accepts it from a registered link, however old it is.
   */
  lemma StaleAnnouncementLoopsIff(env: Env, s: Net, m: Msg, clock: Clock, d: Address)
    requires Enabled(env, s, Deliver(m, clock)) && TracerOf(env, m.packet) == Some(d)
    requires var (k, n) := (m.via.at, m.via.to);
             && k != n && Forwards(s, k, d, 0) && s.RouteOf(k, d).link.to == n
             && s.nodes[n].impl.DotNet? && !s.Owns(n, d) && !s.Knows(n, d)
    ensures Chain(Apply(env, s, Deliver(m, clock)), d, [m.via.at, m.via.to, m.via.at])
            <==> Accepts(env, s.nodes[m.via.to], m.packet, clock) && Twin(m.via) in s.nodes[m.via.to].table.peers
  {
    var (s', k, n) := (Apply(env, s, Deliver(m, clock)), m.via.at, m.via.to);
    DeliverPeers(env, s, m, clock);
    DeliverEffect(env, s, m, clock, k, d);
    DeliverEffect(env, s, m, clock, n, d);
    LearnsIff(env, s.nodes[n], m.packet, Twin(m.via), clock, d);
    assert s'.nodes[n].table == Process(env, s.nodes[n], m.packet, Twin(m.via), clock).0.table;
    hide Apply, Process, Accepts, TracerOf, LoadU64;
    var path := [k, n, k];
    assert path[0] == k && path[1] == n && path[2] == k;
  }

  lemma LearnsIff(env: Env, node: Node<End>, packet: Bytes, link: End, clock: Clock, d: Address)
    requires node.impl.DotNet? && TracerOf(env, packet) == Some(d) && d !in node.table.routes
    ensures d in Process(env, node, packet, link, clock).0.table.routes
            <==> Accepts(env, node, packet, clock) && link in node.table.peers
  {
    hide Fresh, LoadU64, TracerOf, DestinationAt, HandleProbe;
  }

  // ---------- The theorems, for every run from the start ----------

  /** In every reachable state, no chain of next hops visits a node twice. */
  lemma NoRoutingLoops(env: Env, s: Net, steps: seq<Step>, d: Address, path: seq<nat>)
    requires Initial(s) && Runs(env, s, steps) && BenignRun(env, s, steps, d, 0)
    requires Chain(Final(env, s, steps), d, path)
    ensures forall i, j :: 0 <= i < j < |path| ==> path[i] != path[j]
  {
    InitialIsOk(env, s, d, 0);
    RunKeeps(env, s, steps, d, 0);
    ChainNeverRepeats(Final(env, s, steps), d, 0, path);
  }

  /** In every reachable state, a node with a route for d leads to an owner of d in at most |nodes| hops. */
  lemma EveryRouteLeadsToOwner(env: Env, s: Net, steps: seq<Step>, d: Address, n: nat)
    requires Initial(s) && Runs(env, s, steps) && BenignRun(env, s, steps, d, 0)
    requires Final(env, s, steps).Knows(n, d)
    ensures Final(env, s, steps).Owns(Follow(Final(env, s, steps), d, n, |s.nodes|), d)
  {
    InitialIsOk(env, s, d, 0);
    RunKeeps(env, s, steps, d, 0);
    LeadsToOwner(Final(env, s, steps), d, 0, n);
  }

  /** At a .NET node that never removes a link, every end ever opened is registered. */
  ghost predicate KeepsPeers(s: Net) {
    forall e :: e in s.joined && e.at < |s.nodes| && s.nodes[e.at].impl.DotNet? ==> e in s.nodes[e.at].table.peers
  }

  /** Runs in which only Rust nodes lose links are benign: their tables keep their routes. */
  lemma {:induction false} NoDotNetRemoveIsBenign(env: Env, s: Net, steps: seq<Step>, d: Address)
    requires KeepsPeers(s) && Runs(env, s, steps)
    requires forall i :: 0 <= i < |steps| && steps[i].Close? && steps[i].e.at < |s.nodes| ==>
               s.nodes[steps[i].e.at].impl.Rust?
    ensures BenignRun(env, s, steps, d, 0) && SteadfastRun(env, s, steps, d)
    decreases steps
  {
    if steps != [] {
      var s' := Apply(env, s, steps[0]);
      PeersKept(env, s, steps[0], d);
      NoDotNetRemoveIsBenign(env, s', steps[1..], d);
    }
  }

  lemma PeersKept(env: Env, s: Net, step: Step, d: Address)
    requires KeepsPeers(s) && Enabled(env, s, step)
    requires step.Close? ==> s.nodes[step.e.at].impl.Rust?
    ensures KeepsPeers(Apply(env, s, step)) && Benign(env, s, step, d, 0) && Steadfast(s, step, d)
    ensures |Apply(env, s, step).nodes| == |s.nodes|
    ensures forall n :: 0 <= n < |s.nodes| ==> Apply(env, s, step).nodes[n].impl == s.nodes[n].impl
  {
    if step.Deliver? {
      var m := step.m;
      ProcessKeepsIdentity(env, s.nodes[m.via.to], m.packet, Twin(m.via), step.clock);
    }
    hide Process;
  }
}
