/**
 * The next announcement heals: whatever removals have done to the routes for an address, loops included, once a newer
 * announcement of it has flooded, next hops lead to an owner again.
 */
module Healing {
  import opened Wire
  import opened RouteTable
  import opened PacketStep
  import opened Network
  import opened LoopFreedom
  import opened Flood
  import opened FloodCost

  /** Offers of d from time t on travel over registered links. */
  ghost predicate OnLinks(env: Env, s: Net, d: Address, t: nat) {
    forall m :: m in s.flight && Offers(env, s, m, d, t) ==>
      m.via.at < |s.nodes| && m.via in s.nodes[m.via.at].table.peers
  }

  /** Nobody forwards d by a route from time t on, and no announcement of it is on its way to such a node. */
  ghost predicate Untouched(env: Env, s: Net, d: Address, t: nat) {
    && (forall n: nat :: !Forwards(s, n, d, t))
    && (forall m :: m in s.flight ==> !Offers(env, s, m, d, t))
  }

  // ---------- Over fixed links every step is benign ----------

  lemma OnLinksIsBenign(env: Env, s: Net, step: Step, p: Bytes, d: Address, t: nat)
    requires Enabled(env, s, step) && Calm(env, s, step, p) && Wired(s) && OnLinks(env, s, d, t)
    ensures Benign(env, s, step, d, t)
  {
    hide LoadU64, Processed, Accepts, Fresh;
    if step.Deliver? {
      var m := step.m;
      if Offers(env, s, m, d, t) {
        assert Twin(m.via) in s.nodes[m.via.to].table.peers;
      } else if TracerOf(env, m.packet) == Some(d) && Timestamp(m.packet) >= t {
        assert s.Owns(m.via.to, d);
      }
    }
  }

  lemma SilentSends(env: Env, s: Net, step: Step, m: Msg)
    requires Enabled(env, s, step) && IsSilent(step) && Wired(s) && m in Apply(env, s, step).flight
    ensures m in s.flight || TracerOf(env, m.packet).None?
            || (m.via.at < |s.nodes| && m.via in s.nodes[m.via.at].table.peers)
  {
    hide Packet, Emitted, ToAll, SendTo, DestinationAt, TracePayload, LoadU64, OwnAnnouncement, TracerOf, Wired;
    if m !in s.flight {
      match step
      case Announce(n, command, payload, stamp) => ToAllIsOnLinks(s, n, Packet(command, payload, stamp), m);
      case FromTun(n, ip, stamp) =>
        OneIsNoTracer(env, s.nodes[n].table, DestinationAt(s.nodes[n].impl, ip).value, 3, ip, stamp, m);
      case Trace(n, nonce, target, source, stamp) =>
        OneIsNoTracer(env, s.nodes[n].table, target, 4, TracePayload(nonce, target, source), stamp, m);
      case _ =>
    }
  }

  lemma ToAllIsOnLinks(s: Net, n: nat, packet: Bytes, m: Msg)
    requires Wired(s) && n < |s.nodes| && m in ToAll(s.nodes[n].table.peers, packet)
    ensures m.via.at < |s.nodes| && m.via in s.nodes[m.via.at].table.peers
  {
    assert m.via in s.nodes[n].table.peers;
  }

  lemma OneIsNoTracer(env: Env, table: Table<End>, a: Address, command: byte, payload: Bytes, stamp: bv64, m: Msg)
    requires command >= 3 && m in Emitted({}, SendTo(table, a, Packet(command, payload, stamp)))
    ensures TracerOf(env, m.packet).None?
  {
    NotTracer(env, command, payload, stamp);
    SentToOne(table, a, Packet(command, payload, stamp));
    hide Packet, TracerOf;
  }

  lemma DeliverSendsOnLinks(env: Env, s: Net, m: Msg, clock: Clock, f: Msg)
    requires Enabled(env, s, Deliver(m, clock)) && Wired(s) && f in Apply(env, s, Deliver(m, clock)).flight
    ensures f in s.flight || TracerOf(env, f.packet).None?
            || (f.via.at < |s.nodes| && f.via in s.nodes[f.via.at].table.peers)
  {
    DeliverFlight(env, s, m, clock, f);
    hide Apply, Process, TracerOf;
    if f !in s.flight && !(f.via in s.nodes[m.via.to].table.peers) {
      DeliverUnicast(env, s, m, clock, f.via, f.packet);
    }
  }

  lemma StepSends(env: Env, s: Net, step: Step, m: Msg)
    requires Enabled(env, s, step) && !step.Close? && Wired(s) && m in Apply(env, s, step).flight
    ensures m in s.flight || TracerOf(env, m.packet).None?
            || (m.via.at < |s.nodes| && m.via in s.nodes[m.via.at].table.peers)
  {
    hide Apply, Enabled, TracerOf, Wired;
    if step.Deliver? {
      DeliverSendsOnLinks(env, s, step.m, step.clock, m);
    } else {
      SilentSends(env, s, step, m);
    }
  }

  lemma StaysOnLinks(env: Env, s: Net, s': Net, d: Address, t: nat)
    requires SameLinks(s, s') && SameOwners(s, s') && Wired(s) && OnLinks(env, s, d, t)
    requires forall m :: m in s'.flight ==>
               m in s.flight || TracerOf(env, m.packet).None?
               || (m.via.at < |s.nodes| && m.via in s.nodes[m.via.at].table.peers)
    ensures Wired(s') && OnLinks(env, s', d, t)
  {
    hide TracerOf, LoadU64;
    forall m | m in s'.flight && Offers(env, s', m, d, t)
      ensures m.via.at < |s'.nodes| && m.via in s'.nodes[m.via.at].table.peers
    {
      assert m in s.flight ==> Offers(env, s, m, d, t);
    }
  }

  lemma StepStaysOnLinks(env: Env, s: Net, step: Step, p: Bytes, d: Address, t: nat)
    requires Enabled(env, s, step) && Calm(env, s, step, p) && TracerOf(env, p).Some?
    requires Linked(s) && Wired(s) && OnLinks(env, s, d, t)
    ensures var s' := Apply(env, s, step); Linked(s') && Wired(s') && OnLinks(env, s', d, t)
  {
    assert !step.Close?;
    hide *;
    var s' := Apply(env, s, step);
    StepKeepsLinked(env, s, step);
    DeliverySpendsOne(env, s, step, p);
    forall m | m in s'.flight
      ensures m in s.flight || TracerOf(env, m.packet).None?
              || (m.via.at < |s.nodes| && m.via in s.nodes[m.via.at].table.peers)
    {
      StepSends(env, s, step, m);
    }
    StaysOnLinks(env, s, s', d, t);
  }

  lemma {:induction false} CalmRunIsBenign(env: Env, s: Net, steps: seq<Step>, p: Bytes, d: Address, t: nat)
    requires Runs(env, s, steps) && CalmRun(env, s, steps, p) && TracerOf(env, p).Some?
    requires Linked(s) && Wired(s) && OnLinks(env, s, d, t)
    ensures BenignRun(env, s, steps, d, t)
    decreases steps
  {
    if steps != [] {
      hide Apply, Enabled, Calm, TracerOf, Linked, Wired, OnLinks, Benign;
      OnLinksIsBenign(env, s, steps[0], p, d, t);
      StepStaysOnLinks(env, s, steps[0], p, d, t);
      CalmRunIsBenign(env, Apply(env, s, steps[0]), steps[1..], p, d, t);
    }
  }

  // ---------- Healing ----------

  lemma UntouchedIsOk(env: Env, s: Net, d: Address, t: nat)
    requires Linked(s) && Untouched(env, s, d, t)
    ensures Inv(env, s, d, t) && OnLinks(env, s, d, t)
  {
    hide Linked, Offers, Forwards;
  }

  lemma AnnouncementStaysOnLinks(env: Env, s: Net, o: nat, command: byte, payload: Bytes, stamp: bv64, d: Address,
                                 t: nat)
    requires Enabled(env, s, Announce(o, command, payload, stamp)) && Linked(s) && Wired(s) && OnLinks(env, s, d, t)
    ensures var s' := Apply(env, s, Announce(o, command, payload, stamp));
            Linked(s') && Wired(s') && OnLinks(env, s', d, t)
  {
    var (step, s') := (Announce(o, command, payload, stamp), Apply(env, s, Announce(o, command, payload, stamp)));
    StepKeepsLinked(env, s, step);
    assert s'.nodes == s.nodes;
    assert SameLinks(s, s');
    hide *;
    forall m | m in s'.flight
      ensures m in s.flight || TracerOf(env, m.packet).None?
              || (m.via.at < |s.nodes| && m.via in s.nodes[m.via.at].table.peers)
    {
      StepSends(env, s, step, m);
    }
    StaysOnLinks(env, s, s', d, t);
  }

  /**
   * In any state reached by any steps at all, links removed and routes looping: once an announcement of d that is newer
   * than every route in use and every announcement under way has flooded over fixed links, from each node it reached
   * next hops lead to an owner of d, and no chain of them visits a node twice.
   */
  lemma NextAnnouncementHeals(
    env: Env, start: Net, before: seq<Step>, o: nat, command: byte, payload: Bytes, stamp: bv64, steps: seq<Step>,
    walk: seq<End>, d: Address)
    requires Initial(start) && Runs(env, start, before)
    requires var (s, p) := (Final(env, start, before), Packet(command, payload, stamp));
             && Enabled(env, s, Announce(o, command, payload, stamp)) && Unheard(env, s, p) && Walk(s, o, walk)
             && TracerOf(env, p) == Some(d) && Untouched(env, s, d, stamp as nat)
    requires var (s1, p) := (Apply(env, Final(env, start, before), Announce(o, command, payload, stamp)),
                             Packet(command, payload, stamp));
             Runs(env, s1, steps) && CalmRun(env, s1, steps, p) && !Carries(Final(env, s1, steps), p)
    ensures var f := Final(env, Apply(env, Final(env, start, before), Announce(o, command, payload, stamp)), steps);
            var n := walk[|walk| - 1].to;
            && f.Knows(n, d) && f.Owns(Follow(f, d, n, |f.nodes|), d)
            && forall path :: Chain(f, d, path) && path[0] == n ==>
                 forall i, j :: 0 <= i < j < |path| ==> path[i] != path[j]
  {
    var (s, p, t) := (Final(env, start, before), Packet(command, payload, stamp), stamp as nat);
    InitialIsLinked(start);
    RunKeepsLinked(env, start, before);
    assert Wired(s);
    hide *;
    UntouchedIsOk(env, s, d, t);
    AnnouncementStaysOnLinks(env, s, o, command, payload, stamp, d, t);
    CalmRunIsBenign(env, Apply(env, s, Announce(o, command, payload, stamp)), steps, p, d, t);
    FloodLeadsToOwner(env, s, o, command, payload, stamp, steps, walk, d, t);
  }
}
