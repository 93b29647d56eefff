/** When a cache forgets a packet: exactly when its node accepts `capacity` others after it. */
module Eviction {
  import opened Wire
  import opened SeenPackets
  import opened PacketStep
  import opened Network
  import opened Flood

  // ---------- The age of an entry ----------

  /** How many entries of a queue stand behind h; 0 if it is not there. */
  function Behind<H(==)>(order: seq<H>, h: H): nat {
    if order == [] then 0 else if order[0] == h then |order| - 1 else Behind(order[1..], h)
  }

  lemma {:induction false} BehindMore<H>(order: seq<H>, h: H, x: H)
    ensures Behind(order + [x], h) == if h in order then Behind(order, h) + 1 else 0
    ensures h in order ==> Behind(order, h) < |order|
  {
    if order == [] {
      assert [] + [x] == [x];
    } else {
      assert (order + [x])[1..] == order[1..] + [x];
      BehindMore(order[1..], h, x);
    }
  }

  /** Another entry ages h by one, or pushes it out at the age of capacity - 1. */
  lemma OtherAges<H>(w: Window<H>, h: H, x: H)
    requires w.Valid() && w.Has(h) && !w.Has(x)
    ensures var after := w.Add(x).1;
            && (after.Has(h) <==> Behind(w.order, h) + 1 < w.capacity)
            && (after.Has(h) ==> Behind(after.order, h) == Behind(w.order, h) + 1)
  {
    var longer := w.order + [x];
    BehindMore(w.order, h, x);
    assert forall i :: 0 <= i < |w.order| ==> longer[i] == w.order[i];
    assert h in longer;
    if longer[0] == h {
      assert h !in longer[1..];
    } else {
      BehindMore(longer[1..], h, x);
    }
  }

  // ---------- Over a run ----------

  /** The step makes node n accept a packet. */
  predicate Accepting(env: Env, s: Net, step: Step, n: nat) {
    step.Deliver? && step.m.via.to == n && n < |s.nodes| && Accepts(env, s.nodes[n], step.m.packet, step.clock)
  }

  lemma CacheEffect(env: Env, s: Net, step: Step, n: nat)
    requires Enabled(env, s, step) && n < |s.nodes|
    ensures var s' := Apply(env, s, step);
            && |s'.nodes| == |s.nodes|
            && s'.nodes[n].seen
               == if Accepting(env, s, step, n) then s.nodes[n].seen.Add(env.fingerprint(step.m.packet)).1
                    else s.nodes[n].seen
  {
    hide Parse, HandleProbe, Fresh, LoadU64, Emitted, ToAll, SendTo, DestinationAt, TracerOf;
  }

  /** The packets node n accepts while it remembers p; they all have other fingerprints. */
  function OthersAfter(env: Env, s: Net, steps: seq<Step>, n: nat, p: Bytes): nat
    requires Runs(env, s, steps)
    decreases steps
  {
    if steps == [] then 0
    else
      (if Processed(env, s, n, p) && Accepting(env, s, steps[0], n) then 1 else 0)
      + OthersAfter(env, Apply(env, s, steps[0]), steps[1..], n, p)
  }

  /** Node n never forgets packet p once it has accepted it. */
  ghost predicate NeverEvicts(env: Env, s: Net, steps: seq<Step>, n: nat, p: Bytes)
    requires Runs(env, s, steps)
    decreases steps
  {
    steps == [] ||
    (&& (Processed(env, s, n, p) ==> Processed(env, Apply(env, s, steps[0]), n, p))
     && NeverEvicts(env, Apply(env, s, steps[0]), steps[1..], n, p))
  }

  /** The age of p at node n, and what the run adds to it, stay below the capacity of the cache. */
  ghost predicate FewOthers(env: Env, s: Net, steps: seq<Step>, n: nat, p: Bytes)
    requires Runs(env, s, steps) && n < |s.nodes|
  {
    Behind(s.nodes[n].seen.order, env.fingerprint(p)) + OthersAfter(env, s, steps, n, p) < s.nodes[n].seen.capacity
  }

  /** A cache that works: the queue has no repeats and room for something. */
  predicate Caching(s: Net, n: nat) {
    n < |s.nodes| && s.nodes[n].seen.Valid() && s.nodes[n].seen.capacity > 0
  }

  lemma StepAges(env: Env, s: Net, step: Step, n: nat, p: Bytes)
    requires Enabled(env, s, step) && Caching(s, n)
    ensures var (s', h) := (Apply(env, s, step), env.fingerprint(p));
            var age := Behind(s.nodes[n].seen.order, h);
            var other := Processed(env, s, n, p) && Accepting(env, s, step, n);
            && Caching(s', n) && s'.nodes[n].seen.capacity == s.nodes[n].seen.capacity
            && (other && age + 1 >= s.nodes[n].seen.capacity ==> !Processed(env, s', n, p))
            && (!(other && age + 1 >= s.nodes[n].seen.capacity) ==>
                  && (Processed(env, s, n, p) ==> Processed(env, s', n, p))
                  && Behind(s'.nodes[n].seen.order, h) == age + if other then 1 else 0)
  {
    CacheEffect(env, s, step, n);
    var (w, h) := (s.nodes[n].seen, env.fingerprint(p));
    var other := Accepting(env, s, step, n);
    hide Apply, Enabled;
    if Accepting(env, s, step, n) {
      var x := env.fingerprint(step.m.packet);
      assert !w.Has(x);
      hide Accepting;
      if w.Has(h) {
        OtherAges(w, h, x);
      } else {
        BehindAbsent(w, h, x);
      }
    }
  }

  lemma BehindAbsent<H>(w: Window<H>, h: H, x: H)
    requires w.Valid() && !w.Has(h) && !w.Has(x) && w.capacity > 0
    ensures Behind(w.order, h) == 0 && Behind(w.Add(x).1.order, h) == 0
  {
    NotThere(w.order, h);
    var longer := w.order + [x];
    BehindMore(w.order, h, x);
    if |longer| > w.capacity {
      assert longer[1..] == w.order[1..] + [x];
      BehindMore(w.order[1..], h, x);
    }
  }

  lemma {:induction false} NotThere<H>(order: seq<H>, h: H)
    requires h !in order
    ensures Behind(order, h) == 0
  {
    if order != [] {
      NotThere(order[1..], h);
    }
  }

  /** A node keeps remembering p exactly if it accepts fewer than `capacity` other packets after p. */
  lemma {:induction false} NeverEvictsIff(env: Env, s: Net, steps: seq<Step>, n: nat, p: Bytes)
    requires Runs(env, s, steps) && Caching(s, n)
    ensures NeverEvicts(env, s, steps, n, p) <==> FewOthers(env, s, steps, n, p)
    decreases steps
  {
    if steps == [] {
      AgeBelow(s.nodes[n].seen, env.fingerprint(p));
    } else {
      StepAges(env, s, steps[0], n, p);
      AgeBelow(s.nodes[n].seen, env.fingerprint(p));
      hide Apply, Enabled, Processed, Accepting, Behind;
      NeverEvictsIff(env, Apply(env, s, steps[0]), steps[1..], n, p);
    }
  }

  lemma AgeBelow<H>(w: Window<H>, h: H)
    requires w.Valid() && w.capacity > 0
    ensures Behind(w.order, h) < w.capacity
  {
    if h in w.order {
      BehindMore(w.order, h, h);
    } else {
      NotThere(w.order, h);
    }
  }

  // ---------- Calm runs ----------

  ghost predicate StillRun(env: Env, s: Net, steps: seq<Step>, p: Bytes)
    requires Runs(env, s, steps)
    decreases steps
  {
    steps == [] || (Still(env, s, steps[0], p) && StillRun(env, Apply(env, s, steps[0]), steps[1..], p))
  }

  /** The step makes no node forget p. */
  ghost predicate Remembering(env: Env, s: Net, step: Step, p: Bytes)
    requires Enabled(env, s, step)
  {
    forall n :: 0 <= n < |s.nodes| ==> (Processed(env, s, n, p) ==> Processed(env, Apply(env, s, step), n, p))
  }

  ghost predicate NobodyForgets(env: Env, s: Net, steps: seq<Step>, p: Bytes)
    requires Runs(env, s, steps)
    decreases steps
  {
    steps == [] || (Remembering(env, s, steps[0], p) && NobodyForgets(env, Apply(env, s, steps[0]), steps[1..], p))
  }

  lemma CalmStep(env: Env, s: Net, step: Step, p: Bytes)
    requires Enabled(env, s, step)
    ensures |Apply(env, s, step).nodes| == |s.nodes|
    ensures Calm(env, s, step, p) <==> Still(env, s, step, p) && Remembering(env, s, step, p)
  {
    forall n: nat | n < |s.nodes| && !Accepting(env, s, step, n)
      ensures |Apply(env, s, step).nodes| == |s.nodes| && Apply(env, s, step).nodes[n].seen == s.nodes[n].seen
    {
      CacheEffect(env, s, step, n);
    }
    hide Apply, Enabled;
  }

  lemma {:induction false} CalmRunSplits(env: Env, s: Net, steps: seq<Step>, p: Bytes)
    requires Runs(env, s, steps)
    ensures CalmRun(env, s, steps, p) <==> StillRun(env, s, steps, p) && NobodyForgets(env, s, steps, p)
    decreases steps
  {
    hide Apply, Enabled, Calm, Still, Remembering;
    if steps != [] {
      CalmStep(env, s, steps[0], p);
      CalmRunSplits(env, Apply(env, s, steps[0]), steps[1..], p);
    }
  }

  ghost predicate AllKeep(env: Env, s: Net, steps: seq<Step>, p: Bytes)
    requires Runs(env, s, steps)
  {
    forall n :: 0 <= n < |s.nodes| ==> NeverEvicts(env, s, steps, n, p)
  }

  ghost predicate AllFew(env: Env, s: Net, steps: seq<Step>, p: Bytes)
    requires Runs(env, s, steps)
  {
    forall n :: 0 <= n < |s.nodes| ==> FewOthers(env, s, steps, n, p)
  }

  lemma AllKeepStep(env: Env, s: Net, steps: seq<Step>, p: Bytes)
    requires Runs(env, s, steps) && steps != [] && |Apply(env, s, steps[0]).nodes| == |s.nodes|
    ensures AllKeep(env, s, steps, p)
            <==> Remembering(env, s, steps[0], p) && AllKeep(env, Apply(env, s, steps[0]), steps[1..], p)
  {
    var s' := Apply(env, s, steps[0]);
    assert forall n: nat :: NeverEvicts(env, s, steps, n, p)
             <==> (Processed(env, s, n, p) ==> Processed(env, s', n, p)) && NeverEvicts(env, s', steps[1..], n, p);
    hide Apply, Enabled, Processed, NeverEvicts;
    if AllKeep(env, s, steps, p) {
      forall n | 0 <= n < |s.nodes|
        ensures (Processed(env, s, n, p) ==> Processed(env, s', n, p)) && NeverEvicts(env, s', steps[1..], n, p)
      {
        assert NeverEvicts(env, s, steps, n, p);
      }
    }
  }

  lemma {:induction false} NobodyForgetsIff(env: Env, s: Net, steps: seq<Step>, p: Bytes)
    requires Runs(env, s, steps)
    ensures NobodyForgets(env, s, steps, p) <==> AllKeep(env, s, steps, p)
    decreases steps
  {
    if steps != [] {
      CalmStep(env, s, steps[0], p);
      hide Apply, Enabled, Remembering, AllKeep;
      AllKeepStep(env, s, steps, p);
      NobodyForgetsIff(env, Apply(env, s, steps[0]), steps[1..], p);
    }
  }

  lemma AllKeepIff(env: Env, s: Net, steps: seq<Step>, p: Bytes)
    requires Runs(env, s, steps) && forall n :: 0 <= n < |s.nodes| ==> Caching(s, n)
    ensures AllKeep(env, s, steps, p) <==> AllFew(env, s, steps, p)
  {
    hide NeverEvicts, FewOthers, Runs, Caching;
    forall n | 0 <= n < |s.nodes| ensures NeverEvicts(env, s, steps, n, p) <==> FewOthers(env, s, steps, n, p) {
      assert Caching(s, n);
      NeverEvictsIff(env, s, steps, n, p);
    }
    if AllKeep(env, s, steps, p) {
      forall n | 0 <= n < |s.nodes| ensures FewOthers(env, s, steps, n, p) {
        assert NeverEvicts(env, s, steps, n, p);
      }
    }
    if AllFew(env, s, steps, p) {
      forall n | 0 <= n < |s.nodes| ensures NeverEvicts(env, s, steps, n, p) {
        assert FewOthers(env, s, steps, n, p);
      }
    }
  }

  /** A run is calm exactly if it is still and no node accepts `capacity` other packets after p. */
  lemma CalmRunIff(env: Env, s: Net, steps: seq<Step>, p: Bytes)
    requires Runs(env, s, steps) && forall n :: 0 <= n < |s.nodes| ==> Caching(s, n)
    ensures CalmRun(env, s, steps, p) <==> StillRun(env, s, steps, p) && AllFew(env, s, steps, p)
  {
    CalmRunSplits(env, s, steps, p);
    NobodyForgetsIff(env, s, steps, p);
    AllKeepIff(env, s, steps, p);
    hide *;
  }
}
