/**
 * Sleeping and timing out: the deadline heap, the futures that register in it, and what every run of the two
 * guarantees. A waker may come late, because the executor looks at the clock only once a round, but never early.
 */
module Timers {
  import opened Wire

  datatype Entry<W> = Entry(due: nat, waker: W)

  // ---------- The heap and the futures, as the executor runs them ----------

  lemma {:induction false} LeastExists<W>(m: multiset<Entry<W>>) returns (least: Entry<W>)
    requires |m| > 0
    ensures least in m && forall e :: e in m ==> least.due <= e.due
    decreases |m|
  {
    var e :| e in m;
    var rest := m - multiset{e};
    if |rest| == 0 {
      least := e;
      assert forall x :: x in m ==> x == e || x in rest;
    } else {
      var other := LeastExists(rest);
      least := if e.due <= other.due then e else other;
      assert forall x :: x in m ==> x == e || x in rest;
    }
  }

  predicate Ordered<W>(s: seq<Entry<W>>) {
    forall i, j :: 0 <= i < j < |s| ==> s[i].due <= s[j].due
  }

  /** No entry of the heap is earlier than what was taken out. */
  ghost predicate Ahead<W>(woken: seq<Entry<W>>, heap: multiset<Entry<W>>) {
    forall e, f :: e in woken && f in heap ==> e.due <= f.due
  }

  ghost predicate Least<W>(top: Entry<W>, heap: multiset<Entry<W>>) {
    top in heap && forall e :: e in heap ==> top.due <= e.due
  }

  lemma TakeLeast<W>(woken: seq<Entry<W>>, heap: multiset<Entry<W>>, top: Entry<W>)
    requires Ordered(woken) && Ahead(woken, heap) && Least(top, heap)
    ensures Ordered(woken + [top]) && Ahead(woken + [top], heap - multiset{top})
    ensures multiset(woken + [top]) + (heap - multiset{top}) == multiset(woken) + heap
    ensures |heap - multiset{top}| < |heap|
  {
    assert heap == (heap - multiset{top}) + multiset{top};
    forall e, f | e in woken + [top] && f in heap - multiset{top}
      ensures e.due <= f.due
    {
      assert f in heap;
      assert e in woken || e == top;
    }
  }

  lemma AllDueTaken<W>(store: multiset<Entry<W>>, now: nat, woken: seq<Entry<W>>, heap: multiset<Entry<W>>)
    requires multiset(woken) + heap == store
    requires forall e :: e in woken ==> e.due <= now
    requires forall e :: e in heap ==> e.due > now
    ensures Splits(store, now, multiset(woken)) && heap == store - multiset(woken)
  {
  }

  /** The heap gives up its entries from the earliest deadline on, in any order among equals. */
  class SleepStore<W(==)> {
    var queue: multiset<Entry<W>>

    constructor ()
      ensures queue == multiset{}
    {
      queue := multiset{};
    }

    method Add(due: nat, waker: W)
      modifies this
      ensures queue == old(queue) + multiset{Entry(due, waker)}
    {
      queue := queue + multiset{Entry(due, waker)};
    }

    method Peek() returns (top: Option<Entry<W>>)
      ensures top.None? <==> queue == multiset{}
      ensures top.Some? ==> Least(top.value, queue)
    {
      if |queue| == 0 {
        top := None;
      } else {
        ghost var least := LeastExists(queue);
        var e :| e in queue && forall x :: x in queue ==> e.due <= x.due;
        top := Some(e);
      }
    }

    /** Wakes exactly the entries that are due, earliest first; only later deadlines remain. */
    method WakeAllReady(now: nat) returns (woken: seq<Entry<W>>)
      modifies this
      ensures Splits(old(queue), now, multiset(woken)) && queue == old(queue) - multiset(woken)
      ensures Ordered(woken)
    {
      woken := [];
      var top := Peek();
      while top.Some? && top.value.due <= now
        invariant multiset(woken) + queue == old(queue)
        invariant forall e :: e in woken ==> e.due <= now
        invariant Ordered(woken) && Ahead(woken, queue)
        invariant top.None? <==> queue == multiset{}
        invariant top.Some? ==> Least(top.value, queue)
        decreases |queue|
      {
        TakeLeast(woken, queue, top.value);
        woken := woken + [top.value];
        queue := queue - multiset{top.value};
        top := Peek();
      }
      AllDueTaken(old(queue), now, woken, queue);
    }

    /** Moves everything registered since the last round into the heap. */
    method Gather(register: seq<Entry<W>>)
      modifies this
      ensures queue == old(queue) + multiset(register)
    {
      var i := 0;
      while i < |register|
        invariant 0 <= i <= |register|
        invariant queue == old(queue) + multiset(register[..i])
      {
        Add(register[i].due, register[i].waker);
        assert register[..i + 1] == register[..i] + [register[i]];
        i := i + 1;
      }
      assert register[..i] == register;
    }
  }

  datatype Outcome<T> = Pending | Ready(value: T) | TimedOut

  /** The deadline part of SleepFuture and TimeoutFuture: the waker registered last, if any. */
  class Deadline<W(==)> {
    const target: nat
    var registered: Option<W>

    constructor (target: nat)
      ensures this.target == target && registered == None
    {
      this.target := target;
      registered := None;
    }

    /**
     * Registers unless the waker registered last would wake the same task. `sameTask` is the answer of will_wake,
     * which may miss that two wakers are the same but never confuses two tasks.
     */
    method Register(waker: W, sameTask: bool) returns (pushed: seq<Entry<W>>)
      requires registered.Some? && sameTask ==> registered.value == waker
      modifies this`registered
      ensures registered == Some(waker)
      ensures pushed == if old(registered).Some? && sameTask then [] else [Entry(target, waker)]
    {
      if registered.Some? && sameTask {
        return [];
      }
      registered := Some(waker);
      pushed := [Entry(target, waker)];
    }

    /** SleepFuture::poll. */
    method PollSleep(now: nat, waker: W, sameTask: bool) returns (outcome: Outcome<()>, pushed: seq<Entry<W>>)
      requires registered.Some? && sameTask ==> registered.value == waker
      modifies this`registered
      ensures (registered, pushed) == After(target, old(registered), now < target, waker, sameTask)
      ensures outcome == if now >= target then Ready(()) else Pending
    {
      if now >= target {
        return Ready(()), [];
      }
      outcome := Pending;
      pushed := Register(waker, sameTask);
    }

    /** TimeoutFuture::poll: past the deadline the inner future is not polled and its result, if any, is lost. */
    method PollTimeout<T>(now: nat, inner: Option<T>, waker: W, sameTask: bool)
      returns (outcome: Outcome<T>, pushed: seq<Entry<W>>)
      requires registered.Some? && sameTask ==> registered.value == waker
      modifies this`registered
      ensures (registered, pushed) == After(target, old(registered), now < target && inner.None?, waker, sameTask)
      ensures outcome == if now >= target then TimedOut else if inner.Some? then Ready(inner.value) else Pending
    {
      if now >= target {
        return TimedOut, [];
      }
      if inner.Some? {
        return Ready(inner.value), [];
      }
      outcome := Pending;
      pushed := Register(waker, sameTask);
    }
  }

  /** What a poll leaves registered and pushes; `pending` says whether it returned Pending. */
  function After<W(==)>(target: nat, registered: Option<W>, pending: bool, waker: W, sameTask: bool): (Option<W>,
      seq<Entry<W>>)
    requires registered.Some? && sameTask ==> registered.value == waker
  {
    if !pending then (registered, [])
    else (Some(waker), if registered.Some? && sameTask then [] else [Entry(target, waker)])
  }

  // ---------- Whole runs: one future under study among any number of other sleepers ----------

  datatype State<W(==)> = State(
    clock: nat,
    register: multiset<Entry<W>>,
    store: multiset<Entry<W>>,
    woken: multiset<Entry<W>>,
    target: nat,
    registered: Option<W>,
    waiting: Option<W>)         // the waker of the last poll, if it returned Pending and was not woken since

  datatype Step<W(==)> =
    | Tick(elapsed: nat)
    | Register(entry: Entry<W>)                       // another future goes to sleep
    | Poll(waker: W, sameTask: bool, finished: bool)  // finished: an inner future is ready (TimeoutFuture)
    | Gather(entry: Entry<W>)
    | WakeAll(due: multiset<Entry<W>>)

  /** The result of WakeAllReady: everything due leaves the heap, everything else stays. */
  ghost predicate Splits<W>(store: multiset<Entry<W>>, now: nat, due: multiset<Entry<W>>) {
    && due <= store
    && (forall e :: e in due ==> e.due <= now)
    && (forall e :: e in store - due ==> e.due > now)
  }

  ghost predicate Enabled<W>(s: State<W>, step: Step<W>) {
    match step
    case Poll(waker, sameTask, _) => s.registered.Some? && sameTask ==> s.registered.value == waker
    case Gather(e) => e in s.register
    case WakeAll(due) => Splits(s.store, s.clock, due)
    case _ => true
  }

  ghost function Apply<W>(s: State<W>, step: Step<W>): State<W>
    requires Enabled(s, step)
  {
    match step
    case Tick(elapsed) => s.(clock := s.clock + elapsed)
    case Register(e) => s.(register := s.register + multiset{e})
    case Poll(waker, sameTask, finished) =>
      var pending := s.clock < s.target && !finished;
      var (registered, pushed) := After(s.target, s.registered, pending, waker, sameTask);
      s.(registered := registered, register := s.register + multiset(pushed),
         waiting := if pending then Some(waker) else None)
    case Gather(e) => s.(register := s.register - multiset{e}, store := s.store + multiset{e})
    case WakeAll(due) =>
      s.(store := s.store - due, woken := s.woken + due,
         waiting := if s.waiting.Some? && Entry(s.target, s.waiting.value) in due then None else s.waiting)
  }

  /** What a step registers. */
  ghost function Registers<W>(s: State<W>, step: Step<W>): multiset<Entry<W>>
    requires Enabled(s, step)
  {
    match step
    case Register(e) => multiset{e}
    case Poll(waker, sameTask, finished) =>
      multiset(After(s.target, s.registered, s.clock < s.target && !finished, waker, sameTask).1)
    case _ => multiset{}
  }

  ghost predicate Runs<W>(s: State<W>, steps: seq<Step<W>>)
    decreases steps
  {
    steps == [] || (Enabled(s, steps[0]) && Runs(Apply(s, steps[0]), steps[1..]))
  }

  ghost function Final<W>(s: State<W>, steps: seq<Step<W>>): State<W>
    requires Runs(s, steps)
    decreases steps
  {
    if steps == [] then s else Final(Apply(s, steps[0]), steps[1..])
  }

  ghost function Registered<W>(s: State<W>, steps: seq<Step<W>>): multiset<Entry<W>>
    requires Runs(s, steps)
    decreases steps
  {
    if steps == [] then multiset{} else Registers(s, steps[0]) + Registered(Apply(s, steps[0]), steps[1..])
  }

  ghost function Start<W>(target: nat): State<W> {
    State(0, multiset{}, multiset{}, multiset{}, target, None, None)
  }

  /** Entries of the future still to be woken once the waker registered last was not woken yet. */
  ghost predicate Inv<W>(s: State<W>) {
    && (forall e :: e in s.woken ==> e.due <= s.clock)
    && (s.registered.Some? && s.clock < s.target ==> Entry(s.target, s.registered.value) in s.register + s.store)
    && (s.waiting.Some? ==> Entry(s.target, s.waiting.value) in s.register + s.store)
  }

  lemma StepKeeps<W>(s: State<W>, step: Step<W>)
    requires Inv(s) && Enabled(s, step)
    ensures Inv(Apply(s, step))
  {
  }

  lemma StepConserves<W>(s: State<W>, step: Step<W>)
    requires Enabled(s, step)
    ensures var next := Apply(s, step);
            next.register + next.store + next.woken == s.register + s.store + s.woken + Registers(s, step)
  {
  }

  lemma {:induction false} RunKeeps<W>(s: State<W>, steps: seq<Step<W>>)
    requires Inv(s) && Runs(s, steps)
    ensures Inv(Final(s, steps))
    decreases steps
  {
    if steps != [] {
      StepKeeps(s, steps[0]);
      RunKeeps(Apply(s, steps[0]), steps[1..]);
    }
  }

  lemma {:induction false} RunConserves<W>(s: State<W>, steps: seq<Step<W>>)
    requires Runs(s, steps)
    ensures var f := Final(s, steps);
            f.register + f.store + f.woken == s.register + s.store + s.woken + Registered(s, steps)
    decreases steps
  {
    if steps != [] {
      StepConserves(s, steps[0]);
      RunConserves(Apply(s, steps[0]), steps[1..]);
    }
  }

  /**
   * Over every run each registration is woken at most once, never before its deadline, and never dropped: what was
   * registered is exactly what waits in the queue, what lies in the heap, and what was woken.
   */
  lemma SleepersAreConserved<W>(target: nat, steps: seq<Step<W>>)
    requires Runs(Start(target), steps)
    ensures var f := Final(Start(target), steps);
            && f.register + f.store + f.woken == Registered(Start(target), steps)
            && forall e :: e in f.woken ==> e.due <= f.clock
  {
    RunConserves(Start(target), steps);
    RunKeeps(Start(target), steps);
  }

  /**
   * A future whose last poll returned Pending is never stranded: until it is woken, an entry with its deadline and
   * the waker of that last poll is registered, although polls with an unchanged waker do not register again.
   */
  lemma PendingSleeperStaysRegistered<W>(target: nat, steps: seq<Step<W>>)
    requires Runs(Start(target), steps)
    ensures var f := Final(Start(target), steps);
            f.waiting.Some? ==> Entry(target, f.waiting.value) in f.register + f.store
  {
    RunKeeps(Start(target), steps);
    TargetStays(Start(target), steps);
  }

  lemma {:induction false} TargetStays<W>(s: State<W>, steps: seq<Step<W>>)
    requires Runs(s, steps)
    ensures Final(s, steps).target == s.target
    decreases steps
  {
    if steps != [] {
      TargetStays(Apply(s, steps[0]), steps[1..]);
    }
  }

  ghost predicate Polls<W>(steps: seq<Step<W>>, waker: W) {
    forall step :: step in steps && step.Poll? ==> step.waker == waker && step.sameTask
  }

  lemma {:induction false} KnownWakerStays<W>(s: State<W>, steps: seq<Step<W>>, waker: W)
    requires Runs(s, steps) && Polls(steps, waker) && s.registered == Some(waker)
    requires Register(Entry(s.target, waker)) !in steps
    ensures Registered(s, steps)[Entry(s.target, waker)] == 0
    decreases steps
  {
    if steps != [] {
      assert steps[0] in steps && forall step :: step in steps[1..] ==> step in steps;
      KnownWakerStays(Apply(s, steps[0]), steps[1..], waker);
    }
  }

  /**
   * However often one task polls the future, with a waker it recognises, the future lies in queue and heap at most
   * once, and exactly once when some poll found it pending: an undue future does not fill the heap.
   */
  lemma {:induction false} PollsRegisterOnce<W>(s: State<W>, steps: seq<Step<W>>, waker: W)
    requires Runs(s, steps) && Polls(steps, waker) && s.registered == None
    requires Register(Entry(s.target, waker)) !in steps
    ensures Registered(s, steps)[Entry(s.target, waker)] == if Final(s, steps).registered.Some? then 1 else 0
    ensures Final(s, steps).registered.Some? ==> Final(s, steps).registered == Some(waker)
    decreases steps
  {
    if steps != [] {
      assert steps[0] in steps && forall step :: step in steps[1..] ==> step in steps;
      var next := Apply(s, steps[0]);
      if next.registered == None {
        PollsRegisterOnce(next, steps[1..], waker);
      } else {
        KnownWakerStays(next, steps[1..], waker);
        RegisteredStays(next, steps[1..], waker);
      }
    }
  }

  lemma {:induction false} RegisteredStays<W>(s: State<W>, steps: seq<Step<W>>, waker: W)
    requires Runs(s, steps) && Polls(steps, waker) && s.registered == Some(waker)
    ensures Final(s, steps).registered == Some(waker)
    decreases steps
  {
    if steps != [] {
      assert steps[0] in steps && forall step :: step in steps[1..] ==> step in steps;
      RegisteredStays(Apply(s, steps[0]), steps[1..], waker);
    }
  }

  /** Once the queue has been gathered, a round that begins at or after the deadline wakes the waiting future. */
  lemma DueSleeperIsWoken<W>(target: nat, steps: seq<Step<W>>, due: multiset<Entry<W>>)
    requires Runs(Start(target), steps)
    requires var f := Final(Start(target), steps);
             f.register == multiset{} && f.clock >= target && f.waiting.Some? && Enabled(f, WakeAll(due))
    ensures var f := Final(Start(target), steps);
            && Entry(target, f.waiting.value) in due
            && Apply(f, WakeAll(due)).waiting == None
  {
    PendingSleeperStaysRegistered(target, steps);
    TargetStays(Start(target), steps);
    var f := Final(Start(target), steps);
    var e := Entry(target, f.waiting.value);
    assert e in f.store;
    assert e !in due ==> e in f.store - due;
  }
}
