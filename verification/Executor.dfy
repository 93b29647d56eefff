/**
 * The executor loop and its wakers as an interleaving of atomic actions, under sequential consistency.
 * Any number of other threads may be inside `wake` at the same time; only the executor thread spawns.
 */
module Executor {
  import opened Sets

  type Task = nat

  /** Where the executor's own call of `wake` stands. */
  datatype Own = Idle | Pushing(task: Task) | Poking

  /** Where the executor loop stands. */
  datatype Pc =
    | Timers                    // wake_all_ready
    | Popping                   // moving the queue into the batch
    | Running                   // between two polls
    | Polling(task: Task)
    | Blocked(timed: bool)      // inside poll(); timed: with a timeout other than zero
    | Waking                    // waking the owners of ready descriptors
    | Draining                  // reading the wake pipe

  datatype State = State(
    pc: Pc,
    own: Own,
    tasks: set<Task>,
    scheduled: set<Task>,       // tasks whose flag is set
    queue: seq<Task>,
    batch: seq<Task>,
    pushing: multiset<Task>,    // other threads between compare-and-swap and push
    poking: nat,                // other threads between push and write
    pipe: nat)                  // bytes in the wake pipe

  datatype Step =
    | Claim(task: Task) | Push(task: Task) | Poke
    | OwnClaim(task: Task) | OwnPush | OwnPoke
    | Spawn(task: Task)
    | TimersDone | Pop | PopDone | Clear(task: Task) | PollDone | CheckEmpty | PollReturn | WakesDone | Read | DrainDone

  const READ_SIZE: nat := 2048

  predicate MayWake(pc: Pc) {
    pc.Timers? || pc.Polling? || pc.Waking?
  }

  predicate Enabled(s: State, step: Step) {
    match step
    case Claim(t) => t in s.tasks
    case Push(t) => t in s.pushing
    case Poke => s.poking > 0
    case OwnPush => s.own.Pushing?
    case OwnPoke => s.own.Poking?
    case _ => s.own.Idle? && EnabledHere(s, step)
  }

  predicate EnabledHere(s: State, step: Step) {
    match step
    case OwnClaim(t) => MayWake(s.pc) && t in s.tasks
    case Spawn(t) => s.pc.Polling? && t !in s.tasks
    case TimersDone => s.pc.Timers?
    case Pop => s.pc.Popping? && s.queue != []
    case PopDone => s.pc.Popping? && s.queue == []
    case Clear(t) => s.pc.Running? && s.batch != [] && s.batch[0] == t
    case PollDone => s.pc.Polling?
    case CheckEmpty => s.pc.Running? && s.batch == []
    case PollReturn => s.pc.Blocked?
    case WakesDone => s.pc.Waking?
    case Read => s.pc.Draining? && s.pipe > 0
    case DrainDone => s.pc.Draining? && s.pipe == 0
    case _ => false
  }

  /** One byte more, unless the pipe is full: then write() fails with EAGAIN, which counts as success. */
  function Written(pipe: nat, capacity: nat): nat {
    if pipe < capacity then pipe + 1 else pipe
  }

  function Apply(capacity: nat, s: State, step: Step): State
    requires Enabled(s, step)
  {
    match step
    case Claim(t) =>
      if t in s.scheduled then s else s.(scheduled := s.scheduled + {t}, pushing := s.pushing + multiset{t})
    case Push(t) => s.(queue := s.queue + [t], pushing := s.pushing - multiset{t}, poking := s.poking + 1)
    case Poke => s.(poking := s.poking - 1, pipe := Written(s.pipe, capacity))
    case OwnClaim(t) =>
      if t in s.scheduled then s else s.(scheduled := s.scheduled + {t}, own := Pushing(t))
    case OwnPush => s.(queue := s.queue + [s.own.task], own := Poking)
    case OwnPoke => s.(own := Idle, pipe := Written(s.pipe, capacity))
    case Spawn(t) => s.(tasks := s.tasks + {t}, scheduled := s.scheduled + {t}, queue := s.queue + [t])
    case TimersDone => s.(pc := Popping)
    case Pop => s.(queue := s.queue[1..], batch := s.batch + [s.queue[0]])
    case PopDone => s.(pc := Running)
    case Clear(t) => s.(pc := Polling(t), batch := s.batch[1..], scheduled := s.scheduled - {t})
    case PollDone => s.(pc := Running)
    case CheckEmpty => s.(pc := Blocked(s.queue == []))
    case PollReturn => s.(pc := Waking)
    case WakesDone => s.(pc := Draining)
    case Read => s.(pipe := if s.pipe < READ_SIZE then 0 else s.pipe - READ_SIZE)
    case DrainDone => s.(pc := Timers)
  }

  /** run_main: one task, flag set and queued, before the loop starts. */
  function Start(first: Task): State {
    State(Timers, Idle, {first}, {first}, [first], [], multiset{}, 0, 0)
  }

  predicate Runs(capacity: nat, s: State, steps: seq<Step>)
    decreases steps
  {
    steps == [] || (Enabled(s, steps[0]) && Runs(capacity, Apply(capacity, s, steps[0]), steps[1..]))
  }

  function Final(capacity: nat, s: State, steps: seq<Step>): State
    requires Runs(capacity, s, steps)
    decreases steps
  {
    if steps == [] then s else Final(capacity, Apply(capacity, s, steps[0]), steps[1..])
  }

  // ---------- What every step keeps ----------

  /** Every place that holds a task: the queue, the drained batch, and the wakers that still have to push. */
  ghost function Held(s: State): multiset<Task> {
    multiset(s.queue) + multiset(s.batch) + s.pushing + if s.own.Pushing? then multiset{s.own.task} else multiset{}
  }

  /** A task is held once when its flag is set, and otherwise not at all. */
  ghost predicate HeldOnce(s: State) {
    s.scheduled <= s.tasks && Held(s) == multiset(s.scheduled)
  }

  /** Outside the running phase the batch is empty or still filling; a blocked executor makes no wakes. */
  ghost predicate PcFits(s: State) {
    && (s.pc.Timers? || s.pc.Blocked? || s.pc.Waking? || s.pc.Draining? ==> s.batch == [])
    && (!s.own.Idle? ==> MayWake(s.pc))
  }

  /** Blocking with a timeout on a filled queue: the pipe has a byte or a waker is about to write one. */
  ghost predicate NoSleepOnWork(s: State) {
    s.pc == Blocked(true) && s.queue != [] ==> s.pipe > 0 || s.poking > 0
  }

  ghost predicate Inv(s: State) {
    HeldOnce(s) && PcFits(s) && NoSleepOnWork(s)
  }

  lemma QueueGrows(q: seq<Task>, t: Task)
    ensures multiset(q + [t]) == multiset(q) + multiset{t}
  {
  }

  lemma QueueShrinks(q: seq<Task>)
    requires q != []
    ensures multiset(q) == multiset(q[1..]) + multiset{q[0]}
  {
    assert q == [q[0]] + q[1..];
  }

  lemma FlagSet(s: State, t: Task)
    requires t !in s.scheduled
    ensures multiset(s.scheduled + {t}) == multiset(s.scheduled) + multiset{t}
  {
  }

  lemma ClaimKeepsHeldOnce(capacity: nat, s: State, step: Step)
    requires HeldOnce(s) && Enabled(s, step) && (step.Claim? || step.OwnClaim?)
    ensures HeldOnce(Apply(capacity, s, step))
  {
    if step.task !in s.scheduled {
      FlagSet(s, step.task);
      assert Held(Apply(capacity, s, step)) == Held(s) + multiset{step.task};
    }
  }

  lemma SpawnKeepsHeldOnce(s: State, t: Task)
    requires HeldOnce(s) && t !in s.tasks
    ensures HeldOnce(s.(tasks := s.tasks + {t}, scheduled := s.scheduled + {t}, queue := s.queue + [t]))
  {
    QueueGrows(s.queue, t);
    FlagSet(s, t);
    assert Held(s.(tasks := s.tasks + {t}, scheduled := s.scheduled + {t}, queue := s.queue + [t]))
           == Held(s) + multiset{t};
  }

  lemma PushKeepsHeldOnce(s: State, t: Task)
    requires HeldOnce(s) && t in s.pushing
    ensures HeldOnce(s.(queue := s.queue + [t], pushing := s.pushing - multiset{t}, poking := s.poking + 1))
  {
    QueueGrows(s.queue, t);
    assert s.pushing == (s.pushing - multiset{t}) + multiset{t};
    assert Held(s.(queue := s.queue + [t], pushing := s.pushing - multiset{t}, poking := s.poking + 1)) == Held(s);
  }

  lemma OwnPushKeepsHeldOnce(s: State)
    requires HeldOnce(s) && s.own.Pushing?
    ensures HeldOnce(s.(queue := s.queue + [s.own.task], own := Poking))
  {
    QueueGrows(s.queue, s.own.task);
    assert Held(s.(queue := s.queue + [s.own.task], own := Poking)) == Held(s);
  }

  lemma PopKeepsHeldOnce(s: State)
    requires HeldOnce(s) && s.queue != []
    ensures HeldOnce(s.(queue := s.queue[1..], batch := s.batch + [s.queue[0]]))
  {
    QueueShrinks(s.queue);
    QueueGrows(s.batch, s.queue[0]);
    assert Held(s.(queue := s.queue[1..], batch := s.batch + [s.queue[0]])) == Held(s);
  }

  lemma ClearKeepsHeldOnce(s: State)
    requires HeldOnce(s) && s.batch != []
    ensures HeldOnce(s.(pc := Polling(s.batch[0]), batch := s.batch[1..], scheduled := s.scheduled - {s.batch[0]}))
  {
    var t := s.batch[0];
    var next := s.(pc := Polling(t), batch := s.batch[1..], scheduled := s.scheduled - {t});
    QueueShrinks(s.batch);
    assert Held(s) == Held(next) + multiset{t};
    assert t in multiset(s.scheduled);
    assert next.scheduled + {t} == s.scheduled;
    FlagSet(next, t);
    assert Held(next) == Held(s) - multiset{t} == multiset(s.scheduled) - multiset{t} == multiset(next.scheduled);
  }

  lemma StepKeepsHeldOnce(capacity: nat, s: State, step: Step)
    requires HeldOnce(s) && Enabled(s, step)
    ensures HeldOnce(Apply(capacity, s, step))
  {
    match step
    case Claim(_) => ClaimKeepsHeldOnce(capacity, s, step);
    case OwnClaim(_) => ClaimKeepsHeldOnce(capacity, s, step);
    case Push(t) => PushKeepsHeldOnce(s, t);
    case OwnPush => OwnPushKeepsHeldOnce(s);
    case Spawn(t) => SpawnKeepsHeldOnce(s, t);
    case Pop => PopKeepsHeldOnce(s);
    case Clear(_) => ClearKeepsHeldOnce(s);
    case _ => assert Held(Apply(capacity, s, step)) == Held(s);
  }

  lemma StepKeepsPcFits(capacity: nat, s: State, step: Step)
    requires PcFits(s) && Enabled(s, step)
    ensures PcFits(Apply(capacity, s, step))
  {
  }

  lemma StepKeepsNoSleepOnWork(capacity: nat, s: State, step: Step)
    requires capacity > 0 && PcFits(s) && NoSleepOnWork(s) && Enabled(s, step)
    ensures NoSleepOnWork(Apply(capacity, s, step))
  {
  }

  lemma StepKeeps(capacity: nat, s: State, step: Step)
    requires capacity > 0 && Inv(s) && Enabled(s, step)
    ensures Inv(Apply(capacity, s, step))
  {
    hide HeldOnce;
    hide PcFits;
    hide NoSleepOnWork;
    hide Enabled;
    hide Apply;
    StepKeepsHeldOnce(capacity, s, step);
    StepKeepsPcFits(capacity, s, step);
    StepKeepsNoSleepOnWork(capacity, s, step);
  }

  lemma StartFits(first: Task)
    ensures Inv(Start(first))
  {
    assert multiset([first]) == multiset{first};
    assert multiset({first}) == multiset{first};
  }

  lemma {:induction false} RunKeeps(capacity: nat, s: State, steps: seq<Step>)
    requires capacity > 0 && Inv(s) && Runs(capacity, s, steps)
    ensures Inv(Final(capacity, s, steps))
    decreases steps
  {
    if steps != [] {
      StepKeeps(capacity, s, steps[0]);
      RunKeeps(capacity, Apply(capacity, s, steps[0]), steps[1..]);
    }
  }

  // ---------- Theorems about every interleaving ----------

  /**
   * In every reachable state a task sits in exactly one of queue, batch and pushing wakers when its flag is set,
   * and in none of them otherwise; so the batch never outgrows the set of tasks.
   */
  lemma EachTaskHeldOnce(capacity: nat, first: Task, steps: seq<Step>, t: Task)
    requires capacity > 0 && Runs(capacity, Start(first), steps)
    ensures var s := Final(capacity, Start(first), steps);
            && Held(s)[t] == (if t in s.scheduled then 1 else 0)
            && |s.queue| + |s.batch| + |s.pushing| <= |s.tasks|
  {
    StartFits(first);
    RunKeeps(capacity, Start(first), steps);
    var s := Final(capacity, Start(first), steps);
    assert |multiset(s.scheduled)| == |s.scheduled|;
    SubsetSize(s.scheduled, s.tasks);
  }

  /**
   * No sleeping on work: whenever the executor blocks in poll() with a timeout while a task is queued, poll() sees
   * a byte in the wake pipe, or some waker has pushed and its write, when it comes, puts a byte there. This covers
   * a full pipe and every drain.
   */
  lemma NoSleepingOnWork(capacity: nat, first: Task, steps: seq<Step>)
    requires capacity > 0 && Runs(capacity, Start(first), steps)
    ensures var s := Final(capacity, Start(first), steps);
            s.pc == Blocked(true) && s.queue != [] ==>
              s.pipe > 0 || (Enabled(s, Poke) && Apply(capacity, s, Poke).pipe > 0)
  {
    StartFits(first);
    RunKeeps(capacity, Start(first), steps);
  }

  /** A wake of t: by another thread or by the executor itself. */
  predicate Wakes(step: Step, t: Task) {
    step == Claim(t) || step == OwnClaim(t)
  }

  lemma {:induction false} StaysScheduled(capacity: nat, s: State, steps: seq<Step>, t: Task)
    requires Runs(capacity, s, steps) && t in s.scheduled && Clear(t) !in steps
    ensures t in Final(capacity, s, steps).scheduled
    decreases steps
  {
    if steps != [] {
      assert steps[0] in steps;
      StaysScheduled(capacity, Apply(capacity, s, steps[0]), steps[1..], t);
    }
  }

  /**
   * No lost wakeup, first half: a wake of t, also one that finds the flag set, leaves t held somewhere until the
   * executor takes it from the batch to poll it. The wake may fall anywhere, also into a poll of t itself.
   */
  lemma NoLostWakeup(capacity: nat, first: Task, before: seq<Step>, wake: Step, steps: seq<Step>, t: Task)
    requires capacity > 0 && Wakes(wake, t)
    requires Runs(capacity, Start(first), before)
    requires Runs(capacity, Final(capacity, Start(first), before), [wake] + steps)
    requires Clear(t) !in steps
    ensures var s := Final(capacity, Final(capacity, Start(first), before), [wake] + steps);
            Held(s)[t] == 1
  {
    StartFits(first);
    var woken := Final(capacity, Start(first), before);
    RunKeeps(capacity, Start(first), before);
    RunKeeps(capacity, woken, [wake] + steps);
    assert ([wake] + steps)[1..] == steps;
    StaysScheduled(capacity, Apply(capacity, woken, wake), steps, t);
  }

  function Checks(steps: seq<Step>): nat {
    if steps == [] then 0 else (if steps[0].CheckEmpty? then 1 else 0) + Checks(steps[1..])
  }

  /** How many more visits to the emptiness check a task can wait that a waker has pushed. */
  ghost function Patience(s: State, t: Task): nat {
    if t in s.batch || (s.pc.Popping? && t in s.queue)
       || (t in s.queue && (s.pc.Timers? || s.pc.Blocked? || s.pc.Waking? || s.pc.Draining?))
    then 1 else 2
  }

  ghost predicate Pushed(s: State, t: Task) {
    t in s.queue || t in s.batch
  }

  lemma PatienceStep(capacity: nat, s: State, step: Step, t: Task)
    requires capacity > 0 && Inv(s) && Enabled(s, step) && Pushed(s, t) && step != Clear(t)
    ensures var next := Apply(capacity, s, step);
            && Pushed(next, t)
            && Patience(next, t) <= Patience(s, t) - (if step.CheckEmpty? then 1 else 0)
            && (step.CheckEmpty? ==> Patience(s, t) == 2)
  {
    hide HeldOnce;
    match step
    case Pop =>
      assert s.queue == [s.queue[0]] + s.queue[1..];
    case Clear(_) =>
      assert s.batch == [s.batch[0]] + s.batch[1..];
    case _ =>
  }

  /**
   * No lost wakeup, second half: a task some waker has pushed is polled before the executor passes its emptiness
   * check twice, whatever the other threads do meanwhile.
   */
  lemma {:induction false} PushedTaskIsPolled(capacity: nat, s: State, steps: seq<Step>, t: Task)
    requires capacity > 0 && Inv(s) && Runs(capacity, s, steps) && Pushed(s, t)
    requires Checks(steps) >= Patience(s, t)
    ensures Clear(t) in steps
    decreases steps
  {
    if steps[0] != Clear(t) {
      StepKeeps(capacity, s, steps[0]);
      PatienceStep(capacity, s, steps[0], t);
      PushedTaskIsPolled(capacity, Apply(capacity, s, steps[0]), steps[1..], t);
    }
  }

  // ---------- The two inner loops end, whatever the other threads do ----------

  /** Tasks that can still enter the queue, and bytes that can still enter the pipe, while no flag is cleared. */
  ghost function ToPop(s: State): nat {
    |s.queue| + |s.pushing| + |s.tasks - s.scheduled|
  }

  ghost function ToRead(s: State): nat {
    s.pipe + s.poking + |s.pushing| + |s.tasks - s.scheduled|
  }

  lemma ClaimUses(s: State, t: Task)
    requires t in s.tasks && t !in s.scheduled
    ensures |s.tasks - (s.scheduled + {t})| == |s.tasks - s.scheduled| - 1
  {
    assert s.tasks - s.scheduled == (s.tasks - (s.scheduled + {t})) + {t};
  }

  lemma PoppingProgress(capacity: nat, s: State, step: Step)
    requires s.pc.Popping? && s.own.Idle? && Enabled(s, step)
    ensures var next := Apply(capacity, s, step);
            ToPop(next) <= ToPop(s) - (if step.Pop? then 1 else 0)
  {
    if step.Claim? && step.task !in s.scheduled {
      ClaimUses(s, step.task);
    }
  }

  lemma DrainingProgress(capacity: nat, s: State, step: Step)
    requires s.pc.Draining? && s.own.Idle? && Enabled(s, step)
    ensures var next := Apply(capacity, s, step);
            ToRead(next) <= ToRead(s) - (if step.Read? then 1 else 0)
  {
    if step.Claim? && step.task !in s.scheduled {
      ClaimUses(s, step.task);
    }
  }

  function Reads(steps: seq<Step>): nat {
    if steps == [] then 0 else (if steps[0].Read? then 1 else 0) + Reads(steps[1..])
  }

  function Pops(steps: seq<Step>): nat {
    if steps == [] then 0 else (if steps[0].Pop? then 1 else 0) + Pops(steps[1..])
  }

  /** The drain loop reads at most once for each byte present, about to be written, or of a task not yet scheduled. */
  lemma {:induction false} DrainEnds(capacity: nat, s: State, steps: seq<Step>)
    requires s.pc.Draining? && s.own.Idle? && Runs(capacity, s, steps) && DrainDone !in steps
    ensures Reads(steps) <= ToRead(s)
    decreases steps
  {
    if steps != [] {
      assert steps[0] in steps;
      DrainingProgress(capacity, s, steps[0]);
      DrainEnds(capacity, Apply(capacity, s, steps[0]), steps[1..]);
    }
  }

  /** The pop loop takes each task at most once, however fast other threads push. */
  lemma {:induction false} PoppingEnds(capacity: nat, s: State, steps: seq<Step>)
    requires s.pc.Popping? && s.own.Idle? && Runs(capacity, s, steps) && PopDone !in steps
    ensures Pops(steps) <= ToPop(s)
    decreases steps
  {
    if steps != [] {
      assert steps[0] in steps;
      PoppingProgress(capacity, s, steps[0]);
      PoppingEnds(capacity, Apply(capacity, s, steps[0]), steps[1..]);
    }
  }

  // ---------- Every round: each phase once, the pipe emptied, the tasks in order ----------

  /** Whether the loop stands between the end of one phase and the end of the next. */
  predicate Between(pc: Pc, last: Step) {
    match last
    case TimersDone => pc.Popping?
    case PopDone => pc.Running? || pc.Polling?
    case CheckEmpty => pc.Blocked?
    case PollReturn => pc.Waking?
    case WakesDone => pc.Draining?
    case _ => false
  }

  function Count(steps: seq<Step>, step: Step): nat {
    if steps == [] then 0 else (if steps[0] == step then 1 else 0) + Count(steps[1..], step)
  }

  const PHASES: seq<Step> := [TimersDone, PopDone, CheckEmpty, PollReturn, WakesDone, DrainDone]

  /**
   * Every round of the loop passes every phase exactly once: over any stretch of a run two neighbouring phases end
   * equally often, up to the phase the stretch starts or ends in.
   */
  lemma {:induction false} RoundsAreWhole(capacity: nat, s: State, steps: seq<Step>, i: nat)
    requires Runs(capacity, s, steps) && i < 5
    ensures Count(steps, PHASES[i]) + (if Between(s.pc, PHASES[i]) then 1 else 0)
            == Count(steps, PHASES[i + 1]) + (if Between(Final(capacity, s, steps).pc, PHASES[i]) then 1 else 0)
    decreases steps
  {
    if steps != [] {
      RoundsAreWhole(capacity, Apply(capacity, s, steps[0]), steps[1..], i);
    }
  }

  /** Some state on the way finds the wake pipe empty. */
  ghost predicate EmptiesPipe(capacity: nat, s: State, steps: seq<Step>)
    requires Runs(capacity, s, steps)
    decreases steps
  {
    s.pipe == 0 || (steps != [] && EmptiesPipe(capacity, Apply(capacity, s, steps[0]), steps[1..]))
  }

  /**
   * The wake pipe is drained in every round: between a return of poll() and the next visit to the timers some state
   * finds it empty, so an old byte cannot make every later poll() return at once.
   */
  lemma {:induction false} RoundEmptiesPipe(capacity: nat, s: State, steps: seq<Step>)
    requires Runs(capacity, s, steps) && (s.pc.Blocked? || s.pc.Waking? || s.pc.Draining?) && TimersDone in steps
    ensures EmptiesPipe(capacity, s, steps)
    decreases steps
  {
    if s.pipe != 0 {
      assert steps == [steps[0]] + steps[1..];
      RoundEmptiesPipe(capacity, Apply(capacity, s, steps[0]), steps[1..]);
    }
  }

  /** Writes to the wake pipe, and what the drain loop takes from it. */
  function Pokes(steps: seq<Step>): nat {
    if steps == [] then 0 else (if steps[0].Poke? || steps[0].OwnPoke? then 1 else 0) + Pokes(steps[1..])
  }

  ghost function Drained(capacity: nat, s: State, steps: seq<Step>): nat
    requires Runs(capacity, s, steps)
    decreases steps
  {
    if steps == [] then 0
    else
      (if !steps[0].Read? then 0 else if s.pipe < 2048 then s.pipe else 2048)
      + Drained(capacity, Apply(capacity, s, steps[0]), steps[1..])
  }

  function Pushes(steps: seq<Step>): nat {
    if steps == [] then 0 else (if steps[0].Push? || steps[0].OwnPush? then 1 else 0) + Pushes(steps[1..])
  }

  /** Wakers between push and write. */
  function AboutToWrite(s: State): nat {
    s.poking + if s.own.Poking? then 1 else 0
  }

  /**
   * Every push by a waker is followed by its write: over any run, what was pushed has been written or is about to be.
   * As long as the pipe has room each write is a byte in it until a read takes it, at most 2048 at a time.
   */
  lemma {:induction false} EveryPushIsWritten(capacity: nat, s: State, steps: seq<Step>)
    requires Runs(capacity, s, steps)
    ensures var f := Final(capacity, s, steps);
            && AboutToWrite(s) + Pushes(steps) == Pokes(steps) + AboutToWrite(f)
            && (s.pipe + Pokes(steps) <= capacity ==>
                  s.pipe + Pokes(steps) == f.pipe + Drained(capacity, s, steps))
    decreases steps
  {
    if steps != [] {
      EveryPushIsWritten(capacity, Apply(capacity, s, steps[0]), steps[1..]);
    }
  }

  /** The tasks that enter the queue, and the tasks taken to be polled, in order. */
  ghost function Entered(capacity: nat, s: State, steps: seq<Step>): seq<Task>
    requires Runs(capacity, s, steps)
    decreases steps
  {
    if steps == [] then []
    else
      (match steps[0]
       case Push(t) => [t]
       case OwnPush => [s.own.task]
       case Spawn(t) => [t]
       case _ => [])
      + Entered(capacity, Apply(capacity, s, steps[0]), steps[1..])
  }

  function Polled(steps: seq<Step>): seq<Task> {
    if steps == [] then [] else (if steps[0].Clear? then [steps[0].task] else []) + Polled(steps[1..])
  }

  /** One step of the queue discipline. */
  lemma QueueStep(capacity: nat, s: State, step: Step, more: seq<Task>)
    requires Enabled(s, step)
    ensures var next, cleared := Apply(capacity, s, step), if step.Clear? then [step.task] else [];
            var entered := match step
                           case Push(t) => [t]
                           case OwnPush => [s.own.task]
                           case Spawn(t) => [t]
                           case _ => [];
            s.batch + s.queue + (entered + more) == cleared + (next.batch + next.queue + more)
  {
    match step
    case Push(t) => assert s.batch + s.queue + ([t] + more) == s.batch + (s.queue + [t]) + more;
    case OwnPush => assert s.batch + s.queue + ([s.own.task] + more) == s.batch + (s.queue + [s.own.task]) + more;
    case Spawn(t) => assert s.batch + s.queue + ([t] + more) == s.batch + (s.queue + [t]) + more;
    case Pop => assert s.batch + s.queue == s.batch + [s.queue[0]] + s.queue[1..];
    case Clear(t) => assert s.batch + s.queue + more == [t] + (s.batch[1..] + s.queue + more);
    case _ =>
  }

  /** Tasks are polled in exactly the order in which they were queued, by whichever thread, and none is skipped. */
  lemma {:induction false} PolledInOrder(capacity: nat, s: State, steps: seq<Step>)
    requires Runs(capacity, s, steps)
    ensures var f := Final(capacity, s, steps);
            s.batch + s.queue + Entered(capacity, s, steps) == Polled(steps) + (f.batch + f.queue)
    decreases steps
  {
    hide Enabled;
    hide Apply;
    if steps != [] {
      var next := Apply(capacity, s, steps[0]);
      PolledInOrder(capacity, next, steps[1..]);
      QueueStep(capacity, s, steps[0], Entered(capacity, next, steps[1..]));
      var f := Final(capacity, s, steps);
      var cleared := if steps[0].Clear? then [steps[0].task] else [];
      assert cleared + (Polled(steps[1..]) + (f.batch + f.queue)) == Polled(steps) + (f.batch + f.queue);
    }
  }

  /** No busy waiting: poll() gets the timeout zero only while a task is queued. */
  lemma {:induction false} ZeroTimeoutMeansWork(capacity: nat, s: State, steps: seq<Step>)
    requires Runs(capacity, s, steps) && (s.pc == Blocked(false) ==> s.queue != [])
    ensures var f := Final(capacity, s, steps);
            f.pc == Blocked(false) ==> f.queue != []
    decreases steps
  {
    if steps != [] {
      ZeroTimeoutMeansWork(capacity, Apply(capacity, s, steps[0]), steps[1..]);
    }
  }

  // ---------- Why spawning belongs to the executor thread ----------

  /** What a spawn by another thread would do: it queues the task but writes nothing to the pipe. */
  function ForeignSpawn(s: State, t: Task): State {
    s.(tasks := s.tasks + {t}, scheduled := s.scheduled + {t}, queue := s.queue + [t])
  }

  /** One round of the loop without any wake ends blocked on an empty queue. */
  function QuietRound(first: Task): seq<Step> {
    [TimersDone, Pop, PopDone, Clear(first), PollDone, CheckEmpty]
  }

  lemma {:induction false} OneStepMore(capacity: nat, s: State, steps: seq<Step>, step: Step)
    requires Runs(capacity, s, steps) && Enabled(Final(capacity, s, steps), step)
    ensures Runs(capacity, s, steps + [step])
    ensures Final(capacity, s, steps + [step]) == Apply(capacity, Final(capacity, s, steps), step)
    decreases steps
  {
    hide Enabled;
    hide Apply;
    if steps == [] {
      assert steps + [step] == [step] && [step][1..] == [];
      assert Runs(capacity, Apply(capacity, s, step), []);
    } else {
      assert (steps + [step])[1..] == steps[1..] + [step];
      OneStepMore(capacity, Apply(capacity, s, steps[0]), steps[1..], step);
    }
  }

  /** A spawn by another thread can leave the executor asleep on a queued task with nobody about to wake it. */
  lemma ForeignSpawnCanSleep(capacity: nat, first: Task, t: Task)
    requires capacity > 0 && t != first
    ensures Runs(capacity, Start(first), QuietRound(first))
    ensures var s := ForeignSpawn(Final(capacity, Start(first), QuietRound(first)), t);
            s.pc == Blocked(true) && s.queue == [t] && s.pipe == 0 && s.poking == 0 && !NoSleepOnWork(s)
  {
    hide Runs;
    hide Final;
    var s := Start(first);
    var round := QuietRound(first);
    assert [] + [TimersDone] == round[..1];
    assert round[..1] + [Pop] == round[..2];
    assert round[..2] + [PopDone] == round[..3];
    assert round[..3] + [Clear(first)] == round[..4];
    assert round[..4] + [PollDone] == round[..5];
    assert round[..5] + [CheckEmpty] == round;
    assert Runs(capacity, s, []) && Final(capacity, s, []) == s by { NoStep(capacity, s); }
    OneStepMore(capacity, s, [], TimersDone);
    OneStepMore(capacity, s, round[..1], Pop);
    OneStepMore(capacity, s, round[..2], PopDone);
    OneStepMore(capacity, s, round[..3], Clear(first));
    OneStepMore(capacity, s, round[..4], PollDone);
    OneStepMore(capacity, s, round[..5], CheckEmpty);
  }

  lemma NoStep(capacity: nat, s: State)
    ensures Runs(capacity, s, []) && Final(capacity, s, []) == s
  {
  }
}
