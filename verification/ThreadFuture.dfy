/**
 * `fn_thread_future`: a helper thread hands one result to a future. Both sides touch two locked cells, the result
 * and the waker; each locked access is one atomic step, and the two sides interleave in any way.
 */
module ThreadFuture {
  import opened Wire

  datatype Helper<W> =
    | Computing
    | Offering            // the result is stored; looking for a waker
    | WakingUp(waker: W)  // a waker was taken
    | Finished

  datatype State<T(==), W(==)> = State(
    result: Option<T>,
    waker: Option<W>,
    helper: Helper<W>,
    looking: bool,        // inside a poll, between storing the waker and looking for the result
    // history
    computed: Option<T>,
    yielded: seq<T>,      // what polls returned Ready with
    latest: Option<W>,    // the waker of the latest poll
    pending: bool,        // the latest poll is over and returned Pending
    woken: bool)          // that waker was woken since the latest poll stored it

  /** A poll after Ready would break the contract of futures, so it is not a step. */
  datatype Step<T, W> = Store(result: T) | TakeWaker | Wake | BeginPoll(waker: W) | Look

  predicate Enabled<T(==), W(==)>(s: State<T, W>, step: Step<T, W>) {
    match step
    case Store(_) => s.helper.Computing?
    case TakeWaker => s.helper.Offering?
    case Wake => s.helper.WakingUp?
    case BeginPoll(_) => !s.looking && s.yielded == []
    case Look => s.looking
  }

  function Apply<T(==), W(==)>(s: State<T, W>, step: Step<T, W>): State<T, W>
    requires Enabled(s, step)
  {
    match step
    case Store(t) => s.(result := Some(t), helper := Offering, computed := Some(t))
    case TakeWaker => if s.waker.None? then s else s.(waker := None, helper := WakingUp(s.waker.value))
    case Wake => s.(helper := Finished, woken := s.woken || s.latest == Some(s.helper.waker))
    case BeginPoll(w) => s.(waker := Some(w), looking := true, latest := Some(w), pending := false, woken := false)
    case Look =>
      if s.result.Some? then s.(result := None, looking := false, yielded := s.yielded + [s.result.value])
      else s.(looking := false, pending := true)
  }

  function Start<T(==), W(==)>(): State<T, W> {
    State(None, None, Computing, false, None, [], None, false, false)
  }

  predicate Runs<T(==), W(==)>(s: State<T, W>, steps: seq<Step<T, W>>)
    decreases steps
  {
    steps == [] || (Enabled(s, steps[0]) && Runs(Apply(s, steps[0]), steps[1..]))
  }

  function Final<T(==), W(==)>(s: State<T, W>, steps: seq<Step<T, W>>): State<T, W>
    requires Runs(s, steps)
    decreases steps
  {
    if steps == [] then s else Final(Apply(s, steps[0]), steps[1..])
  }

  /** The result is not there yet, in its cell, or yielded. */
  predicate ResultInOnePlace<T(==), W(==)>(s: State<T, W>) {
    match s.computed
    case None => s.helper.Computing? && s.result.None? && s.yielded == []
    case Some(t) =>
      && !s.helper.Computing?
      && ((s.result == s.computed && s.yielded == []) || (s.result.None? && s.yielded == [t] && !s.looking))
  }

  /** Until the helper takes a waker the cell holds the latest one; a pending poll began before that. */
  predicate WaiterIsKnown<T(==), W(==)>(s: State<T, W>) {
    && (s.helper.Computing? || s.helper.Offering? ==> s.waker == s.latest)
    && (s.looking ==> !s.pending && s.latest.Some?)
    && (s.pending ==> s.latest.Some?)
    && (s.pending && s.helper.WakingUp? ==> s.latest == Some(s.helper.waker))
    && (s.pending && s.helper.Finished? ==> s.woken)
  }

  predicate Inv<T(==), W(==)>(s: State<T, W>) {
    ResultInOnePlace(s) && WaiterIsKnown(s)
  }

  lemma StepKeeps<T, W>(s: State<T, W>, step: Step<T, W>)
    requires Inv(s) && Enabled(s, step)
    ensures Inv(Apply(s, step))
  {
    if step.Look? && s.result.Some? {
      assert [] + [s.result.value] == [s.result.value];
    }
  }

  lemma {:induction false} RunKeeps<T, W>(s: State<T, W>, steps: seq<Step<T, W>>)
    requires Inv(s) && Runs(s, steps)
    ensures Inv(Final(s, steps))
    decreases steps
  {
    if steps != [] {
      StepKeeps(s, steps[0]);
      RunKeeps(Apply(s, steps[0]), steps[1..]);
    }
  }

  lemma {:induction false} ComputedWasStored<T, W>(s: State<T, W>, steps: seq<Step<T, W>>)
    requires Runs(s, steps)
    ensures var t := Final(s, steps).computed;
            t == s.computed || (t.Some? && Store(t.value) in steps)
    decreases steps
  {
    if steps != [] {
      var next := Apply(s, steps[0]);
      ComputedWasStored(next, steps[1..]);
      assert steps == [steps[0]] + steps[1..];
    }
  }

  /** In every interleaving at most one poll is ready, and it yields what the helper computed. */
  lemma YieldsOnce<T, W>(steps: seq<Step<T, W>>)
    requires Runs(Start<T, W>(), steps)
    ensures var f := Final(Start<T, W>(), steps);
            f.yielded == [] || (|f.yielded| == 1 && Store(f.yielded[0]) in steps && f.result.None?)
  {
    RunKeeps(Start<T, W>(), steps);
    ComputedWasStored(Start<T, W>(), steps);
  }

  /**
   * No waiter is stranded: once the helper has finished, a future whose last poll returned Pending has been woken
   * since that poll stored its waker, although polls may bring different wakers.
   */
  lemma NoStrandedWaiter<T, W>(steps: seq<Step<T, W>>)
    requires Runs(Start<T, W>(), steps)
    ensures var f := Final(Start<T, W>(), steps);
            f.helper.Finished? && f.pending ==> f.woken
  {
    RunKeeps(Start<T, W>(), steps);
  }

  /** Once the result is stored, whatever comes next has yielded it exactly if a poll has looked. */
  lemma {:induction false} LookYields<T, W>(s: State<T, W>, more: seq<Step<T, W>>)
    requires Inv(s) && s.computed.Some? && Runs(s, more)
    ensures Final(s, more).yielded == if s.yielded != [] || Look in more then [s.computed.value] else []
    decreases more
  {
    if more != [] {
      StepKeeps(s, more[0]);
      assert Look in more <==> more[0] == Look || Look in more[1..];
      assert [] + [s.computed.value] == [s.computed.value];
      LookYields(Apply(s, more[0]), more[1..]);
    }
  }

  /**
   * And the next look yields: from any moment at which the result is stored, in whatever way helper and polls go on,
   * the result comes out exactly if some poll looks for it. Nothing but a missing poll delays it.
   */
  lemma NextPollYields<T, W>(steps: seq<Step<T, W>>, more: seq<Step<T, W>>)
    requires Runs(Start<T, W>(), steps)
    requires var f := Final(Start<T, W>(), steps);
             f.computed.Some? && f.yielded == [] && Runs(f, more)
    ensures var f := Final(Start<T, W>(), steps);
            Final(f, more).yielded == if Look in more then [f.computed.value] else []
  {
    RunKeeps(Start<T, W>(), steps);
    LookYields(Final(Start<T, W>(), steps), more);
  }

  /** The helper looks until the future has been polled, and then takes the waker of the latest poll. */
  lemma HelperFindsWaker<T, W>(steps: seq<Step<T, W>>)
    requires Runs(Start<T, W>(), steps)
    ensures var f := Final(Start<T, W>(), steps);
            f.helper.Offering? ==>
              Apply(f, TakeWaker).helper == match f.latest case None => Offering case Some(w) => WakingUp(w)
  {
    RunKeeps(Start<T, W>(), steps);
  }
}
