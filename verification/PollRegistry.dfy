/** One call of `poll_and_wake`: every registration is either woken or registered again, and none is lost. */
module PollRegistry {

  datatype Fd = Fd(number: int)

  datatype PollType = ForRead | ForWrite

  datatype Registration<W> = Registration(fd: Fd, kind: PollType, waker: W)

  datatype Status = Done | PollFailed

  /** The flags a descriptor is polled for, besides hang-up and error. */
  datatype Interest = Interest(input: bool, output: bool)

  // ---------- Specification over the list of registrations ----------

  function Front<T>(s: seq<T>): seq<T>
    requires s != []
  {
    s[..|s| - 1]
  }

  function Last<T>(s: seq<T>): T
    requires s != []
  {
    s[|s| - 1]
  }

  /** The registrations on descriptors of a set, in order. */
  function On<W>(regs: seq<Registration<W>>, fds: set<Fd>): seq<Registration<W>> {
    if regs == [] then []
    else On(Front(regs), fds) + if Last(regs).fd in fds then [Last(regs)] else []
  }

  /** Their wakers. */
  function Owners<W>(regs: seq<Registration<W>>, fds: set<Fd>): seq<W> {
    if regs == [] then []
    else Owners(Front(regs), fds) + if Last(regs).fd in fds then [Last(regs).waker] else []
  }

  function Fds<W>(regs: seq<Registration<W>>): set<Fd> {
    if regs == [] then {} else Fds(Front(regs)) + {Last(regs).fd}
  }

  /** The entries of the table for one descriptor: kind and position of each registration, in order. */
  function Slots<W>(regs: seq<Registration<W>>, fd: Fd): (slots: seq<(PollType, nat)>)
    ensures forall s :: s in slots ==> s.1 < |regs| && regs[s.1].fd == fd && regs[s.1].kind == s.0
  {
    if regs == [] then []
    else Slots(Front(regs), fd) + if Last(regs).fd == fd then [(Last(regs).kind, |regs| - 1)] else []
  }

  function Wakers<W>(regs: seq<Registration<W>>): (wakers: seq<W>)
    ensures |wakers| == |regs|
  {
    seq(|regs|, i requires 0 <= i < |regs| => regs[i].waker)
  }

  /** What a list of slots stands for. */
  function Lookup<W>(store: seq<W>, fd: Fd, slots: seq<(PollType, nat)>): seq<Registration<W>>
    requires forall s :: s in slots ==> s.1 < |store|
  {
    if slots == [] then []
    else
      assert Last(slots) in slots;
      Lookup(store, fd, Front(slots)) + [Registration(fd, Last(slots).0, store[Last(slots).1])]
  }

  function LookupWakers<W>(store: seq<W>, slots: seq<(PollType, nat)>): seq<W>
    requires forall s :: s in slots ==> s.1 < |store|
  {
    if slots == [] then []
    else
      assert Last(slots) in slots;
      LookupWakers(store, Front(slots)) + [store[Last(slots).1]]
  }

  lemma {:induction false} LookupInLonger<W>(store: seq<W>, w: W, fd: Fd, slots: seq<(PollType, nat)>)
    requires forall s :: s in slots ==> s.1 < |store|
    ensures Lookup(store + [w], fd, slots) == Lookup(store, fd, slots)
    ensures LookupWakers(store + [w], slots) == LookupWakers(store, slots)
  {
    if slots != [] {
      assert Last(slots) in slots;
      LookupInLonger(store, w, fd, Front(slots));
    }
  }

  /** Looking the slots of a descriptor up in the store gives back its registrations. */
  lemma {:induction false} LookupSlots<W>(regs: seq<Registration<W>>, fd: Fd)
    ensures Lookup(Wakers(regs), fd, Slots(regs, fd)) == On(regs, {fd})
    ensures LookupWakers(Wakers(regs), Slots(regs, fd)) == Owners(regs, {fd})
  {
    if regs != [] {
      var (init, last) := (Front(regs), Last(regs));
      LookupSlots(init, fd);
      assert Wakers(regs) == Wakers(init) + [last.waker];
      LookupInLonger(Wakers(init), last.waker, fd, Slots(init, fd));
      var (before, slots) := (Slots(init, fd), Slots(regs, fd));
      if last.fd == fd {
        assert slots == before + [(last.kind, |init|)];
        assert Front(slots) == before && Last(slots) == (last.kind, |init|);
        assert Wakers(regs)[|init|] == last.waker;
      } else {
        assert slots == before && On(regs, {fd}) == On(init, {fd}) && Owners(regs, {fd}) == Owners(init, {fd});
      }
    }
  }

  lemma {:induction false} SlotsOfAbsent<W>(regs: seq<Registration<W>>, fd: Fd)
    ensures Slots(regs, fd) == [] <==> fd !in Fds(regs)
  {
    if regs != [] {
      SlotsOfAbsent(Front(regs), fd);
    }
  }

  /** A registration is on a set of descriptors as often as it was made, if its descriptor is one of them. */
  lemma {:induction false} OnCounts<W>(regs: seq<Registration<W>>, fds: set<Fd>, r: Registration<W>)
    ensures multiset(On(regs, fds))[r] == if r.fd in fds then multiset(regs)[r] else 0
  {
    if regs != [] {
      OnCounts(Front(regs), fds, r);
      assert regs == Front(regs) + [Last(regs)];
    }
  }

  /** And the owners are the wakers of exactly those registrations, in order. */
  lemma {:induction false} OwnersAreWakers<W>(regs: seq<Registration<W>>, fds: set<Fd>)
    ensures Owners(regs, fds) == Wakers(On(regs, fds))
  {
    if regs != [] {
      OwnersAreWakers(Front(regs), fds);
    }
  }

  lemma OnLast<W>(regs: seq<Registration<W>>, fds: set<Fd>)
    requires regs != []
    ensures multiset(On(regs, fds))
            == multiset(On(Front(regs), fds)) + if Last(regs).fd in fds then multiset{Last(regs)} else multiset{}
    ensures multiset(Owners(regs, fds))
            == multiset(Owners(Front(regs), fds))
               + if Last(regs).fd in fds then multiset{Last(regs).waker} else multiset{}
  {
  }

  lemma {:induction false} OnSplits<W>(regs: seq<Registration<W>>, a: set<Fd>, b: set<Fd>)
    requires a !! b
    ensures multiset(On(regs, a + b)) == multiset(On(regs, a)) + multiset(On(regs, b))
    ensures multiset(Owners(regs, a + b)) == multiset(Owners(regs, a)) + multiset(Owners(regs, b))
  {
    if regs != [] {
      OnSplits(Front(regs), a, b);
      OnLast(regs, a);
      OnLast(regs, b);
      OnLast(regs, a + b);
      hide *;
    }
  }

  lemma {:induction false} OnAll<W>(regs: seq<Registration<W>>, fds: set<Fd>)
    requires Fds(regs) <= fds
    ensures On(regs, fds) == regs
  {
    if regs != [] {
      OnAll(Front(regs), fds);
      assert regs == Front(regs) + [Last(regs)];
    }
  }

  /** Descriptors nobody registered do not matter. */
  lemma {:induction false} OnOnlyKnown<W>(regs: seq<Registration<W>>, known: set<Fd>, fds: set<Fd>)
    requires Fds(regs) <= known
    ensures Owners(regs, known * fds) == Owners(regs, fds)
    ensures On(regs, known * fds) == On(regs, fds)
  {
    if regs != [] {
      OnOnlyKnown(Front(regs), known, fds);
    }
  }

  lemma {:induction false} OnNone<W>(regs: seq<Registration<W>>)
    ensures On(regs, {}) == [] && Owners(regs, {}) == []
  {
    if regs != [] {
      OnNone(Front(regs));
    }
  }

  // ---------- The table built from the register ----------

  /** The table lists, for each descriptor that occurs, the slots of its registrations. */
  ghost predicate Tabled<W>(table: map<Fd, seq<(PollType, nat)>>, regs: seq<Registration<W>>, fds: set<Fd>) {
    table.Keys == fds && forall fd :: fd in table ==> table[fd] == Slots(regs, fd)
  }

  lemma TableAt<W>(table: map<Fd, seq<(PollType, nat)>>, regs: seq<Registration<W>>, fds: set<Fd>, fd: Fd)
    requires Tabled(table, regs, fds) && fd in fds
    ensures fd in table && table[fd] == Slots(regs, fd)
  {
  }

  lemma TableKeys<W>(table: map<Fd, seq<(PollType, nat)>>, regs: seq<Registration<W>>, fds: set<Fd>)
    requires Tabled(table, regs, fds)
    ensures table.Keys == fds
  {
  }

  lemma {:induction false} TableGrows<W>(table: map<Fd, seq<(PollType, nat)>>, regs: seq<Registration<W>>,
                                         r: Registration<W>)
    requires Tabled(table, regs, Fds(regs))
    ensures var entry := if r.fd in table then table[r.fd] else [];
            Tabled(table[r.fd := entry + [(r.kind, |regs|)]], regs + [r], Fds(regs + [r]))
  {
    var all := regs + [r];
    assert Front(all) == regs && Last(all) == r;
    SlotsOfAbsent(regs, r.fd);
  }

  ghost predicate Waits<W>(regs: seq<Registration<W>>, fd: Fd, kind: PollType) {
    exists i :: 0 <= i < |regs| && regs[i].fd == fd && regs[i].kind == kind
  }

  predicate Shows(slots: seq<(PollType, nat)>, kind: PollType) {
    exists i :: 0 <= i < |slots| && slots[i].0 == kind
  }

  lemma {:induction false} SlotOf<W>(regs: seq<Registration<W>>, k: nat)
    requires k < |regs|
    ensures (regs[k].kind, k) in Slots(regs, regs[k].fd)
  {
    if k < |regs| - 1 {
      SlotOf(Front(regs), k);
    }
  }

  lemma {:induction false} SlotsShowKind<W>(regs: seq<Registration<W>>, fd: Fd, kind: PollType)
    ensures Shows(Slots(regs, fd), kind) <==> Waits(regs, fd, kind)
  {
    var slots := Slots(regs, fd);
    if i :| 0 <= i < |slots| && slots[i].0 == kind {
      assert slots[i] in slots;
    }
    if k :| 0 <= k < |regs| && regs[k].fd == fd && regs[k].kind == kind {
      SlotOf(regs, k);
    }
  }

  /** A descriptor of the table is polled for exactly what somebody waits for, and somebody does wait. */
  ghost predicate Fits<W>(regs: seq<Registration<W>>, f: (Fd, Interest)) {
    && (f.1.input <==> Waits(regs, f.0, ForRead))
    && (f.1.output <==> Waits(regs, f.0, ForWrite))
    && (f.1.input || f.1.output)
  }

  lemma {:induction false} InterestFits<W>(regs: seq<Registration<W>>, fd: Fd, interest: Interest)
    requires fd in Fds(regs)
    requires interest == Interest(Shows(Slots(regs, fd), ForRead), Shows(Slots(regs, fd), ForWrite))
    ensures Fits(regs, (fd, interest))
  {
    SlotsOfAbsent(regs, fd);
    SlotsShowKind(regs, fd, ForRead);
    SlotsShowKind(regs, fd, ForWrite);
    assert Slots(regs, fd)[0].0 == ForRead || Slots(regs, fd)[0].0 == ForWrite;
  }

  /** The descriptors listed so far, each once. */
  function Listed(fds: seq<(Fd, Interest)>): set<Fd> {
    if fds == [] then {} else Listed(Front(fds)) + {Last(fds).0}
  }

  predicate NoneTwice(fds: seq<(Fd, Interest)>) {
    forall i, j :: 0 <= i < j < |fds| ==> fds[i].0 != fds[j].0
  }

  lemma {:induction false} ListedIff(fds: seq<(Fd, Interest)>, fd: Fd)
    ensures fd in Listed(fds) <==> exists i :: 0 <= i < |fds| && fds[i].0 == fd
  {
    if fds != [] {
      ListedIff(Front(fds), fd);
      if i :| 0 <= i < |fds| && fds[i].0 == fd {
        assert i < |fds| - 1 ==> Front(fds)[i].0 == fd;
      }
    }
  }

  lemma {:induction false} ListMore(fds: seq<(Fd, Interest)>, f: (Fd, Interest))
    requires NoneTwice(fds) && f.0 !in Listed(fds)
    ensures NoneTwice(fds + [f]) && Listed(fds + [f]) == Listed(fds) + {f.0}
  {
    ListedIff(fds, f.0);
    assert Front(fds + [f]) == fds;
  }

  // ---------- The call itself ----------

  class PollCache<W> {
    var pollRegister: seq<Registration<W>>
    var pollState: map<Fd, seq<(PollType, nat)>>
    var wakerStore: seq<W>
    var fds: seq<(Fd, Interest)>

    constructor ()
      ensures pollRegister == []
    {
      pollRegister, pollState, wakerStore, fds := [], map[], [], [];
    }

    /** Empties the register into the table, storing each waker under its own key. */
    method Collect()
      modifies this
      ensures pollRegister == [] && wakerStore == Wakers(old(pollRegister)) && fds == []
      ensures Tabled(pollState, old(pollRegister), Fds(old(pollRegister)))
      ensures pollState.Keys == Fds(old(pollRegister))
    {
      hide Tabled;
      hide Fds;
      ghost var regs := pollRegister;
      pollState, wakerStore, fds := map[], [], [];
      ghost var n := 0;
      assert regs[..0] == [];
      EmptyTable<W>();
      while pollRegister != []
        invariant n <= |regs| && pollRegister == regs[n..]
        invariant wakerStore == Wakers(regs[..n]) && fds == []
        invariant Tabled(pollState, regs[..n], Fds(regs[..n]))
        decreases |pollRegister|
      {
        var r := pollRegister[0];
        TableGrows(pollState, regs[..n], r);
        assert regs[..n + 1] == regs[..n] + [r];
        var key := |wakerStore|;
        wakerStore := wakerStore + [r.waker];
        var entry := if r.fd in pollState then pollState[r.fd] else [];
        pollState := pollState[r.fd := entry + [(r.kind, key)]];
        pollRegister := pollRegister[1..];
        n := n + 1;
      }
      assert regs[..n] == regs;
      TableKeys(pollState, regs, Fds(regs));
    }

    /** The fold over one descriptor's entries. */
    static method FoldInterest(slots: seq<(PollType, nat)>) returns (interest: Interest)
      ensures interest == Interest(Shows(slots, ForRead), Shows(slots, ForWrite))
    {
      var (input, output) := (false, false);
      for i := 0 to |slots|
        invariant input <==> Shows(slots[..i], ForRead)
        invariant output <==> Shows(slots[..i], ForWrite)
      {
        assert slots[..i + 1] == slots[..i] + [slots[i]];
        assert slots[..i + 1][i] == slots[i];
        match slots[i].0
        case ForRead => input := true;
        case ForWrite => output := true;
      }
      assert slots[..|slots|] == slots;
      interest := Interest(input, output);
    }

    /** Lists each descriptor of the table once, in any order, with the flags somebody waits for. */
    method ListFds(ghost regs: seq<Registration<W>>)
      requires Tabled(pollState, regs, Fds(regs)) && pollState.Keys == Fds(regs) && fds == []
      modifies this`fds
      ensures NoneTwice(fds) && Listed(fds) == Fds(regs)
      ensures forall f :: f in fds ==> Fits(regs, f)
    {
      hide *;
      var keys := pollState.Keys;
      assert NoneTwice(fds) && Listed(fds) == {} by { NothingListed(); }
      while keys != {}
        invariant Listed(fds) !! keys && Listed(fds) + keys == Fds(regs)
        invariant NoneTwice(fds) && forall f :: f in fds ==> Fits(regs, f)
        decreases |keys|
      {
        var fd :| fd in keys;
        TableAt(pollState, regs, Fds(regs), fd);
        var interest := FoldInterest(pollState[fd]);
        InterestFits(regs, fd, interest);
        ListMore(fds, (fd, interest));
        fds := fds + [(fd, interest)];
        keys := keys - {fd};
      }
    }

    /** Wakes the owners on ready descriptors other than the wake pipe's, and drops them from the table. */
    method WakeReady(ghost regs: seq<Registration<W>>, ready: set<Fd>, wakePipe: Fd) returns (woken: seq<W>)
      requires Tabled(pollState, regs, Fds(regs)) && wakerStore == Wakers(regs)
      requires NoneTwice(fds) && Listed(fds) == Fds(regs)
      modifies this`pollState
      ensures multiset(woken) == multiset(Owners(regs, ready - {wakePipe}))
      ensures Tabled(pollState, regs, Fds(regs) - (ready - {wakePipe}))
    {
      hide *;
      woken := [];
      ghost var chosen := ready - {wakePipe};
      NothingWoken(regs, chosen);
      assert fds[..0] == [];
      for i := 0 to |fds|
        invariant multiset(woken) == multiset(Owners(regs, Listed(fds[..i]) * chosen))
        invariant Tabled(pollState, regs, Fds(regs) - Listed(fds[..i]) * chosen)
      {
        var fd := fds[i].0;
        ListedNext(fds, i);
        if fd != wakePipe && fd in ready {
          var more := WakeAndDrop(regs, fd, Fds(regs) - Listed(fds[..i]) * chosen);
          WakeMore(regs, Listed(fds[..i]), chosen, fd);
          woken := woken + more;
        } else {
          SkipOne(Listed(fds[..i]), chosen, fd);
        }
      }
      assert fds[..|fds|] == fds;
      OnOnlyKnown(regs, Fds(regs), chosen);
      assert Fds(regs) - Fds(regs) * chosen == Fds(regs) - chosen;
    }

    method WakeAndDrop(ghost regs: seq<Registration<W>>, fd: Fd, ghost left: set<Fd>) returns (woken: seq<W>)
      requires Tabled(pollState, regs, left) && wakerStore == Wakers(regs) && fd in left
      modifies this`pollState
      ensures woken == Owners(regs, {fd})
      ensures Tabled(pollState, regs, left - {fd})
    {
      woken := WakeEntries(regs, fd);
      pollState := pollState - {fd};
    }

    method WakeEntries(ghost regs: seq<Registration<W>>, fd: Fd) returns (woken: seq<W>)
      requires fd in pollState && pollState[fd] == Slots(regs, fd) && wakerStore == Wakers(regs)
      ensures woken == Owners(regs, {fd})
    {
      var slots := pollState[fd];
      woken := [];
      for i := 0 to |slots|
        invariant forall s :: s in slots[..i] ==> s in slots
        invariant woken == LookupWakers(wakerStore, slots[..i])
      {
        assert slots[i] in slots;
        assert Front(slots[..i + 1]) == slots[..i] && Last(slots[..i + 1]) == slots[i];
        woken := woken + [wakerStore[slots[i].1]];
      }
      assert slots[..|slots|] == slots;
      LookupSlots(regs, fd);
    }

    /** Puts what is left in the table back into the register. */
    method Reregister(ghost regs: seq<Registration<W>>, ghost left: set<Fd>)
      requires pollRegister == [] && wakerStore == Wakers(regs) && Tabled(pollState, regs, left)
      modifies this`pollRegister
      ensures multiset(pollRegister) == multiset(On(regs, left))
    {
      hide On;
      var keys := pollState.Keys;
      ghost var done: set<Fd> := {};
      OnNone(regs);
      while keys != {}
        invariant done !! keys && done + keys == left
        invariant multiset(pollRegister) == multiset(On(regs, done))
        decreases |keys|
      {
        var fd :| fd in keys;
        var back := Entries(regs, fd);
        OnSplits(regs, done, {fd});
        pollRegister := pollRegister + back;
        keys := keys - {fd};
        done := done + {fd};
      }
      assert done == left;
    }

    method Entries(ghost regs: seq<Registration<W>>, fd: Fd) returns (back: seq<Registration<W>>)
      requires fd in pollState && pollState[fd] == Slots(regs, fd) && wakerStore == Wakers(regs)
      ensures back == On(regs, {fd})
    {
      var slots := pollState[fd];
      back := [];
      for i := 0 to |slots|
        invariant forall s :: s in slots[..i] ==> s in slots
        invariant back == Lookup(wakerStore, fd, slots[..i])
      {
        assert slots[i] in slots;
        assert Front(slots[..i + 1]) == slots[..i] && Last(slots[..i + 1]) == slots[i];
        back := back + [Registration(fd, slots[i].0, wakerStore[slots[i].1])];
      }
      assert slots[..|slots|] == slots;
      LookupSlots(regs, fd);
    }

    /**
     * The whole call. `ready` is what poll() reports: the descriptors with a non-empty result. A registration on the
     * wake pipe itself would be kept, never woken. When poll() fails the register has been emptied already.
     */
    method PollAndWake(failed: bool, ready: set<Fd>, wakePipe: Fd) returns (status: Status, woken: seq<W>)
      modifies this
      ensures failed ==> status == PollFailed && woken == [] && pollRegister == []
      ensures var (before, chosen) := (old(pollRegister), ready - {wakePipe});
              !failed ==>
                && status == Done
                && multiset(woken) == multiset(Owners(before, chosen))
                && multiset(pollRegister) == multiset(On(before, Fds(before) - chosen))
                && multiset(before) == multiset(On(before, chosen)) + multiset(pollRegister)
      ensures forall f :: f in fds ==> Fits(old(pollRegister), f)
    {
      ghost var regs := pollRegister;
      Collect();
      ListFds(regs);
      if failed {
        return PollFailed, [];
      }
      woken := WakeReady(regs, ready, wakePipe);
      ghost var left := Fds(regs) - (ready - {wakePipe});
      Reregister(regs, left);
      OnSplits(regs, ready - {wakePipe}, left);
      OnAll(regs, (ready - {wakePipe}) + left);
      status := Done;
    }
  }

  lemma NothingWoken<W>(regs: seq<Registration<W>>, chosen: set<Fd>)
    ensures Owners(regs, Listed([]) * chosen) == [] && Fds(regs) - Listed([]) * chosen == Fds(regs)
  {
    assert Listed([]) * chosen == {};
    OnNone(regs);
  }

  lemma {:induction false} WakeMore<W>(regs: seq<Registration<W>>, done: set<Fd>, chosen: set<Fd>, fd: Fd)
    requires fd in chosen && fd !in done
    ensures multiset(Owners(regs, (done + {fd}) * chosen))
            == multiset(Owners(regs, done * chosen)) + multiset(Owners(regs, {fd}))
    ensures Fds(regs) - (done + {fd}) * chosen == Fds(regs) - done * chosen - {fd}
  {
    assert (done + {fd}) * chosen == done * chosen + {fd};
    OnSplits(regs, done * chosen, {fd});
  }

  lemma SkipOne(done: set<Fd>, chosen: set<Fd>, fd: Fd)
    requires fd !in chosen
    ensures (done + {fd}) * chosen == done * chosen
  {
  }

  lemma EmptyTable<W>()
    ensures Tabled<W>(map[], [], Fds<W>([]))
  {
  }

  lemma NothingListed()
    ensures NoneTwice([]) && Listed([]) == {}
  {
  }

  lemma {:induction false} ListedNext(fds: seq<(Fd, Interest)>, i: nat)
    requires NoneTwice(fds) && i < |fds|
    ensures Listed(fds[..i + 1]) == Listed(fds[..i]) + {fds[i].0}
    ensures fds[i].0 !in Listed(fds[..i]) && fds[i].0 in Listed(fds)
  {
    assert Front(fds[..i + 1]) == fds[..i];
    ListedIff(fds[..i], fds[i].0);
    ListedIff(fds, fds[i].0);
  }
}
