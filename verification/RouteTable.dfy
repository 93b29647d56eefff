/** The route table of both implementations as a value, and what it holds after any history of calls. */
module RouteTable {
  import opened Wire

  datatype Impl = DotNet | Rust

  datatype Route<L> = Route(timestamp: nat, link: L)

  /** The registered links and, per address, the link its newest announcement arrived on first. */
  datatype Table<L(==)> = Table(peers: set<L>, routes: map<Address, Route<L>>) {
    predicate Valid() {
      forall a :: a in routes ==> routes[a].link in peers
    }

    function Add(link: L): Table<L> {
      this.(peers := peers + {link})
    }

    /** A lost link. The .NET table forgets every route through it; the Rust actor keeps the routes. */
    function Remove(impl: Impl, link: L): Table<L> {
      if impl.Rust? then this.(peers := peers - {link})
      else Table(peers - {link}, map a | a in routes && routes[a].link != link :: routes[a])
    }

    /** Only .NET asks that the link is still registered; both take a strictly newer timestamp only. */
    function Learn(impl: Impl, timestamp: nat, address: Address, link: L): Table<L> {
      if (impl.DotNet? && link !in peers) || (address in routes && timestamp <= routes[address].timestamp) then this
      else this.(routes := routes[address := Route(timestamp, link)])
    }
  }

  datatype Event<L> = Add(link: L) | Remove(link: L) | Learn(timestamp: nat, address: Address, link: L)

  function Step<L(==)>(impl: Impl, t: Table<L>, e: Event<L>): Table<L> {
    match e
    case Add(l) => t.Add(l)
    case Remove(l) => t.Remove(impl, l)
    case Learn(timestamp, a, l) => t.Learn(impl, timestamp, a, l)
  }

  function Run<L(==)>(impl: Impl, events: seq<Event<L>>): Table<L> {
    if events == [] then Table({}, map[]) else Step(impl, Run(impl, events[..|events| - 1]), events[|events| - 1])
  }

  lemma {:induction false} RoutesNameRegisteredPeers<L>(events: seq<Event<L>>)
    ensures Run(DotNet, events).Valid()
  {
    if events != [] {
      RoutesNameRegisteredPeers(events[..|events| - 1]);
    }
  }

  /** Removing what was just added changes nothing; for .NET, if no route has been learned over it meanwhile. */
  lemma AddUndone<L>(impl: Impl, t: Table<L>, link: L)
    requires link !in t.peers && (impl.DotNet? ==> t.Valid())
    ensures t.Add(link).Remove(impl, link) == t
  {
    assert t.peers + {link} - {link} == t.peers;
  }

  /** What one removal leaves of the routes: in the Rust table all, in the .NET table those over other links. */
  lemma RoutesLeft<L>(impl: Impl, t: Table<L>, link: L, a: Address)
    ensures var after := t.Remove(impl, link);
            && link !in after.peers && after.Add(link).peers == t.peers + {link}
            && (a in after.routes <==> a in t.routes && (impl.DotNet? ==> t.routes[a].link != link))
            && (a in after.routes ==> after.routes[a] == t.routes[a])
  {
  }

  // ---------- The table against its history ----------

  /** Event i announces `a` on a link that is registered at that moment. */
  ghost predicate Accepted<L>(events: seq<Event<L>>, a: Address, i: nat)
    requires i < |events|
  {
    events[i].Learn? && events[i].address == a && events[i].link in Run(DotNet, events[..i]).peers
  }

  /** The position just after the last Remove that dropped the entry of `a`. */
  ghost function SinceDrop<L>(events: seq<Event<L>>, a: Address): (k: nat)
    ensures k <= |events|
  {
    if events == [] then 0
    else
      var earlier := events[..|events| - 1];
      if a in Run(DotNet, earlier).routes && a !in Run(DotNet, events).routes then |events| else SinceDrop(earlier, a)
  }

  /** Event i is the earliest of the accepted announcements of `a` with the greatest timestamp since the last drop. */
  ghost predicate Best<L>(events: seq<Event<L>>, a: Address, i: nat) {
    && SinceDrop(events, a) <= i < |events| && Accepted(events, a, i)
    && forall j :: SinceDrop(events, a) <= j < |events| && Accepted(events, a, j)
         ==> events[j].timestamp <= events[i].timestamp && (j < i ==> events[j].timestamp < events[i].timestamp)
  }

  lemma {:induction false} RouteIsEarliestOfNewest<L>(events: seq<Event<L>>, a: Address)
    ensures a in Run(DotNet, events).routes ==>
              exists i: nat :: Best(events, a, i)
                  && Run(DotNet, events).routes[a] == Route(events[i].timestamp, events[i].link)
    ensures a !in Run(DotNet, events).routes ==>
              forall j :: SinceDrop(events, a) <= j < |events| ==> !Accepted(events, a, j)
  {
    if events != [] {
      var (n, earlier, e) := (|events| - 1, events[..|events| - 1], events[|events| - 1]);
      RouteIsEarliestOfNewest(earlier, a);
      SameBefore(events, a);
      var (was, now) := (Run(DotNet, earlier), Run(DotNet, events));
      if a in now.routes {
        if a in was.routes && now.routes[a] == was.routes[a] {
          var i: nat :| Best(earlier, a, i) && was.routes[a] == Route(earlier[i].timestamp, earlier[i].link);
          assert events[..n] == earlier && now == Step(DotNet, was, e);
          Outdated(was, e, a);
          BestKept(events, earlier, e, a, i);
        } else {
          assert events[..n] == earlier && now == Step(DotNet, was, e) && Accepted(events, a, n);
          assert SinceDrop(events, a) == SinceDrop(earlier, a);
          hide Accepted, SinceDrop, Run;
          assert Best(events, a, n);
        }
      }
    }
  }

  /** The last event does not beat a route it leaves in place. */
  lemma BestKept<L>(events: seq<Event<L>>, earlier: seq<Event<L>>, e: Event<L>, a: Address, i: nat)
    requires events == earlier + [e] && Best(earlier, a, i) && SinceDrop(events, a) == SinceDrop(earlier, a)
    requires forall j :: 0 <= j < |earlier| ==> Accepted(events, a, j) == Accepted(earlier, a, j)
    requires Accepted(events, a, |earlier|) ==> e.timestamp <= earlier[i].timestamp
    ensures Best(events, a, i)
  {
    hide Accepted, SinceDrop;
  }

  lemma Outdated<L>(t: Table<L>, e: Event<L>, a: Address)
    requires a in t.routes && a in Step(DotNet, t, e).routes && Step(DotNet, t, e).routes[a] == t.routes[a]
    ensures e.Learn? && e.address == a && e.link in t.peers ==> e.timestamp <= t.routes[a].timestamp
  {
  }

  lemma SameBefore<L>(events: seq<Event<L>>, a: Address)
    requires events != []
    ensures forall j :: 0 <= j < |events| - 1 ==> Accepted(events, a, j) == Accepted(events[..|events| - 1], a, j)
  {
    forall j | 0 <= j < |events| - 1
      ensures Accepted(events, a, j) == Accepted(events[..|events| - 1], a, j)
    {
      assert events[..|events| - 1][..j] == events[..j];
    }
  }

  /** Without removals, and when every announcing link is registered, both tables are the same function of the calls. */
  lemma {:induction false} RustTableAgrees<L>(events: seq<Event<L>>)
    requires forall i :: 0 <= i < |events| ==> !events[i].Remove?
    requires forall i :: 0 <= i < |events| && events[i].Learn? ==> events[i].link in Run(DotNet, events[..i]).peers
    ensures Run(Rust, events) == Run(DotNet, events)
  {
    if events != [] {
      var n := |events| - 1;
      forall i | 0 <= i < n && events[..n][i].Learn?
        ensures events[..n][i].link in Run(DotNet, events[..n][..i]).peers
      {
        assert events[..n][..i] == events[..i];
      }
      RustTableAgrees(events[..n]);
    }
  }
}
