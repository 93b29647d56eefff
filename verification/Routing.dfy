/** The route tables as the programs hold them: the locked .NET table and the Rust actor, over per-link queues. */
module Routing {
  import opened Wire
  import opened RouteTable
  import opened PacketStep
  import opened Sets

  /** One link's outgoing queue. A completed queue takes nothing more. */
  class Peer {
    var outgoing: seq<Bytes>
    var completed: bool

    constructor ()
      ensures outgoing == [] && !completed
    {
      outgoing := [];
      completed := false;
    }

    method Send(packet: Bytes) returns (taken: bool)
      modifies this`outgoing
      ensures taken == !completed
      ensures outgoing == old(outgoing) + if taken then [packet] else []
    {
      taken := !completed;
      if taken {
        outgoing := outgoing + [packet];
      }
    }

    method Complete()
      modifies this`completed
      ensures completed
    {
      completed := true;
    }
  }

  /** What a list of sends appends to the queue of p. */
  function Queued<L(==)>(sends: seq<Send<L>>, peers: set<L>, p: L): seq<Bytes> {
    if sends == [] then []
    else
      (match sends[0]
       case All(packet) => if p in peers then [packet] else []
       case Via(link, packet) => if p == link then [packet] else [])
      + Queued(sends[1..], peers, p)
  }

  class Routing {
    var peers: set<Peer>
    var routes: map<Address, Route<Peer>>

    ghost function View(): Table<Peer>
      reads this
    {
      Table(peers, routes)
    }

    /** Every route names a registered peer, and the queue of a registered peer is open. */
    ghost predicate Valid()
      reads this, peers
    {
      View().Valid() && forall p :: p in peers ==> !p.completed
    }

    constructor ()
      ensures Valid() && View() == Table({}, map[])
    {
      peers := {};
      routes := map[];
    }

    method Add(peer: Peer)
      requires Valid() && !peer.completed
      modifies this
      ensures Valid() && View() == old(View()).Add(peer)
    {
      peers := peers + {peer};
    }

    method Remove(peer: Peer)
      requires Valid()
      modifies this, peer`completed
      ensures Valid() && View() == old(View()).Remove(DotNet, peer) && peer.completed
    {
      peers := peers - {peer};
      var dropped := set a | a in routes && routes[a].link == peer;
      while dropped != {}
        invariant dropped <= old(routes).Keys
        invariant forall a :: a in dropped ==> old(routes)[a].link == peer
        invariant forall a :: a in routes <==> a in old(routes) && (old(routes)[a].link != peer || a in dropped)
        invariant forall a :: a in routes ==> routes[a] == old(routes)[a]
        invariant peers == old(peers) - {peer}
      {
        var a :| a in dropped;
        routes := routes - {a};
        dropped := dropped - {a};
      }
      assert routes == old(View()).Remove(DotNet, peer).routes;
      peer.Complete();
    }

    method Learn(timestamp: nat, address: Address, peer: Peer)
      requires Valid()
      modifies this`routes
      ensures Valid() && View() == old(View()).Learn(DotNet, timestamp, address, peer)
    {
      if peer !in peers {
        return;
      }
      if address !in routes || timestamp > routes[address].timestamp {
        routes := routes[address := Route(timestamp, peer)];
      }
    }

    method Broadcast(packet: Bytes)
      requires Valid()
      modifies peers`outgoing
      ensures Valid()
      ensures forall p :: p in peers ==> p.outgoing == old(p.outgoing) + Queued([All(packet)], peers, p)
    {
      var rest := peers;
      while rest != {}
        invariant rest <= peers
        invariant forall p :: p in peers && p !in rest ==> p.outgoing == old(p.outgoing) + [packet]
        invariant forall p :: p in rest ==> p.outgoing == old(p.outgoing)
      {
        var p :| p in rest;
        var _ := p.Send(packet);
        rest := rest - {p};
      }
    }

    method Send(address: Address, packet: Bytes)
      requires Valid()
      modifies peers`outgoing
      ensures Valid()
      ensures forall p :: p in peers ==>
                p.outgoing == old(p.outgoing) + Queued(SendTo(View(), address, packet), peers, p)
    {
      if address in routes {
        var _ := routes[address].link.Send(packet);
      }
    }
  }

  // ---------- The Rust actor ----------

  datatype ActorMessage<L> =
    | AddSender(sender: L)
    | AddFastestTo(millis: nat, address: Address, sender: L)
    | SendToFastest(address: Address, data: Bytes)
    | SendToAll(data: Bytes)

  /** The table and the sends after one message. */
  function ActorStep<L(==)>(t: Table<L>, m: ActorMessage<L>): (Table<L>, seq<Send<L>>) {
    match m
    case AddSender(l) => (t.Add(l), [])
    case AddFastestTo(millis, a, l) => (t.Learn(Rust, millis, a, l), [])
    case SendToFastest(a, data) => (t, SendTo(t, a, data))
    case SendToAll(data) => (t, [All(data)])
  }

  function ActorRun<L(==)>(t: Table<L>, messages: seq<ActorMessage<L>>): (Table<L>, seq<Send<L>>)
    decreases messages
  {
    if messages == [] then (t, [])
    else
      var first := ActorStep(t, messages[0]);
      var rest := ActorRun(first.0, messages[1..]);
      (rest.0, first.1 + rest.1)
  }

  /** One copy of a packet for each time l is listed. */
  function Share<L(==)>(listed: seq<L>, l: L, packet: Bytes): seq<Bytes> {
    if listed == [] then []
    else Share(listed[..|listed| - 1], l, packet) + if listed[|listed| - 1] == l then [packet] else []
  }

  lemma ShareMore<L>(listed: seq<L>, i: nat, l: L, packet: Bytes)
    requires i < |listed|
    ensures Share(listed[..i + 1], l, packet) == Share(listed[..i], l, packet) + if listed[i] == l then [packet] else []
  {
    assert listed[..i + 1][..i] == listed[..i];
  }

  /** The elements that are not in `closed`, in order. */
  function Without<L(==)>(listed: seq<L>, closed: set<L>): seq<L> {
    if listed == [] then []
    else
      var last := listed[|listed| - 1];
      Without(listed[..|listed| - 1], closed) + if last in closed then [] else [last]
  }

  lemma WithoutMore<L>(listed: seq<L>, closed: set<L>, i: nat)
    requires i < |listed|
    ensures Without(listed[..i + 1], closed)
            == Without(listed[..i], closed) + if listed[i] in closed then [] else [listed[i]]
  {
    assert listed[..i + 1][..i] == listed[..i];
  }

  lemma CountMore<L>(listed: seq<L>, l: L)
    requires listed != []
    ensures var n := |listed| - 1;
            multiset(listed)[l] == multiset(listed[..n])[l] + if listed[n] == l then 1 else 0
  {
    assert listed == listed[..|listed| - 1] + [listed[|listed| - 1]];
  }

  /** Listed n times, n copies; and nothing but copies. */
  lemma {:induction false} ShareCounts<L>(listed: seq<L>, l: L, packet: Bytes)
    ensures |Share(listed, l, packet)| == multiset(listed)[l]
    ensures forall p :: p in Share(listed, l, packet) ==> p == packet
  {
    if listed != [] {
      var n := |listed| - 1;
      ShareCounts(listed[..n], l, packet);
      CountMore(listed, l);
      ShareMore(listed, n, l, packet);
      hide Share;
      assert listed[..n + 1] == listed;
    }
  }

  /** Everything else stays, as often as it was there, and in order. */
  lemma {:induction false} WithoutCounts<L>(listed: seq<L>, closed: set<L>, l: L)
    ensures multiset(Without(listed, closed))[l] == if l in closed then 0 else multiset(listed)[l]
  {
    if listed != [] {
      var n := |listed| - 1;
      WithoutCounts(listed[..n], closed, l);
      CountMore(listed, l);
      WithoutMore(listed, closed, n);
      hide Without;
      assert listed[..n + 1] == listed;
    }
  }

  lemma {:induction false} WithoutConcat<L>(a: seq<L>, b: seq<L>, closed: set<L>)
    ensures Without(a + b, closed) == Without(a, closed) + Without(b, closed)
    decreases |b|
  {
    if b == [] {
      assert a + b == a;
    } else {
      var (init, last) := (b[..|b| - 1], b[|b| - 1]);
      assert (a + b)[..|a + b| - 1] == a + init && (a + b)[|a + b| - 1] == last;
      WithoutConcat(a, init, closed);
    }
  }

  /** So the cleaner, when one sender is closed, does to the table of the actor what a removal does in the model. */
  lemma CleanIsRemove<L>(listed: seq<L>, routes: map<Address, Route<L>>, l: L)
    ensures Table((set x | x in Without(listed, {l})), routes)
            == Table((set x | x in listed), routes).Remove(Rust, l)
  {
    var (left, was) := ((set x | x in Without(listed, {l})), (set x | x in listed));
    forall x: L
      ensures x in left <==> x in was - {l}
    {
      WithoutCounts(listed, {l}, x);
      assert x in Without(listed, {l}) <==> x in multiset(Without(listed, {l}));
      assert x in listed <==> x in multiset(listed);
    }
    assert left == was - {l};
  }

  /** Over any mailbox the actor knows the senders it knew and those it was told of. */
  lemma {:induction false} ActorKnowsSenders<L>(t: Table<L>, messages: seq<ActorMessage<L>>, l: L)
    ensures l in ActorRun(t, messages).0.peers <==> l in t.peers || AddSender(l) in messages
    decreases messages
  {
    if messages != [] {
      ActorKnowsSenders(ActorStep(t, messages[0]).0, messages[1..], l);
      assert AddSender(l) in messages <==> messages[0] == AddSender(l) || AddSender(l) in messages[1..];
    }
  }

  /** What one queue receives from one message: one copy of a flooded packet for each time it is listed. */
  function Received<L(==)>(t: Table<L>, listed: seq<L>, m: ActorMessage<L>, l: L): seq<Bytes> {
    if m.SendToAll? then Share(listed, l, m.data) else Queued(ActorStep(t, m).1, t.peers, l)
  }

  /** When nothing is listed twice, it receives what the table says. */
  lemma ReceivedOnce<L>(t: Table<L>, listed: seq<L>, m: ActorMessage<L>, l: L)
    requires NoRepeats(listed) && t.peers == set x | x in listed
    ensures Received(t, listed, m, l) == Queued(ActorStep(t, m).1, t.peers, l)
  {
    if m.SendToAll? {
      ListedOnce(listed, l, m.data);
      var sends: seq<Send<L>> := [All(m.data)];
      assert sends[1..] == [];
    }
  }

  lemma {:induction false} ListedOnce<L>(listed: seq<L>, l: L, packet: Bytes)
    requires NoRepeats(listed)
    ensures Share(listed, l, packet) == if l in listed then [packet] else []
  {
    if listed != [] {
      ListedOnce(listed[..|listed| - 1], l, packet);
    }
  }

  class AllSenders {
    var senders: seq<Peer>
    var fastestToAddress: map<Address, Route<Peer>>

    ghost function View(): Table<Peer>
      reads this
    {
      Table((set p | p in senders), fastestToAddress)
    }

    ghost function Queues(): set<Peer>
      reads this
    {
      (set p | p in senders) + (set a | a in fastestToAddress :: fastestToAddress[a].link)
    }

    constructor ()
      ensures senders == [] && View() == Table({}, map[])
    {
      senders := [];
      fastestToAddress := map[];
    }

    method Add(sender: Peer)
      modifies this`senders
      ensures senders == old(senders) + [sender] && View() == old(View()).Add(sender)
    {
      senders := senders + [sender];
    }

    method AddFastestTo(millis: nat, address: Address, sender: Peer)
      modifies this`fastestToAddress
      ensures View() == old(View()).Learn(Rust, millis, address, sender)
    {
      if address in fastestToAddress && millis <= fastestToAddress[address].timestamp {
        return;
      }
      fastestToAddress := fastestToAddress[address := Route(millis, sender)];
    }

    /** A send to a closed queue is ignored; the route stays. */
    method SendToFastest(address: Address, data: Bytes)
      modifies Queues()`outgoing
      ensures forall p :: p in Queues() ==>
                p.outgoing == old(p.outgoing)
                              + if p.completed then [] else Queued(SendTo(View(), address, data), View().peers, p)
    {
      if address in fastestToAddress {
        var _ := fastestToAddress[address].link.Send(data);
      }
    }

    /** Every sender of the list gets the packet, as often as it is listed. */
    method SendToAll(data: Bytes)
      modifies Queues()`outgoing
      ensures forall p :: p in Queues() ==>
                p.outgoing == old(p.outgoing) + if p.completed then [] else Share(senders, p, data)
    {
      for i := 0 to |senders|
        invariant forall p :: p in Queues() ==>
                    p.outgoing == old(p.outgoing) + if p.completed then [] else Share(senders[..i], p, data)
      {
        hide Share;
        label before:
        var _ := senders[i].Send(data);
        forall p | p in Queues()
          ensures p.outgoing == old(p.outgoing) + if p.completed then [] else Share(senders[..i + 1], p, data)
        {
          ShareMore(senders, i, p, data);
          assert p.outgoing == old@before(p.outgoing) + if p == senders[i] && !p.completed then [data] else [];
        }
      }
      assert senders[..|senders|] == senders;
    }

    /** One turn of the actor loop. The list keeps its order and may, for all the actor knows, hold a sender twice. */
    method Handle(m: ActorMessage<Peer>)
      modifies this, Queues()`outgoing
      ensures View() == ActorStep(old(View()), m).0
      ensures senders == old(senders) + if m.AddSender? then [m.sender] else []
      ensures forall p :: p in old(Queues()) ==>
                p.outgoing == old(p.outgoing) + if p.completed then [] else Received(old(View()), old(senders), m, p)
    {
      match m {
        case AddSender(l) => Add(l);
        case AddFastestTo(millis, a, l) => AddFastestTo(millis, a, l);
        case SendToFastest(a, data) => SendToFastest(a, data);
        case SendToAll(data) => SendToAll(data);
      }
    }

    /** Sends an empty packet; the sender is kept if its queue takes it. */
    static method KeepOpen(sender: Peer, kept: seq<Peer>) returns (longer: seq<Peer>)
      modifies sender`outgoing
      ensures longer == kept + if sender.completed then [] else [sender]
      ensures sender.outgoing == old(sender.outgoing) + if sender.completed then [] else [[]]
    {
      var taken := sender.Send([]);
      longer := if taken then kept + [sender] else kept;
    }

    static method Retain(all: seq<Peer>, ghost closed: set<Peer>) returns (kept: seq<Peer>)
      requires forall p :: p in all ==> (p.completed <==> p in closed)
      modifies all`outgoing
      ensures kept == Without(all, closed)
      ensures forall p :: p in all ==> p.outgoing == old(p.outgoing) + if p in closed then [] else Share(all, p, [])
    {
      kept := [];
      for i := 0 to |all|
        invariant kept == Without(all[..i], closed)
        invariant forall p :: p in all ==>
                    p.outgoing == old(p.outgoing) + if p in closed then [] else Share(all[..i], p, [])
      {
        hide Share, Without;
        WithoutMore(all, closed, i);
        label before:
        kept := KeepOpen(all[i], kept);
        forall p | p in all
          ensures p.outgoing == old(p.outgoing) + if p in closed then [] else Share(all[..i + 1], p, [])
        {
          ShareMore(all, i, p, []);
          assert p.outgoing == old@before(p.outgoing) + if p == all[i] && p !in closed then [[]] else [];
        }
      }
      assert all[..|all|] == all;
    }

    /** The senders whose queue is closed. */
    ghost function Closed(): set<Peer>
      reads this, senders
    {
      set p | p in senders && p.completed
    }

    /** Keeps exactly the senders whose queue is open; each of them gets an empty packet. Routes are never dropped. */
    method CleanBrokenSenders()
      modifies this`senders, senders`outgoing
      ensures fastestToAddress == old(fastestToAddress)
      ensures senders == old(Without(senders, Closed()))
      ensures forall p :: p in old(senders) ==>
                p.outgoing == old(p.outgoing) + if p.completed then [] else Share(old(senders), p, [])
    {
      senders := Retain(senders, Closed());
    }
  }
}
