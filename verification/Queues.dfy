/**
 * The queues of one node and the messages in flight are the same thing: what the methods append to the queue of a link
 * is what the network model puts in flight on it.
 */
module Queues {
  import opened Wire
  import opened PacketStep
  import opened Routing
  import opened Network

  lemma FloodedOnce(peers: set<End>, packet: Bytes, m: Msg)
    ensures ToAll(peers, packet)[m] == if m.packet == packet && m.via in peers then 1 else 0
  {
    assert m in (set e | e in peers :: Msg(e, packet)) <==> m.packet == packet && m.via in peers;
  }

  /** Packet for packet and link for link, as often. */
  lemma {:induction false} QueuedIsEmitted(peers: set<End>, sends: seq<Send<End>>, e: End, packet: Bytes)
    ensures multiset(Queued(sends, peers, e))[packet] == Emitted(peers, sends)[Msg(e, packet)]
  {
    if sends != [] {
      QueuedIsEmitted(peers, sends[1..], e, packet);
      if sends[0].All? {
        FloodedOnce(peers, sends[0].packet, Msg(e, packet));
      }
    }
  }

  /** After a delivery, each link carries what it carried before, and what the receiver's queue for it was given. */
  lemma DeliveryFillsQueues(env: Env, s: Net, m: Msg, clock: Clock, e: End, packet: Bytes)
    requires Enabled(env, s, Deliver(m, clock))
    ensures var node := s.nodes[m.via.to];
            var sends := Process(env, node, m.packet, Twin(m.via), clock).1;
            Apply(env, s, Deliver(m, clock)).flight[Msg(e, packet)]
            == (s.flight - multiset{m})[Msg(e, packet)] + multiset(Queued(sends, node.table.peers, e))[packet]
  {
    hide Process, Queued, Emitted, TracerOf;
    var node := s.nodes[m.via.to];
    var sends := Process(env, node, m.packet, Twin(m.via), clock).1;
    QueuedIsEmitted(node.table.peers, sends, e, packet);
  }
}
