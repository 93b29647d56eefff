/** The duplicate cache: a hash set and a queue that together remember the last `capacity` accepted fingerprints. */
module SeenPackets {
  import opened Sets
  import opened Wire

  /** The value of the cache: the queue, oldest first. The hash set is its set of elements. */
  datatype Window<H(==)> = Window(order: seq<H>, capacity: nat) {
    predicate Valid() {
      NoRepeats(order) && |order| <= capacity
    }

    predicate Has(h: H) {
      h in order
    }

    /** Whether `h` is a duplicate, and the window afterwards. */
    function Add(h: H): (r: (bool, Window<H>))
      ensures Valid() ==> r.1.Valid()
      ensures r.1.capacity == capacity
    {
      if h in order then (true, this)
      else
        var longer := order + [h];
        (false, this.(order := if |longer| > capacity then longer[1..] else longer))
    }
  }

  lemma AddedIsKnown<H>(w: Window<H>, h: H)
    requires w.capacity > 0
    ensures w.Add(h).1.Has(h)
  {
    if h !in w.order {
      var longer := w.order + [h];
      assert longer[|longer| - 1] == h;
      assert |longer| > w.capacity ==> longer[1..][|longer| - 2] == h;
    }
  }

  function Last<H>(s: seq<H>, n: nat): seq<H> {
    if |s| <= n then s else s[|s| - n..]
  }

  /** The fingerprints accepted in a run of calls: those not among the last `n` accepted before them. */
  function Accepted<H(==)>(n: nat, calls: seq<H>): seq<H> {
    if calls == [] then []
    else
      var (before, h) := (Accepted(n, calls[..|calls| - 1]), calls[|calls| - 1]);
      if h in Last(before, n) then before else before + [h]
  }

  function Run<H(==)>(n: nat, calls: seq<H>): Window<H> {
    if calls == [] then Window([], n)
    else Run(n, calls[..|calls| - 1]).Add(calls[|calls| - 1]).1
  }

  /** Over any run the cache is exactly the last `n` accepted fingerprints, without repeats; `n` may be 0. */
  lemma {:induction false} CacheIsSlidingWindow<H>(n: nat, calls: seq<H>)
    ensures Run(n, calls) == Window(Last(Accepted(n, calls), n), n)
    ensures Run(n, calls).Valid()
    ensures forall h :: Run(n, calls).Add(h).0 <==> h in Last(Accepted(n, calls), n)
  {
    if calls != [] {
      var earlier := calls[..|calls| - 1];
      CacheIsSlidingWindow(n, earlier);
      var (before, h) := (Accepted(n, earlier), calls[|calls| - 1]);
      if h !in Last(before, n) {
        var longer := Last(before, n) + [h];
        assert Last(before + [h], n) == if |longer| > n then longer[1..] else longer;
      }
    }
  }

  /** The i-th accepted fingerprint, unless accepted again, is remembered through exactly n - 1 further acceptances. */
  lemma RememberedThroughCapacity<H>(n: nat, calls: seq<H>, i: nat)
    requires i < |Accepted(n, calls)|
    requires Accepted(n, calls)[i] !in Accepted(n, calls)[i + 1..]
    ensures Run(n, calls).Has(Accepted(n, calls)[i]) <==> |Accepted(n, calls)| - 1 - i <= n - 1
  {
    CacheIsSlidingWindow(n, calls);
    InLastIff(Accepted(n, calls), n, i);
  }

  lemma InLastIff<H>(a: seq<H>, n: nat, i: nat)
    requires i < |a| && a[i] !in a[i + 1..]
    ensures a[i] in Last(a, n) <==> |a| - i <= n
  {
    var cut := |a| - |Last(a, n)|;
    assert Last(a, n) == a[cut..];
    if i < cut {
      assert a[cut..] == a[i + 1..][cut - i - 1..];
    } else {
      assert a[i] == a[cut..][i - cut];
    }
  }

  lemma DropOldest<H>(s: seq<H>)
    requires s != [] && NoRepeats(s)
    ensures (set h | h in s[1..]) == (set h | h in s) - {s[0]}
  {
    assert s == [s[0]] + s[1..];
  }

  class SeenPackets {
    const fingerprint: Bytes -> bv64
    const capacity: nat
    var hashes: set<bv64>
    var order: seq<bv64>

    ghost predicate Valid()
      reads this
    {
      View().Valid() && hashes == set h | h in order
    }

    ghost function View(): Window<bv64>
      reads this
    {
      Window(order, capacity)
    }

    constructor (fingerprint: Bytes -> bv64, capacity: nat)
      ensures Valid() && View() == Window([], capacity)
      ensures this.fingerprint == fingerprint && this.capacity == capacity
    {
      this.fingerprint := fingerprint;
      this.capacity := capacity;
      hashes := {};
      order := [];
    }

    method Add(packet: Bytes) returns (duplicate: bool)
      requires Valid()
      modifies this
      ensures Valid()
      ensures (duplicate, View()) == old(View()).Add(fingerprint(packet))
    {
      var hash := fingerprint(packet);
      if hash in hashes {
        return true;
      }
      hashes, order := hashes + {hash}, order + [hash];
      if |order| > capacity {
        DropOldest(order);
        hashes, order := hashes - {order[0]}, order[1..];
      }
      return false;
    }

    method Contains(packet: Bytes) returns (known: bool)
      requires Valid()
      ensures known <==> View().Has(fingerprint(packet))
    {
      known := fingerprint(packet) in hashes;
    }
  }
}
