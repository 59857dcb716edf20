/** What the growing circular queue means: its geometry (capacity and head position) and the
    sequence of items it holds. Tsqueue.dfy shows that the byte-level code computes these
    functions; everything above the queue uses them. */
module Rings {
  import opened SizeT

  /** Position arithmetic of the code: fold a position back once it has reached the capacity. */
  function Wrap(x: nat, capacity: nat): nat {
    if x < capacity then x else x - capacity
  }

  datatype Ring<T> = Ring(capacity: nat, head: nat, items: seq<T>) {
    ghost predicate Valid() {
      head < capacity && |items| <= capacity
    }

    function Tail(): nat { Wrap(head + |items|, capacity) }

    /** Items that lie contiguously from the head on: what one send may offer. */
    function Window(): nat
      requires Valid()
    {
      Min(|items|, capacity - head)
    }

    predicate Grows(n: nat) { |items| + n > capacity }

    function Enqueue(xs: seq<T>): (r: Ring<T>)
      requires Valid()
      ensures r.Valid()
    {
      Ring(if Grows(|xs|) then Fit(2 * capacity, |items| + |xs|) else capacity, head, items + xs)
    }

    /** The items a dequeue of at most n hands out: n of them, or all there are. */
    function Taken(n: nat): (taken: seq<T>)
      ensures |taken| == if n <= |items| then n else |items|
      ensures taken <= items
    {
      items[..Min(n, |items|)]
    }

    function Dequeue(n: nat): (r: Ring<T>)
      requires Valid()
      ensures r.Valid() && items == Taken(n) + r.items
    {
      var k := Min(n, |items|);
      Ring(capacity, Wrap(head + k, capacity), items[k..])
    }

    function Clear(): (r: Ring<T>)
      requires Valid()
      ensures r.Valid()
    {
      Ring(capacity, 0, [])
    }

    /** Items moved by an enqueue of n: the old block that realloc copies, and the wrapped prefix
        that is relocated behind it. */
    function MoveCost(n: nat): nat {
      if Grows(n) then capacity + (if Tail() <= head && |items| > 0 then Tail() else 0) else 0
    }
  }

  /** asock_tsqueue_create: an empty ring whose capacity is the least power of two that suffices. */
  function Empty<T>(wanted: nat): (r: Ring<T>)
    ensures r.Valid()
  {
    Ring(Fit(1, wanted), 0, [])
  }

  lemma WrapIsMod(x: nat, capacity: nat)
    requires x < 2 * capacity
    ensures Wrap(x, capacity) == x % capacity
  {
    var p := x / capacity;
    assert x == p * capacity + x % capacity;
    assert p < 2 by {
      if p >= 2 { Monotone(2, p, capacity); }
    }
    if p == 1 { assert p * capacity == capacity; } else { assert p * capacity == 0; }
  }

  lemma Monotone(p: nat, q: nat, c: nat)
    requires p <= q
    ensures p * c <= q * c
  {
  }

  /** Positions stay below the capacity and the tail is (head + size) mod capacity. */
  lemma TailIsMod<T>(q: Ring<T>)
    requires q.Valid()
    ensures q.Tail() < q.capacity && q.Tail() == (q.head + |q.items|) % q.capacity
  {
    WrapIsMod(q.head + |q.items|, q.capacity);
  }

  // ---------------------------------------------------------------- runs of one queue

  datatype Op<T> = Put(xs: seq<T>) | Take(n: nat) | Reset

  function After<T>(q: Ring<T>, op: Op<T>): (r: Ring<T>)
    requires q.Valid()
    ensures r.Valid()
  {
    match op
    case Put(xs) => q.Enqueue(xs)
    case Take(n) => q.Dequeue(n)
    case Reset => q.Clear()
  }

  /** The items an operation brings. */
  function New<T>(op: Op<T>): seq<T> { if op.Put? then op.xs else [] }

  /** The items an operation removes, in the order it removes them. */
  function Gone<T>(q: Ring<T>, op: Op<T>): seq<T> {
    match op
    case Put(_) => []
    case Take(n) => q.Taken(n)
    case Reset => q.items
  }

  function Exec<T>(q: Ring<T>, ops: seq<Op<T>>): (r: Ring<T>)
    requires q.Valid()
    ensures r.Valid() && r.capacity >= q.capacity
    decreases |ops|
  {
    if ops == [] then q else Exec(After(q, ops[0]), ops[1..])
  }

  function Removed<T>(q: Ring<T>, ops: seq<Op<T>>): seq<T>
    requires q.Valid()
    decreases |ops|
  {
    if ops == [] then [] else Gone(q, ops[0]) + Removed(After(q, ops[0]), ops[1..])
  }

  function Added<T>(ops: seq<Op<T>>): seq<T> {
    if ops == [] then [] else New(ops[0]) + Added(ops[1..])
  }

  /** Largest number of items held at any point of the run. */
  function Peak<T>(q: Ring<T>, ops: seq<Op<T>>): (r: nat)
    requires q.Valid()
    ensures r >= |q.items|
    decreases |ops|
  {
    if ops == [] then |q.items| else Max(|q.items|, Peak(After(q, ops[0]), ops[1..]))
  }

  /** Items moved by all the growths of the run together. */
  function Cost<T>(q: Ring<T>, ops: seq<Op<T>>): nat
    requires q.Valid()
    decreases |ops|
  {
    if ops == [] then 0
    else StepMoves(q, ops[0]) + Cost(After(q, ops[0]), ops[1..])
  }

  function StepMoves<T>(q: Ring<T>, op: Op<T>): nat { if op.Put? then q.MoveCost(|op.xs|) else 0 }

  /** Over any run nothing is lost, duplicated or reordered, and the positions stay in range. */
  lemma {:induction false} RunConserves<T>(q: Ring<T>, ops: seq<Op<T>>)
    requires q.Valid()
    ensures q.items + Added(ops) == Removed(q, ops) + Exec(q, ops).items
    decreases |ops|
  {
    if ops == [] {
      assert q.items + [] == [] + q.items;
    } else {
      var q', rest := After(q, ops[0]), ops[1..];
      StepConserves(q, ops[0]);
      RunConserves(q', rest);
      Regroup(q.items, New(ops[0]), Gone(q, ops[0]), q'.items, Added(rest), Removed(q', rest), Exec(q', rest).items);
    }
  }

  lemma StepConserves<T>(q: Ring<T>, op: Op<T>)
    requires q.Valid()
    ensures q.items + New(op) == Gone(q, op) + After(q, op).items
  {
  }

  lemma Regroup<T>(a: seq<T>, p: seq<T>, g: seq<T>, b: seq<T>, r: seq<T>, x: seq<T>, e: seq<T>)
    requires a + p == g + b && b + r == x + e
    ensures a + (p + r) == (g + x) + e
  {
    assert a + (p + r) == (a + p) + r;
    assert (g + b) + r == g + (b + r);
    assert g + (x + e) == (g + x) + e;
  }

  /** Capacities stay powers of two, and growth never overshoots: the capacity is the initial one
      or less than twice the largest size the run reached. */
  lemma {:induction false} RunCapacity<T>(q: Ring<T>, ops: seq<Op<T>>)
    requires q.Valid() && IsPow2(q.capacity)
    ensures IsPow2(Exec(q, ops).capacity)
    ensures Exec(q, ops).capacity == q.capacity || Exec(q, ops).capacity < 2 * Peak(q, ops)
    decreases |ops|
  {
    if ops != [] {
      var q', rest := After(q, ops[0]), ops[1..];
      if q'.capacity != q.capacity {
        var wanted := |q.items| + |ops[0].xs|;
        GrowthIsLeast(q, |ops[0].xs|, q'.capacity);
        assert |q'.items| == wanted;
      }
      RunCapacity(q', rest);
    }
  }

  /** A growth picks the least power of two that holds the items. */
  lemma GrowthIsLeast<T>(q: Ring<T>, n: nat, m: nat)
    requires q.Valid() && IsPow2(q.capacity) && q.Grows(n)
    ensures var c := Fit(2 * q.capacity, |q.items| + n);
      && IsPow2(c) && |q.items| + n <= c < 2 * (|q.items| + n)
      && (IsPow2(m) && m >= |q.items| + n ==> c <= m)
  {
    Pow2Twice(q.capacity);
    var target := |q.items| + n;
    var big := Above(Max(2 * q.capacity, target));
    FitLeast(2 * q.capacity, target, big);
    if IsPow2(m) && m >= target {
      Pow2Gap(q.capacity, m);
      FitLeast(2 * q.capacity, target, m);
    }
  }

  /** Creation picks the least power of two at or above max(1, wanted). */
  lemma CreateIsLeast<T>(wanted: nat, m: nat)
    ensures var c := Empty<T>(wanted).capacity;
      && IsPow2(c) && Max(1, wanted) <= c
      && (IsPow2(m) && m >= wanted ==> c <= m)
  {
    Pow2One();
    var big := Above(Max(1, wanted));
    FitLeast(1, wanted, big);
    if IsPow2(m) && m >= wanted { FitLeast(1, wanted, m); }
  }

  /** There is a power of two at or above any number. */
  lemma {:induction false} Above(n: nat) returns (p: nat)
    ensures IsPow2(p) && p >= n
  {
    if n <= 1 {
      Pow2One();
      p := 1;
    } else {
      p := Above(n - 1);
      if p < n { Pow2Twice(p); p := 2 * p; }
    }
  }

  /** Amortised growth: all the moving of a run is paid for by the capacity it gained, hence by
      four times the largest size. */
  lemma {:induction false} RunCost<T>(q: Ring<T>, ops: seq<Op<T>>)
    requires q.Valid() && IsPow2(q.capacity)
    ensures Cost(q, ops) <= 2 * (Exec(q, ops).capacity - q.capacity)
    ensures Exec(q, ops).capacity > q.capacity ==> Cost(q, ops) < 4 * Peak(q, ops)
    decreases |ops|
  {
    RunCapacity(q, ops);
    if ops != [] {
      var q', rest := After(q, ops[0]), ops[1..];
      StepCost(q, ops[0]);
      RunCost(q', rest);
    }
  }

  /** One operation moves at most twice what the capacity gains by it. */
  lemma StepCost<T>(q: Ring<T>, op: Op<T>)
    requires q.Valid() && IsPow2(q.capacity)
    ensures IsPow2(After(q, op).capacity)
    ensures StepMoves(q, op) <= 2 * (After(q, op).capacity - q.capacity)
  {
    if op.Put? && q.Grows(|op.xs|) { GrowthIsLeast(q, |op.xs|, q.capacity); }
  }

  // ---------------------------------------------------------------- peek, send, pop

  function EnqueueAll<T>(q: Ring<T>, batches: seq<seq<T>>): (r: Ring<T>)
    requires q.Valid()
    ensures r.Valid()
    decreases |batches|
  {
    if batches == [] then q else EnqueueAll(q.Enqueue(batches[0]), batches[1..])
  }

  function Flat<T>(batches: seq<seq<T>>): seq<T> {
    if batches == [] then [] else batches[0] + Flat(batches[1..])
  }

  lemma {:induction false} EnqueueAllAppends<T>(q: Ring<T>, batches: seq<seq<T>>)
    requires q.Valid()
    ensures EnqueueAll(q, batches).head == q.head
    ensures EnqueueAll(q, batches).items == q.items + Flat(batches)
    decreases |batches|
  {
    if batches == [] {
      assert q.items + [] == q.items;
    } else {
      EnqueueAllAppends(q.Enqueue(batches[0]), batches[1..]);
    }
  }

  /** The send pass peeks n items, unlocks, lets writers in, and only then pops. The late pop
      removes exactly the peeked items and leaves what an atomic pop would have left. */
  lemma LatePopIsAtomicPop<T>(q: Ring<T>, n: nat, batches: seq<seq<T>>)
    requires q.Valid() && n <= |q.items|
    ensures var late := EnqueueAll(q, batches);
      && late.Taken(n) == q.items[..n]
      && late.Dequeue(n).items == EnqueueAll(q.Dequeue(n), batches).items
  {
    EnqueueAllAppends(q, batches);
    EnqueueAllAppends(q.Dequeue(n), batches);
    assert (q.items + Flat(batches))[n..] == q.items[n..] + Flat(batches);
  }

  /** The head window is a contiguous prefix of the queue, empty only when the queue is, and it is
      the longest one: what does not fit it starts at position 0. */
  lemma WindowExact<T>(q: Ring<T>, i: nat)
    requires q.Valid() && i < |q.items|
    ensures 0 < q.Window() <= |q.items|
    ensures Wrap(q.head + i, q.capacity) == if i < q.Window() then q.head + i else i - q.Window()
  {
  }

  /** Two head windows, taken whole with no enqueue between them, hand out every item in order and leave
      the queue empty. */
  lemma TwoWindowsDrain<T>(q: Ring<T>)
    requires q.Valid()
    ensures var r := q.Dequeue(q.Window());
      && q.Taken(q.Window()) + r.Taken(r.Window()) == q.items
      && r.Dequeue(r.Window()).items == []
  {
    var r := q.Dequeue(q.Window());
    if q.Window() < |q.items| { assert r.head == 0; }
    assert r.Window() == |r.items|;
  }

  /** One fully accepted send: the window goes through a uint32_t on its way to send(). */
  function FullPass<T>(q: Ring<T>): (r: Ring<T>)
    requires q.Valid()
    ensures r.Valid()
  {
    q.Dequeue(q.Window() % LIMIT32)
  }

  /** Two fully accepted passes empty a queue exactly when neither contiguous part reaches 2^32
      items; a longer part is truncated on the way to send() and stays behind. */
  lemma TwoPassesDrainIff<T>(q: Ring<T>)
    requires q.Valid()
    ensures FullPass(FullPass(q)).items == []
      <==> q.Window() < LIMIT32 && |q.items| - q.Window() < LIMIT32
  {
  }
}
