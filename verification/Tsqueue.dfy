/** asock_tsqueue.c: the growing circular queue over a byte buffer. Every method is proved against
    the ring of Ring.dfy. The mutex makes each method one atomic step; who may run between two of
    them is the subject of EventLoop.dfy. */
module Tsqueues {
  import opened SizeT
  import opened Rings
  import opened Bytes

  // ---------------------------------------------------------------- reading a circular buffer

  /** The n slots of a buffer from head on, folding back at the capacity. */
  ghost function Unroll(d: seq<byte>, isz: nat, capacity: nat, head: nat, n: nat): (r: seq<seq<byte>>)
    ensures |r| == n
  {
    seq(n, i requires 0 <= i < n => Slot(d, isz, Wrap(head + i, capacity)))
  }

  /** Growth: a longer block with the wrapped prefix (t items) copied behind the old one unrolls to
      the same items, now without a fold. t is 0 when nothing was wrapped. */
  lemma GrownUnrolls(d0: seq<byte>, d1: seq<byte>, d2: seq<byte>, isz: nat, c: nat, c': nat, head: nat, n: nat, t: nat)
    requires head < c && n <= c && 2 * c <= c'
    requires |d0| == isz * c && |d1| == isz * c' && isz * c <= isz * c'
    requires forall j :: 0 <= j < |d0| ==> d1[j] == d0[j]
    requires head + n <= c + t && t <= c && isz * c + isz * t <= |d1|
    requires Pasted(d2, d1, isz * c, d1, isz * 0, isz * t)
    ensures Unroll(d2, isz, c', head, n) == Unroll(d0, isz, c, head, n)
  {
    forall i: nat | i < n
      ensures Unroll(d2, isz, c', head, n)[i] == Unroll(d0, isz, c, head, n)[i]
    {
      GrownSlot(d0, d1, d2, isz, c, head + i, t);
      assert Wrap(head + i, c') == head + i;
    }
  }

  lemma GrownSlot(d0: seq<byte>, d1: seq<byte>, d2: seq<byte>, isz: nat, c: nat, x: nat, t: nat)
    requires x < c + t && t <= c
    requires |d0| == isz * c && |d0| <= |d1| && isz * c + isz * t <= |d1|
    requires forall j :: 0 <= j < |d0| ==> d1[j] == d0[j]
    requires Pasted(d2, d1, isz * c, d1, isz * 0, isz * t)
    ensures Slot(d2, isz, x) == Slot(d0, isz, Wrap(x, c))
  {
    var p := Wrap(x, c);
    MulMono(isz, p + 1, c);
    PrefixSlot(d0, d1, isz, p);
    if x < c {
      PastedSlotOut(d2, d1, isz, c, d1, 0, t, x);
    } else {
      PastedSlotIn(d2, d1, isz, c, d1, 0, t, p);
      assert c + p == x && 0 + p == p;
    }
  }

  /** A write that fits in front of the end appends its items. */
  lemma AppendLinear(r: seq<byte>, d: seq<byte>, isz: nat, c: nat, head: nat, n: nat, t: nat, s: seq<byte>, k: nat)
    requires head < c && n + k <= c && t == Wrap(head + n, c) && t + k <= c
    requires isz * t + isz * k <= |d| && isz * k <= |s|
    requires Pasted(r, d, isz * t, s, isz * 0, isz * k)
    ensures Unroll(r, isz, c, head, n + k) == Unroll(d, isz, c, head, n) + Slots(s, isz, k)
  {
    forall i: nat | i < n + k
      ensures Unroll(r, isz, c, head, n + k)[i] == (Unroll(d, isz, c, head, n) + Slots(s, isz, k))[i]
    {
      if i < n {
        PastedSlotOut(r, d, isz, t, s, 0, k, Wrap(head + i, c));
      } else {
        PastedFirst(r, d, isz, t, s, k, i - n);
        assert t + (i - n) == Wrap(head + i, c);
      }
    }
  }

  /** A write that reaches the end continues at slot 0. */
  lemma AppendSplit(r: seq<byte>, d1: seq<byte>, d: seq<byte>, isz: nat, c: nat, head: nat, n: nat, t: nat,
                    s: seq<byte>, f: nat, g: nat)
    requires head < c && n + f + g <= c && t == Wrap(head + n, c) && t + f == c
    requires isz * t + isz * f <= |d| && isz * f + isz * g <= |s| && isz * g <= |d|
    requires Pasted(d1, d, isz * t, s, isz * 0, isz * f)
    requires Pasted(r, d1, isz * 0, s, isz * f, isz * g)
    ensures Unroll(r, isz, c, head, n + (f + g)) == Unroll(d, isz, c, head, n) + Slots(s, isz, f + g)
  {
    var got, want := Unroll(r, isz, c, head, n + (f + g)), Unroll(d, isz, c, head, n) + Slots(s, isz, f + g);
    forall i: nat | i < |want| ensures got[i] == want[i] {
      var p := Wrap(head + i, c);
      if i < n {
        PastedSlotOut(d1, d, isz, t, s, 0, f, p);
        PastedSlotOut(r, d1, isz, 0, s, f, g, p);
      } else if i < n + f {
        SplitFirst(r, d1, d, isz, t, s, f, g, i - n);
        assert p == t + (i - n);
      } else {
        PastedLow(r, d1, isz, s, f, g, p);
        assert f + p == i - n;
      }
    }
  }

  /** Item i of the first piece, which the second piece does not touch. */
  lemma SplitFirst(r: seq<byte>, d1: seq<byte>, d: seq<byte>, isz: nat, t: nat, s: seq<byte>, f: nat, g: nat, i: nat)
    requires g <= t && i < f
    requires isz * t + isz * f <= |d| && isz * f + isz * g <= |s| && isz * g <= |d|
    requires Pasted(d1, d, isz * t, s, isz * 0, isz * f)
    requires Pasted(r, d1, isz * 0, s, isz * f, isz * g)
    ensures Slot(r, isz, t + i) == Slot(s, isz, i)
  {
    PastedFirst(d1, d, isz, t, s, f, i);
    PastedSlotOut(r, d1, isz, 0, s, f, g, t + i);
  }

  /** Item i of a copy to the beginning of the destination. */
  lemma PastedLow(r: seq<byte>, d: seq<byte>, isz: nat, s: seq<byte>, a: nat, k: nat, i: nat)
    requires isz * k <= |d| && isz * a + isz * k <= |s| && i < k
    requires Pasted(r, d, isz * 0, s, isz * a, isz * k)
    ensures Slot(r, isz, i) == Slot(s, isz, a + i)
  {
    PastedSlotIn(r, d, isz, 0, s, a, k, i);
    assert 0 + i == i;
  }

  /** Item i of a copy taken from the beginning of the source. */
  lemma PastedFirst(r: seq<byte>, d: seq<byte>, isz: nat, t: nat, s: seq<byte>, k: nat, i: nat)
    requires isz * t + isz * k <= |d| && isz * k <= |s| && i < k
    requires Pasted(r, d, isz * t, s, isz * 0, isz * k)
    ensures Slot(r, isz, t + i) == Slot(s, isz, i)
  {
    PastedSlotIn(r, d, isz, t, s, 0, k, i);
    assert 0 + i == i;
  }

  /** A read that does not pass the end copies the first items out. */
  lemma TakeLinear(r: seq<byte>, o: seq<byte>, d: seq<byte>, isz: nat, c: nat, head: nat, n: nat, k: nat)
    requires head < c && k <= n && head + k <= c
    requires isz * head + isz * k <= |d| && isz * k <= |o|
    requires Pasted(r, o, isz * 0, d, isz * head, isz * k)
    ensures Slots(r, isz, k) == Unroll(d, isz, c, head, n)[..k]
  {
    forall i: nat | i < k ensures Slot(r, isz, i) == Slot(d, isz, Wrap(head + i, c)) {
      PastedSlotIn(r, o, isz, 0, d, head, k, i);
      assert 0 + i == i;
    }
  }

  /** A read that passes the end copies two pieces, in order. */
  lemma TakeSplit(r: seq<byte>, o1: seq<byte>, o: seq<byte>, d: seq<byte>, isz: nat, c: nat, head: nat, n: nat,
                  f: nat, g: nat)
    requires head < c && f + g <= n <= c && head + f == c
    requires isz * head + isz * f <= |d| && isz * f + isz * g <= |o| && isz * g <= |d|
    requires Pasted(o1, o, isz * 0, d, isz * head, isz * f)
    requires Pasted(r, o1, isz * f, d, isz * 0, isz * g)
    ensures Slots(r, isz, f + g) == Unroll(d, isz, c, head, n)[..f + g]
  {
    forall i: nat | i < f + g ensures Slot(r, isz, i) == Slot(d, isz, Wrap(head + i, c)) {
      JoinSlot(r, o1, o, d, isz, head, f, g, i);
      assert Wrap(head + i, c) == if i < f then head + i else i - f;
    }
  }

  /** Slot i of a destination filled in two pieces: f items from slot head, then g items from slot 0. */
  lemma JoinSlot(r: seq<byte>, o1: seq<byte>, o: seq<byte>, d: seq<byte>, isz: nat, head: nat, f: nat, g: nat, i: nat)
    requires i < f + g
    requires isz * head + isz * f <= |d| && isz * f + isz * g <= |o| && isz * g <= |d|
    requires Pasted(o1, o, isz * 0, d, isz * head, isz * f)
    requires Pasted(r, o1, isz * f, d, isz * 0, isz * g)
    ensures Slot(r, isz, i) == Slot(d, isz, if i < f then head + i else i - f)
  {
    if i < f {
      PastedSlotIn(o1, o, isz, 0, d, head, f, i);
      PastedSlotOut(r, o1, isz, f, d, 0, g, i);
      assert 0 + i == i;
    } else {
      PastedSlotIn(r, o1, isz, f, d, 0, g, i - f);
      assert f + (i - f) == i && 0 + (i - f) == i - f;
    }
  }

  /** Moving the head over k items drops them. */
  lemma DropUnrolls(d: seq<byte>, isz: nat, c: nat, head: nat, n: nat, k: nat)
    requires head < c && k <= n <= c
    ensures Unroll(d, isz, c, Wrap(head + k, c), n - k) == Unroll(d, isz, c, head, n)[k..]
  {
    var got, want := Unroll(d, isz, c, Wrap(head + k, c), n - k), Unroll(d, isz, c, head, n)[k..];
    forall i: nat | i < n - k ensures got[i] == want[i] {
      assert Wrap(Wrap(head + k, c) + i, c) == Wrap(head + (k + i), c);
    }
  }

  class Tsqueue {
    var data: array<byte>
    var size: nat
    var capacity: nat
    const itemSize: nat
    var tail: nat
    var head: nat

    ghost predicate Valid()
      reads this
    {
      && itemSize > 0
      && IsPow2(capacity) && 0 < capacity <= LIMIT / 2
      && data.Length == itemSize * capacity < LIMIT
      && head < capacity && size <= capacity
      && tail == Wrap(head + size, capacity)
    }

    /** The abstract queue: slot (head + i) mod capacity holds item i. */
    ghost function View(): Ring<seq<byte>>
      reads this, data
    {
      Ring(capacity, head, Unroll(data[..], itemSize, capacity, head, size))
    }

    constructor (itemSize: nat, wanted: nat)
      requires itemSize > 0 && wanted <= LIMIT / 2
      requires itemSize * Fit(1, wanted) < LIMIT
      ensures Valid() && fresh(data) && this.itemSize == itemSize
      ensures View() == Empty(wanted)
    {
      var rightCapacity := 1;
      Pow2One();
      while rightCapacity < wanted
        invariant IsPow2(rightCapacity) && 0 < rightCapacity <= LIMIT / 2
        invariant Fit(rightCapacity, wanted) == Fit(1, wanted)
        decreases LIMIT - rightCapacity
      {
        TwiceExact(rightCapacity);
        rightCapacity := Twice(rightCapacity);
      }
      var initSize := Max(itemSize * rightCapacity, 1);
      assert initSize == itemSize * rightCapacity by { MulMono(itemSize, 1, rightCapacity); }
      data := new byte[initSize];
      size, capacity, tail, head := 0, rightCapacity, 0, 0;
      this.itemSize := itemSize;
    }

    /** The reallocate of asock_tsqueue.c: only the block changes, and the old one, all its slots, is
        copied. */
    method Reallocate(newCapacity: nat) returns (ghost moved: nat)
      requires data.Length == itemSize * capacity
      requires newCapacity > capacity && itemSize * newCapacity < LIMIT
      modifies this`data
      ensures fresh(data) && data.Length == itemSize * newCapacity
      ensures itemSize * moved == old(data.Length) && moved == capacity
      ensures data.Length >= old(data.Length) && forall i :: 0 <= i < old(data.Length) ==> data[i] == old(data[i])
    {
      MulMono(itemSize, capacity, newCapacity);
      data := Realloc(data, itemSize * newCapacity);
      moved := capacity;
    }

    /** The doubling loop of enqueue. */
    method WiderCapacity(target: nat) returns (newCapacity: nat)
      requires Valid() && capacity < target <= LIMIT / 2
      ensures newCapacity == Fit(2 * capacity, target)
      ensures IsPow2(newCapacity) && 2 * capacity <= newCapacity <= LIMIT / 2
    {
      TwiceExact(capacity);
      newCapacity := Twice(capacity);
      while newCapacity < target
        invariant IsPow2(newCapacity) && 2 * capacity <= newCapacity <= LIMIT / 2
        invariant Fit(newCapacity, target) == Fit(2 * capacity, target)
        decreases LIMIT - newCapacity
      {
        TwiceExact(newCapacity);
        newCapacity := Twice(newCapacity);
      }
    }

    /** The growth branch of enqueue: pick a capacity, reallocate, move the wrapped prefix behind
        the old block. The items stay what they were; `moved` counts the items copied. */
    method GrowFor(itemCount: nat) returns (ghost moved: nat)
      requires Valid() && size + itemCount > capacity && size + itemCount <= LIMIT / 2
      requires itemSize * Fit(2 * capacity, size + itemCount) < LIMIT
      modifies this`data, this`tail, this`capacity
      ensures Valid() && fresh(data) && capacity == old(Fit(2 * capacity, size + itemCount))
      ensures View().items == old(View().items)
      ensures moved == old(View().MoveCost(itemCount))
    {
      ghost var d0 := data[..];
      var newCapacity := WiderCapacity(size + itemCount);
      moved := Reallocate(newCapacity);
      ghost var d1 := data[..];
      MulMono(itemSize, capacity, newCapacity);
      ghost var relocated := 0;
      if tail <= head && size > 0 {
        RelocationFits(newCapacity);
        Memcpy(data, itemSize * capacity, data, 0, itemSize * tail);
        relocated := tail;
        tail := capacity + tail;
      }
      moved := moved + relocated;
      GrownUnrolls(d0, d1, data[..], itemSize, capacity, newCapacity, head, size, relocated);
      capacity := newCapacity;
    }

    /** The relocated prefix fits behind the old block, without overlap. */
    lemma RelocationFits(newCapacity: nat)
      requires tail <= capacity && 2 * capacity <= newCapacity
      ensures itemSize * capacity + itemSize * tail <= itemSize * newCapacity
      ensures itemSize * tail <= itemSize * capacity
    {
      MulAdd(itemSize, capacity, tail);
      MulMono(itemSize, capacity + tail, newCapacity);
      MulMono(itemSize, tail, capacity);
    }

    /** The byte ranges of a split in two: k items at slot p, the rest at slot 0. */
    lemma PartsFit(p: nat, k: nat, rest: nat)
      requires p + k <= capacity && rest <= capacity
      ensures itemSize * p + itemSize * k <= itemSize * capacity
      ensures itemSize * k + itemSize * rest == itemSize * (k + rest)
      ensures itemSize * rest <= itemSize * capacity
    {
      MulAdd(itemSize, p, k);
      MulMono(itemSize, p + k, capacity);
      MulAdd(itemSize, k, rest);
      MulMono(itemSize, rest, capacity);
    }

    method Enqueue(src: array<byte>, itemCount: nat)
      requires Valid() && src != data && src.Length >= itemSize * itemCount
      requires size + itemCount <= LIMIT / 2
      requires size + itemCount > capacity ==> itemSize * Fit(2 * capacity, size + itemCount) < LIMIT
      modifies this, data
      ensures Valid() && (data == old(data) || fresh(data))
      ensures View() == old(View().Enqueue(Slots(src[..], itemSize, itemCount)))
    {
      if size + itemCount > capacity {
        ghost var moved := GrowFor(itemCount);
      }
      AppendItems(src, itemCount);
    }

    /** The copies and pointer updates of enqueue, once there is room. */
    method AppendItems(src: array<byte>, itemCount: nat)
      requires Valid() && src != data && src.Length >= itemSize * itemCount
      requires size + itemCount <= capacity
      modifies this`tail, this`size, data
      ensures Valid()
      ensures View().items == old(View().items) + old(Slots(src[..], itemSize, itemCount))
    {
      var frontSpace := capacity - tail;
      if itemCount <= frontSpace {
        CopyInLinear(src, itemCount);
        tail := tail + itemCount;
      } else {
        var secondBatch := itemCount - frontSpace;
        CopyInSplit(src, frontSpace, secondBatch);
        tail := secondBatch;
      }
      if tail == capacity {
        tail := 0;
      }
      size := size + itemCount;
    }

    /** The copy of the linear branch of enqueue. */
    method CopyInLinear(src: array<byte>, n: nat)
      requires Valid() && size + n <= capacity && tail + n <= capacity
      requires src != data && src.Length >= itemSize * n
      modifies data
      ensures Unroll(data[..], itemSize, capacity, head, size + n)
           == old(View().items) + old(Slots(src[..], itemSize, n))
    {
      ghost var d, s := data[..], src[..];
      PartsFit(tail, n, 0);
      Memcpy(data, itemSize * tail, src, 0, itemSize * n);
      AppendLinear(data[..], d, itemSize, capacity, head, size, tail, s, n);
    }

    /** The copies of the split branch of enqueue. */
    method CopyInSplit(src: array<byte>, first: nat, second: nat)
      requires Valid() && size + first + second <= capacity && tail + first == capacity
      requires src != data && src.Length >= itemSize * (first + second)
      modifies data
      ensures Unroll(data[..], itemSize, capacity, head, size + (first + second))
           == old(View().items) + old(Slots(src[..], itemSize, first + second))
    {
      ghost var d, s := data[..], src[..];
      PartsFit(tail, first, second);
      Memcpy(data, itemSize * tail, src, 0, itemSize * first);
      ghost var d1 := data[..];
      Memcpy(data, 0, src, itemSize * first, itemSize * second);
      AppendSplit(data[..], d1, d, itemSize, capacity, head, size, tail, s, first, second);
    }

    /** dst == null pops the items without copying them. */
    method Dequeue(dst: array?<byte>, dstCapacity: nat) returns (copied: nat)
      requires Valid()
      requires dst != null ==> dst != data && dst.Length >= itemSize * dstCapacity
      modifies this`head, this`size, dst
      ensures Valid() && data == old(data)
      ensures View() == old(View().Dequeue(dstCapacity))
      ensures copied == if dstCapacity <= old(size) then dstCapacity else old(size)
      ensures View().items == old(View().items)[copied..]
      ensures dst != null ==> Slots(dst[..], itemSize, copied) == old(View().items)[..copied]
      ensures dst != null ==> Slots(dst[..], itemSize, copied) == old(View().Taken(dstCapacity))
      ensures dst != null ==> forall j :: itemSize * copied <= j < dst.Length ==> dst[j] == old(dst[j])
    {
      copied := Min(dstCapacity, size);
      if dst == null {
        Advance(copied);
      } else {
        CopyOut(dst, copied, dstCapacity);
        ghost var out := dst[..];
        Advance(copied);
        assert dst[..] == out;
      }
    }

    method CopyOut(dst: array<byte>, n: nat, dstCapacity: nat)
      requires Valid() && n <= size && n <= dstCapacity
      requires dst != data && dst.Length >= itemSize * dstCapacity
      modifies dst
      ensures Slots(dst[..], itemSize, n) == View().items[..n]
      ensures forall j :: itemSize * n <= j < dst.Length ==> dst[j] == old(dst[j])
      ensures data[..] == old(data[..])
    {
      if capacity >= head + n {
        CopyOutLinear(dst, n, dstCapacity);
      } else {
        CopyOutSplit(dst, capacity - head, n - (capacity - head), dstCapacity);
      }
    }

    /** The pointer updates of dequeue. */
    method Advance(n: nat)
      requires Valid() && n <= size
      modifies this`head, this`size
      ensures Valid() && View() == old(View().Dequeue(n))
    {
      DropUnrolls(data[..], itemSize, capacity, head, size, n);
      if capacity >= head + n {
        head := head + n;
      } else {
        head := n - (capacity - head);
      }
      if head == capacity {
        head := 0;
      }
      size := size - n;
    }

    /** The copy of the linear branch of dequeue. */
    method CopyOutLinear(dst: array<byte>, n: nat, dstCapacity: nat)
      requires Valid() && n <= size && n <= dstCapacity && head + n <= capacity
      requires dst != data && dst.Length >= itemSize * dstCapacity
      modifies dst
      ensures Slots(dst[..], itemSize, n) == View().items[..n]
      ensures forall j :: itemSize * n <= j < dst.Length ==> dst[j] == old(dst[j])
    {
      ghost var o, d := dst[..], data[..];
      PartsFit(head, n, 0);
      MulMono(itemSize, n, dstCapacity);
      Memcpy(dst, 0, data, itemSize * head, itemSize * n);
      TakeLinear(dst[..], o, d, itemSize, capacity, head, size, n);
      forall j | itemSize * n <= j < dst.Length ensures dst[j] == o[j] { assert dst[..][j] == o[j]; }
    }

    /** The copies of the split branch of dequeue. */
    method CopyOutSplit(dst: array<byte>, first: nat, second: nat, dstCapacity: nat)
      requires Valid() && first + second <= size && first + second <= dstCapacity && head + first == capacity
      requires dst != data && dst.Length >= itemSize * dstCapacity
      modifies dst
      ensures Slots(dst[..], itemSize, first + second) == View().items[..first + second]
      ensures forall j :: itemSize * (first + second) <= j < dst.Length ==> dst[j] == old(dst[j])
    {
      ghost var o, d := dst[..], data[..];
      PartsFit(head, first, second);
      MulMono(itemSize, first + second, dstCapacity);
      Memcpy(dst, 0, data, itemSize * head, itemSize * first);
      ghost var o1 := dst[..];
      Memcpy(dst, itemSize * first, data, 0, itemSize * second);
      TakeSplit(dst[..], o1, o, d, itemSize, capacity, head, size, first, second);
      forall j | itemSize * (first + second) <= j < dst.Length ensures dst[j] == o[j] {
        assert dst[..][j] == o1[j] && o1[j] == o[j];
      }
    }

    method Clear()
      requires Valid()
      modifies this`size, this`tail, this`head
      ensures Valid() && View() == old(View().Clear())
    {
      size := 0;
      tail := 0;
      head := 0;
    }

    method HeadSize() returns (n: nat)
      requires Valid()
      ensures n == View().Window()
    {
      n := Min(size, capacity - head);
    }

    /** Offset of the head item in the buffer, or none. */
    method Head() returns (none: bool, offset: nat)
      requires Valid()
      ensures none <==> View().items == []
      ensures offset == itemSize * head
    {
      none := size == 0;
      offset := itemSize * head;
    }

    /** What a caller of Head and HeadSize sees: counted from the head pointer, the i-th item of the
        window is in bounds and is the i-th item of the queue. */
    lemma WindowIsPrefix(i: nat)
      requires Valid() && i < View().Window()
      ensures Slot(data[..], itemSize, head + i) == View().items[i]
      ensures itemSize * (head + i) == itemSize * head + itemSize * i
      ensures itemSize * (head + i + 1) <= data.Length
    {
      MulAdd(itemSize, head, i);
      MulMono(itemSize, head + i + 1, capacity);
    }

    /** for_each hands the callback exactly the abstract items, in order, with their index. */
    method ForEach() returns (visited: seq<seq<byte>>)
      requires Valid()
      ensures visited == View().items
    {
      visited := [];
      var sz := size;
      var i := 0;
      while i < sz
        invariant i <= sz && visited == View().items[..i]
      {
        WrapIsMod(head + i, capacity);
        var pos := (head + i) % capacity;
        var item := ItemAt(pos);
        visited := visited + [item];
        i := i + 1;
      }
    }

    method ItemAt(pos: nat) returns (item: seq<byte>)
      requires Valid() && pos < capacity
      ensures item == Slot(data[..], itemSize, pos)
    {
      MulAdd(itemSize, pos, 1);
      MulMono(itemSize, pos + 1, capacity);
      var offset := pos * itemSize;
      item := data[offset..offset + itemSize];
    }
  }
}
