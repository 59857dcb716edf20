/** asock_vector.c: the growable array of fixed-size items behind every connection table. Its
    methods are proved against plain sequence operations, which EventLoop.dfy then uses. */
module Vectors {
  import opened SizeT
  import opened Bytes

  /** ASOCK_INVALID_VEC_INDEX: (size_t) -1. */
  const INVALID_INDEX: nat := LIMIT - 1

  /** memmove of the k items behind slot index closes the gap there. */
  lemma GapClosed(r: seq<byte>, d: seq<byte>, isz: nat, index: nat, k: nat)
    requires isz * (index + 1) + isz * k <= |d| && isz * index + isz * k <= |d|
    requires Pasted(r, d, isz * index, d, isz * (index + 1), isz * k)
    ensures Slots(r, isz, index + k) == Without(Slots(d, isz, index + 1 + k), index)
  {
    forall i: nat | i < index + k
      ensures Slot(r, isz, i) == Slot(d, isz, if i < index then i else i + 1)
    {
      GapSlot(r, d, isz, index, k, i);
    }
  }

  /** A sequence without its item at the given position. */
  function Without<T>(s: seq<T>, index: nat): seq<T>
    requires index < |s|
  {
    s[..index] + s[index + 1..]
  }

  lemma GapSlot(r: seq<byte>, d: seq<byte>, isz: nat, index: nat, k: nat, i: nat)
    requires isz * (index + 1) + isz * k <= |d| && isz * index + isz * k <= |d| && i < index + k
    requires Pasted(r, d, isz * index, d, isz * (index + 1), isz * k)
    ensures Slot(r, isz, i) == Slot(d, isz, if i < index then i else i + 1)
  {
    if i < index {
      PastedSlotOut(r, d, isz, index, d, index + 1, k, i);
    } else {
      var o := i - index;
      assert index + o == i && index + 1 + o == i + 1;
      PastedSlotIn(r, d, isz, index, d, index + 1, k, o);
    }
  }

  class Vector {
    var data: array<byte>
    var size: nat
    var capacity: nat
    const itemSize: nat

    ghost predicate Valid()
      reads this
    {
      && itemSize > 0
      && size <= capacity < INVALID_INDEX
      && itemSize * capacity <= data.Length < LIMIT
    }

    ghost function Items(): (r: seq<seq<byte>>)
      reads this, data
      ensures |r| == size
    {
      Slots(data[..], itemSize, size)
    }

    constructor (itemSize: nat, capacity: nat)
      requires itemSize > 0 && Max(itemSize * capacity, 1) < LIMIT && capacity < INVALID_INDEX
      ensures Valid() && fresh(data) && Items() == [] && this.itemSize == itemSize && this.capacity == capacity
    {
      data := new byte[Max(itemSize * capacity, 1)];
      size := 0;
      this.capacity := capacity;
      this.itemSize := itemSize;
    }

    /** A byte range of k items inside the first `capacity` slots. */
    lemma RangeFits(p: nat, k: nat)
      requires Valid() && p + k <= capacity
      ensures itemSize * p + itemSize * k == itemSize * (p + k) <= data.Length
    {
      MulAdd(itemSize, p, k);
      MulMono(itemSize, p + k, capacity);
    }

    /** There is room to double: the sizes fit, and the vector was not created empty-handed. */
    ghost predicate CanGrow()
      reads this
    {
      && 0 < capacity && 2 * capacity < INVALID_INDEX
      && data.Length == itemSize * capacity && itemSize * (2 * capacity) < LIMIT
    }

    /** Doubling a full vector. A vector created without room cannot grow: reallocate insists on a
        larger capacity. */
    method Grow()
      requires Valid() && CanGrow()
      modifies this`data, this`capacity
      ensures Valid() && fresh(data) && capacity == 2 * old(capacity) && data.Length == itemSize * capacity
      ensures Items() == old(Items())
    {
      ghost var was := data[..];
      MulMono(itemSize, capacity, capacity * 2);
      data := Realloc(data, capacity * 2 * itemSize);
      forall i: nat | i < size ensures Slot(data[..], itemSize, i) == Slot(was, itemSize, i) {
        MulMono(itemSize, i + 1, capacity);
        PrefixSlot(was, data[..], itemSize, i);
      }
      capacity := capacity * 2;
    }

    method Push(item: array<byte>)
      requires Valid() && item != data && item.Length == itemSize
      requires size < capacity || CanGrow()
      modifies this, data
      ensures Valid() && (data == old(data) || fresh(data))
      ensures Items() == old(Items()) + [old(item[..])]
    {
      if size == capacity {
        Grow();
      }
      Store(item);
      size := size + 1;
    }

    /** The copy of push. */
    method Store(item: array<byte>)
      requires Valid() && item != data && item.Length == itemSize && size < capacity
      modifies data
      ensures Slots(data[..], itemSize, size + 1) == old(Items()) + [item[..]]
    {
      ghost var d, s := data[..], item[..];
      RangeFits(size, 1);
      var deviation := size * itemSize;
      Memcpy(data, deviation, item, 0, itemSize);
      assert Pasted(data[..], d, itemSize * size, s, itemSize * 0, itemSize * 1);
      forall i: nat | i < size ensures Slot(data[..], itemSize, i) == Slot(d, itemSize, i) {
        PastedSlotOut(data[..], d, itemSize, size, s, 0, 1, i);
      }
      PastedSlotIn(data[..], d, itemSize, size, s, 0, 1, 0);
      assert Slot(s, itemSize, 0 + 0) == s;
    }

    /** Removes one item and keeps the order of the others; an index out of range is refused. */
    method Erase(index: nat) returns (ok: bool)
      requires Valid()
      modifies this`size, data
      ensures Valid() && ok == (index < old(size))
      ensures Items() == if ok then Without(old(Items()), index) else old(Items())
    {
      if size == 0 || index >= size {
        return false;
      }
      CloseGap(index);
      size := size - 1;
      ok := true;
    }

    /** The memmove of erase. */
    method CloseGap(index: nat)
      requires Valid() && index < size
      modifies data
      ensures Slots(data[..], itemSize, size - 1) == Without(old(Items()), index)
    {
      ghost var d := data[..];
      var k := size - 1 - index;
      RangeFits(index, k);
      RangeFits(index + 1, k);
      Memmove(data, itemSize * index, itemSize * (index + 1), itemSize * k);
      GapClosed(data[..], d, itemSize, index, k);
    }

    method Clear()
      requires Valid()
      modifies this`size
      ensures Valid() && Items() == []
    {
      size := 0;
    }

    /** A pointer to an item, as an offset, or none. */
    method At(index: nat) returns (none: bool, offset: nat)
      requires Valid()
      ensures none <==> index >= size
      ensures !none ==> offset + itemSize <= data.Length && data[offset..offset + itemSize] == Items()[index]
    {
      if index >= size {
        return true, 0;
      }
      RangeFits(index, 1);
      return false, index * itemSize;
    }

    /** The first item with the same bytes, or INVALID_INDEX. */
    method IndexOf(item: array<byte>) returns (index: nat)
      requires Valid() && item.Length == itemSize
      ensures index < size ==> Items()[index] == item[..] && item[..] !in Items()[..index]
      ensures index >= size ==> index == INVALID_INDEX && item[..] !in Items()
    {
      index := 0;
      while index < size
        invariant index <= size && item[..] !in Items()[..index]
      {
        var none, pos := At(index);
        if data[pos..pos + itemSize] == item[..] {
          return;
        }
        assert Items()[..index + 1] == Items()[..index] + [Items()[index]];
        index := index + 1;
      }
      index := INVALID_INDEX;
      assert Items()[..size] == Items();
    }
  }
}
