/** Raw memory: byte buffers, the C copy routines with the preconditions C gives them, and the
    reading of a buffer as slots of m_item_size bytes each. */
module Bytes {
  newtype byte = x: int | 0 <= x < 256

  /** The p-th slot of a buffer; out of range it reads as no bytes. */
  function Slot(d: seq<byte>, isz: nat, p: nat): seq<byte> {
    if isz * (p + 1) <= |d| then d[isz * p..isz * (p + 1)] else []
  }

  /** The first n slots of a buffer. */
  function Slots(d: seq<byte>, isz: nat, n: nat): (r: seq<seq<byte>>)
    ensures |r| == n
  {
    seq(n, i requires 0 <= i < n => Slot(d, isz, i))
  }

  /** r is d with len bytes from offset `off` on replaced by those of s from `soff` on. */
  ghost predicate Pasted(r: seq<byte>, d: seq<byte>, off: nat, s: seq<byte>, soff: nat, len: nat)
    requires off + len <= |d| && soff + len <= |s|
  {
    && |r| == |d|
    && forall j :: 0 <= j < |r| ==> r[j] == if off <= j < off + len then s[soff + (j - off)] else d[j]
  }

  /** memcpy: both ranges in bounds and, within one buffer, disjoint. */
  method Memcpy(dst: array<byte>, doff: nat, src: array<byte>, soff: nat, len: nat)
    requires doff + len <= dst.Length && soff + len <= src.Length
    requires dst != src || doff + len <= soff || soff + len <= doff
    modifies dst
    ensures Pasted(dst[..], old(dst[..]), doff, old(src[..]), soff, len)
  {
    var i := 0;
    while i < len
      invariant 0 <= i <= len
      invariant forall j :: doff <= j < doff + i ==> dst[j] == old(src[soff + (j - doff)])
      invariant forall k :: 0 <= k < dst.Length && !(doff <= k < doff + i) ==> dst[k] == old(dst[k])
    {
      dst[doff + i] := src[soff + i];
      i := i + 1;
    }
  }

  /** memmove: the ranges may overlap. */
  method Memmove(dst: array<byte>, doff: nat, soff: nat, len: nat)
    requires doff + len <= dst.Length && soff + len <= dst.Length
    modifies dst
    ensures Pasted(dst[..], old(dst[..]), doff, old(dst[..]), soff, len)
  {
    forall j | doff <= j < doff + len {
      dst[j] := dst[soff + (j - doff)];
    }
  }

  /** realloc to a larger block: the old bytes, then unspecified ones. */
  method Realloc(a: array<byte>, newLength: nat) returns (b: array<byte>)
    requires newLength >= a.Length
    ensures fresh(b) && b.Length == newLength && forall i :: 0 <= i < a.Length ==> b[i] == a[i]
  {
    b := new byte[newLength];
    forall i | 0 <= i < a.Length { b[i] := a[i]; }
  }

  lemma MulMono(isz: nat, p: nat, q: nat)
    requires p <= q
    ensures isz * p <= isz * q
  {
  }

  lemma MulAdd(isz: nat, p: nat, q: nat)
    ensures isz * (p + q) == isz * p + isz * q
  {
  }

  /** Ranges with the same bytes are the same. The ends are parameters of their own so that callers
      can name them as slot offsets. */
  lemma SameBytes(r: seq<byte>, x: nat, x': nat, s: seq<byte>, y: nat, y': nat)
    requires x <= x' <= |r| && y <= y' <= |s| && x' - x == y' - y
    requires forall j :: x <= j < x' ==> r[j] == s[y + (j - x)]
    ensures r[x..x'] == s[y..y']
  {
    forall i | 0 <= i < x' - x ensures r[x..x'][i] == s[y..y'][i] {
      assert r[x + i] == s[y + ((x + i) - x)];
    }
  }

  lemma PastedInside(r: seq<byte>, d: seq<byte>, off: nat, s: seq<byte>, soff: nat, len: nat,
                     x: nat, x': nat, y: nat, y': nat)
    requires off + len <= |d| && soff + len <= |s| && Pasted(r, d, off, s, soff, len)
    requires off <= x <= x' <= off + len && y - soff == x - off && y' - y == x' - x
    ensures r[x..x'] == s[y..y']
  {
    SameBytes(r, x, x', s, y, y');
  }

  lemma PastedOutside(r: seq<byte>, d: seq<byte>, off: nat, s: seq<byte>, soff: nat, len: nat, x: nat, x': nat)
    requires off + len <= |d| && soff + len <= |s| && Pasted(r, d, off, s, soff, len)
    requires x <= x' <= |d| && (x' <= off || off + len <= x)
    ensures r[x..x'] == d[x..x']
  {
    SameBytes(r, x, x', d, x, x');
  }

  /** Copying k whole items from slot a to slot b replaces the slots b..b+k, in order. */
  lemma PastedSlotIn(r: seq<byte>, d: seq<byte>, isz: nat, b: nat, s: seq<byte>, a: nat, k: nat, o: nat)
    requires isz * b + isz * k <= |d| && isz * a + isz * k <= |s|
    requires Pasted(r, d, isz * b, s, isz * a, isz * k) && o < k
    ensures Slot(r, isz, b + o) == Slot(s, isz, a + o)
  {
    MulAdd(isz, b, o); MulAdd(isz, a, o);
    MulAdd(isz, o, 1); MulAdd(isz, b + o, 1); MulAdd(isz, a + o, 1);
    MulMono(isz, o + 1, k);
    PastedInside(r, d, isz * b, s, isz * a, isz * k,
                 isz * (b + o), isz * (b + o + 1), isz * (a + o), isz * (a + o + 1));
  }

  /** ... and leaves every other slot alone. */
  lemma PastedSlotOut(r: seq<byte>, d: seq<byte>, isz: nat, b: nat, s: seq<byte>, a: nat, k: nat, p: nat)
    requires isz * b + isz * k <= |d| && isz * a + isz * k <= |s|
    requires Pasted(r, d, isz * b, s, isz * a, isz * k) && !(b <= p < b + k)
    ensures Slot(r, isz, p) == Slot(d, isz, p)
  {
    MulAdd(isz, p, 1);
    if isz * (p + 1) <= |d| {
      if p < b { MulMono(isz, p + 1, b); } else { MulMono(isz, b + k, p); MulAdd(isz, b, k); }
      PastedOutside(r, d, isz * b, s, isz * a, isz * k, isz * p, isz * (p + 1));
    }
  }

  /** A longer block with the same beginning has the same slots there. */
  lemma PrefixSlot(d: seq<byte>, e: seq<byte>, isz: nat, p: nat)
    requires |d| <= |e| && (forall j :: 0 <= j < |d| ==> e[j] == d[j]) && isz * (p + 1) <= |d|
    ensures Slot(e, isz, p) == Slot(d, isz, p)
  {
    MulAdd(isz, p, 1);
    SameBytes(e, isz * p, isz * (p + 1), d, isz * p, isz * (p + 1));
  }
}
