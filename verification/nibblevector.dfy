/**
 * A fixed-length vector of 4-bit values 0..15, two to a byte: index `k`
 * is the high half of byte `k / 2` when `k` is even and the low half when
 * it is odd. Negative keys count from the end. The vector is its own
 * iterator, with the cursor kept in a field of the object.
 */
module NibbleVectors {
  import opened Wrappers

  /** The ValueError messages the class raises. */
  datatype ValueError =
    | IndexOutOfRange(len: int) // "Index out of range (len=...)"
    | NibbleOutOfRange          // "nibble must be in range(0, 16)"

  /** Half `nibPos` of byte `b`: 0 is bits 7-4, 1 is bits 3-0. */
  function Nibble(b: bv8, nibPos: nat): (r: bv8)
    requires nibPos < 2
  {
    if nibPos == 0 then b / 16 else b % 16
  }

  /** The read of `__getitem__`: mask the half, then shift it down. */
  function LoadNibble(b: bv8, nibPos: nat): (r: bv8)
    requires nibPos < 2
    ensures r < 16
    ensures r == Nibble(b, nibPos)
  {
    var mask: bv8 := 15 << (4 * (1 - nibPos));
    (b & mask) >> (4 * (1 - nibPos))
  }

  /**
   * The byte `__setitem__` writes: the sibling half, kept by the mask
   * `15 << 4 * nibPos`, plus the value shifted into place. The sum is taken
   * in 16 bits, where it cannot wrap, and fits a byte.
   */
  function StoreNibble(b: bv8, nibPos: nat, value: bv8): (r: bv8)
    requires nibPos < 2 && value < 16
    ensures Nibble(r, nibPos) == value
    ensures Nibble(r, 1 - nibPos) == Nibble(b, 1 - nibPos)
  {
    var mask: bv8 := 15 << (4 * nibPos);
    var masked := (b & mask) as bv16;
    var result := masked + ((value as bv16) << (4 * (1 - nibPos)));
    result as bv8
  }

  /** A value 0..15 survives the trip into a byte and back. Stating it apart keeps `NibbleVector.Set` within its resource limit on every seed. */
  lemma NibbleRoundTrip(n: int)
    requires 0 <= n < 16
    ensures (n as bv8) as int == n
  {
  }

  /** The values held by the first `size` nibbles of `buf`. */
  function NibblesOf(buf: seq<bv8>, size: nat): (s: seq<int>)
    requires |buf| == (size + 1) / 2
    ensures |s| == size
  {
    seq(size, i requires 0 <= i < size => Nibble(buf[i / 2], i % 2) as int)
  }

  /** The position a key in [-size, size) stands for. */
  function Normalize(key: int, size: nat): (k: int) {
    if key < 0 then size + key else key
  }

  class NibbleVector {
    const size: nat
    /** Two values per byte, `(size + 1) / 2` bytes. */
    const ba: array<bv8>
    /** The iteration cursor; nothing resets it. */
    var index: int

    ghost predicate Valid()
      reads this
    {
      ba.Length == (size + 1) / 2 && 0 <= index <= size
    }

    /** The values of the vector, by index. */
    ghost function Contents(): (s: seq<int>)
      reads this, ba
      requires Valid()
      ensures |s| == size
    {
      NibblesOf(ba[..], size)
    }

    /** A vector of `size` zeros in `(size + 1) / 2` zero bytes, its cursor at 0. */
    constructor (size: nat := 255)
      ensures Valid() && fresh(ba)
      ensures this.size == size && ba.Length == (size + 1) / 2 && index == 0
      ensures forall j :: 0 <= j < ba.Length ==> ba[j] == 0
      ensures Contents() == seq(size, _ => 0)
      ensures forall k :: -(size as int) <= k < size ==> Get(k) == Ok(0)
    {
      this.size := size;
      ba := new bv8[(size + 1) / 2](_ => 0);
      index := 0;
    }

    /** `len`: the number of values, not of bytes. */
    function Length(): (n: int)
      reads this, ba
      requires Valid()
      ensures n == |Contents()|
    {
      size
    }

    /** The value at `key`; a negative key counts from the end; raises outside [-size, size). */
    function Get(key: int): (r: Result<int, ValueError>)
      reads this, ba
      requires Valid()
      ensures r.Err? <==> key >= size || key < -(size as int)
      ensures r.Err? ==> r.error == IndexOutOfRange(size)
      ensures r.Ok? ==> 0 <= r.value < 16
      ensures r.Ok? ==> r.value == Contents()[Normalize(key, size)]
      decreases if key < 0 then 1 else 0
    {
      if key >= size || key < -(size as int) then Err(IndexOutOfRange(size))
      else if key < 0 then Get(size + key)
      else
        var v := LoadNibble(ba[key / 2], key % 2);
        Ok(v as int)
    }

    /** A negative key reads the same value as `size` plus that key. */
    lemma GetNegativeKey(key: int)
      requires Valid() && -(size as int) <= key < 0
      ensures Get(key) == Get(size + key)
    {
    }

    /**
     * Stores `value` at `key`. The key is checked before the value; either
     * failure raises and leaves the buffer as it was. Otherwise only the
     * target half of its byte changes.
     */
    method Set(key: int, value: int) returns (r: Outcome<ValueError>)
      requires Valid()
      modifies ba
      ensures Valid()
      ensures r == if key >= size || key < -(size as int) then Fail(IndexOutOfRange(size))
                   else if value < 0 || value >= 16 then Fail(NibbleOutOfRange)
                   else Pass
      ensures r.Fail? ==> ba[..] == old(ba[..])
      ensures r.Pass? ==> Contents() == old(Contents())[Normalize(key, size) := value]
      ensures r.Pass? ==> Get(key) == Ok(value)
      ensures r.Pass? ==> forall j :: 0 <= j < ba.Length && j != Normalize(key, size) / 2 ==> ba[j] == old(ba[j])
      ensures r.Pass? ==> var k := Normalize(key, size);
                          Nibble(ba[k / 2], 1 - k % 2) == Nibble(old(ba[k / 2]), 1 - k % 2)
      decreases if key < 0 then 1 else 0
    {
      if key >= size || key < -(size as int) {
        return Fail(IndexOutOfRange(size));
      }
      if value < 0 || value >= 16 {
        return Fail(NibbleOutOfRange);
      }
      if key < 0 {
        r := Set(size + key, value);
        return;
      }
      var bytePos := key / 2;
      var nibPos := key % 2;
      ba[bytePos] := StoreNibble(ba[bytePos], nibPos, value as bv8);
      NibbleRoundTrip(value);
      r := Pass;
      assert Contents() == old(Contents())[key := value] by {
        forall i | 0 <= i < size
          ensures Contents()[i] == old(Contents())[key := value][i]
        {
          if i / 2 != bytePos {
            assert ba[i / 2] == old(ba[i / 2]);
          }
        }
      }
    }

    /** `__iter__`: the vector itself is the iterator; the cursor is left where it is. */
    method Iter() returns (it: NibbleVector)
      ensures it == this
    {
      it := this;
    }

    /** `__iter__` with the cursor rewound, so that every traversal starts at index 0. */
    method IterFromStart() returns (it: NibbleVector)
      requires Valid()
      modifies this`index
      ensures Valid() && it == this && index == 0
    {
      index := 0;
      it := this;
    }

    /** `next`: the value at the cursor, advancing it, or `None` once the cursor reaches `size`. */
    method Next() returns (v: Option<int>)
      requires Valid()
      modifies this`index
      ensures Valid()
      ensures old(index) == size ==> v == None && index == old(index)
      ensures old(index) < size ==> v == Some(Contents()[old(index)]) && index == old(index) + 1
    {
      if index == size {
        return None;
      }
      var value := Get(index);
      index := index + 1;
      v := Some(value.value);
    }

    /** A `for` loop over the iterator: calls `Next` until it reports the end, collecting the values. */
    method Traverse() returns (values: seq<int>)
      requires Valid()
      modifies this`index
      ensures Valid() && index == size
      ensures values == Contents()[old(index)..]
    {
      values := [];
      var v := Next();
      while v.Some?
        invariant Valid() && old(index) <= index <= size
        invariant v.Some? ==> old(index) < index && values + [v.value] == Contents()[old(index)..index]
        invariant v.None? ==> index == size && values == Contents()[old(index)..index]
        decreases size - index + (if v.Some? then 1 else 0)
      {
        values := values + [v.value];
        v := Next();
      }
    }
  }

  // ---------------------------------------------------------------------
  // The documented examples

  /** NibbleVector(5) has 3 bytes and length 5. */
  method ConstructorExample() returns (bytes: int, length: int)
    ensures bytes == 3 && length == 5
  {
    var nv := new NibbleVector(5);
    bytes := nv.ba.Length;
    length := nv.Length();
  }

  /** NibbleVector(5): index 3 reads 0; after writing 12 at 4, key -1 reads 12; key 5 raises. */
  method GetItemExample() returns (at3: Result<int, ValueError>, atMinus1: Result<int, ValueError>,
                                   at5: Result<int, ValueError>)
    ensures at3 == Ok(0) && atMinus1 == Ok(12) && at5 == Err(IndexOutOfRange(5))
  {
    var nv := new NibbleVector(5);
    at3 := nv.Get(3);
    var r := nv.Set(4, 12);
    atMinus1 := nv.Get(-1);
    at5 := nv.Get(5);
  }

  /** NibbleVector(5): 10 at 2 and 14 at 3 share a byte and both read back; 17 and key 6 raise. */
  method SetItemExample() returns (at2: Result<int, ValueError>, at3: Result<int, ValueError>,
                                   badValue: Outcome<ValueError>, badKey: Outcome<ValueError>)
    ensures at2 == Ok(10) && at3 == Ok(14)
    ensures badValue == Fail(NibbleOutOfRange) && badKey == Fail(IndexOutOfRange(5))
  {
    var nv := new NibbleVector(5);
    var r := nv.Set(2, 10);
    r := nv.Set(3, 14);
    at2 := nv.Get(2);
    at3 := nv.Get(3);
    badValue := nv.Set(3, 17);
    badKey := nv.Set(6, 4);
  }

  /** A NibbleVector(5) holding 1, 2, 3, 4, 5. */
  method FilledExample() returns (nv: NibbleVector)
    ensures fresh(nv) && fresh(nv.ba) && nv.Valid() && nv.index == 0
    ensures nv.Contents() == [1, 2, 3, 4, 5]
  {
    nv := new NibbleVector(5);
    for i := 0 to 5
      invariant nv.Valid() && nv.index == 0
      invariant forall j :: 0 <= j < i ==> nv.Contents()[j] == j + 1
    {
      var r := nv.Set(i, i + 1);
    }
  }

  /** Iterating the filled vector twice as the class does: the second loop yields nothing. */
  method IterateTwiceAsWritten() returns (first: seq<int>, second: seq<int>)
    ensures first == [1, 2, 3, 4, 5]
    ensures second == []
  {
    var nv := FilledExample();
    var it := nv.Iter();
    first := it.Traverse();
    it := nv.Iter();
    second := it.Traverse();
  }

  /** Iterating twice with the cursor rewound by `IterFromStart`: both loops yield 1..5. */
  method IterateTwiceRestarting() returns (first: seq<int>, second: seq<int>)
    ensures first == [1, 2, 3, 4, 5]
    ensures second == [1, 2, 3, 4, 5]
  {
    var nv := FilledExample();
    var it := nv.IterFromStart();
    first := it.Traverse();
    it := nv.IterFromStart();
    second := it.Traverse();
  }
}
