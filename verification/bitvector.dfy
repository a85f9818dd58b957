/**
 * A bitmap set over the integers [0, maxval): one bit per element, packed
 * most-significant bit first into a byte buffer, together with the two
 * helpers that show a byte as an 8-character binary string and read it back.
 */
module BitVectors {
  import opened Wrappers

  /** The ValueError messages the module raises. */
  datatype ValueError =
    | NotAByte                  // "n must be between 0 and 255 inclusive"
    | InvalidLiteral            // the string is not a base-2 literal
    | IndexOutOfRange(len: int) // "Index out of range (len=...)"

  // ---------------------------------------------------------------------
  // Binary strings

  /** Every character of `s` is a binary digit. */
  predicate IsBinary(s: string) {
    forall i :: 0 <= i < |s| ==> s[i] == '0' || s[i] == '1'
  }

  function Pow2(k: nat): (p: nat)
    ensures p >= 1
  {
    if k == 0 then 1 else 2 * Pow2(k - 1)
  }

  /** The digit character of a number's least significant bit. */
  function DigitChar(n: nat): (c: char) {
    if n % 2 == 1 then '1' else '0'
  }

  /** The low `width` bits of `n` as binary digits, most significant first, zero-padded. */
  function Digits(n: nat, width: nat): (s: string)
    ensures |s| == width && IsBinary(s)
  {
    if width == 0 then "" else Digits(n / 2, width - 1) + [DigitChar(n)]
  }

  /** The number that a string of binary digits denotes, most significant digit first. */
  function Value(s: string): (v: nat)
    requires IsBinary(s)
    ensures v < Pow2(|s|)
  {
    if s == [] then 0
    else Value(s[..|s| - 1]) * 2 + (if s[|s| - 1] == '1' then 1 else 0)
  }

  /** `int_to_binary_string`: an integer of 0..255 as its 8-digit binary expansion. */
  function IntToBinaryString(n: int): (r: Result<string, ValueError>)
    ensures r.Err? <==> n < 0 || n > 255
    ensures r.Err? ==> r.error == NotAByte
    ensures r.Ok? ==> |r.value| == 8 && IsBinary(r.value)
  {
    if n < 0 || n > 255 then Err(NotAByte) else Ok(Digits(n, 8))
  }

  /** `binary_string_to_int`: the number a non-empty string of binary digits denotes. */
  function BinaryStringToInt(b: string): (r: Result<nat, ValueError>)
    ensures r.Ok? <==> b != [] && IsBinary(b)
    ensures r.Err? ==> r.error == InvalidLiteral
    ensures r.Ok? ==> r.value < Pow2(|b|)
  {
    if b != [] && IsBinary(b) then Ok(Value(b)) else Err(InvalidLiteral)
  }

  /** Reading back the digits of a number that fits the width gives the number. */
  lemma {:induction false} ValueOfDigits(n: nat, width: nat)
    requires n < Pow2(width)
    ensures Value(Digits(n, width)) == n
  {
    if width > 0 {
      var d := Digits(n, width);
      ValueOfDigits(n / 2, width - 1);
      assert d[..width - 1] == Digits(n / 2, width - 1);
    }
  }

  /** Writing out the value of a digit string at its own width gives the string back. */
  lemma {:induction false} DigitsOfValue(s: string)
    requires IsBinary(s)
    ensures Digits(Value(s), |s|) == s
  {
    if s != [] {
      var init := s[..|s| - 1];
      DigitsOfValue(init);
      assert Value(s) / 2 == Value(init);
      assert s == init + [s[|s| - 1]];
    }
  }

  /** `binary_string_to_int(int_to_binary_string(n)) == n` on 0..255. */
  lemma BinaryStringToIntInverse(n: int)
    requires 0 <= n <= 255
    ensures IntToBinaryString(n).Ok?
    ensures BinaryStringToInt(IntToBinaryString(n).value) == Ok(n)
  {
    assert Pow2(8) == 256;
    ValueOfDigits(n, 8);
  }

  /** `int_to_binary_string(binary_string_to_int(s)) == s` on 8-digit binary strings. */
  lemma IntToBinaryStringInverse(s: string)
    requires |s| == 8 && IsBinary(s)
    ensures BinaryStringToInt(s).Ok?
    ensures IntToBinaryString(BinaryStringToInt(s).value) == Ok(s)
  {
    assert Pow2(8) == 256;
    DigitsOfValue(s);
  }

  // ---------------------------------------------------------------------
  // Bits of a byte

  /** Bit `k` of `b`, counted from the least significant bit, is 1. */
  predicate BitIsOne(b: bv8, k: nat)
    requires k < 8
  {
    (b >> k) & 1 == 1
  }

  /** Bit `k` of the number `n`, by repeated halving. */
  predicate NatBit(n: nat, k: nat) {
    if k == 0 then n % 2 == 1 else NatBit(n / 2, k - 1)
  }

  /** The bit test on bytes agrees with the bits of the byte's value. */
  lemma {:induction false} BitIsOneAsNatBit(b: bv8, k: nat)
    requires k < 8
    ensures BitIsOne(b, k) == NatBit(b as int, k)
  {
    if k == 0 {
      assert (b & 1 == 1) == (b as int % 2 == 1);
    } else {
      var h := b >> 1;
      BitIsOneAsNatBit(h, k - 1);
    }
  }

  /** Character `j` of `Digits(n, width)` shows bit `width - 1 - j` of `n`. */
  lemma {:induction false} DigitsAt(n: nat, width: nat, j: nat)
    requires j < width
    ensures Digits(n, width)[j] == '1' <==> NatBit(n, width - 1 - j)
  {
    if j < width - 1 {
      DigitsAt(n / 2, width - 1, j);
    }
  }

  /**
   * The binary string of a byte lists its elements: character `j` is '1'
   * exactly when the element at position `j` of the byte (MSB first) is present.
   */
  lemma BinaryStringShowsElements(b: bv8, j: nat)
    requires j < 8
    ensures IntToBinaryString(b as int).Ok?
    ensures IntToBinaryString(b as int).value[j] == '1' <==> BitIsOne(b, 7 - j)
  {
    DigitsAt(b as int, 8, j);
    BitIsOneAsNatBit(b, 7 - j);
  }

  /**
   * The test in `contains`: OR-ing the byte with a mask that has every bit
   * but the element's set gives 255 exactly when the element's bit is 1.
   */
  function TestBit(b: bv8, bitPos: nat): (r: bool)
    requires bitPos < 8
    ensures r == BitIsOne(b, 7 - bitPos)
  {
    var raw: bv8 := 1 << (7 - bitPos);
    var masked := raw ^ 255;
    var compared := masked | b;
    255 == compared
  }

  /** The byte `set` writes: `b` with the bit of position `bitPos` (MSB first) turned on. */
  function SetBit(b: bv8, bitPos: nat): (r: bv8)
    requires bitPos < 8
    ensures BitIsOne(r, 7 - bitPos)
    ensures forall k :: 0 <= k < 8 && k != 7 - bitPos ==> BitIsOne(r, k) == BitIsOne(b, k)
    ensures BitIsOne(b, 7 - bitPos) ==> r == b
  {
    b | (1 << (7 - bitPos))
  }

  // ---------------------------------------------------------------------
  // Sorted listings

  predicate StrictlyAscending(s: seq<int>) {
    forall i, j :: 0 <= i < j < |s| ==> s[i] < s[j]
  }

  /** The head of a strictly ascending sequence is its least element; the others are in its tail. */
  lemma AscendingHead(s: seq<int>, x: int)
    requires StrictlyAscending(s) && x in s
    ensures s[0] <= x
    ensures x != s[0] ==> x in s[1..]
  {
  }

  /** Two strictly ascending sequences with the same elements and the same head have tails with the same elements. */
  lemma AscendingTails(a: seq<int>, b: seq<int>)
    requires StrictlyAscending(a) && StrictlyAscending(b)
    requires a != [] && b != [] && a[0] == b[0]
    requires forall x :: x in a <==> x in b
    ensures StrictlyAscending(a[1..]) && StrictlyAscending(b[1..])
    ensures forall y :: y in a[1..] <==> y in b[1..]
  {
    forall y | y in a[1..] ensures y in b[1..] {
      AscendingHead(a, y);
      AscendingHead(b, y);
    }
    forall y | y in b[1..] ensures y in a[1..] {
      AscendingHead(b, y);
      AscendingHead(a, y);
    }
  }

  /** Two strictly ascending sequences with the same elements are equal. */
  lemma {:induction false} AscendingListingUnique(a: seq<int>, b: seq<int>)
    requires StrictlyAscending(a) && StrictlyAscending(b)
    requires forall x :: x in a <==> x in b
    ensures a == b
  {
    if a != [] || b != [] {
      assert (a + b)[0] in a + b;
      var x :| x in a + b;
      assert x in a && x in b;
      AscendingHead(a, b[0]);
      AscendingHead(b, a[0]);
      AscendingTails(a, b);
      AscendingListingUnique(a[1..], b[1..]);
      assert a == [a[0]] + a[1..] && b == [b[0]] + b[1..];
    }
  }

  /** A strictly ascending sequence stays so with a smaller element put in front. */
  lemma PrependAscending(x: int, s: seq<int>)
    requires StrictlyAscending(s)
    requires forall y :: y in s ==> x < y
    ensures StrictlyAscending([x] + s)
  {
    var t := [x] + s;
    forall i, j | 0 <= i < j < |t| ensures t[i] < t[j] {
      assert t[j] == s[j - 1] && s[j - 1] in s;
      if i > 0 {
        assert t[i] == s[i - 1];
      }
    }
  }

  // ---------------------------------------------------------------------
  // The bit vector

  class BitVector {
    /** The exclusive upper bound of the elements. */
    const maxval: nat
    /** The buffer; element `n` is bit `7 - n % 8` of byte `n / 8`. */
    const ba: array<bv8>

    /** The set the buffer represents; the padding bits past `maxval` are not part of it. */
    ghost var Members: set<int>

    ghost predicate Valid()
      reads this, ba
    {
      ba.Length == maxval / 8 + 1 &&
      forall i :: i in Members <==> 0 <= i < maxval && BitIsOne(ba[i / 8], 7 - i % 8)
    }

    /** An empty set over [0, maxval), in `maxval / 8 + 1` zero bytes. */
    constructor (maxval: nat := 255)
      ensures Valid() && fresh(ba)
      ensures this.maxval == maxval && ba.Length == maxval / 8 + 1
      ensures forall j :: 0 <= j < ba.Length ==> ba[j] == 0
      ensures Members == {}
    {
      this.maxval := maxval;
      ba := new bv8[maxval / 8 + 1](_ => 0);
      Members := {};
    }

    /** Adds `num`; raises when `num` is not below `maxval`, even if a padding bit is free. */
    method Set(num: int) returns (r: Outcome<ValueError>)
      requires Valid() && 0 <= num
      modifies this`Members, ba
      ensures Valid()
      ensures r == if num >= maxval then Fail(IndexOutOfRange(maxval)) else Pass
      ensures r.Fail? ==> ba[..] == old(ba[..]) && Members == old(Members)
      ensures r.Pass? ==> ba[..] == old(ba[..])[num / 8 := SetBit(old(ba[num / 8]), num % 8)]
      ensures r.Pass? ==> Members == old(Members) + {num}
      ensures old(num in Members) ==> ba[..] == old(ba[..])
    {
      if num >= maxval {
        return Fail(IndexOutOfRange(maxval));
      }
      var bytePos := num / 8;
      var bitPos := num % 8;
      ba[bytePos] := SetBit(ba[bytePos], bitPos);
      Members := Members + {num};
      r := Pass;
      forall i | 0 <= i < maxval
        ensures i in Members <==> BitIsOne(ba[i / 8], 7 - i % 8)
      {
        if i / 8 != bytePos {
          assert ba[i / 8] == old(ba[i / 8]);
        }
      }
    }

    /** Whether `num` is in the set; raises when `num` is not below `maxval`. */
    function Contains(num: int): (r: Result<bool, ValueError>)
      reads this, ba
      requires Valid() && 0 <= num
      ensures num >= maxval ==> r == Err(IndexOutOfRange(maxval))
      ensures num < maxval ==> r == Ok(num in Members)
    {
      if num >= maxval then Err(IndexOutOfRange(maxval))
      else Ok(TestBit(ba[num / 8], num % 8))
    }

    /** The members of the set that are at least `from`, ascending. */
    function MembersFrom(from: nat): (r: seq<int>)
      reads this, ba
      requires Valid() && from <= maxval
      ensures StrictlyAscending(r)
      ensures forall x :: x in r <==> from <= x && x in Members
      decreases maxval - from
    {
      if from == maxval then []
      else
        var rest := MembersFrom(from + 1);
        if Contains(from) == Ok(true) then PrependAscending(from, rest); [from] + rest else rest
    }

    /** The set as a list: a scan of [0, maxval) keeping the members, so ascending. */
    function ConvertToList(): (r: seq<int>)
      reads this, ba
      requires Valid()
      ensures StrictlyAscending(r)
      ensures forall x :: x in r <==> x in Members
    {
      MembersFrom(0)
    }

    /** The list is the one ascending listing of the set. */
    lemma ConvertToListIsListing(listing: seq<int>)
      requires Valid()
      requires StrictlyAscending(listing)
      requires forall x :: x in listing <==> x in Members
      ensures ConvertToList() == listing
    {
      AscendingListingUnique(ConvertToList(), listing);
    }
  }

  // ---------------------------------------------------------------------
  // The documented examples

  /** A new vector over [0, 300) has 38 bytes, and 303 is refused although byte 37 has room for it. */
  method PaddingExample() returns (bytes: int, r: Outcome<ValueError>, contents: seq<bv8>)
    ensures bytes == 38 && r == Fail(IndexOutOfRange(300))
    ensures contents == seq(38, _ => 0)
  {
    var bv := new BitVector(300);
    bytes := bv.ba.Length;
    r := bv.Set(303);
    contents := bv.ba[..];
  }

  /** BitVector(10): 4 is absent, then present after set(4); after set(9) the list is [4, 9]. */
  method ModuleExample() returns (before: Result<bool, ValueError>, after: Result<bool, ValueError>,
                                  listed: seq<int>)
    ensures before == Ok(false) && after == Ok(true) && listed == [4, 9]
  {
    var bv := new BitVector(10);
    before := bv.Contains(4);
    var r := bv.Set(4);
    after := bv.Contains(4);
    r := bv.Set(9);
    bv.ConvertToListIsListing([4, 9]);
    listed := bv.ConvertToList();
  }

  /** BitVector(20) after set(15): 15 is present, 16 is absent, 21 raises. */
  method ContainsExample() returns (at15: Result<bool, ValueError>, at16: Result<bool, ValueError>,
                                    at21: Result<bool, ValueError>)
    ensures at15 == Ok(true) && at16 == Ok(false) && at21 == Err(IndexOutOfRange(20))
  {
    var bv := new BitVector(20);
    var r := bv.Set(15);
    at15 := bv.Contains(15);
    at16 := bv.Contains(16);
    at21 := bv.Contains(21);
  }

  /** BitVector(16) after setting 0, 3, 6, 11, 2, 8 lists [0, 2, 3, 6, 8, 11]. */
  method ConvertToListExample() returns (listed: seq<int>)
    ensures listed == [0, 2, 3, 6, 8, 11]
  {
    var bv := new BitVector(16);
    var r := bv.Set(0);
    r := bv.Set(3);
    r := bv.Set(6);
    r := bv.Set(11);
    r := bv.Set(2);
    r := bv.Set(8);
    assert bv.Members == {0, 2, 3, 6, 8, 11};
    bv.ConvertToListIsListing([0, 2, 3, 6, 8, 11]);
    listed := bv.ConvertToList();
  }
}
