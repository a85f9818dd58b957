# Bit vector and nibble vector

A model of two small bit-packed containers, each backed by a fixed byte
buffer that it reaches through division, remainder, shift and mask
arithmetic.

- **BitVector** (`bitvector.py`) is a set over `[0, maxval)` with one bit per
  element. Element `n` is bit `7 - n % 8` of byte `n / 8`, so element 0 is the
  most significant bit of byte 0. The buffer has `maxval / 8 + 1` bytes. Up to
  eight bits past `maxval - 1` are padding, and `set`/`contains` refuse them.
  `set` ORs the element's bit into its byte. `contains` tests the bit with the
  idiom `((1 << (7 - b)) ^ 255) | byte == 255`. `convert_to_list` scans
  `[0, maxval)` in order. The module also has two helpers:
  `int_to_binary_string` shows a byte as 8 binary digits and
  `binary_string_to_int` reads such digits back.
- **NibbleVector** (`nibblevector.py`) is a fixed-length array of values
  0..15. Index `k` is the high half of byte `k / 2` when `k` is even and the
  low half when `k` is odd. Negative keys in `[-size, 0)` stand for
  `size + key`. The object is its own iterator: `__iter__` returns the object
  itself and `next` advances the cursor field `index`.

The project has three modules:

- `Wrappers` (`wrappers.dfy`) holds `Option`, `Result` and `Outcome`.
- `BitVectors` (`bitvector.dfy`) models `bitvector.py`.
- `NibbleVectors` (`nibblevector.dfy`) models `nibblevector.py`.

Bytes are `bv8`, so the source's bitwise operators appear as written. Each
container is a class whose buffer is an `array<bv8>` that its `Set` updates
in place:

- The BitVector class keeps a ghost field `Members`, the set the buffer
  stands for. `Valid()` ties that set to the bits.
- The NibbleVector class keeps a ghost view `Contents()`, the values by
  index. Its cursor `index` is an ordinary field that `Next` advances.

Each exception becomes an error value: a `Result` for operations that return
something, an `Outcome` for those that return nothing. The error is a
`ValueError` constructor naming the message. `StopIteration` becomes `None`.

The source is Python 2, so `/` on integers is floor division. For the
non-negative operands the model allows, that matches Dafny's `/`.

`__setitem__` keeps the sibling half with the mask `15 << 4*nib_pos` and
adds the shifted value. `StoreNibble` models that sum in 16 bits. It proves
that the sum fits a byte and that the sibling half is unchanged.

One place where the code differs from its own doctest, and the model follows
the code:

- The doctest at nibblevector.py:133-135 expects a second loop to print
  1 2 3 4 5 again. The code's iterator cannot be restarted (see Findings).

## Model

| member | source | states |
|---|---|---|
| `BitVectors.Digits` | bitvector.py:65 | The expansion always has exactly `width` characters, each '0' or '1'. |
| `BitVectors.Value` | bitvector.py:82 | The number a binary digit string denotes is below 2 to the power of its length. |
| `BitVectors.IntToBinaryString` | bitvector.py:63-65 | Raises exactly when n is outside 0..255. Otherwise it returns 8 characters, each '0' or '1'. |
| `BitVectors.BinaryStringToInt` | bitvector.py:67-82 | Succeeds exactly on non-empty strings of binary digits, and the value is below 2 to the power of the length. Any other string raises. |
| `BitVectors.ValueOfDigits` | bitvector.py:76-78 | Parsing the `width`-digit expansion of any n below 2^width gives n back. |
| `BitVectors.DigitsOfValue` | bitvector.py:79-80 | Expanding the value of any binary string at its own width gives the string back. |
| `BitVectors.BinaryStringToIntInverse` | bitvector.py:76-78 | For every n in 0..255, `binary_string_to_int(int_to_binary_string(n)) == n`. |
| `BitVectors.IntToBinaryStringInverse` | bitvector.py:79-80 | For every 8-digit binary string s, `int_to_binary_string(binary_string_to_int(s)) == s`. |
| `BitVectors.BinaryStringShowsElements` | bitvector.py:14-20 | Character j of a byte's binary string is '1' exactly when bit `7 - j` is 1, that is, when element j of that byte is in the set. |
| `BitVectors.TestBit` | bitvector.py:256-261 | The idiom `((1 << (7-b)) ^ 255) \| byte == 255` is true exactly when bit `7 - b` of the byte is 1. |
| `BitVectors.SetBit` | bitvector.py:194-196 | OR-ing in the mask makes the element's bit 1 and leaves the other seven bits as they were. When the bit is already 1, the byte is unchanged. |
| `BitVectors.BitVector.constructor` | bitvector.py:85-108 | The buffer has `maxval / 8 + 1` zero bytes and the set is empty. |
| `BitVectors.BitVector.Set` | bitvector.py:192-196 | `num >= maxval` raises and changes neither the buffer nor the set. Otherwise only byte `num / 8` changes, to `SetBit` of itself. The set becomes the old set plus `num`, and the bits still match the set. When `num` is already a member, the buffer stays identical, so `set` is idempotent. |
| `BitVectors.BitVector.Contains` | bitvector.py:254-261 | `num >= maxval` raises. Otherwise the result is whether `num` is in the set. It reads the buffer and never writes it. |
| `BitVectors.BitVector.MembersFrom` | bitvector.py:284-285 | The scan from `from` on is strictly ascending and holds exactly the members that are at least `from`. |
| `BitVectors.BitVector.ConvertToList` | bitvector.py:276-285 | The list is strictly ascending and holds exactly the members of the set. |
| `BitVectors.BitVector.ConvertToListIsListing` | bitvector.py:279-282 | Any strictly ascending list with exactly the set's members is the list that `convert_to_list` returns. |
| `BitVectors.PaddingExample` | bitvector.py:186-190 | BitVector(300) has 38 zero bytes. `set(303)` raises although byte 37 has a bit for 303, and the buffer stays all zero. |
| `BitVectors.ModuleExample` | bitvector.py:24-34 | In BitVector(10), 4 is absent before `set(4)` and present after it. After `set(9)` the list is [4, 9]. |
| `BitVectors.ContainsExample` | bitvector.py:242-251 | In BitVector(20) after `set(15)`, 15 is present, 16 is absent and 21 raises. |
| `BitVectors.ConvertToListExample` | bitvector.py:279-282 | BitVector(16) after setting 0, 3, 6, 11, 2 and 8 lists [0, 2, 3, 6, 8, 11]. |
| `NibbleVectors.LoadNibble` | nibblevector.py:81-86 | Masking the half and shifting it down gives a value below 16, namely that half of the byte: the byte div 16 for an even index, the byte mod 16 for an odd one. |
| `NibbleVectors.StoreNibble` | nibblevector.py:118-123 | The sum of the kept half and the shifted value cannot wrap. The target half of the result reads back the value, and the sibling half is the old one. |
| `NibbleVectors.NibbleVector.constructor` | nibblevector.py:33-44 | There are `(size + 1) / 2` zero bytes and the cursor is at 0. Every key in `[-size, size)` reads 0. |
| `NibbleVectors.NibbleVector.Length` | nibblevector.py:46-55 | `len` is the number of values, not the number of bytes. |
| `NibbleVectors.NibbleVector.Get` | nibblevector.py:77-86 | Raises exactly when `key >= size` or `key < -size`. Otherwise it returns the value at `key`, or at `size + key` for a negative key, and that value is in 0..15. |
| `NibbleVectors.NibbleVector.GetNegativeKey` | nibblevector.py:79-80 | A negative key reads the same as `size` plus that key. |
| `NibbleVectors.NibbleVector.Set` | nibblevector.py:111-123 | A bad key raises the index error, checked before the value. A value outside 0..15 raises the nibble error. Either failure leaves the buffer unchanged. On success only the target position changes, so a `get` of the key returns the value. Every other byte is unchanged, and so is the sibling half in the same byte, padding included. |
| `NibbleVectors.NibbleVector.Iter` | nibblevector.py:125-137 | `__iter__` returns the vector itself and leaves the cursor where it is. |
| `NibbleVectors.NibbleVector.IterFromStart` | nibblevector.py:133-135 | The corrected `__iter__` rewinds the cursor to 0 before it returns the vector. |
| `NibbleVectors.NibbleVector.Next` | nibblevector.py:139-144 | At `index == size` it returns no value and leaves the cursor alone. Otherwise it returns the value at the cursor and advances the cursor by one. |
| `NibbleVectors.NibbleVector.Traverse` | nibblevector.py:128-131 | A `for` loop over the iterator yields the values from the cursor to the end, in order, and leaves the cursor at `size`. |
| `NibbleVectors.ConstructorExample` | nibblevector.py:36-39 | NibbleVector(5) has 3 bytes and length 5. |
| `NibbleVectors.GetItemExample` | nibblevector.py:60-73 | In NibbleVector(5), index 3 reads 0. After storing 12 at 4, key -1 reads 12. Key 5 raises. |
| `NibbleVectors.SetItemExample` | nibblevector.py:91-109 | In NibbleVector(5), 10 at 2 and 14 at 3 share a byte and both read back. Storing 17 raises the nibble error, and key 6 raises the index error. |
| `NibbleVectors.FilledExample` | nibblevector.py:128-129 | Storing `i + 1` at each index of NibbleVector(5) gives the values [1, 2, 3, 4, 5] with the cursor still at 0. |
| `NibbleVectors.IterateTwiceAsWritten` | nibblevector.py:128-135 | As written, iterating the filled vector twice gives [1, 2, 3, 4, 5] and then nothing. |
| `NibbleVectors.IterateTwiceRestarting` | nibblevector.py:133-135 | With the rewinding `__iter__`, both traversals give [1, 2, 3, 4, 5]. |

## Left out

- `printv` is console output only. It prints what `convert_to_list` returns.
- The `minval` constructor parameter is accepted and never used.
- The doctest harness under `__main__` is left out. So are the doctests that only show Python's operators and are not about the containers.
- BitVectors.BitVector.Set: requires `0 <= num`. The source checks only `num >= maxval`, so a negative `num` goes through Python's floor division and negative indexing and touches a byte counted from the end of the buffer. That case is not modelled.
- BitVectors.BitVector.Contains: requires `0 <= num`, for the same reason as `Set`.
- BitVectors.BitVector.constructor: `maxval` is a `nat`. The source would also accept a negative `maxval` down to -8, which gives an empty buffer.
- NibbleVectors.NibbleVector.constructor: `size` is a `nat`. The source would also accept `size == -1`, which gives an empty buffer on which every key raises.
- BitVectors.BinaryStringToInt: models `int(b, 2)` only on strings of the digits '0' and '1'. The signs, surrounding whitespace and the `0b` prefix that Python 2's `int(b, 2)` also accepts are not modelled, and neither are non-string arguments.
- BitVectors.IntToBinaryString: models `"{:0>8b}".format(n)` as an 8-digit base-2 expansion. Python's formatting machinery and non-integer arguments are not modelled.
- Slice keys: the source mentions them but does not implement them.
- Python's iterator protocol is modelled only through `Iter`, `Next` and the `Traverse` loop. `StopIteration` becomes `None`.
- Values of other types passed as keys, values or bounds (floats, strings) are not modelled. Every key and value is an integer.

## Findings

| source | as written | input that shows it | evidently intended | confidence | as-written member | corrected member |
|---|---|---|---|---|---|---|
| nibblevector.py:125-144 | `__iter__` returns `self` without resetting `self.index`, so the cursor stays at `size` after a full traversal | NibbleVector(5) holding 1..5, iterated twice: the second loop yields nothing | the doctest at lines 133-135 expects the second loop to print 1 2 3 4 5 again | not executed | `NibbleVectors.IterateTwiceAsWritten` | `NibbleVectors.IterateTwiceRestarting` |
