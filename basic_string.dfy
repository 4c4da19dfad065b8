/** The generic container `basic_string<CharT>` of include/custom_basic_string.h:
    an owned heap buffer `arr` holding `size` active characters followed by a
    terminator, and a separately reported `capacity`.

    The terminator is `CharT{0}`; a type parameter carries no zero, so the two
    constructors that write a terminator take it as the parameter `nul`. */
module BasicStrings {
  import opened CString

  /** Code units of `char16_t` and `char32_t`; `wchar_t` is taken as 32 bits wide. */
  newtype Char16 = x: int | 0 <= x < 0x1_0000
  newtype Char32 = x: int | 0 <= x < 0x1_0000_0000
  newtype WChar = x: int | 0 <= x < 0x1_0000_0000

  /** The four instantiations the header names. */
  type NarrowString = BasicString<char>
  type WString = BasicString<WChar>
  type U16String = BasicString<Char16>
  type U32String = BasicString<Char32>

  class BasicString<C(0)> {
    var arr: array<C>
    var size: nat
    var capacity: nat

    /** The relation every public operation leaves between the three fields.
        The array holds at least the content and one more slot, and never more
        than `capacity + 1` slots; a copy may hold fewer (see `Copy`). */
    ghost predicate Valid()
      reads this
    {
      size <= capacity && size + 1 <= arr.Length <= capacity + 1
    }

    /** The active characters. */
    function Contents(): seq<C>
      reads this, arr
      requires Valid()
    {
      arr[..size]
    }

    /** Default construction: 16 slots, size 0, capacity 15. Only the first 15
        slots are set to the terminator; slot 15 is left as allocated. */
    constructor (nul: C)
      ensures Valid() && fresh(arr)
      ensures size == 0 && capacity == 15 && arr.Length == 16
      ensures forall i :: 0 <= i < 15 ==> arr[i] == nul
      ensures arr[size] == nul && Contents() == []
    {
      var a := new C[16];
      MemSet(a, nul, 15);
      arr, size, capacity := a, 0, 15;
    }

    /** Fill construction: `count` copies of `ch` followed by the terminator,
        in exactly `count + 1` fresh slots. */
    constructor Fill(count: nat, ch: C, nul: C)
      ensures Valid() && fresh(arr)
      ensures size == count && capacity == count && arr.Length == count + 1
      ensures forall i :: 0 <= i < count ==> arr[i] == ch
      ensures arr[count] == nul
      ensures Contents() == Filled(count, ch)
    {
      var a := new C[count + 1];
      MemSet(a, ch, count);
      a[count] := nul;
      assert a[..count] == Filled(count, ch);
      arr, size, capacity := a, count, count;
    }

    /** Copy construction: a fresh array of `other.size + 1` slots receives the
        content and the terminator of `other`. The capacity is taken from
        `other` as it is, so it exceeds `arr.Length - 1` by exactly the spare
        capacity `other` had. */
    constructor Copy(other: BasicString<C>)
      requires other.Valid()
      ensures Valid() && fresh(arr) && arr != other.arr
      ensures size == other.size && capacity == other.capacity
      ensures arr.Length == other.size + 1
      ensures arr[..] == other.arr[..other.size + 1]
      ensures Contents() == other.Contents()
      ensures capacity - (arr.Length - 1) == other.capacity - other.size
      ensures unchanged(other) && unchanged(other.arr)
    {
      var a := new C[other.size + 1];
      MemCpy(a, other.arr, other.size + 1);
      arr, size, capacity := a, other.size, other.capacity;
    }

    /** `size()`: the number of active characters. */
    function Size(): (n: nat)
      reads this, arr
      requires Valid()
      ensures n == |Contents()|
      ensures n < arr.Length
    {
      size
    }

    /** `capacity()`: the reported capacity, never below the size. */
    function Capacity(): (c: nat)
      reads this, arr
      requires Valid()
      ensures Size() <= c
      ensures arr.Length <= c + 1
    {
      capacity
    }

    /** Const `operator[]`: unchecked, so the index is a precondition. */
    function At(i: nat): (c: C)
      reads this, arr
      requires Valid() && i < arr.Length
      ensures c == arr[i]
      ensures i < Size() ==> c == Contents()[i]
    {
      arr[i]
    }

    /** A write through the reference the mutable `operator[]` returns:
        only slot `i` changes. Writing at `size` overwrites the terminator. */
    method Set(i: nat, ch: C)
      requires Valid() && i < arr.Length
      modifies arr
      ensures arr[..] == old(arr[..])[i := ch]
      ensures i < size ==> Contents() == old(Contents())[i := ch]
      ensures size <= i ==> Contents() == old(Contents())
    {
      arr[i] := ch;
    }

    /** `operator=` by copy-and-swap. Assigning an object to itself changes
        nothing; otherwise the receiver ends with a fresh copy of `other`'s
        buffer and `other`'s size and capacity, and `other` is untouched. */
    method Assign(other: BasicString<C>)
      requires Valid() && other.Valid()
      modifies this
      ensures Valid()
      ensures this == other ==> arr == old(arr) && size == old(size) && capacity == old(capacity)
      ensures this != other ==> fresh(arr) && arr != other.arr
      ensures this != other ==> size == other.size && capacity == other.capacity
      ensures this != other ==> arr[..] == other.arr[..other.size + 1]
      ensures unchanged(other) && unchanged(other.arr)
    {
      if this == other {
        return;
      }
      var copy := new BasicString.Copy(other);
      SwapData(copy);
    }

    /** `_M_swap_data`: exchanges the buffer, size and capacity of the two
        objects and nothing else. */
    method SwapData(other: BasicString<C>)
      requires Valid() && other.Valid()
      modifies this, other
      ensures Valid() && other.Valid()
      ensures arr == old(other.arr) && size == old(other.size) && capacity == old(other.capacity)
      ensures other.arr == old(arr) && other.size == old(size) && other.capacity == old(capacity)
    {
      var a := arr;
      arr := other.arr;
      other.arr := a;
      var s := size;
      size := other.size;
      other.size := s;
      var c := capacity;
      capacity := other.capacity;
      other.capacity := c;
    }
  }
}
