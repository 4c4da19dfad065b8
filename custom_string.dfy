/** The hand-written narrow-character `string` of include/custom_string.h.
    It repeats the generic container for `char`, with `'\0'` as the
    terminator, and is modelled on its own because the header defines it on
    its own. */
module NarrowStrings {
  import opened CString

  class String {
    var arr: array<char>
    var size: nat
    var capacity: nat

    /** The array holds the content and one more slot, and at most
        `capacity + 1` slots; a copy may hold fewer (see `Copy`). */
    ghost predicate Valid()
      reads this
    {
      size <= capacity && size + 1 <= arr.Length <= capacity + 1
    }

    /** The active characters. */
    function Contents(): string
      reads this, arr
      requires Valid()
    {
      arr[..size]
    }

    /** Default construction: 16 slots, size 0, capacity 15; the first 15
        slots are `'\0'` and slot 15 is left as allocated. */
    constructor ()
      ensures Valid() && fresh(arr)
      ensures size == 0 && capacity == 15 && arr.Length == 16
      ensures forall i :: 0 <= i < 15 ==> arr[i] == '\0'
      ensures arr[size] == '\0' && Contents() == ""
    {
      var a := new char[16];
      MemSet(a, '\0', 15);
      arr, size, capacity := a, 0, 15;
    }

    /** Fill construction: `count` copies of `ch`, then `'\0'`, in exactly
        `count + 1` fresh slots. */
    constructor Fill(count: nat, ch: char)
      ensures Valid() && fresh(arr)
      ensures size == count && capacity == count && arr.Length == count + 1
      ensures forall i :: 0 <= i < count ==> arr[i] == ch
      ensures arr[count] == '\0'
      ensures Contents() == Filled(count, ch)
    {
      var a := new char[count + 1];
      MemSet(a, ch, count);
      a[count] := '\0';
      assert a[..count] == Filled(count, ch);
      arr, size, capacity := a, count, count;
    }

    /** Copy construction: `other.size + 1` fresh slots receive `other`'s
        content and terminator; the capacity is `other`'s, which may exceed
        `arr.Length - 1`. */
    constructor Copy(other: String)
      requires other.Valid()
      ensures Valid() && fresh(arr) && arr != other.arr
      ensures size == other.size && capacity == other.capacity
      ensures arr.Length == other.size + 1
      ensures arr[..] == other.arr[..other.size + 1]
      ensures Contents() == other.Contents()
      ensures capacity - (arr.Length - 1) == other.capacity - other.size
      ensures unchanged(other) && unchanged(other.arr)
    {
      var a := new char[other.size + 1];
      MemCpy(a, other.arr, other.size + 1);
      arr, size, capacity := a, other.size, other.capacity;
    }

    /** `size()`: the number of active characters. */
    function Size(): (n: nat)
      reads this, arr
      requires Valid()
      ensures n == |Contents()|
      ensures n < arr.Length
    {
      size
    }

    /** `capacity()`: the reported capacity, never below the size. */
    function Capacity(): (c: nat)
      reads this, arr
      requires Valid()
      ensures Size() <= c
      ensures arr.Length <= c + 1
    {
      capacity
    }

    /** Const `operator[]`, unchecked: the index is a precondition. */
    function At(i: nat): (c: char)
      reads this, arr
      requires Valid() && i < arr.Length
      ensures c == arr[i]
      ensures i < Size() ==> c == Contents()[i]
    {
      arr[i]
    }

    /** A write through mutable `operator[]`: only slot `i` changes. */
    method Set(i: nat, ch: char)
      requires Valid() && i < arr.Length
      modifies arr
      ensures arr[..] == old(arr[..])[i := ch]
      ensures i < size ==> Contents() == old(Contents())[i := ch]
      ensures size <= i ==> Contents() == old(Contents())
    {
      arr[i] := ch;
    }

    /** `operator=` by copy-and-swap: a no-op on itself, otherwise a fresh
        copy of `other`'s buffer with `other`'s size and capacity. */
    method Assign(other: String)
      requires Valid() && other.Valid()
      modifies this
      ensures Valid()
      ensures this == other ==> arr == old(arr) && size == old(size) && capacity == old(capacity)
      ensures this != other ==> fresh(arr) && arr != other.arr
      ensures this != other ==> size == other.size && capacity == other.capacity
      ensures this != other ==> arr[..] == other.arr[..other.size + 1]
      ensures unchanged(other) && unchanged(other.arr)
    {
      if this == other {
        return;
      }
      var copy := new String.Copy(other);
      SwapData(copy);
    }

    /** `_M_swap_data`: exchanges exactly the three fields. */
    method SwapData(other: String)
      requires Valid() && other.Valid()
      modifies this, other
      ensures Valid() && other.Valid()
      ensures arr == old(other.arr) && size == old(other.size) && capacity == old(other.capacity)
      ensures other.arr == old(arr) && other.size == old(size) && other.capacity == old(capacity)
    {
      var a := arr;
      arr := other.arr;
      other.arr := a;
      var s := size;
      size := other.size;
      other.size := s;
      var c := capacity;
      capacity := other.capacity;
      other.capacity := c;
    }
  }
}
