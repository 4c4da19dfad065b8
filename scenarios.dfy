/** Properties that involve several calls on the two string classes, stated as
    client methods: what a caller may rely on after a sequence of operations. */
module Scenarios {
  import opened BasicStrings
  import opened NarrowStrings

  /** A copy is independent of its source: writing into the copy leaves the
      source's buffer, size and capacity as they were. */
  method CopyThenWrite<C(0)>(s: BasicString<C>, i: nat, ch: C) returns (t: BasicString<C>)
    requires s.Valid() && i <= s.size
    ensures fresh(t) && t.Valid()
    ensures t.arr[..] == s.arr[..s.size + 1][i := ch]
    ensures unchanged(s) && unchanged(s.arr)
  {
    t := new BasicString.Copy(s);
    t.Set(i, ch);
  }

  /** After `a = b` for distinct objects, writes through either one do not
      reach the other: `a` holds `b`'s old buffer with its own write, `b` its
      own buffer with its own write. */
  method AssignThenWrite<C(0)>(a: BasicString<C>, b: BasicString<C>, i: nat, x: C, j: nat, y: C)
    requires a.Valid() && b.Valid() && a != b
    requires i <= b.size && j < b.arr.Length
    modifies a, b.arr
    ensures a.arr[..] == old(b.arr[..b.size + 1])[i := x]
    ensures b.arr[..] == old(b.arr[..])[j := y]
    ensures a.size == b.size == old(b.size) && a.capacity == b.capacity == old(b.capacity)
  {
    a.Assign(b);
    a.Set(i, x);
    b.Set(j, y);
  }

  /** Swapping the data of two objects twice restores both. */
  method SwapTwice<C(0)>(a: BasicString<C>, b: BasicString<C>)
    requires a.Valid() && b.Valid()
    modifies a, b
    ensures a.arr == old(a.arr) && a.size == old(a.size) && a.capacity == old(a.capacity)
    ensures b.arr == old(b.arr) && b.size == old(b.size) && b.capacity == old(b.capacity)
  {
    a.SwapData(b);
    a.SwapData(b);
  }

  /** The same independence for the 32-bit instantiation, under the
      element-wise reading of `memset` and `memcpy`: fill with 'A', copy,
      write U+1F600 into the copy; the original still reads 'A'. The header's
      byte-wise calls would leave other values in these slots. */
  method U32CopyIndependence() returns (original: Char32, copied: Char32)
    ensures original == 0x41 && copied == 0x1F600
  {
    var s: U32String := new BasicString.Fill(3, 0x41, 0);
    var t: U32String := new BasicString.Copy(s);
    t.Set(0, 0x1F600);
    original := s.At(0);
    copied := t.At(0);
  }

  /** A default-constructed `string` is empty with capacity 15. */
  method DefaultIsEmpty() returns (n: nat, c: nat)
    ensures n == 0 && c == 15
  {
    var s := new String();
    n := s.Size();
    c := s.Capacity();
  }

  /** `string(5, 'x')` has size and capacity 5 and reads "xxxxx". */
  method FillFive() returns (n: nat, c: nat, text: string)
    ensures n == 5 && c == 5 && text == "xxxxx"
  {
    var s := new String.Fill(5, 'x');
    n := s.Size();
    c := s.Capacity();
    text := s.Contents();
    assert text == "xxxxx";
  }

  /** Writing 'y' into a copy of `string(5, 'x')` leaves the original's first
      character 'x'. */
  method CopyIsIndependent() returns (original: char, copied: char)
    ensures original == 'x' && copied == 'y'
  {
    var s := new String.Fill(5, 'x');
    var t := new String.Copy(s);
    t.Set(0, 'y');
    original := s.At(0);
    copied := t.At(0);
  }

  /** Assigning a copy to itself leaves its size, capacity and content as
      they were. */
  method SelfAssignKeepsCopy() returns (before: (nat, nat, string), after: (nat, nat, string))
    ensures before == after == (5, 5, "yxxxx")
  {
    var s := new String.Fill(5, 'x');
    var t := new String.Copy(s);
    t.Set(0, 'y');
    var u := new String.Copy(t);
    before := (u.Size(), u.Capacity(), u.Contents());
    u.Assign(u);
    after := (u.Size(), u.Capacity(), u.Contents());
    assert before.2 == "yxxxx";
  }

  /** A copy of a default-constructed `string` reports capacity 15 while its
      array has a single slot, the terminator. */
  method CopyOfDefaultKeepsCapacity() returns (cap: nat, slots: nat, terminator: char)
    ensures cap == 15 && slots == 1 && terminator == '\0'
  {
    var s := new String();
    var t := new String.Copy(s);
    cap := t.Capacity();
    slots := t.arr.Length;
    terminator := t.At(0);
  }

  /** After `a = b` for distinct narrow strings, writes through either one
      do not reach the other. */
  method NarrowAssignThenWrite(a: String, b: String, i: nat, x: char, j: nat, y: char)
    requires a.Valid() && b.Valid() && a != b
    requires i <= b.size && j < b.arr.Length
    modifies a, b.arr
    ensures a.arr[..] == old(b.arr[..b.size + 1])[i := x]
    ensures b.arr[..] == old(b.arr[..])[j := y]
    ensures a.size == b.size == old(b.size) && a.capacity == b.capacity == old(b.capacity)
  {
    a.Assign(b);
    a.Set(i, x);
    b.Set(j, y);
  }
}
