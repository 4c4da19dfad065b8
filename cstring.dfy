/** The two <cstring> routines both string headers rely on, read element by
    element. For a one-byte character type this is exactly what `std::memset`
    and `std::memcpy` do; for wider character types the headers pass a count
    that the library reads as bytes, and the model keeps the element reading. */
module CString {

  /** The contents of `count` slots after each was set to `ch`. */
  function Filled<C>(count: nat, ch: C): (r: seq<C>)
    ensures |r| == count
    ensures forall i :: 0 <= i < count ==> r[i] == ch
  {
    if count == 0 then [] else Filled(count - 1, ch) + [ch]
  }

  /** `std::memset(a, ch, count)`: the first `count` slots become `ch`, the
      rest of the array keeps its contents. */
  method MemSet<C>(a: array<C>, ch: C, count: nat)
    requires count <= a.Length
    modifies a
    ensures a[..count] == Filled(count, ch)
    ensures a[count..] == old(a[count..])
  {
    var i := 0;
    while i < count
      invariant i <= count
      invariant a[..i] == Filled(i, ch)
      invariant a[count..] == old(a[count..])
    {
      a[i] := ch;
      i := i + 1;
    }
  }

  /** `std::memcpy(dst, src, count)`: the regions must not overlap; the first
      `count` slots of `dst` become those of `src`, the rest of `dst` and all
      of `src` keep their contents. */
  method MemCpy<C>(dst: array<C>, src: array<C>, count: nat)
    requires count <= dst.Length && count <= src.Length
    requires dst != src
    modifies dst
    ensures dst[..count] == src[..count]
    ensures dst[count..] == old(dst[count..])
    ensures unchanged(src)
  {
    var i := 0;
    while i < count
      invariant i <= count
      invariant dst[..i] == src[..i]
      invariant dst[count..] == old(dst[count..])
    {
      dst[i] := src[i];
      i := i + 1;
    }
  }
}
