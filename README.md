# A verified model of a minimal `std::basic_string`

The repository reimplements a small subset of the C++ standard library's
`std::basic_string` (ISO/IEC 14882, clause [basic.string]). A string object
owns a heap array `_M_arr` whose first `_M_size` slots are the active
characters. Every constructor writes a terminator, `CharT{0}`, right after
them; a write through the unchecked mutable `operator[]` at index `_M_size`
can overwrite it later. The object also reports a separately stored
`_M_capacity`. The operations are:

- default construction;
- fill construction;
- deep-copy construction;
- copy-and-swap assignment;
- the private `_M_swap_data`;
- `size()` and `capacity()`;
- unchecked `operator[]`.

The repository holds this container twice:

- the generic template `basic_string<CharT>` in
  `include/custom_basic_string.h`, with its `string`, `wstring`, `u16string`
  and `u32string` aliases;
- a hand-written narrow `string` in `include/custom_string.h`.

The model mirrors that layout:

- `cstring.dfy`, module `CString`: `std::memset` and `std::memcpy`, read
  element by element. `Filled(count, ch)` is the specification of what
  `memset` leaves behind.
- `basic_string.dfy`, module `BasicStrings`: the class
  `BasicString<C>` and the four aliases. The character code units are
  newtypes; `wchar_t` is taken as 32 bits.
- `custom_string.dfy`, module `NarrowStrings`: the class `String` over
  `char`, with `'\0'` as terminator.
- `scenarios.dfy`, module `Scenarios`: client methods. Their contracts
  state what holds after a sequence of calls: independence of copies,
  self-assignment, swapping twice, and the capacity a copy reports.

Each class has the fields `arr: array<C>`, `size: nat` and
`capacity: nat`. `Valid()` is the relation every public operation keeps:
`size <= capacity && size + 1 <= arr.Length <= capacity + 1`. The
stronger `arr.Length == capacity + 1` is false after a copy. The copy
constructor keeps the source's capacity but allocates only `size + 1`
slots. `Contents()` is the active prefix `arr[..size]`.

A type parameter carries no zero value. So the generic default and fill
constructors take the terminator as a parameter `nul`, which stands for
`CharT{0}`.

Two details of the code shape the invariant and the constructors:

- `capacity()` is documented as the total allocated capacity
  (include/custom_basic_string.h:144-150). Yet the copy constructor keeps
  the source's capacity while allocating only `size + 1` slots
  (include/custom_basic_string.h:77-80). After a copy the reported capacity
  can exceed the slots actually allocated, and the model states that gap.
- The default constructor allocates 16 slots but writes the terminator into
  only the first 15 (include/custom_basic_string.h:56-57). The model claims
  nothing about slot 15.

## Model

| member | source | states |
|---|---|---|
| CString.Filled | include/custom_basic_string.h:68 | the memset content: exactly `count` slots, every one equal to `ch` |
| CString.MemSet | include/custom_basic_string.h:57 | memset sets the first `count` slots to `Filled(count, ch)` and leaves the rest of the array as it was |
| CString.MemCpy | include/custom_basic_string.h:81 | memcpy between distinct arrays: the first `count` slots of the destination equal the source's; the rest of the destination and the whole source are unchanged |
| BasicStrings.BasicString.constructor | include/custom_basic_string.h:54-58 | fresh 16-slot array, size 0, capacity 15, slots 0..14 are the terminator, so `arr[size]` is the terminator and the content is empty; slot 15 is not claimed |
| BasicStrings.BasicString.Fill | include/custom_basic_string.h:65-70 | fresh array of `count + 1` slots, `size == capacity == count`, every slot below `count` is `ch`, slot `count` is the terminator |
| BasicStrings.BasicString.Copy | include/custom_basic_string.h:76-82 | fresh array not aliased with the source, `other.size + 1` slots equal to the source's content plus terminator, same size and same capacity; the reported capacity exceeds `arr.Length - 1` by the source's spare capacity; the source is unchanged |
| BasicStrings.BasicString.Size | include/custom_basic_string.h:139-142 | the size is the length of the active content and indexes a slot inside the array (the terminator slot) |
| BasicStrings.BasicString.Capacity | include/custom_basic_string.h:147-150 | the capacity is never below the size and never below `arr.Length - 1` |
| BasicStrings.BasicString.At | include/custom_basic_string.h:129-133 | const `operator[]` reads slot `i` of the array, which below the size is the `i`-th content character; the in-range index is a precondition |
| BasicStrings.BasicString.Set | include/custom_basic_string.h:116-119 | a write through mutable `operator[]` changes slot `i` only; the content changes at `i` if `i < size` and not at all otherwise |
| BasicStrings.BasicString.Assign | include/custom_basic_string.h:97-106 | self-assignment leaves array, size and capacity unchanged; otherwise the receiver gets a fresh array unaliased with `other`, holding `other`'s content plus terminator, with `other`'s size and capacity; `other` is unchanged in both cases; `Valid()` is kept |
| BasicStrings.BasicString.SwapData | include/custom_basic_string.h:157-162 | array, size and capacity of the two objects are exchanged and both stay valid |
| NarrowStrings.String.constructor | include/custom_string.h:44-46 | fresh 16-slot array, size 0, capacity 15, slots 0..14 are `'\0'`, so `arr[size] == '\0'` and the content is empty |
| NarrowStrings.String.Fill | include/custom_string.h:53-57 | fresh array of `count + 1` slots, `size == capacity == count`, every slot below `count` is `ch`, slot `count` is `'\0'` |
| NarrowStrings.String.Copy | include/custom_string.h:63-68 | fresh unaliased array of `other.size + 1` chars equal to the source's content plus terminator; same size and capacity; the source is unchanged |
| NarrowStrings.String.Size | include/custom_string.h:95 | the size is the length of the active content and indexes a slot inside the array |
| NarrowStrings.String.Capacity | include/custom_string.h:100 | the capacity is never below the size and never below `arr.Length - 1` |
| NarrowStrings.String.At | include/custom_string.h:88-90 | const `operator[]` reads slot `i`, which below the size is the `i`-th content character |
| NarrowStrings.String.Set | include/custom_string.h:84-86 | a write through mutable `operator[]` changes slot `i` only |
| NarrowStrings.String.Assign | include/custom_string.h:75-82 | self-assignment is a no-op; otherwise a fresh array unaliased with `other` holding its content plus terminator, with its size and capacity; `other` is unchanged |
| NarrowStrings.String.SwapData | include/custom_string.h:102-106 | exactly the three fields of the two objects are exchanged |
| Scenarios.CopyThenWrite | include/custom_basic_string.h:76-82 | writing into a copy leaves the source object and its array unchanged |
| Scenarios.AssignThenWrite | include/custom_basic_string.h:97-119 | after `a = b` on distinct objects, a write into `a` and a write into `b` each reach only their own array |
| Scenarios.SwapTwice | include/custom_basic_string.h:157-162 | swapping twice restores array, size and capacity of both objects |
| Scenarios.U32CopyIndependence | include/custom_basic_string.h:48 | with element-wise fill and copy, on the `u32string` instantiation of the model, writing U+1F600 into a copy of three 'A's leaves the original reading 'A'; the header's byte-wise `memset`/`memcpy` would not produce these values (see "## Left out") |
| Scenarios.DefaultIsEmpty | include/custom_string.h:44-46 | a default `string` has size 0 and capacity 15 |
| Scenarios.FillFive | include/custom_string.h:53-57 | `string(5, 'x')` has size 5, capacity 5 and content "xxxxx" |
| Scenarios.CopyIsIndependent | include/custom_string.h:63-68 | writing 'y' at index 0 of a copy of `string(5, 'x')` leaves the original's index 0 at 'x' |
| Scenarios.SelfAssignKeepsCopy | include/custom_string.h:75-78 | `u = u` on a copy keeps size 5, capacity 5 and content "yxxxx" |
| Scenarios.CopyOfDefaultKeepsCapacity | include/custom_string.h:63-67 | a copy of a default `string` reports capacity 15 while its array has one slot, the terminator |
| Scenarios.NarrowAssignThenWrite | include/custom_string.h:79-86 | after `a = b` on distinct narrow strings, writes through either reach only their own array |

## Left out

- Destructors and `delete[]` (include/custom_basic_string.h:88-90, include/custom_string.h:73): memory is garbage-collected in the model, so release has nothing to verify.
- The `delete[] _M_arr` of the uninitialised pointer at the start of both copy constructors (include/custom_basic_string.h:79, include/custom_string.h:65): this is undefined behaviour. The copy is modelled as a fresh allocation only.
- CString.MemSet, CString.MemCpy: element-wise, not byte-wise. For `char` this is exact. For `wchar_t`, `char16_t` and `char32_t` the real code differs in two ways. First, the headers pass a count that the library reads as bytes, so only part of each wide buffer is filled or copied; a copy of a wide string does not even receive the whole terminator. Second, `memset` stores the low byte of `ch` into every byte, so a filled wide slot holds that byte repeated (`u32string(3, U'A')` gets 0x41 in three bytes of slot 0), never `ch` itself. The model fills with whole elements equal to `ch` and copies whole elements, so its wide-type behaviour (Scenarios.U32CopyIndependence included) is that of the element-wise reading only.
- NarrowStrings.String: the element type is Dafny's `char`, any Unicode scalar value, which is wider than the one-byte C++ `char`. Elements are only stored, compared and copied, so no stated property depends on the width.
- BasicStrings.BasicString.constructor, BasicStrings.BasicString.Fill: the terminator `CharT{0}` is the parameter `nul`. Nothing forces callers to pass the same value for one character type.
- BasicStrings.BasicString.Fill, NarrowStrings.String.Fill: sizes are unbounded. The wrap of `count + 1` in `size_t` at the largest `count` is not modelled. That wrap would allocate zero slots before `memset` writes `count` of them.
- Allocation failure and the exception-safety guarantee of copy-and-swap: there is no allocation failure in the model. The receiver is shown unchanged only on the self-assignment path.
- Out-of-range indexing: unchecked in the code. In the model it is the precondition `i < arr.Length` of `At` and `Set`.
- The reference returned by mutable `operator[]`: it is modelled as a read (`At`) plus a write (`Set`). A reference kept across later calls is not modelled.
- The `*this` reference returned by `operator=`: `Assign` returns nothing, so chained assignment is not modelled.
- The privacy of `_M_swap_data`: `SwapData` is callable from the scenario module.
- The width of `wchar_t`: it is platform-dependent and is taken as 32 bits.
- Thread safety: the code has no synchronisation, and the model is sequential.
