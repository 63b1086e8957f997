# sized_any: a verified model of the storage-and-dispatch engine

`kmillet::sized_any<N>` is a type-erased "any" box with a configurable inline
capacity of `N` bytes. A container holds a pointer to a per-type descriptor
(`TypeInfo<T>`, or the empty `TypeInfo<void>`) and an `N`-byte buffer. The
buffer holds the value in place, or a pointer to a heap block that holds it.
The descriptor's `needsAlloc(N)` decides which: it holds when `T` is larger
than `N` or its move constructor may throw.

Every operation goes through the descriptor's four slot operations: `copy`,
`move`, `destroy` and `del`. These include construction and copy/move across
capacities, assignment, `emplace` (which reuses a heap block of equal size),
`reset`, same- and cross-capacity `swap`, and `any_cast`. The repository keeps
two variants of the engine:
- the current one, include/kmillet/sized_any/sized_any.hpp, which assigns by
  building a temporary and swapping it in;
- an older one at the root, sized_any.hpp, which assigns by replacing the
  destination's content directly (`replCopy`, `replMove`), resets with an
  unconditional `del`, and swaps raw bytes.

The model has five modules:

- `Memory`: the free store as a value. The blocks, what each holds, the next
  fresh address, and allocation and deallocation counts. `new`, `delete`,
  explicit destruction and placement `new` are its primitives. `Transfers`
  states what an operation gives up and acquires, block by block.
- `Descriptor`: `TypeInfo` as a datatype (type id, size, whether the move is
  `noexcept`), the buffer as a tagged `Slot` (`Empty | Inline | Boxed`), and
  `copy`, `move`, `destroy` and `del` as functions over a slot and the heap.
- `Container`: one function per operation of the current variant, over the
  container's state `(info, buff)` and the heap. Then the class `SizedAny`,
  whose constructors and methods run the C++ statements on its fields and
  are proved to reach the state those functions describe. `swap` and the
  three assignments, which swap a temporary in, run the corrected `swap`
  of the first two rows under "## Findings". The as-written `swap` and its
  defect are modelled separately.
- `Legacy`: the older variant's `replCopy` and `replMove`, its assignments,
  the class `LegacySizedAny`, and the as-written descriptor operations with
  their defects. The class's assignments run the corrected `replCopy` and
  `replMove` of the other four rows under "## Findings".
- `Ownership`: whole programs. Any sequence of constructions, assignments,
  `emplace`s, `reset`s and `swap`s, on any number of containers of either
  variant sharing one heap, keeps every container coherent. No block has two
  owners, and the live blocks are exactly the blocks some container owns.
  This holds for the two variants with the corrections under "## Findings".
  As written, `swap` loses values and the older assignments leak, as the
  as-written members show, so the theorem does not cover that code.

Two predicates carry most contracts. `Coherent(s, cap, h)` is the
representation invariant. The buffer matches the descriptor:
- nothing for the empty descriptor;
- a live heap block when `needsAlloc(cap)`;
- the object in place otherwise.

`ViewOf` is what a container holds, seen from outside: nothing, or a value of
a type.

The older variant's descriptor implements `copy`, `move`, `destroy` and `del`
(sized_any.hpp:191-212, 263-278) exactly as the current one does, so both
variants share `Descriptor`.

## Model

| member | source | states |
|---|---|---|
| Descriptor.InlineAtSmallerIsInlineAtLarger | include/kmillet/sized_any/sized_any.hpp:480-483 | `needsAlloc` is monotone in the capacity: a type in place at capacity `m` is in place at every `n >= m` |
| Descriptor.Copy | include/kmillet/sized_any/sized_any.hpp:500-507 | the copy has the source's value, in a fresh block of its own exactly when the type is boxed at the destination capacity (one allocation, no free); the source keeps its value; the empty descriptor writes nothing |
| Descriptor.Move | include/kmillet/sized_any/sized_any.hpp:508-521 | the destination gets the value and the source owns nothing; boxed-to-boxed hands the pointer over with no heap traffic; only in-place-to-boxed allocates and only boxed-to-in-place frees; the blocks given up and acquired are exactly the source's and the destination's |
| Descriptor.MoveUpwardNeverAllocates | include/kmillet/sized_any/sized_any.hpp:508-521 | a relocation into a capacity at least the source's never allocates |
| Descriptor.Destroy | include/kmillet/sized_any/sized_any.hpp:522-529 | the object is destroyed; a boxed object's block stays allocated and raw and the buffer still points to it; no allocation, no free |
| Descriptor.Del | include/kmillet/sized_any/sized_any.hpp:530-537 | the object is destroyed and a boxed object's block freed (exactly one deallocation); the buffer owns nothing afterwards; the empty descriptor does nothing |
| Container.Constructed | include/kmillet/sized_any/sized_any.hpp:572-607 | construction from a value (or in place) holds exactly that value of that type, allocating one block exactly when the type is boxed at `N` |
| Container.CopyConstructed | include/kmillet/sized_any/sized_any.hpp:544-556 | same or cross capacity: the copy holds the source's type and value in a block of its own (never the source's), allocated exactly when boxed at `N`; the source is unchanged |
| Container.MoveConstructed | include/kmillet/sized_any/sized_any.hpp:557-571 | same or cross capacity: the destination holds the source's type and value and the source is empty; boxed at both capacities keeps the very block; allocation and free counts follow the in-place/boxed combination |
| Container.Cleared | include/kmillet/sized_any/sized_any.hpp:709-715 | `reset` leaves the container empty and coherent, frees the block of a boxed value, and changes nothing on an empty container |
| Container.ResetTwiceIsResetOnce | include/kmillet/sized_any/sized_any.hpp:709-715 | a second `reset` changes nothing |
| Container.Emplaced | include/kmillet/sized_any/sized_any.hpp:652-679 | afterwards the container holds the new type and value; when both types are boxed with equal size the old block is kept with no allocation and no free, otherwise the old value is released and the new one allocated exactly when boxed |
| Container.CastAfterEmplace | include/kmillet/sized_any/sized_any.hpp:652-679 | after `emplace<T>` the container casts to `T` giving the new object, and to no other type, whatever it held before |
| Container.EmplaceReusesWhereAssignmentReallocates | include/kmillet/sized_any/sized_any.hpp:643-679 | with equal boxed sizes `emplace` neither allocates nor frees, while assigning the same value allocates one block and frees one |
| Container.Swapped | include/kmillet/sized_any/sized_any.hpp:716-725 | the corrected same-capacity swap of two distinct containers exchanges their states exactly and leaves the heap untouched |
| Container.SwapTwiceRestores | include/kmillet/sized_any/sized_any.hpp:716-725 | swapping twice restores both containers and the heap |
| Container.Relayed | include/kmillet/sized_any/sized_any.hpp:726-745 | the three relocations through a temporary leave each container with the other's former type and value, still separate, with allocations and frees exactly those the in-place/boxed changes require |
| Container.SwappedAcross | include/kmillet/sized_any/sized_any.hpp:726-745 | the cross-capacity swap exchanges the two containers' types and values whichever capacity is smaller, allocating exactly for values that become boxed and freeing exactly for values that become in place |
| Container.SwapAcrossTwiceRestores | include/kmillet/sized_any/sized_any.hpp:726-745 | swapping across capacities twice restores both values and the number of live blocks |
| Container.SwappedIn | include/kmillet/sized_any/sized_any.hpp:615-621 | swapping a temporary into a container and destroying the temporary leaves the container with the temporary's state, frees the old value's block and allocates nothing |
| Container.CopyAssigned | include/kmillet/sized_any/sized_any.hpp:615-628 | copy assignment from a distinct container leaves `rhs`'s type and an equal value in a block of its own; the old value is released and `rhs` unchanged |
| Container.MoveAssigned | include/kmillet/sized_any/sized_any.hpp:629-642 | move assignment leaves `rhs`'s type and value and `rhs` empty; the old value is released |
| Container.ValueAssigned | include/kmillet/sized_any/sized_any.hpp:643-650 | value assignment holds the value afterwards, allocating exactly when boxed and releasing the old value (no block reuse) |
| Container.Cast | include/kmillet/sized_any/sized_any.hpp:776-795 | yields an object exactly when the active descriptor is `T`'s, and then the object the container holds |
| Container.CastAfterConstruct | include/kmillet/sized_any/sized_any.hpp:572-607 | a container built from a `T` casts to `T` giving the object back, and to no other type |
| Container.MoveIntoLargerNeverAllocates | include/kmillet/sized_any/sized_any.hpp:564-571 | a move construction into a capacity at least the source's never allocates |
| Container.AnyCastPtr | include/kmillet/sized_any/sized_any.hpp:776-795 | pointer `any_cast`: null exactly for a null operand or a descriptor other than `T`'s, otherwise the contained object |
| Container.AnyCast | include/kmillet/sized_any/sized_any.hpp:758-775 | value and reference `any_cast`: `bad_any_cast` exactly when the descriptor is not `T`'s, otherwise the contained object |
| Container.SwappedAsWritten | include/kmillet/sized_any/sized_any.hpp:716-725 | the swap as written is defined exactly when this container is empty or both descriptors are equal, and with equal descriptors it is the corrected swap |
| Container.SwapAsWrittenLosesValue | include/kmillet/sized_any/sized_any.hpp:721-724 | swapping an empty container with a full one, as written, leaves the empty one claiming the value's type over nothing and the full one empty, with a boxed value's block owned by neither |
| Container.SwappedAcrossAsWritten | include/kmillet/sized_any/sized_any.hpp:726-745 | the cross-capacity swap as written is defined exactly when the other container is the smaller one, this one is empty, or both descriptors are equal, and then it is the corrected swap |
| Container.SwapAcrossAsWrittenLosesValue | include/kmillet/sized_any/sized_any.hpp:738-744 | the same loss through the other branch, plus a fresh block nobody owns when the value had to be boxed for the smaller capacity |
| Container.AssignmentAsWrittenNeedsSameType | include/kmillet/sized_any/sized_any.hpp:643-650 | assignment swaps the temporary in with the as-written swap, which is defined exactly when the incoming type equals the container's current one |
| Container.SizedAny.constructor | include/kmillet/sized_any/sized_any.hpp:540-543 | default construction is empty and coherent |
| Container.SizedAny.FromValue | include/kmillet/sized_any/sized_any.hpp:572-607 | the constructor reaches `Constructed`'s state and holds the value |
| Container.SizedAny.CopyOf | include/kmillet/sized_any/sized_any.hpp:544-556 | the constructor reaches `CopyConstructed`'s state; the source keeps its value |
| Container.SizedAny.MoveFrom | include/kmillet/sized_any/sized_any.hpp:557-571 | the constructor reaches `MoveConstructed`'s state; the source is empty |
| Container.SizedAny.CopyAssign | include/kmillet/sized_any/sized_any.hpp:615-628 | self-assignment changes nothing; otherwise the method reaches `CopyAssigned`'s state and holds `rhs`'s value; the temporary is swapped in with the corrected `swap` |
| Container.SizedAny.MoveAssign | include/kmillet/sized_any/sized_any.hpp:629-642 | self-assignment changes nothing; otherwise the method reaches `MoveAssigned`'s state, holds `rhs`'s value and empties `rhs`; the temporary is swapped in with the corrected `swap` |
| Container.SizedAny.AssignValue | include/kmillet/sized_any/sized_any.hpp:643-650 | the method reaches `ValueAssigned`'s state and holds the value; the temporary is swapped in with the corrected `swap` |
| Container.SizedAny.Emplace | include/kmillet/sized_any/sized_any.hpp:652-679 | the method reaches `Emplaced`'s state, holds the new value and returns it |
| Container.SizedAny.Reset | include/kmillet/sized_any/sized_any.hpp:709-715 | the method (which the destructor at lines 609-613 runs) reaches `Cleared`'s state and holds nothing |
| Container.SizedAny.Swap | include/kmillet/sized_any/sized_any.hpp:716-725 | the corrected swap: the two containers exchange their states and the heap is unchanged; a self-swap changes nothing |
| Container.SizedAny.SwapAcross | include/kmillet/sized_any/sized_any.hpp:726-745 | the corrected cross-capacity swap: the method reaches `SwappedAcross`'s states; each container holds the other's former value |
| Container.SizedAny.HasValue | include/kmillet/sized_any/sized_any.hpp:747-751 | true exactly when `type()` is not `typeid(void)` |
| Container.SizedAny.Type | include/kmillet/sized_any/sized_any.hpp:752-756 | `typeid(void)` exactly when the container holds no value, and otherwise the `typeid` of the value it holds |
| Legacy.ReplCopy | sized_any.hpp:214-234 | the destination holds the source's type and an equal value; a boxed copy over boxed content of equal size reuses the block (no allocation, no free), otherwise the old content is released and the copy allocated exactly when boxed; the source is unchanged; the empty descriptor releases the old content |
| Legacy.PlacedThenReleased | sized_any.hpp:245-261 | the non-handover path of `replMove` places the value by the `replCopy` rule and then releases the source, which owns nothing afterwards |
| Legacy.ReplMove | sized_any.hpp:235-262 | the destination holds the source's type and value and the source owns nothing; boxed at both capacities hands the pointer over after releasing the old content, with no allocation; otherwise the `replCopy` reuse-or-release rule applies and the source is then released |
| Legacy.ReplCopyAsWritten | sized_any.hpp:214-234 | as written, with the empty descriptor's no-op at line 161: the empty descriptor leaves the old content in place; on the reuse path the buffer ends up holding an object where a pointer is expected and the old block stays allocated, raw, with no owner; every other case is `ReplCopy` |
| Legacy.ReplMoveAsWritten | sized_any.hpp:235-262 | as written, with the no-op at line 162: the same two departures, on the reuse path of a source held in place; every other case is `ReplMove` |
| Legacy.ReplMoveReusePathNeedsLargerSource | sized_any.hpp:237-249 | the path of `replMove` that constructs over the pointer is taken only when the source's capacity exceeds the destination's, so only the cross-capacity move assignment (lines 381-390) can reach it |
| Legacy.AssignEmptyAsWrittenLeaks | sized_any.hpp:159-164 | assigning an empty container as written leaves the old object undestroyed and its block allocated under the empty descriptor; the corrected version frees it |
| Legacy.SameTypeAssignAsWrittenOrphansBlock | sized_any.hpp:214-224 | copy-assigning a boxed value to a container holding the same boxed type, as written, breaks the container and orphans its block; the corrected version reuses the block with no heap traffic |
| Legacy.LegacyCopyAssigned | sized_any.hpp:356-371 | the container holds `rhs`'s type and an equal value; block reuse as in `emplace`; `rhs` is unchanged |
| Legacy.LegacyMoveAssigned | sized_any.hpp:372-390 | the container holds `rhs`'s type and value and `rhs` is empty; it allocates only when the value changes from in place to boxed and no block is reused |
| Legacy.CopyAssignmentsAgree | sized_any.hpp:356-371 | both variants' copy assignments leave the same type and value and the same number of live blocks; the older never allocates more |
| Legacy.MoveAssignmentsAgree | sized_any.hpp:372-390 | both variants' move assignments leave the same type and value and the source empty; the older never allocates more |
| Legacy.LegacyAnyCastPtr | sized_any.hpp:499-518 | pointer `any_cast`: null exactly for a null operand or a different descriptor, otherwise the contained object |
| Legacy.LegacyAnyCast | sized_any.hpp:481-498 | value and reference `any_cast`: `bad_any_cast` exactly when the descriptor differs, otherwise the contained object |
| Legacy.LegacySizedAny.constructor | sized_any.hpp:281-284 | default construction is empty |
| Legacy.LegacySizedAny.FromValue | sized_any.hpp:313-348 | the constructor reaches `Constructed`'s state |
| Legacy.LegacySizedAny.CopyOf | sized_any.hpp:285-297 | the constructor reaches `CopyConstructed`'s state |
| Legacy.LegacySizedAny.MoveFrom | sized_any.hpp:298-312 | the constructor reaches `MoveConstructed`'s state |
| Legacy.LegacySizedAny.Dispose | sized_any.hpp:350-354 | the destructor's unconditional `del` has the heap effect of `reset`, a no-op for an empty container |
| Legacy.LegacySizedAny.CopyAssign | sized_any.hpp:356-371 | self-assignment changes nothing; otherwise the method reaches `LegacyCopyAssigned`'s state, through the corrected `replCopy` |
| Legacy.LegacySizedAny.MoveAssign | sized_any.hpp:372-390 | self-assignment changes nothing; otherwise the method reaches `LegacyMoveAssigned`'s state, through the corrected `replMove` |
| Legacy.LegacySizedAny.AssignValue | sized_any.hpp:391-398 | value assignment is exactly `emplace`, with its block reuse |
| Legacy.LegacySizedAny.Emplace | sized_any.hpp:400-427 | the method reaches `Emplaced`'s state and returns the new object |
| Legacy.LegacySizedAny.Reset | sized_any.hpp:457-462 | the unconditional `del` followed by the empty descriptor reaches `Cleared`'s state, as the current variant's `reset` does |
| Legacy.LegacySizedAny.Swap | sized_any.hpp:463-468 | the buffers and descriptors are exchanged wholesale, with no heap traffic |
| Legacy.LegacySizedAny.HasValue | sized_any.hpp:470-474 | true exactly when `type()` is not `typeid(void)` |
| Legacy.LegacySizedAny.Type | sized_any.hpp:475-479 | `typeid(void)` exactly when the container holds no value, and otherwise the `typeid` of the value it holds |
| Ownership.Step | include/kmillet/sized_any/sized_any.hpp:540-745 | every operation of either variant, with the corrections under "## Findings", on any containers of a program, keeps every container coherent, no block owned twice and every live block owned |
| Ownership.Run | include/kmillet/sized_any/sized_any.hpp:540-745 | the same for any sequence of operations of the corrected variants |
| Ownership.ProgramsNeverLeak | include/kmillet/sized_any/sized_any.hpp:540-745 | from an empty heap, every program of the corrected variants ends with the live blocks exactly those some container owns, and no two containers owning the same block |

## Left out

- Raw bytes, alignment and `reinterpret_cast`: the buffer is a tagged `Slot`, and a boxed value's pointer is an abstract address. The static assertion that `N >= sizeof(void*)` is a precondition (`cap >= PointerSize`, with 8 bytes).
- The contained type's constructors, destructors and exceptions: objects are abstract values, copying and moving them yields an equal value, and allocation never fails. `noexcept` clauses and strong exception safety are compile-time or run-time properties of C++ that are not modelled.
- `typeid` and the descriptor singletons' addresses: a type is an abstract number, and descriptors are compared by equality.
- The factories `make_sized_any` and the `any` alias (include/kmillet/sized_any/sized_any.hpp:418, 797-826; sized_any.hpp:520-539): thin wrappers over in-place construction, and their capacities depend on the platform's `sizeof`.
- The `initializer_list` overloads of the in-place constructor and of `emplace`: they differ from the argument-pack overloads only in how the object is built.
- Legacy.LegacySizedAny.Swap: the raw byte exchange is unsafe for a value that points into its own inline storage (sized_any.hpp:466). That needs real addresses, so the model exchanges slots and does not capture the hazard.
- The older variant's cross-capacity move assignment compares `&rhs` and `this`, which have different types, so the comparison is ill-formed. The model treats it as the self-check of the same-capacity form.
- The destructors as methods of the current variant: its destructor only calls `reset`, so `SizedAny.Reset` states its effect. The older variant's destructor is `LegacySizedAny.Dispose`.
- Heap-to-heap copy: the code allocates a fresh block (include/kmillet/sized_any/sized_any.hpp:502-503), so copying never shares a pointer, and the model follows the code.
- Ownership.Step: it does not state that containers other than the ones an operation names are unchanged. The per-operation functions it dispatches to (`ResetIn`, `MoveAssignedIn`, ...) state it, as `KeepsOthers`.
- Ownership.Step: an operation that would not compile is a no-op rather than an error. This covers a capacity below `sizeof(void*)`, the void type as a value, and a cross-capacity swap in the older variant, which has none.

## Findings

| source | as written | input that shows it | evidently intended | confidence | as-written member | corrected member |
|---|---|---|---|---|---|---|
| include/kmillet/sized_any/sized_any.hpp:723 | the third relocation moves the temporary, which holds the other container's value, with this container's descriptor `info`; every assignment swaps its temporary in through this `swap` (lines 615-650) | `sized_any<32> a; sized_any<32> b = std::string("x"); a.swap(b);` leaves `a` claiming `std::string` over a buffer holding nothing (`Container.SwapAsWrittenLosesValue`); `sized_any<32> a; a = std::string("x");` moves an uninitialised buffer as a string (`Container.AssignmentAsWrittenNeedsSameType`) | relocate the temporary with `other.info`, the descriptor of the value it holds | not executed | Container.SwappedAsWritten | Container.Swapped, Container.SizedAny.Swap, Container.SizedAny.CopyAssign, Container.SizedAny.MoveAssign, Container.SizedAny.AssignValue |
| include/kmillet/sized_any/sized_any.hpp:742 | the branch for a larger or equal `M` moves the temporary with `info` instead of `other.info` | `sized_any<16> a; sized_any<64> b = std::string("x"); a.swap(b);` (`Container.SwapAcrossAsWrittenLosesValue`) | relocate the temporary with `other.info`, as the branch for a smaller `M` does | not executed | Container.SwappedAcrossAsWritten | Container.SwappedAcross, Container.SizedAny.SwapAcross |
| sized_any.hpp:161 | the empty descriptor's `replCopy` does nothing, so copy-assigning an empty container never destroys or frees the destination's old content, and then sets the empty descriptor over it | `sized_any<32> a = std::string(40, 'x'); sized_any<32> e; a = e;` leaks the string's block (`Legacy.AssignEmptyAsWrittenLeaks`) | release the old content with `toInfo.del` | not executed | Legacy.ReplCopyAsWritten | Legacy.ReplCopy, Legacy.LegacySizedAny.CopyAssign |
| sized_any.hpp:162 | the empty descriptor's `replMove` does nothing, with the same leak for move assignment | `sized_any<32> a = std::string(40, 'x'); sized_any<32> e; a = std::move(e);` (`Legacy.AssignEmptyAsWrittenLeaks`) | release the old content with `toInfo.del` | not executed | Legacy.ReplMoveAsWritten | Legacy.ReplMove, Legacy.LegacySizedAny.MoveAssign |
| sized_any.hpp:221 | when the old block is reused, the copy is constructed at `to`, the buffer holding the pointer, rather than in the block it points to: the pointer is overwritten (and the buffer overrun when `sizeof(T) > N`), and the destroyed block is never freed | `sized_any<8> a = std::string("x"); sized_any<8> b = std::string("y"); a = b;` (`Legacy.SameTypeAssignAsWrittenOrphansBlock`) | construct in the reused block, as `emplace` does at line 411 | not executed | Legacy.ReplCopyAsWritten | Legacy.ReplCopy, Legacy.LegacySizedAny.CopyAssign |
| sized_any.hpp:248 | the same placement at `to` on the reuse path of `replMove` | no compiling program reaches it yet: the path needs a value in place at the source's capacity and boxed at the destination's, so the capacities differ, and the only caller with different capacities is the cross-capacity move assignment, whose `&rhs == this` at line 386 compares pointers to different types and does not compile (`Legacy.ReplMoveReusePathNeedsLargerSource`). Once that comparison is removed, `sized_any<64> b = std::string("y"); sized_any<8> a = std::string("x"); a = std::move(b);` reaches it | construct in the reused block | not executed; latent | Legacy.ReplMoveAsWritten | Legacy.ReplMove, Legacy.LegacySizedAny.MoveAssign |
