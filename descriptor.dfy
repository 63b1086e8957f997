/// The per-type descriptor `TypeInfo<T>` and the empty descriptor
/// `TypeInfo<void>`: type identity, size, the capacity-parametric predicate
/// `needsAlloc`, and the four slot operations `copy`, `move`, `destroy` and
/// `del`. Each slot operation reads one buffer's representation at a source
/// capacity and writes another's at a destination capacity; the global heap is
/// passed in and the new heap returned.
module Descriptor {
  import opened Memory

  /** `sizeof(void*)`: a container capacity below it is refused at compile time. */
  const PointerSize: nat := 8

  /** What `type()` returns: `typeid(void)` or the `typeid` of a contained type. */
  datatype TypeId = VoidType | TypeOf(id: nat)

  /** A descriptor. `VoidInfo` is the single `TypeInfo<void>`; `Info` is the
      single `TypeInfo<T>` of the type numbered `id`, with `sizeof(T)` and whether
      `T`'s move constructor is `noexcept`. Descriptors are compared by equality,
      as the source compares their addresses. */
  datatype TypeInfo = VoidInfo | Info(id: nat, size: nat, nothrowMove: bool)
  {
    function Type(): TypeId {
      if VoidInfo? then VoidType else TypeOf(id)
    }

    function Size(): nat {
      if VoidInfo? then 0 else size
    }

    /** A value of this type is kept behind a heap pointer in a buffer of `cap`
        bytes when it does not fit or its move may throw; the void descriptor
        never allocates. */
    predicate NeedsAlloc(cap: nat) {
      Info? && (size > cap || !nothrowMove)
    }
  }

  /** What a buffer holds, as far as ownership goes: nothing live (never
      written, moved from or released), an object in place, or the address of
      a heap block it owns. */
  datatype Slot = Empty | Inline(obj: Object) | Boxed(ptr: Ptr)

  /** The heap blocks a buffer owns. */
  function Owned(s: Slot): set<Ptr> {
    if s.Boxed? then {s.ptr} else {}
  }

  /** `s` is the representation descriptor `d` expects in a buffer of `cap`
      bytes: nothing for the void descriptor, a pointer to a live block when `d`
      needs allocation at `cap`, the object itself otherwise. */
  ghost predicate Holds(d: TypeInfo, s: Slot, cap: nat, h: Heap) {
    if d.VoidInfo? then s == Empty
    else if d.NeedsAlloc(cap) then s.Boxed? && h.IsLive(s.ptr)
    else s.Inline?
  }

  /** `getValueForCopying` / `getValueForMoving`: the object a buffer of `cap`
      bytes holds, found through the pointer when `d` needs allocation at `cap`. */
  function ValueFor(d: TypeInfo, s: Slot, cap: nat, h: Heap): Object
    requires d.Info? && Holds(d, s, cap, h)
  {
    if d.NeedsAlloc(cap) then h.blocks[s.ptr].obj else s.obj
  }

  /** The result of an operation that writes one buffer. */
  datatype Written = Written(slot: Slot, heap: Heap)

  /** The result of a relocation: what the source and destination buffers hold
      afterwards. */
  datatype Relocated = Relocated(from: Slot, to: Slot, heap: Heap)

  /** `copy(from, to, fromCap, toCap)`: construct a copy of the object `from`
      holds at `fromCap` into `to`'s representation at `toCap`. A type that
      needs allocation at `toCap` gets a block of its own. The void descriptor
      writes nothing. */
  function Copy(d: TypeInfo, from: Slot, to: Slot, fromCap: nat, toCap: nat, h: Heap): (r: Written)
    requires h.Wf() && (d.Info? ==> Holds(d, from, fromCap, h))
    ensures r.heap.Wf()
    ensures d.VoidInfo? ==> r == Written(to, h)
    ensures d.Info? ==> Holds(d, r.slot, toCap, r.heap) && ValueFor(d, r.slot, toCap, r.heap) == ValueFor(d, from, fromCap, h)
    ensures d.Info? ==> Holds(d, from, fromCap, r.heap) && ValueFor(d, from, fromCap, r.heap) == ValueFor(d, from, fromCap, h)
    ensures r.heap.allocations == h.allocations + (if d.NeedsAlloc(toCap) then 1 else 0)
    ensures r.heap.deallocations == h.deallocations
    ensures d.Info? ==> Transfers(h, r.heap, {}, Owned(r.slot))
  {
    if d.VoidInfo? then Written(to, h)
    else
      var v := ValueFor(d, from, fromCap, h);
      if d.NeedsAlloc(toCap) then
        var a := h.New(v);
        Written(Boxed(a.ptr), a.heap)
      else
        Written(Inline(v), h)
  }

  /** `move(from, to, fromCap, toCap)`: relocate the object. When it is
      heap-backed at both capacities the pointer itself is handed over;
      otherwise the object is move-constructed into `to`'s representation and
      `from` is released with `del`. Either way `from` owns nothing afterwards.
      The void descriptor does nothing. */
  function Move(d: TypeInfo, from: Slot, to: Slot, fromCap: nat, toCap: nat, h: Heap): (r: Relocated)
    requires h.Wf() && (d.Info? ==> Holds(d, from, fromCap, h))
    ensures r.heap.Wf()
    ensures d.VoidInfo? ==> r == Relocated(from, to, h)
    ensures d.Info? ==> r.from == Empty
    ensures d.Info? ==> Holds(d, r.to, toCap, r.heap) && ValueFor(d, r.to, toCap, r.heap) == ValueFor(d, from, fromCap, h)
    ensures r.heap.allocations == h.allocations + (if d.NeedsAlloc(toCap) && !d.NeedsAlloc(fromCap) then 1 else 0)
    ensures r.heap.deallocations == h.deallocations + (if d.NeedsAlloc(fromCap) && !d.NeedsAlloc(toCap) then 1 else 0)
    ensures d.NeedsAlloc(fromCap) && d.NeedsAlloc(toCap) ==> r.to == from && r.heap == h
    ensures d.Info? ==> Transfers(h, r.heap, Owned(from), Owned(r.to))
  {
    if d.VoidInfo? then Relocated(from, to, h)
    else if d.NeedsAlloc(toCap) && d.NeedsAlloc(fromCap) then
      Relocated(Empty, from, h)
    else if d.NeedsAlloc(toCap) then
      var a := h.New(ValueFor(d, from, fromCap, h));
      var released := Del(d, from, fromCap, a.heap);
      Relocated(released.slot, Boxed(a.ptr), released.heap)
    else
      var released := Del(d, from, fromCap, h);
      Relocated(released.slot, Inline(ValueFor(d, from, fromCap, h)), released.heap)
  }

  /** `destroy(buff, cap)`: run the destructor but keep the storage. A
      heap-backed object leaves its block allocated and raw, and the buffer
      still points to it. */
  function Destroy(d: TypeInfo, s: Slot, cap: nat, h: Heap): (r: Written)
    requires h.Wf() && (d.Info? ==> Holds(d, s, cap, h))
    ensures r.heap.Wf()
    ensures d.VoidInfo? ==> r == Written(s, h)
    ensures d.NeedsAlloc(cap) ==> r.slot == s && r.heap.blocks == h.blocks[s.ptr := Raw]
    ensures d.Info? && !d.NeedsAlloc(cap) ==> r == Written(Empty, h)
    ensures r.heap.allocations == h.allocations && r.heap.deallocations == h.deallocations
  {
    if d.NeedsAlloc(cap) then Written(s, h.DestroyAt(s.ptr))
    else if d.Info? then Written(Empty, h)
    else Written(s, h)
  }

  /** `del(buff, cap)`: destroy the object and, when it is heap-backed, free
      its block. The buffer owns nothing afterwards. */
  function Del(d: TypeInfo, s: Slot, cap: nat, h: Heap): (r: Written)
    requires h.Wf() && (d.Info? ==> Holds(d, s, cap, h))
    ensures r.heap.Wf()
    ensures d.VoidInfo? ==> r == Written(s, h)
    ensures d.Info? ==> r.slot == Empty
    ensures r.heap.allocations == h.allocations
    ensures r.heap.deallocations == h.deallocations + (if d.NeedsAlloc(cap) then 1 else 0)
    ensures d.Info? ==> Transfers(h, r.heap, if d.NeedsAlloc(cap) then Owned(s) else {}, {})
  {
    if d.NeedsAlloc(cap) then Written(Empty, h.Delete(s.ptr))
    else if d.Info? then Written(Empty, h)
    else Written(s, h)
  }

  /** A buffer keeps its representation and its value across an ownership
      transfer that did not give up the buffer's block, and none of the
      blocks the transfer acquired is that block. */
  lemma HoldsAcross(d: TypeInfo, s: Slot, cap: nat, h: Heap, h': Heap, before: set<Ptr>, after: set<Ptr>)
    requires Holds(d, s, cap, h) && Transfers(h, h', before, after) && Owned(s) !! before
    ensures Holds(d, s, cap, h')
    ensures d.Info? ==> ValueFor(d, s, cap, h') == ValueFor(d, s, cap, h)
    ensures Owned(s) !! after
  {
  }

  /** A type stored in place at capacity `m` is stored in place at every larger
      capacity `n`: `needsAlloc` is monotone in the capacity. */
  lemma InlineAtSmallerIsInlineAtLarger(d: TypeInfo, m: nat, n: nat)
    requires m <= n && !d.NeedsAlloc(m)
    ensures !d.NeedsAlloc(n)
  {
  }

  /** A relocation into a buffer at least as large as the source never
      allocates. */
  lemma MoveUpwardNeverAllocates(d: TypeInfo, from: Slot, to: Slot, fromCap: nat, toCap: nat, h: Heap)
    requires h.Wf() && (d.Info? ==> Holds(d, from, fromCap, h))
    requires fromCap <= toCap
    ensures Move(d, from, to, fromCap, toCap, h).heap.allocations == h.allocations
  {
    if d.NeedsAlloc(toCap) && !d.NeedsAlloc(fromCap) {
      InlineAtSmallerIsInlineAtLarger(d, fromCap, toCap);
    }
  }
}
