/// The older copy of the engine kept at the root of the repository. It shares
/// the descriptor's `copy`, `move`, `destroy` and `del` and the container's
/// construction, `emplace` and `any_cast` with the newer variant, but assigns
/// by replacing the destination's content directly (`replCopy`, `replMove`)
/// instead of building a temporary and swapping, resets and destroys with an
/// unconditional `del`, and swaps by exchanging the raw buffers.
module Legacy {
  import opened Memory
  import opened Descriptor
  import opened Container

  /** `replCopy` of a value described by `d` into a buffer of `toCap` bytes
      that holds a value described by `toInfo`. For a value it follows the
      same rule as `emplace`, with a copy of the source as the new object: a
      boxed copy whose old content is boxed with the same size is constructed
      in the old block after destroying what it held; otherwise the old
      content is released and the copy constructed afresh. The source is
      untouched. The empty descriptor releases the destination's old content. */
  function ReplCopy(d: TypeInfo, from: Slot, to: Slot, toInfo: TypeInfo, fromCap: nat, toCap: nat, h: Heap): (r: Written)
    requires Coherent(AnyState(d, from), fromCap, h) && Coherent(AnyState(toInfo, to), toCap, h) && Owned(from) !! Owned(to)
    ensures Coherent(AnyState(d, r.slot), toCap, r.heap)
    ensures ViewOf(AnyState(d, r.slot), toCap, r.heap) == ViewOf(AnyState(d, from), fromCap, h)
    ensures Coherent(AnyState(d, from), fromCap, r.heap)
    ensures ViewOf(AnyState(d, from), fromCap, r.heap) == ViewOf(AnyState(d, from), fromCap, h)
    ensures ReusesBlock(toInfo, d, toCap) ==>
              r.slot == to && r.heap.allocations == h.allocations && r.heap.deallocations == h.deallocations
    ensures !ReusesBlock(toInfo, d, toCap) ==>
              r.heap.allocations == h.allocations + Boxes(d, toCap) && r.heap.deallocations == h.deallocations + Boxes(toInfo, toCap)
    ensures Transfers(h, r.heap, Owned(to), Owned(r.slot)) && Owned(from) !! Owned(r.slot)
  {
    if d.VoidInfo? then
      TransfersNothing(h);
      Del(toInfo, to, toCap, h)
    else
      var m := Emplaced(AnyState(toInfo, to), d, ValueFor(d, from, fromCap, h), toCap, h);
      HoldsAcross(d, from, fromCap, h, m.heap, Owned(to), Owned(m.state.buff));
      Written(m.state.buff, m.heap)
  }

  /** The path of `replMove` that does not hand a pointer over: place the
      value as `replCopy` would, then release the source with `del`. */
  function PlacedThenReleased(d: TypeInfo, from: Slot, to: Slot, toInfo: TypeInfo, fromCap: nat, toCap: nat, h: Heap): (r: Relocated)
    requires Coherent(AnyState(d, from), fromCap, h) && Coherent(AnyState(toInfo, to), toCap, h) && Owned(from) !! Owned(to)
    requires d.Info? && !(d.NeedsAlloc(fromCap) && d.NeedsAlloc(toCap))
    ensures r.from == Empty && Coherent(AnyState(d, r.to), toCap, r.heap)
    ensures ViewOf(AnyState(d, r.to), toCap, r.heap) == ViewOf(AnyState(d, from), fromCap, h)
    ensures ReusesBlock(toInfo, d, toCap) ==>
              r.to == to && r.heap.allocations == h.allocations && r.heap.deallocations == h.deallocations
    ensures !ReusesBlock(toInfo, d, toCap) ==>
              && r.heap.allocations == h.allocations + Boxes(d, toCap)
              && r.heap.deallocations == h.deallocations + Boxes(toInfo, toCap) + Boxes(d, fromCap)
    ensures Transfers(h, r.heap, Owned(to) + Owned(from), Owned(r.to))
  {
    var w := ReplCopy(d, from, to, toInfo, fromCap, toCap, h);
    var released := Del(d, from, fromCap, w.heap);
    var freed := if d.NeedsAlloc(fromCap) then Owned(from) else {};
    TransfersThen(h, w.heap, released.heap, Owned(to), Owned(w.slot), freed, {});
    assert Owned(to) + (freed - Owned(w.slot)) == Owned(to) + Owned(from);
    assert (Owned(w.slot) - freed) + {} == Owned(w.slot);
    Relocated(released.slot, w.slot, released.heap)
  }

  /** `replMove`. A value boxed at both capacities hands its pointer over
      after the destination's old content is released, with no allocation.
      Otherwise the value is placed as `replCopy` places it (reusing the old
      block under the same condition) and the source is then released with
      `del`. The source owns nothing afterwards. The empty descriptor
      releases the destination's old content. */
  function ReplMove(d: TypeInfo, from: Slot, to: Slot, toInfo: TypeInfo, fromCap: nat, toCap: nat, h: Heap): (r: Relocated)
    requires Coherent(AnyState(d, from), fromCap, h) && Coherent(AnyState(toInfo, to), toCap, h) && Owned(from) !! Owned(to)
    ensures r.from == Empty && Coherent(AnyState(d, r.to), toCap, r.heap)
    ensures ViewOf(AnyState(d, r.to), toCap, r.heap) == ViewOf(AnyState(d, from), fromCap, h)
    ensures d.NeedsAlloc(fromCap) && d.NeedsAlloc(toCap) ==>
              && r.to == from
              && r.heap.allocations == h.allocations
              && r.heap.deallocations == h.deallocations + Boxes(toInfo, toCap)
    ensures !(d.NeedsAlloc(fromCap) && d.NeedsAlloc(toCap)) && ReusesBlock(toInfo, d, toCap) ==>
              && r.to == to
              && r.heap.allocations == h.allocations
              && r.heap.deallocations == h.deallocations
    ensures !(d.NeedsAlloc(fromCap) && d.NeedsAlloc(toCap)) && !ReusesBlock(toInfo, d, toCap) ==>
              && r.heap.allocations == h.allocations + Boxes(d, toCap)
              && r.heap.deallocations == h.deallocations + Boxes(toInfo, toCap) + Boxes(d, fromCap)
    ensures Transfers(h, r.heap, Owned(to) + Owned(from), Owned(r.to))
  {
    if d.VoidInfo? then
      TransfersNothing(h);
      var w := Del(toInfo, to, toCap, h);
      Relocated(from, w.slot, w.heap)
    else if d.NeedsAlloc(toCap) && d.NeedsAlloc(fromCap) then
      var w := Del(toInfo, to, toCap, h);
      HoldsAcross(d, from, fromCap, h, w.heap, Owned(to), {});
      Relocated(Empty, from, w.heap)
    else
      PlacedThenReleased(d, from, to, toInfo, fromCap, toCap, h)
  }

  /** `replCopy` exactly as written. The empty descriptor's version does
      nothing, so the destination keeps its old content. When the old block
      is reused, the copy is constructed in the buffer itself, over the
      pointer to the block, instead of in the block: the buffer then holds an
      object where the descriptor expects a pointer, and the block, whose
      object was destroyed, stays allocated with no owner. Every other case
      is the corrected `replCopy`. */
  function ReplCopyAsWritten(d: TypeInfo, from: Slot, to: Slot, toInfo: TypeInfo, fromCap: nat, toCap: nat, h: Heap): (r: Written)
    requires Coherent(AnyState(d, from), fromCap, h) && Coherent(AnyState(toInfo, to), toCap, h) && Owned(from) !! Owned(to)
    ensures d.VoidInfo? ==> r == Written(to, h)
    ensures ReusesBlock(toInfo, d, toCap) ==>
              && !Coherent(AnyState(d, r.slot), toCap, r.heap) && Owned(r.slot) == {}
              && to.ptr in r.heap.blocks && r.heap.blocks[to.ptr] == Raw
    ensures d.Info? && !ReusesBlock(toInfo, d, toCap) ==> r == ReplCopy(d, from, to, toInfo, fromCap, toCap, h)
  {
    if d.VoidInfo? then Written(to, h)
    else if ReusesBlock(toInfo, d, toCap) then
      var w := Destroy(toInfo, to, toCap, h);
      Written(Inline(ValueFor(d, from, fromCap, h)), w.heap)
    else ReplCopy(d, from, to, toInfo, fromCap, toCap, h)
  }

  /** `replMove` exactly as written: the same two departures as `replCopy`
      (nothing happens for the empty descriptor; a reused block is bypassed
      and the object built over the pointer to it), after which the source,
      in place at its capacity on that path, is released. */
  function ReplMoveAsWritten(d: TypeInfo, from: Slot, to: Slot, toInfo: TypeInfo, fromCap: nat, toCap: nat, h: Heap): (r: Relocated)
    requires Coherent(AnyState(d, from), fromCap, h) && Coherent(AnyState(toInfo, to), toCap, h) && Owned(from) !! Owned(to)
    ensures d.VoidInfo? ==> r == Relocated(from, to, h)
    ensures !d.NeedsAlloc(fromCap) && ReusesBlock(toInfo, d, toCap) ==>
              && r.from == Empty && !Coherent(AnyState(d, r.to), toCap, r.heap) && Owned(r.to) == {}
              && to.ptr in r.heap.blocks && r.heap.blocks[to.ptr] == Raw
    ensures d.Info? && !(!d.NeedsAlloc(fromCap) && ReusesBlock(toInfo, d, toCap)) ==>
              r == ReplMove(d, from, to, toInfo, fromCap, toCap, h)
  {
    if d.VoidInfo? then Relocated(from, to, h)
    else if !d.NeedsAlloc(fromCap) && ReusesBlock(toInfo, d, toCap) then
      var w := Destroy(toInfo, to, toCap, h);
      var released := Del(d, from, fromCap, w.heap);
      Relocated(released.slot, Inline(ValueFor(d, from, fromCap, h)), released.heap)
    else ReplMove(d, from, to, toInfo, fromCap, toCap, h)
  }

  /** The path of `replMove` that builds over the pointer needs a value in
      place at the source's capacity and boxed at the destination's, so the
      source is the larger container: only the cross-capacity move assignment
      can reach it. */
  lemma ReplMoveReusePathNeedsLargerSource(d: TypeInfo, toInfo: TypeInfo, fromCap: nat, toCap: nat)
    requires !d.NeedsAlloc(fromCap) && ReusesBlock(toInfo, d, toCap)
    ensures toCap < fromCap
  {
    if fromCap <= toCap {
      InlineAtSmallerIsInlineAtLarger(d, fromCap, toCap);
    }
  }

  /** Assigning an empty container, as written, to one holding a value: the
      container takes the empty descriptor but its buffer still holds the old
      object, which is never destroyed, and a boxed object's block stays
      allocated with no owner. The corrected version releases it. */
  lemma AssignEmptyAsWrittenLeaks(s: AnyState, cap: nat, h: Heap)
    requires Coherent(s, cap, h) && s.info.Info?
    ensures var w := ReplCopyAsWritten(VoidInfo, Empty, s.buff, s.info, cap, cap, h);
            && !Coherent(AnyState(VoidInfo, w.slot), cap, w.heap)
            && Owned(s.buff) <= w.heap.blocks.Keys
    ensures var m := ReplMoveAsWritten(VoidInfo, Empty, s.buff, s.info, cap, cap, h);
            && !Coherent(AnyState(VoidInfo, m.to), cap, m.heap)
            && Owned(s.buff) <= m.heap.blocks.Keys
    ensures var w := ReplCopy(VoidInfo, Empty, s.buff, s.info, cap, cap, h);
            && Coherent(AnyState(VoidInfo, w.slot), cap, w.heap)
            && w.heap.blocks.Keys == h.blocks.Keys - Owned(s.buff)
  {
  }

  /** Copy-assigning to a container that holds a boxed value of the same
      type, as written: the copy is built over the buffer's pointer, so the
      container no longer holds what its descriptor says, and its old block
      stays allocated with neither container owning it. The corrected version
      reuses the block, allocating and freeing nothing. */
  lemma SameTypeAssignAsWrittenOrphansBlock(s: AnyState, rhs: AnyState, rhsCap: nat, cap: nat, h: Heap)
    requires Coherent(s, cap, h) && Coherent(rhs, rhsCap, h) && Separate(s, rhs)
    requires s.info == rhs.info && s.info.NeedsAlloc(cap)
    ensures var w := ReplCopyAsWritten(rhs.info, rhs.buff, s.buff, s.info, rhsCap, cap, h);
            && !Coherent(AnyState(rhs.info, w.slot), cap, w.heap)
            && s.buff.ptr in w.heap.blocks && s.buff.ptr !in Owned(w.slot) + Owned(rhs.buff)
    ensures var l := LegacyCopyAssigned(s, rhs, rhsCap, cap, h);
            && Coherent(l.state, cap, l.heap) && l.state.buff == s.buff
            && l.heap.allocations == h.allocations && l.heap.deallocations == h.deallocations
  {
  }

  // ---------------------------------------------------------------------------
  // Assignment by direct replacement
  // ---------------------------------------------------------------------------

  /** Copy assignment from a distinct container: `rhs`'s descriptor and an
      equal value replace the old content, reusing the old block when both are
      boxed with equal size; `rhs` is untouched. */
  function LegacyCopyAssigned(s: AnyState, rhs: AnyState, rhsCap: nat, cap: nat, h: Heap): (r: Made)
    requires Coherent(s, cap, h) && Coherent(rhs, rhsCap, h) && Separate(s, rhs)
    ensures Coherent(r.state, cap, r.heap) && ViewOf(r.state, cap, r.heap) == ViewOf(rhs, rhsCap, h)
    ensures Coherent(rhs, rhsCap, r.heap) && ViewOf(rhs, rhsCap, r.heap) == ViewOf(rhs, rhsCap, h)
    ensures ReusesBlock(s.info, rhs.info, cap) ==>
              r.state.buff == s.buff && r.heap.allocations == h.allocations && r.heap.deallocations == h.deallocations
    ensures !ReusesBlock(s.info, rhs.info, cap) ==>
              r.heap.allocations == h.allocations + Boxes(rhs.info, cap) && r.heap.deallocations == h.deallocations + Boxes(s.info, cap)
    ensures Transfers(h, r.heap, Owned(s.buff), Owned(r.state.buff)) && Separate(r.state, rhs)
  {
    var w := ReplCopy(rhs.info, rhs.buff, s.buff, s.info, rhsCap, cap, h);
    Made(AnyState(rhs.info, w.slot), w.heap)
  }

  /** Move assignment from a distinct container: `rhs`'s descriptor and value
      replace the old content and `rhs` is left empty. */
  function LegacyMoveAssigned(s: AnyState, rhs: AnyState, rhsCap: nat, cap: nat, h: Heap): (r: Pair)
    requires Coherent(s, cap, h) && Coherent(rhs, rhsCap, h) && Separate(s, rhs)
    ensures Coherent(r.first, cap, r.heap) && ViewOf(r.first, cap, r.heap) == ViewOf(rhs, rhsCap, h)
    ensures r.second == Vacant
    ensures r.heap.allocations == h.allocations + (if ReusesBlock(s.info, rhs.info, cap) then 0 else Allocates(rhs.info, rhsCap, cap))
    ensures Transfers(h, r.heap, Owned(s.buff) + Owned(rhs.buff), Owned(r.first.buff))
  {
    var m := ReplMove(rhs.info, rhs.buff, s.buff, s.info, rhsCap, cap, h);
    Pair(AnyState(rhs.info, m.to), AnyState(VoidInfo, m.from), m.heap)
  }

  /** Both variants' copy assignments leave the same type and value in the
      destination and the source untouched; the older one never allocates
      more. */
  lemma CopyAssignmentsAgree(s: AnyState, rhs: AnyState, rhsCap: nat, cap: nat, h: Heap)
    requires Coherent(s, cap, h) && Coherent(rhs, rhsCap, h) && Separate(s, rhs)
    ensures var l := LegacyCopyAssigned(s, rhs, rhsCap, cap, h);
            var n := CopyAssigned(s, rhs, rhsCap, cap, h);
            && ViewOf(l.state, cap, l.heap) == ViewOf(n.state, cap, n.heap)
            && l.heap.allocations <= n.heap.allocations
            && |l.heap.blocks| == |n.heap.blocks|
  {
  }

  /** Both variants' move assignments leave the same type and value in the
      destination and the source empty; the older one never allocates more. */
  lemma MoveAssignmentsAgree(s: AnyState, rhs: AnyState, rhsCap: nat, cap: nat, h: Heap)
    requires Coherent(s, cap, h) && Coherent(rhs, rhsCap, h) && Separate(s, rhs)
    ensures var l := LegacyMoveAssigned(s, rhs, rhsCap, cap, h);
            var n := MoveAssigned(s, rhs, rhsCap, cap, h);
            && ViewOf(l.first, cap, l.heap) == ViewOf(n.first, cap, n.heap)
            && l.second == n.second == Vacant
            && l.heap.allocations <= n.heap.allocations
  {
  }

  // ---------------------------------------------------------------------------
  // The container object
  // ---------------------------------------------------------------------------

  /** The older container. Its members run the root header's statements on
      its fields; the two assignments run them with the corrected `replCopy`
      and `replMove`. `has_value`, `type` and `any_cast` are the same code as
      the newer variant's, so their members here repeat `SizedAny`'s. */
  class LegacySizedAny {
    /** The template argument `N`. */
    const cap: nat
    var info: TypeInfo
    var buff: Slot

    function State(): AnyState
      reads this
    {
      AnyState(info, buff)
    }

    ghost predicate Valid(h: Heap)
      reads this
    {
      Coherent(State(), cap, h)
    }

    function View(h: Heap): Contents
      reads this
      requires Valid(h)
    {
      ViewOf(State(), cap, h)
    }

    /** Default construction: an empty container. */
    constructor (cap: nat)
      requires cap >= PointerSize
      ensures this.cap == cap && State() == Vacant
    {
      this.cap := cap;
      info := VoidInfo;
      buff := Empty;
    }

    /** Construction from a value, or in place from arguments that build `obj`. */
    constructor FromValue(cap: nat, d: TypeInfo, obj: Object, alloc: Allocator)
      requires cap >= PointerSize && d.Info? && alloc.heap.Wf()
      modifies alloc
      ensures this.cap == cap
      ensures Made(State(), alloc.heap) == Constructed(d, obj, cap, old(alloc.heap))
    {
      this.cap := cap;
      info := d;
      if d.NeedsAlloc(cap) {
        var a := alloc.heap.New(obj);
        buff := Boxed(a.ptr);
        alloc.heap := a.heap;
      } else {
        buff := Inline(obj);
      }
    }

    /** Copy construction from `other`, whose capacity may differ. */
    constructor CopyOf(cap: nat, other: LegacySizedAny, alloc: Allocator)
      requires cap >= PointerSize && other.Valid(alloc.heap)
      modifies alloc
      ensures this.cap == cap
      ensures Made(State(), alloc.heap) == CopyConstructed(other.State(), other.cap, cap, old(alloc.heap))
    {
      this.cap := cap;
      info := other.info;
      var w := Copy(other.info, other.buff, Empty, other.cap, cap, alloc.heap);
      buff := w.slot;
      alloc.heap := w.heap;
    }

    /** Move construction from `other`, whose capacity may differ; `other` is
        left empty. */
    constructor MoveFrom(cap: nat, other: LegacySizedAny, alloc: Allocator)
      requires cap >= PointerSize && other.Valid(alloc.heap)
      modifies other, alloc
      ensures this.cap == cap
      ensures Pair(State(), other.State(), alloc.heap) == MoveConstructed(old(other.State()), other.cap, cap, old(alloc.heap))
    {
      this.cap := cap;
      info := other.info;
      var m := Move(other.info, other.buff, Empty, other.cap, cap, alloc.heap);
      buff := m.to;
      other.buff := m.from;
      alloc.heap := m.heap;
      other.info := VoidInfo;
    }

    /** The destructor: `del` on the active descriptor, which releases the
        value and does nothing for an empty container. */
    method Dispose(alloc: Allocator)
      requires Valid(alloc.heap)
      modifies this, alloc
      ensures alloc.heap == Cleared(old(State()), cap, old(alloc.heap)).heap
    {
      var w := Del(info, buff, cap, alloc.heap);
      buff := w.slot;
      alloc.heap := w.heap;
    }

    /** Copy assignment by the corrected `replCopy` (`ReplCopyAsWritten` is
        the code as written). Assigning a container to itself
        changes nothing. */
    method CopyAssign(rhs: LegacySizedAny, alloc: Allocator)
      requires Valid(alloc.heap) && rhs.Valid(alloc.heap)
      requires rhs != this ==> Separate(State(), rhs.State())
      modifies this, alloc
      ensures rhs == this ==> State() == old(State()) && alloc.heap == old(alloc.heap)
      ensures rhs != this ==>
                Made(State(), alloc.heap) == LegacyCopyAssigned(old(State()), old(rhs.State()), rhs.cap, cap, old(alloc.heap))
    {
      if rhs == this {
        return;
      }
      var w := ReplCopy(rhs.info, rhs.buff, buff, info, rhs.cap, cap, alloc.heap);
      buff := w.slot;
      alloc.heap := w.heap;
      info := rhs.info;
    }

    /** Move assignment by the corrected `replMove` (`ReplMoveAsWritten` is
        the code as written); `rhs` is left empty. Assigning a
        container to itself changes nothing. */
    method MoveAssign(rhs: LegacySizedAny, alloc: Allocator)
      requires Valid(alloc.heap) && rhs.Valid(alloc.heap)
      requires rhs != this ==> Separate(State(), rhs.State())
      modifies this, rhs, alloc
      ensures rhs == this ==> State() == old(State()) && alloc.heap == old(alloc.heap)
      ensures rhs != this ==>
                Pair(State(), rhs.State(), alloc.heap) == LegacyMoveAssigned(old(State()), old(rhs.State()), rhs.cap, cap, old(alloc.heap))
    {
      if rhs == this {
        return;
      }
      var m := ReplMove(rhs.info, rhs.buff, buff, info, rhs.cap, cap, alloc.heap);
      buff := m.to;
      rhs.buff := m.from;
      alloc.heap := m.heap;
      info := rhs.info;
      rhs.info := VoidInfo;
    }

    /** Assignment of a value: exactly `emplace`. */
    method AssignValue(d: TypeInfo, obj: Object, alloc: Allocator)
      requires Valid(alloc.heap) && d.Info?
      modifies this, alloc
      ensures Made(State(), alloc.heap) == Emplaced(old(State()), d, obj, cap, old(alloc.heap))
    {
      var _ := Emplace(d, obj, alloc);
    }

    /** `emplace`; returns the new object. */
    method Emplace(d: TypeInfo, obj: Object, alloc: Allocator) returns (r: Object)
      requires Valid(alloc.heap) && d.Info?
      modifies this, alloc
      ensures Made(State(), alloc.heap) == Emplaced(old(State()), d, obj, cap, old(alloc.heap))
      ensures r == obj
    {
      if d.NeedsAlloc(cap) {
        if info.NeedsAlloc(cap) && info.Size() == d.Size() {
          var w := Destroy(info, buff, cap, alloc.heap);
          alloc.heap := w.heap.ConstructAt(buff.ptr, obj);
        } else {
          var w := Del(info, buff, cap, alloc.heap);
          var a := w.heap.New(obj);
          buff := Boxed(a.ptr);
          alloc.heap := a.heap;
        }
        info := d;
        r := alloc.heap.blocks[buff.ptr].obj;
      } else {
        var w := Del(info, buff, cap, alloc.heap);
        alloc.heap := w.heap;
        buff := Inline(obj);
        info := d;
        r := buff.obj;
      }
    }

    /** `reset`: an unconditional `del`, then the empty descriptor. It has the
        same effect as the newer variant's `reset`, which skips an empty
        container. */
    method Reset(alloc: Allocator)
      requires Valid(alloc.heap)
      modifies this, alloc
      ensures Made(State(), alloc.heap) == Cleared(old(State()), cap, old(alloc.heap))
    {
      var w := Del(info, buff, cap, alloc.heap);
      buff := w.slot;
      alloc.heap := w.heap;
      info := VoidInfo;
    }

    /** `swap`: the raw buffers and the descriptors are exchanged wholesale,
        with no relocation and no heap traffic. */
    method Swap(other: LegacySizedAny)
      requires other.cap == cap
      modifies this, other
      ensures State() == old(other.State()) && other.State() == old(State())
    {
      buff, other.buff := other.buff, buff;
      info, other.info := other.info, info;
    }

    /** `has_value`, as in the newer variant. */
    function HasValue(): (b: bool)
      reads this
      ensures b <==> Type() != VoidType
    {
      info != VoidInfo
    }

    /** `type`, as in the newer variant. */
    function Type(): (t: TypeId)
      reads this
      ensures forall h: Heap :: Valid(h) ==> (t == VoidType <==> View(h) == NoValue)
      ensures forall h: Heap :: Valid(h) && View(h).Holding? ==> t == View(h).info.Type()
    {
      info.Type()
    }
  }

  /** The pointer form of `any_cast<T>`, as in the newer variant: null for a
      null operand or a descriptor other than `T`'s, otherwise the contained
      object. */
  function LegacyAnyCastPtr(operand: LegacySizedAny?, t: TypeInfo, h: Heap): (r: Option<Object>)
    reads operand
    requires t.Info? && (operand != null ==> operand.Valid(h))
    ensures r.None? <==> operand == null || operand.info != t
    ensures r.Some? ==> operand.View(h) == Holding(t, r.value)
  {
    if operand == null then None else Cast(operand.State(), operand.cap, t, h)
  }

  /** The value and reference forms of `any_cast<T>`. */
  function LegacyAnyCast(operand: LegacySizedAny, t: TypeInfo, h: Heap): (r: Extracted)
    reads operand
    requires t.Info? && operand.Valid(h)
    ensures r.BadAnyCast? <==> operand.info != t
    ensures r.Extracted? ==> operand.View(h) == Holding(t, r.obj)
  {
    match LegacyAnyCastPtr(operand, t, h)
    case Some(obj) => Extracted(obj)
    case None => BadAnyCast
  }
}
