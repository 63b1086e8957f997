/// `kmillet::sized_any<N>`: a descriptor and an `N`-byte buffer. The buffer holds
/// the value in place or a pointer to its heap block, as the descriptor's
/// `needsAlloc(N)` decides.
///
/// The first half of this module states each operation as a function of the
/// container's state and the heap (the specification); the class `SizedAny`
/// at the end runs the source's statements one by one on its fields and is
/// proved to reach the state those functions describe. Its `Swap` and
/// `SwapAcross` run the corrected `swap` (the temporary relocated with the
/// descriptor of the value it holds, not with `info`), and so do the three
/// assignments, which swap their temporary in; the `swap` exactly as written
/// is `SwappedAsWritten` and `SwappedAcrossAsWritten`.
module Container {
  import opened Memory
  import opened Descriptor

  /** The two members of a container: `info` and `buff`. */
  datatype AnyState = AnyState(info: TypeInfo, buff: Slot)

  /** The state of a default-constructed, reset or moved-from container. */
  const Vacant: AnyState := AnyState(VoidInfo, Empty)

  /** The representation invariant of a container of capacity `cap`: the
      capacity can hold a pointer, and the buffer holds exactly what the
      descriptor says it holds. */
  ghost predicate Coherent(s: AnyState, cap: nat, h: Heap) {
    cap >= PointerSize && h.Wf() && Holds(s.info, s.buff, cap, h)
  }

  /** Two containers do not own the same heap block. */
  ghost predicate Separate(a: AnyState, b: AnyState) {
    Owned(a.buff) !! Owned(b.buff)
  }

  /** What a container holds, seen from outside: nothing, or a value of a type. */
  datatype Contents = NoValue | Holding(info: TypeInfo, obj: Object)

  function ViewOf(s: AnyState, cap: nat, h: Heap): Contents
    requires Coherent(s, cap, h)
  {
    if s.info.VoidInfo? then NoValue else Holding(s.info, ValueFor(s.info, s.buff, cap, h))
  }

  /** 1 when relocating a `d` from capacity `fromCap` to capacity `toCap` has
      to allocate (in place before, boxed after), else 0. Read with the
      capacities the other way round, it says whether the relocation frees. */
  function Allocates(d: TypeInfo, fromCap: nat, toCap: nat): nat {
    if d.NeedsAlloc(toCap) && !d.NeedsAlloc(fromCap) then 1 else 0
  }

  /** 1 when a `d` is boxed at `cap`, else 0. */
  function Boxes(d: TypeInfo, cap: nat): nat {
    if d.NeedsAlloc(cap) then 1 else 0
  }

  /** `emplace` reuses the old heap block for the new object: both types are
      boxed at `cap` and report the same size. */
  predicate ReusesBlock(current: TypeInfo, incoming: TypeInfo, cap: nat) {
    incoming.NeedsAlloc(cap) && current.NeedsAlloc(cap) && current.Size() == incoming.Size()
  }

  datatype Made = Made(state: AnyState, heap: Heap)
  datatype Pair = Pair(first: AnyState, second: AnyState, heap: Heap)

  datatype Option<T> = None | Some(value: T)

  /** The value and reference forms of `any_cast` either yield the object or
      throw `std::bad_any_cast`. */
  datatype Extracted = Extracted(obj: Object) | BadAnyCast

  // ---------------------------------------------------------------------------
  // Construction
  // ---------------------------------------------------------------------------

  /** Construction from a value (or in place from arguments that build `obj`). */
  function Constructed(d: TypeInfo, obj: Object, cap: nat, h: Heap): (r: Made)
    requires d.Info? && cap >= PointerSize && h.Wf()
    ensures Coherent(r.state, cap, r.heap) && ViewOf(r.state, cap, r.heap) == Holding(d, obj)
    ensures r.heap.allocations == h.allocations + Boxes(d, cap)
    ensures r.heap.deallocations == h.deallocations
    ensures Transfers(h, r.heap, {}, Owned(r.state.buff))
  {
    if d.NeedsAlloc(cap) then
      var a := h.New(obj);
      Made(AnyState(d, Boxed(a.ptr)), a.heap)
    else
      Made(AnyState(d, Inline(obj)), h)
  }

  /** Copy construction from a container of capacity `srcCap` (equal to `cap`
      or not): same descriptor, an equal value, a block of its own exactly
      when the type is boxed at `cap`, and the source untouched. */
  function CopyConstructed(src: AnyState, srcCap: nat, cap: nat, h: Heap): (r: Made)
    requires Coherent(src, srcCap, h) && cap >= PointerSize
    ensures Coherent(r.state, cap, r.heap) && ViewOf(r.state, cap, r.heap) == ViewOf(src, srcCap, h)
    ensures Coherent(src, srcCap, r.heap) && ViewOf(src, srcCap, r.heap) == ViewOf(src, srcCap, h)
    ensures r.heap.allocations == h.allocations + Boxes(src.info, cap)
    ensures r.heap.deallocations == h.deallocations
    ensures Transfers(h, r.heap, {}, Owned(r.state.buff)) && Separate(r.state, src)
  {
    var w := Copy(src.info, src.buff, Empty, srcCap, cap, h);
    Made(AnyState(src.info, w.slot), w.heap)
  }

  /** Move construction from a container of capacity `srcCap`: the new
      container takes the descriptor and the value, the source is left empty.
      It allocates only when the value was in place at `srcCap` and is boxed
      at `cap`; a boxed value that stays boxed keeps its block. */
  function MoveConstructed(src: AnyState, srcCap: nat, cap: nat, h: Heap): (r: Pair)
    requires Coherent(src, srcCap, h) && cap >= PointerSize
    ensures Coherent(r.first, cap, r.heap) && ViewOf(r.first, cap, r.heap) == ViewOf(src, srcCap, h)
    ensures r.second == Vacant
    ensures r.heap.allocations == h.allocations + Allocates(src.info, srcCap, cap)
    ensures r.heap.deallocations == h.deallocations + Allocates(src.info, cap, srcCap)
    ensures src.info.NeedsAlloc(srcCap) && src.info.NeedsAlloc(cap) ==> r.first == src && r.heap == h
    ensures Transfers(h, r.heap, Owned(src.buff), Owned(r.first.buff))
  {
    var m := Move(src.info, src.buff, Empty, srcCap, cap, h);
    Pair(AnyState(src.info, m.to), AnyState(VoidInfo, m.from), m.heap)
  }

  // ---------------------------------------------------------------------------
  // reset, emplace
  // ---------------------------------------------------------------------------

  /** `reset`: release the value, if any, and become empty. Nothing happens
      to an empty container. */
  function Cleared(s: AnyState, cap: nat, h: Heap): (r: Made)
    requires Coherent(s, cap, h)
    ensures r.state == Vacant && Coherent(r.state, cap, r.heap)
    ensures s.info.VoidInfo? ==> r == Made(s, h)
    ensures r.heap.allocations == h.allocations
    ensures r.heap.deallocations == h.deallocations + Boxes(s.info, cap)
    ensures Transfers(h, r.heap, Owned(s.buff), {})
  {
    if s.info.VoidInfo? then Made(s, h)
    else
      var w := Del(s.info, s.buff, cap, h);
      Made(AnyState(VoidInfo, w.slot), w.heap)
  }

  /** `emplace<T>(args...)`: the container ends up holding a `T` built from
      the arguments. When the old and the new type are both boxed and of equal
      size, the old block is destroyed in place and reused, with no
      allocation and no deallocation; otherwise the old value is released and
      the new one constructed (in a fresh block if `T` is boxed). */
  function Emplaced(s: AnyState, d: TypeInfo, obj: Object, cap: nat, h: Heap): (r: Made)
    requires Coherent(s, cap, h) && d.Info?
    ensures Coherent(r.state, cap, r.heap) && ViewOf(r.state, cap, r.heap) == Holding(d, obj)
    ensures ReusesBlock(s.info, d, cap) ==>
              r.state.buff == s.buff && r.heap.allocations == h.allocations && r.heap.deallocations == h.deallocations
    ensures !ReusesBlock(s.info, d, cap) ==>
              r.heap.allocations == h.allocations + Boxes(d, cap) && r.heap.deallocations == h.deallocations + Boxes(s.info, cap)
    ensures Transfers(h, r.heap, Owned(s.buff), Owned(r.state.buff))
  {
    if ReusesBlock(s.info, d, cap) then
      var w := Destroy(s.info, s.buff, cap, h);
      Made(AnyState(d, w.slot), w.heap.ConstructAt(w.slot.ptr, obj))
    else
      var w := Cleared(s, cap, h);
      var m := Constructed(d, obj, cap, w.heap);
      TransfersThen(h, w.heap, m.heap, Owned(s.buff), {}, {}, Owned(m.state.buff));
      m
  }

  // ---------------------------------------------------------------------------
  // swap
  // ---------------------------------------------------------------------------

  /** Same-capacity `swap` of two distinct containers: relocate `b` into a
      temporary, `a` into `b`'s buffer, the temporary into `a`'s buffer, then
      exchange the descriptors. The temporary is relocated with `b`'s
      descriptor, the one of the value it holds. At equal capacities every
      relocation keeps the representation, so the two states are exchanged
      exactly and the heap is not touched. */
  function Swapped(a: AnyState, b: AnyState, cap: nat, h: Heap): (r: Pair)
    requires Coherent(a, cap, h) && Coherent(b, cap, h) && Separate(a, b)
    ensures r == Pair(b, a, h)
  {
    var t := Move(b.info, b.buff, Empty, cap, cap, h);
    var u := Move(a.info, a.buff, t.from, cap, cap, t.heap);
    var w := Move(b.info, t.to, u.from, cap, cap, u.heap);
    Pair(AnyState(b.info, w.to), AnyState(a.info, u.to), w.heap)
  }

  /** The three relocations of a cross-capacity swap, staged through a
      temporary of capacity `yCap`: `x` into the temporary, `y` into `x`'s
      buffer, the temporary into `y`'s buffer. Each relocation uses the
      descriptor of the value it carries. */
  function Relayed(x: AnyState, xCap: nat, y: AnyState, yCap: nat, h: Heap): (r: Pair)
    requires Coherent(x, xCap, h) && Coherent(y, yCap, h) && Separate(x, y)
    ensures Coherent(r.first, xCap, r.heap) && ViewOf(r.first, xCap, r.heap) == ViewOf(y, yCap, h)
    ensures Coherent(r.second, yCap, r.heap) && ViewOf(r.second, yCap, r.heap) == ViewOf(x, xCap, h)
    ensures Separate(r.first, r.second)
    ensures r.heap.allocations == h.allocations + Allocates(x.info, xCap, yCap) + Allocates(y.info, yCap, xCap)
    ensures r.heap.deallocations == h.deallocations + Allocates(x.info, yCap, xCap) + Allocates(y.info, xCap, yCap)
    ensures Transfers(h, r.heap, Owned(x.buff) + Owned(y.buff), Owned(r.first.buff) + Owned(r.second.buff))
  {
    var t := Move(x.info, x.buff, Empty, xCap, yCap, h);
    TransfersNothing(h);
    HoldsAcross(y.info, y.buff, yCap, h, t.heap, Owned(x.buff), Owned(t.to));
    var u := Move(y.info, y.buff, t.from, yCap, xCap, t.heap);
    TransfersNothing(t.heap);
    HoldsAcross(x.info, t.to, yCap, t.heap, u.heap, Owned(y.buff), Owned(u.to));
    var w := Move(x.info, t.to, u.from, yCap, yCap, u.heap);
    TransfersNothing(u.heap);
    HoldsAcross(y.info, u.to, xCap, u.heap, w.heap, Owned(t.to), Owned(w.to));
    TransfersRelay(h, t.heap, u.heap, w.heap, Owned(x.buff), Owned(t.to), Owned(y.buff), Owned(u.to), Owned(w.to));
    Pair(AnyState(y.info, u.to), AnyState(x.info, w.to), w.heap)
  }

  /** Cross-capacity `swap` of `a` (capacity `aCap`) with `b` (capacity
      `bCap`): staged through a temporary of the smaller capacity. Each
      container ends with the other's former type and value; a value
      allocates exactly when it moves from in place to boxed and frees
      exactly when it moves from boxed to in place. */
  function SwappedAcross(a: AnyState, aCap: nat, b: AnyState, bCap: nat, h: Heap): (r: Pair)
    requires Coherent(a, aCap, h) && Coherent(b, bCap, h) && Separate(a, b)
    ensures Coherent(r.first, aCap, r.heap) && ViewOf(r.first, aCap, r.heap) == ViewOf(b, bCap, h)
    ensures Coherent(r.second, bCap, r.heap) && ViewOf(r.second, bCap, r.heap) == ViewOf(a, aCap, h)
    ensures Separate(r.first, r.second)
    ensures r.heap.allocations == h.allocations + Allocates(a.info, aCap, bCap) + Allocates(b.info, bCap, aCap)
    ensures r.heap.deallocations == h.deallocations + Allocates(a.info, bCap, aCap) + Allocates(b.info, aCap, bCap)
    ensures Transfers(h, r.heap, Owned(a.buff) + Owned(b.buff), Owned(r.first.buff) + Owned(r.second.buff))
  {
    if bCap < aCap then
      Relayed(a, aCap, b, bCap, h)
    else
      var r := Relayed(b, bCap, a, aCap, h);
      Pair(r.second, r.first, r.heap)
  }

  // ---------------------------------------------------------------------------
  // Assignment: build a temporary, swap it in, destroy the temporary
  // ---------------------------------------------------------------------------

  /** The tail the three assignments share: swap the temporary `temp` into
      the container whose state is `s`, then destroy the temporary, which now
      holds the old value. The container ends with `temp` and the old value
      is released. */
  function SwappedIn(temp: AnyState, s: AnyState, cap: nat, h: Heap): (r: Made)
    requires Coherent(temp, cap, h) && Coherent(s, cap, h) && Separate(temp, s)
    ensures r.state == temp && Coherent(r.state, cap, r.heap)
    ensures ViewOf(r.state, cap, r.heap) == ViewOf(temp, cap, h)
    ensures r.heap.allocations == h.allocations
    ensures r.heap.deallocations == h.deallocations + Boxes(s.info, cap)
    ensures Transfers(h, r.heap, Owned(s.buff), {})
  {
    var sw := Swapped(temp, s, cap, h);
    var z := Cleared(sw.first, cap, sw.heap);
    Made(sw.second, z.heap)
  }

  /** Copy assignment from a distinct container of capacity `rhsCap`, as
      `sized_any<N>(rhs).swap(*this)`: the container ends with `rhs`'s
      descriptor and an equal value in a block of its own, the old value is
      released and `rhs` is untouched. */
  function CopyAssigned(s: AnyState, rhs: AnyState, rhsCap: nat, cap: nat, h: Heap): (r: Made)
    requires Coherent(s, cap, h) && Coherent(rhs, rhsCap, h) && Separate(s, rhs)
    ensures Coherent(r.state, cap, r.heap) && ViewOf(r.state, cap, r.heap) == ViewOf(rhs, rhsCap, h)
    ensures Coherent(rhs, rhsCap, r.heap) && ViewOf(rhs, rhsCap, r.heap) == ViewOf(rhs, rhsCap, h)
    ensures r.heap.allocations == h.allocations + Boxes(rhs.info, cap)
    ensures r.heap.deallocations == h.deallocations + Boxes(s.info, cap)
    ensures Transfers(h, r.heap, Owned(s.buff), Owned(r.state.buff)) && Separate(r.state, rhs)
  {
    var t := CopyConstructed(rhs, rhsCap, cap, h);
    HoldsAcross(s.info, s.buff, cap, h, t.heap, {}, Owned(t.state.buff));
    var z := SwappedIn(t.state, s, cap, t.heap);
    HoldsAcross(rhs.info, rhs.buff, rhsCap, t.heap, z.heap, Owned(s.buff), {});
    TransfersThen(h, t.heap, z.heap, {}, Owned(t.state.buff), Owned(s.buff), {});
    z
  }

  /** Move assignment from a distinct container of capacity `rhsCap`, as
      `sized_any<N>(std::move(rhs)).swap(*this)`: the container ends with
      `rhs`'s descriptor and value, the old value is released and `rhs` is
      left empty. */
  function MoveAssigned(s: AnyState, rhs: AnyState, rhsCap: nat, cap: nat, h: Heap): (r: Pair)
    requires Coherent(s, cap, h) && Coherent(rhs, rhsCap, h) && Separate(s, rhs)
    ensures Coherent(r.first, cap, r.heap) && ViewOf(r.first, cap, r.heap) == ViewOf(rhs, rhsCap, h)
    ensures r.second == Vacant
    ensures r.heap.allocations == h.allocations + Allocates(rhs.info, rhsCap, cap)
    ensures r.heap.deallocations == h.deallocations + Allocates(rhs.info, cap, rhsCap) + Boxes(s.info, cap)
    ensures Transfers(h, r.heap, Owned(s.buff) + Owned(rhs.buff), Owned(r.first.buff))
  {
    var t := MoveConstructed(rhs, rhsCap, cap, h);
    HoldsAcross(s.info, s.buff, cap, h, t.heap, Owned(rhs.buff), Owned(t.first.buff));
    var z := SwappedIn(t.first, s, cap, t.heap);
    TransfersThen(h, t.heap, z.heap, Owned(rhs.buff), Owned(t.first.buff), Owned(s.buff), {});
    Pair(z.state, t.second, z.heap)
  }

  /** Assignment of a value, as `sized_any<N>(rhs).swap(*this)`. Unlike
      `emplace` it never reuses the old block. */
  function ValueAssigned(s: AnyState, d: TypeInfo, obj: Object, cap: nat, h: Heap): (r: Made)
    requires Coherent(s, cap, h) && d.Info?
    ensures Coherent(r.state, cap, r.heap) && ViewOf(r.state, cap, r.heap) == Holding(d, obj)
    ensures r.heap.allocations == h.allocations + Boxes(d, cap)
    ensures r.heap.deallocations == h.deallocations + Boxes(s.info, cap)
    ensures Transfers(h, r.heap, Owned(s.buff), Owned(r.state.buff))
  {
    var t := Constructed(d, obj, cap, h);
    HoldsAcross(s.info, s.buff, cap, h, t.heap, {}, Owned(t.state.buff));
    var z := SwappedIn(t.state, s, cap, t.heap);
    TransfersThen(h, t.heap, z.heap, {}, Owned(t.state.buff), Owned(s.buff), {});
    z
  }

  // ---------------------------------------------------------------------------
  // Queries
  // ---------------------------------------------------------------------------

  /** The pointer form of `any_cast<T>` on a container: the object when the
      active descriptor is `T`'s, nothing otherwise. */
  function Cast(s: AnyState, cap: nat, t: TypeInfo, h: Heap): (r: Option<Object>)
    requires Coherent(s, cap, h) && t.Info?
    ensures r.Some? <==> s.info == t
    ensures r.Some? ==> ViewOf(s, cap, h) == Holding(t, r.value)
  {
    if s.info != t then None
    else if t.NeedsAlloc(cap) then Some(h.blocks[s.buff.ptr].obj)
    else Some(s.buff.obj)
  }

  // ---------------------------------------------------------------------------
  // Properties relating the operations
  // ---------------------------------------------------------------------------

  /** A container built from a `d` casts to `d`, giving back the object, and
      to no other type. */
  lemma CastAfterConstruct(d: TypeInfo, obj: Object, cap: nat, t: TypeInfo, h: Heap)
    requires d.Info? && t.Info? && cap >= PointerSize && h.Wf()
    ensures var m := Constructed(d, obj, cap, h);
            Cast(m.state, cap, t, m.heap) == if t == d then Some(obj) else None
  {
  }

  /** After `emplace<T>` the container casts to `T`, giving back the new
      object, and to no other type, whatever it held before. */
  lemma CastAfterEmplace(s: AnyState, d: TypeInfo, obj: Object, cap: nat, t: TypeInfo, h: Heap)
    requires Coherent(s, cap, h) && d.Info? && t.Info?
    ensures var m := Emplaced(s, d, obj, cap, h);
            Cast(m.state, cap, t, m.heap) == if t == d then Some(obj) else None
  {
  }

  /** `reset` on a container that `reset` has just emptied changes nothing. */
  lemma ResetTwiceIsResetOnce(s: AnyState, cap: nat, h: Heap)
    requires Coherent(s, cap, h)
    ensures var m := Cleared(s, cap, h);
            Cleared(m.state, cap, m.heap) == m
  {
  }

  /** A move into a capacity at least as large as the source's never
      allocates: a type in place at `srcCap` is in place at `cap`. */
  lemma MoveIntoLargerNeverAllocates(src: AnyState, srcCap: nat, cap: nat, h: Heap)
    requires Coherent(src, srcCap, h) && cap >= PointerSize && srcCap <= cap
    ensures MoveConstructed(src, srcCap, cap, h).heap.allocations == h.allocations
  {
    if src.info.NeedsAlloc(cap) && !src.info.NeedsAlloc(srcCap) {
      InlineAtSmallerIsInlineAtLarger(src.info, srcCap, cap);
    }
  }

  /** `emplace` of a type of the same boxed size reuses the block, while
      assigning the same value builds a temporary and so allocates one block
      and frees the old one. */
  lemma EmplaceReusesWhereAssignmentReallocates(s: AnyState, d: TypeInfo, obj: Object, cap: nat, h: Heap)
    requires Coherent(s, cap, h) && d.Info? && ReusesBlock(s.info, d, cap)
    ensures var e := Emplaced(s, d, obj, cap, h);
            e.heap.allocations == h.allocations && e.heap.deallocations == h.deallocations
    ensures var v := ValueAssigned(s, d, obj, cap, h);
            v.heap.allocations == h.allocations + 1 && v.heap.deallocations == h.deallocations + 1
  {
  }

  /** Swapping two containers of equal capacity twice restores both of them
      and the heap. */
  lemma SwapTwiceRestores(a: AnyState, b: AnyState, cap: nat, h: Heap)
    requires Coherent(a, cap, h) && Coherent(b, cap, h) && Separate(a, b)
    ensures var r := Swapped(a, b, cap, h);
            Swapped(r.first, r.second, cap, r.heap) == Pair(a, b, h)
  {
  }

  /** The descriptor of a coherent container is determined by what it holds. */
  lemma InfoOfView(s: AnyState, cap: nat, h: Heap, c: AnyState, cCap: nat, g: Heap)
    requires Coherent(s, cap, h) && Coherent(c, cCap, g) && ViewOf(s, cap, h) == ViewOf(c, cCap, g)
    ensures s.info == c.info
  {
  }

  /** Swapping two containers of different capacities twice restores both
      values, and the second swap frees every block the first one allocated,
      so the number of live blocks is back where it started. */
  lemma SwapAcrossTwiceRestores(a: AnyState, aCap: nat, b: AnyState, bCap: nat, h: Heap)
    requires Coherent(a, aCap, h) && Coherent(b, bCap, h) && Separate(a, b)
    ensures var r := SwappedAcross(a, aCap, b, bCap, h);
            var q := SwappedAcross(r.first, aCap, r.second, bCap, r.heap);
            && ViewOf(q.first, aCap, q.heap) == ViewOf(a, aCap, h)
            && ViewOf(q.second, bCap, q.heap) == ViewOf(b, bCap, h)
            && |q.heap.blocks| == |h.blocks|
  {
    var r := SwappedAcross(a, aCap, b, bCap, h);
    InfoOfView(r.first, aCap, r.heap, b, bCap, h);
    InfoOfView(r.second, bCap, r.heap, a, aCap, h);
  }

  // ---------------------------------------------------------------------------
  // `swap` as written: the third relocation uses this container's descriptor
  // ---------------------------------------------------------------------------

  /** Same-capacity `swap` exactly as written: the temporary, which holds
      `b`'s value, is relocated with `a`'s descriptor. That is defined only
      when `a` is empty or both descriptors are equal (otherwise one type's
      object would be relocated as another's, `None` here); with equal
      descriptors it is the corrected swap. */
  function SwappedAsWritten(a: AnyState, b: AnyState, cap: nat, h: Heap): (r: Option<Pair>)
    requires Coherent(a, cap, h) && Coherent(b, cap, h) && Separate(a, b)
    ensures r.Some? <==> a.info.VoidInfo? || a.info == b.info
    ensures a.info == b.info ==> r == Some(Swapped(a, b, cap, h))
  {
    var t := Move(b.info, b.buff, Empty, cap, cap, h);
    var u := Move(a.info, a.buff, t.from, cap, cap, t.heap);
    if a.info.Info? && a.info != b.info then None
    else
      var w := Move(a.info, t.to, u.from, cap, cap, u.heap);
      Some(Pair(AnyState(b.info, w.to), AnyState(a.info, u.to), w.heap))
  }

  /** Cross-capacity `swap` exactly as written. The branch for a smaller
      `b` is right; in the other branch the temporary holds `b`'s value but is
      relocated with `a`'s descriptor. */
  function SwappedAcrossAsWritten(a: AnyState, aCap: nat, b: AnyState, bCap: nat, h: Heap): (r: Option<Pair>)
    requires Coherent(a, aCap, h) && Coherent(b, bCap, h) && Separate(a, b)
    ensures r.Some? <==> bCap < aCap || a.info.VoidInfo? || a.info == b.info
    ensures bCap < aCap || a.info == b.info ==> r == Some(SwappedAcross(a, aCap, b, bCap, h))
  {
    if bCap < aCap then Some(Relayed(a, aCap, b, bCap, h))
    else
      var t := Move(b.info, b.buff, Empty, bCap, aCap, h);
      TransfersNothing(h);
      HoldsAcross(a.info, a.buff, aCap, h, t.heap, Owned(b.buff), Owned(t.to));
      var u := Move(a.info, a.buff, t.from, aCap, bCap, t.heap);
      TransfersNothing(t.heap);
      HoldsAcross(b.info, t.to, aCap, t.heap, u.heap, Owned(a.buff), Owned(u.to));
      if a.info.Info? && a.info != b.info then None
      else
        var w := Move(a.info, t.to, u.from, aCap, aCap, u.heap);
        Some(Pair(AnyState(b.info, w.to), AnyState(a.info, u.to), w.heap))
  }

  /** Swapping an empty container with one holding a value, as written: the
      formerly empty container claims the value's type over a buffer holding
      nothing, the other ends empty, and a boxed value's block stays allocated
      with neither container owning it. The corrected swap hands the value
      over intact. */
  lemma SwapAsWrittenLosesValue(b: AnyState, cap: nat, h: Heap)
    requires Coherent(b, cap, h) && b.info.Info?
    ensures Coherent(Vacant, cap, h) && Separate(Vacant, b)
    ensures var r := SwappedAsWritten(Vacant, b, cap, h);
            && r.Some? && r.value.first.info == b.info && !Coherent(r.value.first, cap, r.value.heap)
            && r.value.second == Vacant
            && Owned(b.buff) <= r.value.heap.blocks.Keys
            && Owned(r.value.first.buff) + Owned(r.value.second.buff) == {}
    ensures Swapped(Vacant, b, cap, h) == Pair(b, Vacant, h)
  {
  }

  /** The same for the cross-capacity swap into a smaller empty container: it
      claims the value's type over a buffer holding nothing, neither container
      owns a block, the value's block stays allocated, and a value that had to
      be boxed for the smaller capacity leaves a fresh block nobody owns. The
      corrected swap hands the value over intact. */
  lemma SwapAcrossAsWrittenLosesValue(b: AnyState, aCap: nat, bCap: nat, h: Heap)
    requires Coherent(b, bCap, h) && b.info.Info? && PointerSize <= aCap < bCap
    ensures Coherent(Vacant, aCap, h) && Separate(Vacant, b)
    ensures var r := SwappedAcrossAsWritten(Vacant, aCap, b, bCap, h);
            && r.Some? && r.value.first.info == b.info && !Coherent(r.value.first, aCap, r.value.heap)
            && r.value.second == Vacant
            && Owned(b.buff) <= r.value.heap.blocks.Keys
            && Owned(r.value.first.buff) + Owned(r.value.second.buff) == {}
            && r.value.heap.allocations == h.allocations + Allocates(b.info, bCap, aCap)
            && r.value.heap.deallocations == h.deallocations
    ensures var r := SwappedAcross(Vacant, aCap, b, bCap, h);
            Coherent(r.first, aCap, r.heap) && ViewOf(r.first, aCap, r.heap) == ViewOf(b, bCap, h)
  {
  }

  /** Assignment swaps its temporary in with the same-capacity `swap`, the
      temporary on the left. As written that swap is defined only when the
      incoming descriptor equals the container's, so assigning a value to an
      empty container, or to one holding another type, relocates an object as
      the wrong type. */
  lemma AssignmentAsWrittenNeedsSameType(s: AnyState, d: TypeInfo, obj: Object, cap: nat, h: Heap)
    requires Coherent(s, cap, h) && d.Info?
    ensures var t := Constructed(d, obj, cap, h);
            && Coherent(s, cap, t.heap) && Separate(t.state, s)
            && (SwappedAsWritten(t.state, s, cap, t.heap).Some? <==> s.info == d)
  {
    var t := Constructed(d, obj, cap, h);
    HoldsAcross(s.info, s.buff, cap, h, t.heap, {}, Owned(t.state.buff));
  }

  // ---------------------------------------------------------------------------
  // The container object
  // ---------------------------------------------------------------------------

  class SizedAny {
    /** The template argument `N`. */
    const cap: nat
    var info: TypeInfo
    var buff: Slot

    function State(): AnyState
      reads this
    {
      AnyState(info, buff)
    }

    ghost predicate Valid(h: Heap)
      reads this
    {
      Coherent(State(), cap, h)
    }

    function View(h: Heap): Contents
      reads this
      requires Valid(h)
    {
      ViewOf(State(), cap, h)
    }

    /** Default construction: an empty container. */
    constructor (cap: nat)
      requires cap >= PointerSize
      ensures this.cap == cap && State() == Vacant
      ensures forall h: Heap :: h.Wf() ==> Valid(h) && View(h) == NoValue
    {
      this.cap := cap;
      info := VoidInfo;
      buff := Empty;
    }

    /** Construction from a value, or in place from arguments that build `obj`. */
    constructor FromValue(cap: nat, d: TypeInfo, obj: Object, alloc: Allocator)
      requires cap >= PointerSize && d.Info? && alloc.heap.Wf()
      modifies alloc
      ensures this.cap == cap
      ensures Made(State(), alloc.heap) == Constructed(d, obj, cap, old(alloc.heap))
      ensures Valid(alloc.heap) && View(alloc.heap) == Holding(d, obj)
    {
      this.cap := cap;
      info := d;
      if d.NeedsAlloc(cap) {
        var a := alloc.heap.New(obj);
        buff := Boxed(a.ptr);
        alloc.heap := a.heap;
      } else {
        buff := Inline(obj);
      }
    }

    /** Copy construction from `other`, whose capacity may differ. */
    constructor CopyOf(cap: nat, other: SizedAny, alloc: Allocator)
      requires cap >= PointerSize && other.Valid(alloc.heap)
      modifies alloc
      ensures this.cap == cap
      ensures Made(State(), alloc.heap) == CopyConstructed(other.State(), other.cap, cap, old(alloc.heap))
      ensures Valid(alloc.heap) && View(alloc.heap) == old(other.View(alloc.heap))
      ensures other.Valid(alloc.heap) && other.View(alloc.heap) == old(other.View(alloc.heap))
    {
      this.cap := cap;
      info := other.info;
      var w := Copy(other.info, other.buff, Empty, other.cap, cap, alloc.heap);
      buff := w.slot;
      alloc.heap := w.heap;
    }

    /** Move construction from `other`, whose capacity may differ; `other` is
        left empty. */
    constructor MoveFrom(cap: nat, other: SizedAny, alloc: Allocator)
      requires cap >= PointerSize && other.Valid(alloc.heap)
      modifies other, alloc
      ensures this.cap == cap
      ensures Pair(State(), other.State(), alloc.heap) == MoveConstructed(old(other.State()), other.cap, cap, old(alloc.heap))
      ensures Valid(alloc.heap) && View(alloc.heap) == old(other.View(alloc.heap))
      ensures other.State() == Vacant
    {
      this.cap := cap;
      info := other.info;
      var m := Move(other.info, other.buff, Empty, other.cap, cap, alloc.heap);
      buff := m.to;
      other.buff := m.from;
      alloc.heap := m.heap;
      other.info := VoidInfo;
    }

    /** Copy assignment. Assigning a container to itself changes nothing. */
    method CopyAssign(rhs: SizedAny, alloc: Allocator)
      requires Valid(alloc.heap) && rhs.Valid(alloc.heap)
      requires rhs != this ==> Separate(State(), rhs.State())
      modifies this, alloc
      ensures rhs == this ==> State() == old(State()) && alloc.heap == old(alloc.heap)
      ensures rhs != this ==>
                Made(State(), alloc.heap) == CopyAssigned(old(State()), old(rhs.State()), rhs.cap, cap, old(alloc.heap))
      ensures Valid(alloc.heap) && View(alloc.heap) == old(rhs.View(alloc.heap))
    {
      if rhs == this {
        return;
      }
      var tmp := new SizedAny.CopyOf(cap, rhs, alloc);
      tmp.Swap(this, alloc);
      tmp.Reset(alloc);
    }

    /** Move assignment; `rhs` is left empty. Assigning a container to itself
        changes nothing. */
    method MoveAssign(rhs: SizedAny, alloc: Allocator)
      requires Valid(alloc.heap) && rhs.Valid(alloc.heap)
      requires rhs != this ==> Separate(State(), rhs.State())
      modifies this, rhs, alloc
      ensures rhs == this ==> State() == old(State()) && alloc.heap == old(alloc.heap)
      ensures rhs != this ==>
                Pair(State(), rhs.State(), alloc.heap) == MoveAssigned(old(State()), old(rhs.State()), rhs.cap, cap, old(alloc.heap))
      ensures Valid(alloc.heap) && View(alloc.heap) == old(rhs.View(alloc.heap))
    {
      if rhs == this {
        return;
      }
      var tmp := new SizedAny.MoveFrom(cap, rhs, alloc);
      tmp.Swap(this, alloc);
      tmp.Reset(alloc);
    }

    /** Assignment of a value. */
    method AssignValue(d: TypeInfo, obj: Object, alloc: Allocator)
      requires Valid(alloc.heap) && d.Info?
      modifies this, alloc
      ensures Made(State(), alloc.heap) == ValueAssigned(old(State()), d, obj, cap, old(alloc.heap))
      ensures Valid(alloc.heap) && View(alloc.heap) == Holding(d, obj)
    {
      var tmp := new SizedAny.FromValue(cap, d, obj, alloc);
      tmp.Swap(this, alloc);
      tmp.Reset(alloc);
    }

    /** `emplace`; returns the new object. */
    method Emplace(d: TypeInfo, obj: Object, alloc: Allocator) returns (r: Object)
      requires Valid(alloc.heap) && d.Info?
      modifies this, alloc
      ensures Made(State(), alloc.heap) == Emplaced(old(State()), d, obj, cap, old(alloc.heap))
      ensures Valid(alloc.heap) && View(alloc.heap) == Holding(d, obj) && r == obj
    {
      if d.NeedsAlloc(cap) {
        if info.NeedsAlloc(cap) && info.Size() == d.Size() {
          var w := Destroy(info, buff, cap, alloc.heap);
          alloc.heap := w.heap.ConstructAt(buff.ptr, obj);
        } else {
          var w := Del(info, buff, cap, alloc.heap);
          var a := w.heap.New(obj);
          buff := Boxed(a.ptr);
          alloc.heap := a.heap;
        }
        info := d;
        r := alloc.heap.blocks[buff.ptr].obj;
      } else {
        var w := Del(info, buff, cap, alloc.heap);
        alloc.heap := w.heap;
        buff := Inline(obj);
        info := d;
        r := buff.obj;
      }
    }

    /** `reset`, which the destructor also runs. */
    method Reset(alloc: Allocator)
      requires Valid(alloc.heap)
      modifies this, alloc
      ensures Made(State(), alloc.heap) == Cleared(old(State()), cap, old(alloc.heap))
      ensures Valid(alloc.heap) && View(alloc.heap) == NoValue
    {
      if info == VoidInfo {
        return;
      }
      var w := Del(info, buff, cap, alloc.heap);
      buff := w.slot;
      alloc.heap := w.heap;
      info := VoidInfo;
    }

    /** Same-capacity `swap`, corrected: the third relocation uses
        `other.info`, the descriptor of the value in the temporary, where the
        source uses `info`. Swapping a container with itself changes
        nothing. */
    method Swap(other: SizedAny, alloc: Allocator)
      requires other.cap == cap && Valid(alloc.heap) && other.Valid(alloc.heap)
      requires other != this ==> Separate(State(), other.State())
      modifies this, other, alloc
      ensures other != this ==>
                Pair(State(), other.State(), alloc.heap) == Swapped(old(State()), old(other.State()), cap, old(alloc.heap))
      ensures State() == old(other.State()) && other.State() == old(State()) && alloc.heap == old(alloc.heap)
    {
      if other == this {
        return;
      }
      var tmp: Slot := Empty;
      var t := Move(other.info, other.buff, tmp, cap, cap, alloc.heap);
      other.buff, tmp, alloc.heap := t.from, t.to, t.heap;
      var u := Move(info, buff, other.buff, cap, cap, alloc.heap);
      buff, other.buff, alloc.heap := u.from, u.to, u.heap;
      var w := Move(other.info, tmp, buff, cap, cap, alloc.heap);
      tmp, buff, alloc.heap := w.from, w.to, w.heap;
      info, other.info := other.info, info;
    }

    /** Cross-capacity `swap`, through a temporary of the smaller capacity,
        corrected: in the branch for a larger `other` the temporary is
        relocated with `other.info`, where the source uses `info`. */
    method SwapAcross(other: SizedAny, alloc: Allocator)
      requires other.cap != cap && Valid(alloc.heap) && other.Valid(alloc.heap)
      requires Separate(State(), other.State())
      modifies this, other, alloc
      ensures Pair(State(), other.State(), alloc.heap) == SwappedAcross(old(State()), cap, old(other.State()), other.cap, old(alloc.heap))
      ensures Valid(alloc.heap) && View(alloc.heap) == old(other.View(alloc.heap))
      ensures other.Valid(alloc.heap) && other.View(alloc.heap) == old(View(alloc.heap))
    {
      if other.cap < cap {
        var tmp: Slot := Empty;
        var t := Move(info, buff, tmp, cap, other.cap, alloc.heap);
        TransfersNothing(alloc.heap);
        HoldsAcross(other.info, other.buff, other.cap, alloc.heap, t.heap, Owned(buff), Owned(t.to));
        buff, tmp, alloc.heap := t.from, t.to, t.heap;
        var u := Move(other.info, other.buff, buff, other.cap, cap, alloc.heap);
        TransfersNothing(alloc.heap);
        HoldsAcross(info, tmp, other.cap, alloc.heap, u.heap, Owned(other.buff), Owned(u.to));
        other.buff, buff, alloc.heap := u.from, u.to, u.heap;
        var w := Move(info, tmp, other.buff, other.cap, other.cap, alloc.heap);
        tmp, other.buff, alloc.heap := w.from, w.to, w.heap;
      } else {
        var tmp: Slot := Empty;
        var t := Move(other.info, other.buff, tmp, other.cap, cap, alloc.heap);
        TransfersNothing(alloc.heap);
        HoldsAcross(info, buff, cap, alloc.heap, t.heap, Owned(other.buff), Owned(t.to));
        other.buff, tmp, alloc.heap := t.from, t.to, t.heap;
        var u := Move(info, buff, other.buff, cap, other.cap, alloc.heap);
        TransfersNothing(alloc.heap);
        HoldsAcross(other.info, tmp, cap, alloc.heap, u.heap, Owned(buff), Owned(u.to));
        buff, other.buff, alloc.heap := u.from, u.to, u.heap;
        var w := Move(other.info, tmp, buff, cap, cap, alloc.heap);
        tmp, buff, alloc.heap := w.from, w.to, w.heap;
      }
      info, other.info := other.info, info;
    }

    /** `has_value`: a container holds a value exactly when `type()` is not
        `typeid(void)`. */
    function HasValue(): (b: bool)
      reads this
      ensures b <==> Type() != VoidType
    {
      info != VoidInfo
    }

    /** `type`: the active descriptor's type. */
    function Type(): (t: TypeId)
      reads this
      ensures forall h: Heap :: Valid(h) ==> (t == VoidType <==> View(h) == NoValue)
      ensures forall h: Heap :: Valid(h) && View(h).Holding? ==> t == View(h).info.Type()
    {
      info.Type()
    }
  }

  /** The pointer form of `any_cast<T>`: null for a null operand or a
      descriptor other than `T`'s, otherwise the contained object. */
  function AnyCastPtr(operand: SizedAny?, t: TypeInfo, h: Heap): (r: Option<Object>)
    reads operand
    requires t.Info? && (operand != null ==> operand.Valid(h))
    ensures r.None? <==> operand == null || operand.info != t
    ensures r.Some? ==> operand.View(h) == Holding(t, r.value)
  {
    if operand == null then None else Cast(operand.State(), operand.cap, t, h)
  }

  /** The value and reference forms of `any_cast<T>`: `bad_any_cast` exactly
      when the descriptor is not `T`'s, otherwise the contained object. */
  function AnyCast(operand: SizedAny, t: TypeInfo, h: Heap): (r: Extracted)
    reads operand
    requires t.Info? && operand.Valid(h)
    ensures r.BadAnyCast? <==> operand.info != t
    ensures r.Extracted? ==> operand.View(h) == Holding(t, r.obj)
  {
    match AnyCastPtr(operand, t, h)
    case Some(obj) => Extracted(obj)
    case None => BadAnyCast
  }
}
