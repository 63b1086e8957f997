/// The free store that `new` and `delete` act on. The container never calls the
/// allocator directly except through these four primitives, so the whole of its
/// heap behaviour is visible as changes to one `Heap` value: which blocks are
/// live, what they hold, and how many allocations and deallocations happened.
module Memory {

  /** The observable state of a contained object. The engine never looks inside
      it: it only copies, relocates and destroys it. */
  type Object = int

  /** The address of a heap block. */
  type Ptr = nat

  /** A heap block either holds a constructed object or is raw storage whose
      object has been destroyed in place (the state between `destroy` and a
      placement `new` that reuses the block). */
  datatype Cell = Live(obj: Object) | Raw

  /** The allocator's state. `next` is the address the next allocation returns;
      addresses are never handed out twice. */
  datatype Heap = Heap(blocks: map<Ptr, Cell>, next: Ptr, allocations: nat, deallocations: nat)
  {
    /** Every block lies below `next`, and every block ever allocated is either
        still live or has been deallocated exactly once. */
    ghost predicate Wf() {
      && (forall p :: p in blocks ==> p < next)
      && allocations == deallocations + |blocks|
    }

    predicate IsLive(p: Ptr) {
      p in blocks && blocks[p].Live?
    }

    /** `new T(obj)`: allocate a fresh block and construct `obj` in it. */
    function New(obj: Object): (r: Allocation)
      requires Wf()
      ensures r.heap.Wf()
      ensures r.ptr !in blocks && r.heap.blocks == blocks[r.ptr := Live(obj)]
      ensures r.heap.allocations == allocations + 1 && r.heap.deallocations == deallocations
    {
      Allocation(Heap(blocks[next := Live(obj)], next + 1, allocations + 1, deallocations), next)
    }

    /** `delete p`: destroy the object in block `p` and free the block. */
    function Delete(p: Ptr): (r: Heap)
      requires Wf() && p in blocks
      ensures r.Wf()
      ensures r.blocks == blocks - {p}
      ensures r.allocations == allocations && r.deallocations == deallocations + 1
    {
      var r := Heap(blocks - {p}, next, allocations, deallocations + 1);
      assert r.blocks.Keys == blocks.Keys - {p};
      assert |r.blocks.Keys| == |blocks.Keys| - 1;
      r
    }

    /** `p->~T()`: destroy the object in block `p` but keep the block. */
    function DestroyAt(p: Ptr): (r: Heap)
      requires Wf() && IsLive(p)
      ensures r.Wf()
      ensures r.blocks == blocks[p := Raw]
      ensures r.allocations == allocations && r.deallocations == deallocations
    {
      Heap(blocks[p := Raw], next, allocations, deallocations)
    }

    /** Placement `new (p) T(obj)`: construct `obj` in the raw block `p`. */
    function ConstructAt(p: Ptr, obj: Object): (r: Heap)
      requires Wf() && p in blocks && blocks[p] == Raw
      ensures r.Wf()
      ensures r.blocks == blocks[p := Live(obj)]
      ensures r.allocations == allocations && r.deallocations == deallocations
    {
      Heap(blocks[p := Live(obj)], next, allocations, deallocations)
    }
  }

  datatype Allocation = Allocation(heap: Heap, ptr: Ptr)

  /** The heap as it starts: nothing allocated yet. */
  const EmptyHeap: Heap := Heap(map[], 0, 0, 0)

  /** `h'` follows `h` after an operation that gave up ownership of the blocks
      `before` and ends up owning the blocks `after`: the blocks nobody gave up
      are still there and unchanged, the released ones are gone unless they are
      owned again, and every newly owned block is either one that was released
      (a pointer handed over) or one that did not exist before (a fresh
      allocation). */
  ghost predicate Transfers(h: Heap, h': Heap, before: set<Ptr>, after: set<Ptr>)
  {
    && before <= h.blocks.Keys
    && (forall p :: p in h'.blocks <==> (p in h.blocks && p !in before) || p in after)
    && (forall p :: p in after && p !in before ==> p !in h.blocks)
    && (forall p :: p in h.blocks && p !in before ==> p in h'.blocks && h'.blocks[p] == h.blocks[p])
  }

  /** Two ownership transfers in a row are one transfer: the second step may
      give up blocks the first step acquired (which then never show as
      acquired) or blocks nobody had touched (which then show as given up). */
  lemma TransfersThen(h0: Heap, h1: Heap, h2: Heap, a: set<Ptr>, b: set<Ptr>, c: set<Ptr>, d: set<Ptr>)
    requires Transfers(h0, h1, a, b) && Transfers(h1, h2, c, d)
    ensures Transfers(h0, h2, a + (c - b), (b - c) + d)
  {
    forall p | p in c
      ensures p in b || (p in h0.blocks && p !in a)
    {
    }
  }

  /** Doing nothing is a transfer of nothing. */
  lemma TransfersNothing(h: Heap)
    ensures Transfers(h, h, {}, {})
  {
  }

  /** Three transfers in a row, where the third gives up exactly what the
      first acquired and the second neither gives up nor acquires that, are
      one transfer from what the first two gave up to what the last two
      acquired. */
  lemma TransfersRelay(h0: Heap, h1: Heap, h2: Heap, h3: Heap, x: set<Ptr>, t: set<Ptr>, y: set<Ptr>, u: set<Ptr>, w: set<Ptr>)
    requires Transfers(h0, h1, x, t) && Transfers(h1, h2, y, u) && Transfers(h2, h3, t, w)
    requires t !! y && t !! u
    ensures Transfers(h0, h3, x + y, u + w)
  {
    TransfersThen(h0, h1, h2, x, t, y, u);
    assert x + (y - t) == x + y;
    assert (t - y) + u == t + u;
    TransfersThen(h0, h2, h3, x + y, t + u, t, w);
    assert (x + y) + (t - (t + u)) == x + y;
    assert ((t + u) - t) + w == u + w;
  }

  /** The allocator shared by every container: the global `operator new` and
      `operator delete`. Methods that allocate or free name it in `modifies`. */
  class Allocator {
    var heap: Heap

    constructor ()
      ensures heap == EmptyHeap
    {
      heap := EmptyHeap;
    }
  }
}
