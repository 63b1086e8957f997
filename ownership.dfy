/// The ownership discipline over whole programs: any sequence of container
/// operations, on any number of containers sharing one heap, keeps every
/// container coherent, never lets two containers own the same block, and
/// never leaks: the live blocks are exactly the blocks some container owns.
/// The operations are those of the two variants with their defects corrected
/// (`Swapped`, `SwappedAcross`, `ReplCopy`, `ReplMove`); as written, `swap`
/// loses values (`SwapAsWrittenLosesValue`) and the older assignments leak
/// (`AssignEmptyAsWrittenLeaks`), so the discipline does not hold for them.
module Ownership {
  import opened Memory
  import opened Descriptor
  import opened Container
  import opened Legacy

  /** Which header's containers a program uses. */
  datatype Variant = Current | Older

  /** A live container: its state and its capacity `N`. */
  datatype Box = Box(state: AnyState, cap: nat)

  /** Every live container of a program, and the heap they share. */
  datatype World = World(variant: Variant, boxes: seq<Box>, heap: Heap)

  ghost predicate OwnedBySome(boxes: seq<Box>, p: Ptr) {
    exists k :: 0 <= k < |boxes| && p in Owned(boxes[k].state.buff)
  }

  /** Each container holds what its descriptor says. */
  ghost predicate AllCoherent(boxes: seq<Box>, h: Heap) {
    forall k :: 0 <= k < |boxes| ==> Coherent(boxes[k].state, boxes[k].cap, h)
  }

  /** No block has two owners. */
  ghost predicate Disjoint(boxes: seq<Box>) {
    forall k, m :: 0 <= k < |boxes| && 0 <= m < |boxes| && k != m ==> Separate(boxes[k].state, boxes[m].state)
  }

  /** A block is live exactly when some container owns it: nothing leaks and
      nothing is owned after it was freed. */
  ghost predicate Accounted(boxes: seq<Box>, h: Heap) {
    forall p :: p in h.blocks <==> OwnedBySome(boxes, p)
  }

  ghost predicate Sound(w: World) {
    w.heap.Wf() && AllCoherent(w.boxes, w.heap) && Disjoint(w.boxes) && Accounted(w.boxes, w.heap)
  }

  /** One operation of a program. Containers are named by their index, in
      order of construction. The destructor is `Reset`: it runs `reset` and
      the container owns nothing afterwards. */
  datatype Op =
    | MakeEmpty(cap: nat)
    | MakeWith(cap: nat, d: TypeInfo, obj: Object)
    | MakeCopy(cap: nat, src: nat)
    | MakeMoved(cap: nat, src: nat)
    | Reset(i: nat)
    | Emplace(i: nat, d: TypeInfo, obj: Object)
    | AssignValue(i: nat, d: TypeInfo, obj: Object)
    | CopyAssign(i: nat, src: nat)
    | MoveAssign(i: nat, src: nat)
    | Swap(i: nat, j: nat)

  /** Going from `a` to `b`, no container is lost and every container outside
      `touched` is unchanged. */
  ghost predicate KeepsOthers(a: seq<Box>, b: seq<Box>, touched: set<nat>) {
    |a| <= |b| && forall k: nat :: k < |a| && k !in touched ==> b[k] == a[k]
  }

  // ---------------------------------------------------------------------------
  // How an operation's ownership transfer keeps the world sound
  // ---------------------------------------------------------------------------

  /** An operation on containers `i` and `j` (the same container when
      `i == j`) that gives up exactly their blocks and acquires exactly the
      blocks of their new states leaves every other container coherent and
      owning none of the acquired blocks. */
  lemma ReplacedCoherent(b: seq<Box>, h0: Heap, h: Heap, i: nat, j: nat, bi: Box, bj: Box, gone: set<Ptr>, come: set<Ptr>)
    requires AllCoherent(b, h0) && Disjoint(b) && i < |b| && j < |b|
    requires gone == Owned(b[i].state.buff) + Owned(b[j].state.buff)
    requires come == Owned(bi.state.buff) + Owned(bj.state.buff)
    requires Transfers(h0, h, gone, come)
    requires Coherent(bi.state, bi.cap, h) && Coherent(bj.state, bj.cap, h)
    ensures AllCoherent(b[i := bi][j := bj], h)
    ensures forall k :: 0 <= k < |b| && k != i && k != j ==> Owned(b[k].state.buff) !! come
  {
    forall k | 0 <= k < |b| && k != i && k != j
      ensures Coherent(b[k].state, b[k].cap, h) && Owned(b[k].state.buff) !! come
    {
      HoldsAcross(b[k].state.info, b[k].state.buff, b[k].cap, h0, h, gone, come);
    }
  }

  lemma ReplacedDisjoint(b: seq<Box>, i: nat, j: nat, bi: Box, bj: Box)
    requires Disjoint(b) && i < |b| && j < |b|
    requires i != j ==> Separate(bi.state, bj.state)
    requires forall k :: 0 <= k < |b| && k != i && k != j ==> Owned(b[k].state.buff) !! Owned(bi.state.buff) + Owned(bj.state.buff)
    ensures Disjoint(b[i := bi][j := bj])
  {
  }

  lemma ReplacedAccounted(b: seq<Box>, h0: Heap, h: Heap, i: nat, j: nat, bi: Box, bj: Box, gone: set<Ptr>, come: set<Ptr>)
    requires Accounted(b, h0) && Disjoint(b) && i < |b| && j < |b|
    requires gone == Owned(b[i].state.buff) + Owned(b[j].state.buff)
    requires come == Owned(bi.state.buff) + Owned(bj.state.buff)
    requires i == j ==> bi == bj
    requires Transfers(h0, h, gone, come)
    ensures Accounted(b[i := bi][j := bj], h)
  {
    var b' := b[i := bi][j := bj];
    forall p
      ensures p in h.blocks <==> OwnedBySome(b', p)
    {
      if p in h.blocks && p !in come {
        var k :| 0 <= k < |b| && p in Owned(b[k].state.buff);
        assert b'[k] == b[k];
      }
      if p in Owned(bi.state.buff) {
        assert p in Owned(b'[i].state.buff);
      }
      if p in Owned(bj.state.buff) {
        assert p in Owned(b'[j].state.buff);
      }
      if OwnedBySome(b', p) {
        var k :| 0 <= k < |b'| && p in Owned(b'[k].state.buff);
        if k != i && k != j {
          assert b'[k] == b[k];
          assert Separate(b[k].state, b[i].state) && Separate(b[k].state, b[j].state);
        }
      }
    }
  }

  /** Replacing the states of containers `i` and `j` (the same container
      when `i == j`), by an operation that gives up exactly their blocks and
      acquires exactly the new states' blocks, keeps the world sound. */
  function Replaced(w: World, i: nat, j: nat, s: AnyState, t: AnyState, h: Heap): (r: World)
    requires Sound(w) && i < |w.boxes| && j < |w.boxes| && (i == j ==> s == t)
    requires Coherent(s, w.boxes[i].cap, h) && Coherent(t, w.boxes[j].cap, h) && (i != j ==> Separate(s, t))
    requires Transfers(w.heap, h, Owned(w.boxes[i].state.buff) + Owned(w.boxes[j].state.buff), Owned(s.buff) + Owned(t.buff))
    ensures Sound(r) && r == World(w.variant, w.boxes[i := Box(s, w.boxes[i].cap)][j := Box(t, w.boxes[j].cap)], h)
  {
    var b := w.boxes;
    var bi := Box(s, b[i].cap);
    var bj := Box(t, b[j].cap);
    var gone := Owned(b[i].state.buff) + Owned(b[j].state.buff);
    var come := Owned(s.buff) + Owned(t.buff);
    ReplacedCoherent(b, w.heap, h, i, j, bi, bj, gone, come);
    ReplacedDisjoint(b, i, j, bi, bj);
    ReplacedAccounted(b, w.heap, h, i, j, bi, bj, gone, come);
    World(w.variant, b[i := bi][j := bj], h)
  }

  lemma SelfUnion(a: set<Ptr>)
    ensures a + a == a
  {
  }

  /** The same for one container. */
  function ReplacedOne(w: World, i: nat, s: AnyState, h: Heap): (r: World)
    requires Sound(w) && i < |w.boxes| && Coherent(s, w.boxes[i].cap, h)
    requires Transfers(w.heap, h, Owned(w.boxes[i].state.buff), Owned(s.buff))
    ensures Sound(r) && r == World(w.variant, w.boxes[i := Box(s, w.boxes[i].cap)], h)
  {
    SelfUnion(Owned(w.boxes[i].state.buff));
    SelfUnion(Owned(s.buff));
    var r := Replaced(w, i, i, s, s, h);
    assert w.boxes[i := Box(s, w.boxes[i].cap)][i := Box(s, w.boxes[i].cap)] == w.boxes[i := Box(s, w.boxes[i].cap)];
    r
  }

  lemma AppendCoherent(b: seq<Box>, s: AnyState, cap: nat, h0: Heap, h: Heap)
    requires AllCoherent(b, h0) && Coherent(s, cap, h)
    requires Transfers(h0, h, {}, Owned(s.buff))
    ensures AllCoherent(b + [Box(s, cap)], h)
    ensures forall k :: 0 <= k < |b| ==> Owned(b[k].state.buff) !! Owned(s.buff)
  {
    forall k | 0 <= k < |b|
      ensures Coherent(b[k].state, b[k].cap, h) && Owned(b[k].state.buff) !! Owned(s.buff)
    {
      HoldsAcross(b[k].state.info, b[k].state.buff, b[k].cap, h0, h, {}, Owned(s.buff));
    }
    var b' := b + [Box(s, cap)];
    assert forall k :: 0 <= k < |b| ==> b'[k] == b[k];
  }

  lemma AppendDisjoint(b: seq<Box>, s: AnyState, cap: nat)
    requires Disjoint(b)
    requires forall k :: 0 <= k < |b| ==> Owned(b[k].state.buff) !! Owned(s.buff)
    ensures Disjoint(b + [Box(s, cap)])
  {
    var b' := b + [Box(s, cap)];
    assert forall k :: 0 <= k < |b| ==> b'[k] == b[k];
  }

  lemma AppendAccounted(b: seq<Box>, s: AnyState, cap: nat, h0: Heap, h: Heap)
    requires Accounted(b, h0)
    requires Transfers(h0, h, {}, Owned(s.buff))
    ensures Accounted(b + [Box(s, cap)], h)
  {
    var b' := b + [Box(s, cap)];
    forall p
      ensures p in h.blocks <==> OwnedBySome(b', p)
    {
      if p in h.blocks && p !in Owned(s.buff) {
        var k :| 0 <= k < |b| && p in Owned(b[k].state.buff);
        assert b'[k] == b[k];
      }
      if p in Owned(s.buff) {
        assert p in Owned(b'[|b|].state.buff);
      }
      if OwnedBySome(b', p) {
        var k :| 0 <= k < |b'| && p in Owned(b'[k].state.buff);
        if k < |b| {
          assert b'[k] == b[k];
        }
      }
    }
  }

  /** Adding a new container whose construction acquired exactly its own
      blocks keeps the world sound. */
  function Added(w: World, s: AnyState, cap: nat, h: Heap): (r: World)
    requires Sound(w) && Coherent(s, cap, h)
    requires Transfers(w.heap, h, {}, Owned(s.buff))
    ensures Sound(r) && r == World(w.variant, w.boxes + [Box(s, cap)], h)
  {
    AppendCoherent(w.boxes, s, cap, w.heap, h);
    AppendDisjoint(w.boxes, s, cap);
    AppendAccounted(w.boxes, s, cap, w.heap, h);
    World(w.variant, w.boxes + [Box(s, cap)], h)
  }

  // ---------------------------------------------------------------------------
  // Programs
  // ---------------------------------------------------------------------------

  /** The set identities the steps below rely on, proved on their own. */
  lemma Unions(a: set<Ptr>, b: set<Ptr>)
    ensures a + {} == a && {} + a == a && a + b == b + a
  {
  }

  /** Default construction of a new container of capacity `cap`. */
  function EmptyAdded(w: World, cap: nat): (r: World)
    requires Sound(w) && cap >= PointerSize
    ensures Sound(r) && r.variant == w.variant && r.boxes == w.boxes + [Box(Vacant, cap)]
  {
    TransfersNothing(w.heap);
    Added(w, Vacant, cap, w.heap)
  }

  /** Construction of a new container of capacity `cap` from a value. */
  function ValueAdded(w: World, cap: nat, d: TypeInfo, obj: Object): (r: World)
    requires Sound(w) && cap >= PointerSize && d.Info?
    ensures Sound(r) && r.variant == w.variant && KeepsOthers(w.boxes, r.boxes, {})
  {
    var m := Constructed(d, obj, cap, w.heap);
    Added(w, m.state, cap, m.heap)
  }

  /** Copy construction of a new container of capacity `cap` from `src`. */
  function CopyAdded(w: World, cap: nat, src: nat): (r: World)
    requires Sound(w) && cap >= PointerSize && src < |w.boxes|
    ensures Sound(r) && r.variant == w.variant && KeepsOthers(w.boxes, r.boxes, {})
  {
    var m := CopyConstructed(w.boxes[src].state, w.boxes[src].cap, cap, w.heap);
    Added(w, m.state, cap, m.heap)
  }

  /** Move construction of a new container of capacity `cap` from `src`,
      which is left empty. */
  function MovedInto(w: World, cap: nat, src: nat): (r: World)
    requires Sound(w) && src < |w.boxes| && cap >= PointerSize
    ensures Sound(r) && r.variant == w.variant && KeepsOthers(w.boxes, r.boxes, {src})
  {
    var n := |w.boxes|;
    var v := EmptyAdded(w, cap);
    var m := MoveConstructed(w.boxes[src].state, w.boxes[src].cap, cap, w.heap);
    assert v.boxes[src] == w.boxes[src] && v.boxes[n] == Box(Vacant, cap);
    Unions(Owned(w.boxes[src].state.buff), Owned(m.first.buff));
    Replaced(v, src, n, m.second, m.first, m.heap)
  }

  /** `reset` of container `i`, as the destructor also runs it. */
  function ResetIn(w: World, i: nat): (r: World)
    requires Sound(w) && i < |w.boxes|
    ensures Sound(r) && r.variant == w.variant && KeepsOthers(w.boxes, r.boxes, {i})
  {
    var m := Cleared(w.boxes[i].state, w.boxes[i].cap, w.heap);
    ReplacedOne(w, i, m.state, m.heap)
  }

  /** `emplace` into container `i`, and in the older variant also the
      assignment of a value, which is `emplace`. */
  function EmplacedIn(w: World, i: nat, d: TypeInfo, obj: Object): (r: World)
    requires Sound(w) && i < |w.boxes| && d.Info?
    ensures Sound(r) && r.variant == w.variant && KeepsOthers(w.boxes, r.boxes, {i})
  {
    var m := Emplaced(w.boxes[i].state, d, obj, w.boxes[i].cap, w.heap);
    ReplacedOne(w, i, m.state, m.heap)
  }

  /** Assignment of a value to container `i` in the newer variant. */
  function ValueAssignedIn(w: World, i: nat, d: TypeInfo, obj: Object): (r: World)
    requires Sound(w) && i < |w.boxes| && d.Info?
    ensures Sound(r) && r.variant == w.variant && KeepsOthers(w.boxes, r.boxes, {i})
  {
    var m := ValueAssigned(w.boxes[i].state, d, obj, w.boxes[i].cap, w.heap);
    ReplacedOne(w, i, m.state, m.heap)
  }

  /** Copy assignment from `src` to `i` in the newer variant, by a
      temporary and `swap`. */
  function CopyAssignedIn(w: World, i: nat, src: nat): (r: World)
    requires Sound(w) && i < |w.boxes| && src < |w.boxes| && i != src
    ensures Sound(r) && r.variant == w.variant && KeepsOthers(w.boxes, r.boxes, {i})
  {
    var a := w.boxes[i];
    var b := w.boxes[src];
    var m := CopyAssigned(a.state, b.state, b.cap, a.cap, w.heap);
    ReplacedOne(w, i, m.state, m.heap)
  }

  /** Copy assignment from `src` to `i` in the older variant, by `replCopy`. */
  function ReplCopiedIn(w: World, i: nat, src: nat): (r: World)
    requires Sound(w) && i < |w.boxes| && src < |w.boxes| && i != src
    ensures Sound(r) && r.variant == w.variant && KeepsOthers(w.boxes, r.boxes, {i})
  {
    var a := w.boxes[i];
    var b := w.boxes[src];
    var m := LegacyCopyAssigned(a.state, b.state, b.cap, a.cap, w.heap);
    ReplacedOne(w, i, m.state, m.heap)
  }

  /** Move assignment from `src` to `i` in the newer variant, by a
      temporary and `swap`; `src` is left empty. */
  function MoveAssignedIn(w: World, i: nat, src: nat): (r: World)
    requires Sound(w) && i < |w.boxes| && src < |w.boxes| && i != src
    ensures Sound(r) && r.variant == w.variant && KeepsOthers(w.boxes, r.boxes, {i, src})
  {
    var a := w.boxes[i];
    var b := w.boxes[src];
    var m := MoveAssigned(a.state, b.state, b.cap, a.cap, w.heap);
    Unions(Owned(m.first.buff), {});
    Replaced(w, i, src, m.first, m.second, m.heap)
  }

  /** Move assignment from `src` to `i` in the older variant, by
      `replMove`; `src` is left empty. */
  function ReplMovedIn(w: World, i: nat, src: nat): (r: World)
    requires Sound(w) && i < |w.boxes| && src < |w.boxes| && i != src
    ensures Sound(r) && r.variant == w.variant && KeepsOthers(w.boxes, r.boxes, {i, src})
  {
    var a := w.boxes[i];
    var b := w.boxes[src];
    var m := LegacyMoveAssigned(a.state, b.state, b.cap, a.cap, w.heap);
    Unions(Owned(m.first.buff), {});
    Replaced(w, i, src, m.first, m.second, m.heap)
  }

  /** `swap` of containers `i` and `j`. The newer variant also swaps across
      capacities; the older one only has the same-capacity raw swap, so with
      different capacities nothing happens. */
  function SwappedIn(w: World, i: nat, j: nat): (r: World)
    requires Sound(w) && i < |w.boxes| && j < |w.boxes| && i != j
    ensures Sound(r) && r.variant == w.variant && KeepsOthers(w.boxes, r.boxes, {i, j})
  {
    var a := w.boxes[i];
    var b := w.boxes[j];
    if a.cap == b.cap then
      Unions(Owned(a.state.buff), Owned(b.state.buff));
      TransfersNothing(w.heap);
      Replaced(w, i, j, b.state, a.state, w.heap)
    else if w.variant == Current then
      var m := SwappedAcross(a.state, a.cap, b.state, b.cap, w.heap);
      Replaced(w, i, j, m.first, m.second, m.heap)
    else w
  }

  /** One operation. An operation naming a container that does not exist,
      a capacity below `sizeof(void*)` or the void type as a value's type does
      not compile and changes nothing; so does an assignment or swap of a
      container with itself. */
  function Step(w: World, op: Op): (r: World)
    requires Sound(w)
    ensures Sound(r) && r.variant == w.variant && |w.boxes| <= |r.boxes|
  {
    var n := |w.boxes|;
    match op
    case MakeEmpty(cap) =>
      if cap < PointerSize then w else EmptyAdded(w, cap)
    case MakeWith(cap, d, obj) =>
      if cap < PointerSize || d.VoidInfo? then w else ValueAdded(w, cap, d, obj)
    case MakeCopy(cap, src) =>
      if cap < PointerSize || src >= n then w else CopyAdded(w, cap, src)
    case MakeMoved(cap, src) =>
      if cap < PointerSize || src >= n then w else MovedInto(w, cap, src)
    case Reset(i) =>
      if i >= n then w else ResetIn(w, i)
    case Emplace(i, d, obj) =>
      if i >= n || d.VoidInfo? then w else EmplacedIn(w, i, d, obj)
    case AssignValue(i, d, obj) =>
      if i >= n || d.VoidInfo? then w
      else if w.variant == Current then ValueAssignedIn(w, i, d, obj)
      else EmplacedIn(w, i, d, obj)
    case CopyAssign(i, src) =>
      if i >= n || src >= n || i == src then w
      else if w.variant == Current then CopyAssignedIn(w, i, src)
      else ReplCopiedIn(w, i, src)
    case MoveAssign(i, src) =>
      if i >= n || src >= n || i == src then w
      else if w.variant == Current then MoveAssignedIn(w, i, src)
      else ReplMovedIn(w, i, src)
    case Swap(i, j) =>
      if i >= n || j >= n || i == j then w else SwappedIn(w, i, j)
  }

  /** A program: its operations one after another. */
  function Run(w: World, ops: seq<Op>): (r: World)
    requires Sound(w)
    ensures Sound(r) && r.variant == w.variant && |w.boxes| <= |r.boxes|
    decreases |ops|
  {
    if |ops| == 0 then w else Run(Step(w, ops[0]), ops[1..])
  }

  /** The world before any container exists. */
  function Start(v: Variant): World {
    World(v, [], EmptyHeap)
  }

  /** Every program, in either corrected variant, starting from an empty heap, ends
      with every live block owned by exactly one container and every
      container holding what its descriptor says. */
  lemma ProgramsNeverLeak(v: Variant, ops: seq<Op>)
    ensures Sound(Start(v))
    ensures var r := Run(Start(v), ops);
            && r.heap.Wf()
            && (forall p :: p in r.heap.blocks <==> OwnedBySome(r.boxes, p))
            && (forall k, m :: 0 <= k < |r.boxes| && 0 <= m < |r.boxes| && k != m ==> Separate(r.boxes[k].state, r.boxes[m].state))
  {
  }
}
