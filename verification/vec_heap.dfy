/**
 * `Vec2d` as the mutable object it is in space.js:3-39: a heap of vector cells.
 * `diff`/`sum` allocate a copy of the receiver and mutate only the copy;
 * `_sub`/`_add` mutate the receiver itself (which may be the argument too).
 */
module VecHeap {
  import opened Vectors

  type Ref = nat

  datatype Heap = Heap(cells: map<Ref, Vec2>, next: Ref)

  /** Every allocated reference lies below the allocation counter. */
  predicate Valid(h: Heap) {
    forall r :: r in h.cells ==> r < h.next
  }

  /** `new Vec2d(v)`: a fresh cell holding a copy of `v`. */
  function New(h: Heap, v: Vec2): (res: (Heap, Ref))
    requires Valid(h)
    ensures Valid(res.0)
    ensures res.1 !in h.cells && res.1 in res.0.cells && res.0.cells[res.1] == v
    ensures res.0.cells.Keys == h.cells.Keys + {res.1}
    ensures forall r :: r in h.cells ==> res.0.cells[r] == h.cells[r]
  {
    (Heap(h.cells[h.next := v], h.next + 1), h.next)
  }

  /** `a._sub(b)`: the receiver afterwards plus the old argument gives the old receiver. */
  function SubInPlace(h: Heap, a: Ref, b: Ref): (h': Heap)
    requires a in h.cells && b in h.cells
    ensures h'.cells.Keys == h.cells.Keys && h'.next == h.next
    ensures Sum(h'.cells[a], h.cells[b]) == h.cells[a]
    ensures forall r :: r in h.cells && r != a ==> h'.cells[r] == h.cells[r]
  {
    var v := h.cells[a];
    var o := h.cells[b];
    h.(cells := h.cells[a := Vec2(v.x - o.x, v.y - o.y)])
  }

  /** `a._add(b)`: the receiver afterwards minus the old argument gives the old receiver. */
  function AddInPlace(h: Heap, a: Ref, b: Ref): (h': Heap)
    requires a in h.cells && b in h.cells
    ensures h'.cells.Keys == h.cells.Keys && h'.next == h.next
    ensures Diff(h'.cells[a], h.cells[b]) == h.cells[a]
    ensures forall r :: r in h.cells && r != a ==> h'.cells[r] == h.cells[r]
  {
    var v := h.cells[a];
    var o := h.cells[b];
    h.(cells := h.cells[a := Vec2(v.x + o.x, v.y + o.y)])
  }

  /** `a.diff(b)` is `new Vec2d(a)._sub(b)`: receiver and argument are left as they were. */
  function DiffNew(h: Heap, a: Ref, b: Ref): (res: (Heap, Ref))
    requires Valid(h) && a in h.cells && b in h.cells
    ensures Valid(res.0)
    ensures res.1 !in h.cells && res.0.cells.Keys == h.cells.Keys + {res.1}
    ensures forall r :: r in h.cells ==> res.0.cells[r] == h.cells[r]
    ensures res.0.cells[res.1] == Diff(h.cells[a], h.cells[b])
  {
    var (h1, c) := New(h, h.cells[a]);
    (SubInPlace(h1, c, b), c)
  }

  /** `a.sum(b)` is `new Vec2d(a)._add(b)`: receiver and argument are left as they were. */
  function SumNew(h: Heap, a: Ref, b: Ref): (res: (Heap, Ref))
    requires Valid(h) && a in h.cells && b in h.cells
    ensures Valid(res.0)
    ensures res.1 !in h.cells && res.0.cells.Keys == h.cells.Keys + {res.1}
    ensures forall r :: r in h.cells ==> res.0.cells[r] == h.cells[r]
    ensures res.0.cells[res.1] == Sum(h.cells[a], h.cells[b])
  {
    var (h1, c) := New(h, h.cells[a]);
    (AddInPlace(h1, c, b), c)
  }

  /** `v._add(v)` through one reference doubles the vector: the argument is read before the write. */
  lemma AddToItselfDoubles(h: Heap, a: Ref)
    requires a in h.cells
    ensures AddInPlace(h, a, a).cells[a] == Scaled(h.cells[a], 2.0)
  {
  }

  /**
   * `v.diff(u).sum(u)` yields a new vector equal to `v`, and neither `v` nor `u`
   * (nor any other existing vector) has changed.
   */
  lemma DiffSumRoundTrip(h: Heap, v: Ref, u: Ref)
    requires Valid(h) && v in h.cells && u in h.cells
    ensures var (h1, d) := DiffNew(h, v, u);
            var (h2, s) := SumNew(h1, d, u);
            h2.cells[s] == h.cells[v]
            && s !in h.cells
            && forall r :: r in h.cells ==> h2.cells[r] == h.cells[r]
  {
    var (h1, d) := DiffNew(h, v, u);
    var (h2, s) := SumNew(h1, d, u);
    assert h1.cells[u] == h.cells[u];
    DiffThenSum(h.cells[v], h.cells[u]);
  }
}
