/** The user heap of umalloc.c: memory is addressed in header-sized units. `Blocks` is the picture of the
    whole heap that the invariant is about; the allocator itself only has header fields and freep. */
module Heap {
  import opened Common

  /** The static header `base`, below everything sbrk returns. */
  const BASE := 1
  /** Header units are counted in a 32-bit field; the machine has far less memory than this. */
  const LIMIT := 0x1_0000_0000

  // ---------------------------------------------------------------- the free list

  /** b follows a on an address-ordered circular list of `free`. */
  predicate Follows(free: set<int>, a: int, b: int) {
    && b in free
    && if a < b then forall f :: f in free ==> !(a < f < b) else b == BASE && forall f :: f in free ==> f <= a
  }

  predicate Linked(ptr: map<int, int>, free: set<int>, a: int) { BASE <= a && a in ptr && Follows(free, a, ptr[a]) }

  /** ptr makes one address-ordered cycle of the headers in free. */
  ghost predicate ListOk(ptr: map<int, int>, free: set<int>) {
    BASE in free && forall a {:trigger Linked(ptr, free, a)} :: a in free ==> Linked(ptr, free, a)
  }

  lemma ListInsert(ptr: map<int, int>, free: set<int>, p: int, b: int)
    requires ListOk(ptr, free) && p in free && b !in free && p < b
    requires Linked(ptr, free, p) && (b < ptr[p] || ptr[p] <= p)
    ensures ListOk(ptr[b := ptr[p]][p := b], free + {b})
  {
    forall a | a in free + {b} ensures Linked(ptr[b := ptr[p]][p := b], free + {b}, a) {
      if a != b { assert Linked(ptr, free, a); }
    }
  }

  lemma ListRemove(ptr: map<int, int>, free: set<int>, p: int)
    requires ListOk(ptr, free) && p in free && Linked(ptr, free, p) && ptr[p] != BASE
    ensures ptr[p] in ptr && ListOk(ptr[p := ptr[ptr[p]]], free - {ptr[p]})
  {
    var b := ptr[p];
    assert Linked(ptr, free, b);
    forall a | a in free - {b} ensures Linked(ptr[p := ptr[b]], free - {b}, a) { assert Linked(ptr, free, a); }
  }

  // ---------------------------------------------------------------- the tiling

  predicate BlockOk(size: map<int, int>, a: int, brk: int) {
    a in size && if a == BASE then size[a] == 0 else BASE < a && 1 <= size[a] && a + size[a] <= brk
  }

  predicate Disjoint(size: map<int, int>, a: int, b: int)
    requires a in size
  {
    a < b ==> a + size[a] <= b
  }

  /** The blocks with headers in `all` do not overlap and end by brk. */
  ghost predicate ShapeOk(size: map<int, int>, all: set<int>, brk: int) {
    && (forall a :: a in all ==> BlockOk(size, a, brk))
    && (forall a, b :: a in all && b in all ==> Disjoint(size, a, b))
  }

  ghost predicate Within(size: map<int, int>, a: int, x: int) { a in size && a <= x < a + size[a] }

  ghost predicate Owned(size: map<int, int>, all: set<int>, x: int) { exists a :: a in all && Within(size, a, x) }

  /** The blocks cover exactly the units in core. */
  ghost predicate CoreOk(size: map<int, int>, all: set<int>, core: set<int>) {
    forall x :: x in core <==> Owned(size, all, x)
  }

  lemma MergeShape(size: map<int, int>, all: set<int>, brk: int, a: int, b: int)
    requires ShapeOk(size, all, brk) && a in all && b in all && a < b
    requires BASE < a && BlockOk(size, a, brk) && a + size[a] == b
    ensures b in size && ShapeOk(size[a := size[a] + size[b]], all - {b}, brk)
  {
    var size' := size[a := size[a] + (if b in size then size[b] else 0)];
    assert BlockOk(size, b, brk);
    forall c | c in all - {b} ensures BlockOk(size', c, brk) { assert BlockOk(size, c, brk); }
    forall c, d | c in all - {b} && d in all - {b} ensures Disjoint(size', c, d) {
      assert BlockOk(size, c, brk) && BlockOk(size, d, brk) && Disjoint(size, c, d)
        && Disjoint(size, b, d) && Disjoint(size, a, d);
    }
  }

  lemma MergeCore(size: map<int, int>, all: set<int>, core: set<int>, a: int, b: int)
    requires CoreOk(size, all, core) && a in all && b in all && a in size && b in size
    requires a != b && a + size[a] == b && 0 <= size[a] && 0 <= size[b]
    ensures CoreOk(size[a := size[a] + size[b]], all - {b}, core)
  {
    var size' := size[a := size[a] + size[b]];
    forall x ensures x in core <==> Owned(size', all - {b}, x) {
      if Owned(size, all, x) {
        var c :| c in all && Within(size, c, x);
        assert Within(size', if c == b then a else c, x);
      }
      if Owned(size', all - {b}, x) {
        var c :| c in all - {b} && Within(size', c, x);
        assert Within(size, c, x) || Within(size, b, x);
      }
    }
  }

  lemma SplitShape(size: map<int, int>, all: set<int>, brk: int, p: int, n: int)
    requires ShapeOk(size, all, brk) && p in all && p in size && 0 < n < size[p]
    ensures p + size[p] - n !in all
    ensures ShapeOk(size[p := size[p] - n][p + size[p] - n := n], all + {p + size[p] - n}, brk)
  {
    var b := p + size[p] - n;
    var size' := size[p := size[p] - n][b := n];
    assert BlockOk(size, p, brk) && (b in all ==> Disjoint(size, p, b));
    forall a | a in all + {b} ensures BlockOk(size', a, brk) { if a != b { assert BlockOk(size, a, brk); } }
    forall a, c | a in all + {b} && c in all + {b} ensures Disjoint(size', a, c) {
      if a == b {
        if c != b { assert Disjoint(size, p, c); }
      } else {
        assert BlockOk(size, a, brk) && Disjoint(size, a, if c == b then p else c);
      }
    }
  }

  lemma SplitCore(size: map<int, int>, all: set<int>, core: set<int>, p: int, n: int)
    requires CoreOk(size, all, core) && p in all && p in size && 0 < n < size[p] && p + size[p] - n !in all
    ensures CoreOk(size[p := size[p] - n][p + size[p] - n := n], all + {p + size[p] - n}, core)
  {
    var b := p + size[p] - n;
    var size' := size[p := size[p] - n][b := n];
    forall x ensures x in core <==> Owned(size', all + {b}, x) {
      if Owned(size, all, x) {
        var c :| c in all && Within(size, c, x);
        assert Within(size', c, x) || Within(size', b, x);
      }
      if Owned(size', all + {b}, x) {
        var c :| c in all + {b} && Within(size', c, x);
        assert Within(size, if c == b then p else c, x);
      }
    }
  }

  lemma GrowShape(size: map<int, int>, all: set<int>, brk: int, at: int, n: int)
    requires ShapeOk(size, all, brk) && BASE < brk <= at && 0 < n
    ensures at !in all && ShapeOk(size[at := n], all + {at}, at + n)
  {
    assert at in all ==> BlockOk(size, at, brk);
    forall a | a in all + {at} ensures BlockOk(size[at := n], a, at + n) {
      if a != at { assert BlockOk(size, a, brk); }
    }
    forall a, b | a in all + {at} && b in all + {at} ensures Disjoint(size[at := n], a, b) {
      assert a != at ==> BlockOk(size, a, brk);
      assert b != at ==> BlockOk(size, b, brk);
      assert a != at && b != at ==> Disjoint(size, a, b);
    }
  }

  lemma GrowCore(size: map<int, int>, all: set<int>, core: set<int>, at: int, n: int)
    requires CoreOk(size, all, core) && at !in all
    ensures CoreOk(size[at := n], all + {at}, core + Interval(at, at + n))
  {
    var core' := core + Interval(at, at + n);
    forall x ensures x in core' <==> Owned(size[at := n], all + {at}, x) {
      if Owned(size, all, x) { var c :| c in all && Within(size, c, x); assert Within(size[at := n], c, x); }
      if at <= x < at + n { assert Within(size[at := n], at, x); }
      if Owned(size[at := n], all + {at}, x) {
        var c :| c in all + {at} && Within(size[at := n], c, x);
        assert c != at ==> Within(size, c, x);
      }
    }
  }

  // ---------------------------------------------------------------- the heap as a whole

  /** free: the headers on the free list; live: the headers of allocated blocks; core: the units
      obtained from sbrk; brk: the end of the last of them. */
  datatype Blocks = Blocks(ptr: map<int, int>, size: map<int, int>,
      free: set<int>, live: set<int>, core: set<int>, brk: int)

  /** A circular address-ordered list of free blocks, disjoint from each other and from the live ones;
      together they cover exactly the memory obtained from sbrk. */
  ghost predicate Tiled(h: Blocks) {
    && h.free !! h.live && BASE < h.brk <= LIMIT
    && ListOk(h.ptr, h.free) && ShapeOk(h.size, h.free + h.live, h.brk) && CoreOk(h.size, h.free + h.live, h.core)
  }

  predicate Touch(h: Blocks, a: int, b: int) {
    a in h.free && b in h.free && BASE < a && a in h.size && a + h.size[a] == b
  }

  /** No two free blocks are adjacent. */
  ghost predicate HeapInv(h: Blocks) { Tiled(h) && forall a, b :: !Touch(h, a, b) }

  /** The allocated block b is linked in after the free block p. */
  function Link(h: Blocks, p: int, b: int): Blocks
    requires p in h.ptr
  {
    h.(ptr := h.ptr[b := h.ptr[p]][p := b], free := h.free + {b}, live := h.live - {b})
  }

  /** b is what follows the free block p on the list. */
  predicate Place(h: Blocks, p: int, b: int) {
    p in h.free && p < b && p in h.ptr && (b < h.ptr[p] || h.ptr[p] <= p)
  }

  lemma LinkTiled(h: Blocks, p: int, b: int)
    requires Tiled(h) && b in h.live && Place(h, p, b)
    ensures Tiled(Link(h, p, b)) && Linked(h.ptr, h.free, p)
  {
    assert Linked(h.ptr, h.free, p);
    ListInsert(h.ptr, h.free, p, b);
    assert h.free + {b} + (h.live - {b}) == h.free + h.live;
  }

  /** The free block a swallows b, its neighbour on the list. */
  function Merge(h: Blocks, a: int, b: int): Blocks
    requires b in h.ptr && a in h.size && b in h.size
  {
    h.(ptr := h.ptr[a := h.ptr[b]], size := h.size[a := h.size[a] + h.size[b]], free := h.free - {b})
  }

  lemma MergeTiled(h: Blocks, a: int, b: int)
    requires Tiled(h) && Touch(h, a, b) && a in h.ptr && h.ptr[a] == b
    ensures b in h.ptr && b in h.size && Tiled(Merge(h, a, b))
  {
    assert Linked(h.ptr, h.free, a) && BlockOk(h.size, a, h.brk) && BlockOk(h.size, b, h.brk);
    ListRemove(h.ptr, h.free, a);
    MergeShape(h.size, h.free + h.live, h.brk, a, b);
    MergeCore(h.size, h.free + h.live, h.core, a, b);
    assert h.free - {b} + h.live == h.free + h.live - {b};
  }

  /** Blocks that touch after a merge touched before, one of them as a part. */
  lemma MergeTouch(h: Blocks, a: int, b: int, c: int, d: int)
    requires b in h.ptr && a in h.size && b in h.size && BASE < b && a + h.size[a] == b && Touch(Merge(h, a, b), c, d)
    ensures if c == a then Touch(h, b, d) || b !in h.free else Touch(h, c, d)
  {
  }

  /** free's effect on the heap: b goes in after p and swallows, or is swallowed by, what it touches. */
  ghost function Insert(h: Blocks, p: int, b: int): Blocks
    requires p in h.ptr && p in h.size && b in h.size
    requires b + h.size[b] == h.ptr[p] ==> h.ptr[p] in h.ptr && h.ptr[p] in h.size
  {
    var h1 := Link(h, p, b);
    var h2 := if b + h.size[b] == h.ptr[p] then Merge(h1, b, h.ptr[p]) else h1;
    if p + h.size[p] == b then Merge(h2, p, b) else h2
  }

  lemma LinkTouch(h: Blocks, p: int, b: int, c: int, d: int)
    requires HeapInv(h) && b in h.live && Place(h, p, b) && Linked(h.ptr, h.free, p) && Touch(Link(h, p, b), c, d)
    ensures (c == p && d == b) || (c == b && d == h.ptr[p])
  {
    var all := h.free + h.live;
    assert BlockOk(h.size, c, h.brk) && BlockOk(h.size, d, h.brk)
      && BlockOk(h.size, p, h.brk) && BlockOk(h.size, b, h.brk);
    assert Disjoint(h.size, c, p) && Disjoint(h.size, b, h.ptr[p]) && Disjoint(h.size, b, d);
    assert !Touch(h, c, d);
  }

  lemma InsertKeeps(h: Blocks, p: int, b: int)
    requires HeapInv(h) && b in h.live && Place(h, p, b)
    ensures p in h.size && b in h.size && h.ptr[p] in h.ptr && h.ptr[p] in h.size
    ensures HeapInv(Insert(h, p, b)) && p in Insert(h, p, b).free
  {
    var q := h.ptr[p];
    LinkTiled(h, p, b);
    var h1 := Link(h, p, b);
    assert Linked(h.ptr, h.free, q) && BlockOk(h.size, p, h.brk)
      && BlockOk(h.size, b, h.brk) && BlockOk(h.size, q, h.brk);
    var up := b + h.size[b] == q;
    var h2 := if up then Merge(h1, b, q) else h1;
    forall c, d | Touch(h1, c, d) ensures (c == p && d == b) || (c == b && d == q) { LinkTouch(h, p, b, c, d); }
    hide Tiled;
    if up { MergeTiled(h1, b, q); }
    forall c, d | Touch(h2, c, d) ensures c == p && d == b {
      if up { MergeTouch(h1, b, q, c, d); assert !Touch(h1, q, d); }
    }
    if p + h.size[p] == b {
      MergeTiled(h2, p, b);
      forall c, d ensures !Touch(Merge(h2, p, b), c, d) {
        if Touch(Merge(h2, p, b), c, d) { MergeTouch(h2, p, b, c, d); }
      }
    }
  }

  /** The header fields after free, whichever neighbours b touches. */
  lemma InsertFields(h: Blocks, p: int, b: int)
    requires p != b && p in h.ptr && p in h.size && b in h.size
    requires h.ptr[p] in h.ptr && h.ptr[p] in h.size && h.ptr[p] != b && (b + h.size[b] == h.ptr[p] ==> h.ptr[p] != p)
    ensures var q, up, down := h.ptr[p], b + h.size[b] == h.ptr[p], p + h.size[p] == b;
            var next := if up then h.ptr[q] else q;
            var len := if up then h.size[b := h.size[b] + h.size[q]] else h.size;
            && Insert(h, p, b).ptr == h.ptr[b := next][p := if down then next else b]
            && Insert(h, p, b).size == if down then len[p := len[p] + len[b]] else len
  {
  }

  /** What free leaves alone, and where the freed units are. */
  lemma InsertEffect(h: Blocks, p: int, b: int)
    requires HeapInv(h) && b in h.live && Place(h, p, b)
    requires p in h.size && b in h.size && h.ptr[p] in h.ptr && h.ptr[p] in h.size
    ensures Insert(h, p, b).live == h.live - {b} && Insert(h, p, b).core == h.core && Insert(h, p, b).brk == h.brk
    ensures forall a :: a in h.live - {b} ==>
      a in h.size && a in Insert(h, p, b).size && Insert(h, p, b).size[a] == h.size[a]
    ensures exists f :: f in Insert(h, p, b).free && f in Insert(h, p, b).size && f <= b
                        && b + h.size[b] <= f + Insert(h, p, b).size[f]
    ensures b + h.size[b] == h.ptr[p] ==> h.ptr[p] != p && 0 < h.size[b] + h.size[h.ptr[p]] < LIMIT
    ensures p + h.size[p] == b ==> 0 < h.size[p] + h.size[b] < LIMIT
    ensures b + h.size[b] == h.ptr[p] && p + h.size[p] == b ==> 0 < h.size[p] + h.size[b] + h.size[h.ptr[p]] < LIMIT
  {
    var q := h.ptr[p];
    assert Linked(h.ptr, h.free, p);
    assert BlockOk(h.size, p, h.brk) && BlockOk(h.size, b, h.brk) && BlockOk(h.size, q, h.brk);
    forall a | a in h.live ensures a in h.size { assert BlockOk(h.size, a, h.brk); }
    hide Tiled;
    InsertFields(h, p, b);
    var f := if p + h.size[p] == b then p else b;
    assert f in Insert(h, p, b).free && f in Insert(h, p, b).size;
  }

  /** The block after p leaves the list whole. */
  function Take(h: Blocks, p: int): Blocks
    requires p in h.ptr && h.ptr[p] in h.ptr
  {
    h.(ptr := h.ptr[p := h.ptr[h.ptr[p]]], free := h.free - {h.ptr[p]}, live := h.live + {h.ptr[p]})
  }

  lemma TakeKeeps(h: Blocks, p: int)
    requires HeapInv(h) && p in h.free && p in h.ptr && h.ptr[p] != BASE
    ensures h.ptr[p] in h.ptr && h.ptr[p] in h.free && HeapInv(Take(h, p)) && p in Take(h, p).free
  {
    assert Linked(h.ptr, h.free, p);
    ListRemove(h.ptr, h.free, p);
    assert h.free - {h.ptr[p]} + (h.live + {h.ptr[p]}) == h.free + h.live;
    forall a, b ensures !Touch(Take(h, p), a, b) { assert !Touch(h, a, b); }
  }

  /** The last n units of the free block p become a block of their own. */
  function Split(h: Blocks, p: int, n: int): Blocks
    requires p in h.size
  {
    var b := p + h.size[p] - n;
    h.(size := h.size[p := h.size[p] - n][b := n], live := h.live + {b})
  }

  lemma SplitTouch(h: Blocks, p: int, n: int, c: int, d: int)
    requires HeapInv(h) && p in h.free && p in h.size && 0 < n < h.size[p]
    ensures !Touch(Split(h, p, n), c, d)
  {
    assert !Touch(h, c, d) && (d in h.free ==> Disjoint(h.size, p, d));
  }

  lemma SplitKeeps(h: Blocks, p: int, n: int)
    requires HeapInv(h) && p in h.free && p in h.size && 0 < n < h.size[p]
    ensures p + h.size[p] - n !in h.free + h.live && HeapInv(Split(h, p, n))
  {
    hide ShapeOk, CoreOk, ListOk, BlockOk, Interval;
    var b := p + h.size[p] - n;
    forall c, d ensures !Touch(Split(h, p, n), c, d) { SplitTouch(h, p, n, c, d); }
    hide Touch;
    SplitShape(h.size, h.free + h.live, h.brk, p, n);
    SplitCore(h.size, h.free + h.live, h.core, p, n);
    assert h.free + (h.live + {b}) == h.free + h.live + {b};
  }

  /** n units from sbrk, as a block that nobody has freed yet. */
  ghost function Grow(h: Blocks, at: int, n: int): Blocks {
    h.(size := h.size[at := n], live := h.live + {at}, core := h.core + Interval(at, at + n), brk := at + n)
  }

  lemma GrowKeeps(h: Blocks, at: int, n: int)
    requires HeapInv(h) && h.brk <= at && 0 < n && at + n <= LIMIT
    ensures at !in h.free + h.live && HeapInv(Grow(h, at, n))
  {
    GrowShape(h.size, h.free + h.live, h.brk, at, n);
    GrowCore(h.size, h.free + h.live, h.core, at, n);
    assert h.free + (h.live + {at}) == h.free + h.live + {at};
    forall a, b ensures !Touch(Grow(h, at, n), a, b) { assert !Touch(h, a, b); }
  }

  // ---------------------------------------------------------------- units are conserved

  lemma UnionCount(a: set<int>, b: set<int>)
    requires a !! b
    ensures |a + b| == |a| + |b|
  {
  }

  ghost function Pick(s: set<int>): (a: int)
    requires s != {}
    ensures a in s
  {
    assert (forall x :: x !in s) ==> s == {};
    var x :| x in s; x
  }

  /** The units in the blocks with headers in s. */
  ghost function Units(size: map<int, int>, s: set<int>): int
    requires forall a :: a in s ==> a in size
  {
    if s == {} then 0 else size[Pick(s)] + Units(size, s - {Pick(s)})
  }

  ghost function Part(h: Blocks, s: set<int>): set<int> { set x | x in h.core && Owned(h.size, s, x) }

  lemma HasSize(h: Blocks, a: int)
    requires Tiled(h) && a in h.free + h.live
    ensures a in h.size && 0 <= h.size[a]
  {
    assert BlockOk(h.size, a, h.brk);
  }

  lemma PartStep(h: Blocks, s: set<int>, a: int)
    requires Tiled(h) && s <= h.free + h.live && a in s
    ensures a in h.size && |Part(h, s)| == h.size[a] + |Part(h, s - {a})|
  {
    hide Tiled;
    HasSize(h, a);
    IntervalCount(a, a + h.size[a]);
    forall x ensures x in Part(h, s) <==> x in Part(h, s - {a}) + Interval(a, a + h.size[a]) { OwnedSplit(h, s, a, x); }
    forall x ensures !(x in Part(h, s - {a}) && x in Interval(a, a + h.size[a])) { OwnedOnce(h, s, a, x); }
    hide Part, Interval;
    assert Part(h, s) == Part(h, s - {a}) + Interval(a, a + h.size[a]);
    UnionCount(Part(h, s - {a}), Interval(a, a + h.size[a]));
  }

  lemma {:induction false} PartUnits(h: Blocks, s: set<int>)
    requires Tiled(h) && s <= h.free + h.live
    ensures forall a :: a in s ==> a in h.size
    ensures |Part(h, s)| == Units(h.size, s)
  {
    hide Tiled;
    forall a | a in s ensures a in h.size { HasSize(h, a); }
    if s == {} {
      assert Part(h, s) == {};
    } else {
      hide Part;
      PartUnits(h, s - {Pick(s)});
      PartStep(h, s, Pick(s));
    }
  }

  lemma OwnedSplit(h: Blocks, s: set<int>, a: int, x: int)
    requires Tiled(h) && s <= h.free + h.live && a in s && a in h.size
    ensures x in Part(h, s) <==> x in Part(h, s - {a}) + Interval(a, a + h.size[a])
  {
    if Owned(h.size, s, x) {
      var c :| c in s && Within(h.size, c, x);
      assert c != a ==> c in s - {a};
    }
    if Owned(h.size, s - {a}, x) { var c :| c in s - {a} && Within(h.size, c, x); assert c in s; }
    if a <= x < a + h.size[a] {
      assert Within(h.size, a, x);
      assert Owned(h.size, s, x) && Owned(h.size, h.free + h.live, x);
    }
  }

  lemma OneOwner(h: Blocks, a: int, b: int, x: int)
    requires Tiled(h) && a in h.free + h.live && b in h.free + h.live && Within(h.size, a, x) && Within(h.size, b, x)
    ensures a == b
  {
    assert Disjoint(h.size, a, b) && Disjoint(h.size, b, a);
  }

  lemma OwnedOnce(h: Blocks, s: set<int>, a: int, x: int)
    requires Tiled(h) && s <= h.free + h.live && a in s && a in h.size
    ensures !(x in Part(h, s - {a}) && x in Interval(a, a + h.size[a]))
  {
    if x in Part(h, s - {a}) && x in Interval(a, a + h.size[a]) {
      var c :| c in s - {a} && Within(h.size, c, x);
      OneOwner(h, a, c, x);
    }
  }

  /** Free units plus allocated units are the units obtained from sbrk. */
  lemma UnitsConserved(h: Blocks)
    requires HeapInv(h)
    ensures forall a :: a in h.free + h.live ==> a in h.size
    ensures Units(h.size, h.free) + Units(h.size, h.live) == |h.core|
  {
    PartUnits(h, h.free);
    PartUnits(h, h.live);
    forall x | x in h.core ensures x in Part(h, h.free) + Part(h, h.live) {
      var a :| a in h.free + h.live && Within(h.size, a, x);
      assert a in h.free || a in h.live;
    }
    forall x ensures !(x in Part(h, h.free) && x in Part(h, h.live)) {
      if x in Part(h, h.free) && x in Part(h, h.live) {
        var a :| a in h.free && Within(h.size, a, x);
        var b :| b in h.live && Within(h.size, b, x);
        OneOwner(h, a, b, x);
      }
    }
    assert Part(h, h.free) + Part(h, h.live) == h.core;
  }
}
