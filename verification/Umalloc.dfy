/** malloc, free and morecore of umalloc.c, on the header fields and freep. */
module Umalloc {
  import opened Common
  import opened Heap

  const NULL := 0
  const HEADER_BYTES := 16
  const MIN_CORE := 4096

  /** Addition in the 32-bit size field. */
  function Add32(x: int, y: int): int { (x + y) % LIMIT }

  /** The units malloc asks for: the request rounded up, and one for the header. */
  function Request(nbytes: nat): int { (nbytes + HEADER_BYTES - 1) / HEADER_BYTES + 1 }

  function CoreRequest(units: int): int { if units < MIN_CORE then MIN_CORE else units }

  /** morecore gets the fewest units that are enough for the request and at least 4096. */
  lemma CoreRequestExact(units: int, nu: int)
    ensures CoreRequest(units) <= nu <==> units <= nu && 4096 <= nu
  {
  }

  /** sbrk's argument is an int: the value the byte count is converted to. */
  function ToInt32(x: nat): int { var r := x % 0x1_0000_0000; if r < 0x8000_0000 then r else r - 0x1_0000_0000 }

  /** The block malloc returns holds the request, with less than one unit to spare. */
  lemma RequestFits(nbytes: nat)
    ensures nbytes <= (Request(nbytes) - 1) * HEADER_BYTES < nbytes + HEADER_BYTES
  {
  }

  /** The largest request whose byte count survives the conversion. */
  const MAX_REQUEST := 0x7fff_ffe0

  /** morecore gets the memory it books if and only if the request is at most MAX_REQUEST. */
  lemma SbrkArgument(nbytes: nat)
    requires nbytes < 0x1_0000_0000
    ensures nbytes <= MAX_REQUEST <==>
              ToInt32(CoreRequest(Request(nbytes)) * HEADER_BYTES) == CoreRequest(Request(nbytes)) * HEADER_BYTES
  {
  }

  /** A request that makes morecore ask sbrk for nothing and book 2^28 units. */
  lemma SbrkArgumentWraps()
    ensures CoreRequest(Request(0xffff_fff0)) == 0x1000_0000
    ensures ToInt32(CoreRequest(Request(0xffff_fff0)) * HEADER_BYTES) == 0
  {
  }

  /** How far the list goes from x to t, in addresses. */
  function Distance(x: int, t: int): int { if x <= t then t - x else LIMIT - x + t }

  lemma NextIsCloser(h: Blocks, x: int, t: int)
    requires HeapInv(h) && x in h.free && t in h.free && x != t
    ensures x in h.ptr && h.ptr[x] in h.free && 0 <= Distance(h.ptr[x], t) < Distance(x, t)
    ensures forall f :: f in h.free && Distance(h.ptr[x], t) < Distance(f, t) ==> Distance(x, t) <= Distance(f, t)
  {
    assert Linked(h.ptr, h.free, x) && Bounded(h, x) && Bounded(h, t);
    forall f | f in h.free ensures BASE <= f < LIMIT { assert Bounded(h, f); }
  }

  /** k steps along the free list. */
  ghost function Walk(h: Blocks, a: int, k: nat): int
    requires HeapInv(h) && a in h.free
    decreases k
  {
    if k == 0 then a else assert Linked(h.ptr, h.free, a); Walk(h, h.ptr[a], k - 1)
  }

  /** The free list is one cycle: it leads from any free block to any other. */
  lemma {:induction false} ListIsOneCycle(h: Blocks, a: int, b: int) returns (k: nat)
    requires HeapInv(h) && a in h.free && b in h.free
    ensures Walk(h, a, k) == b
    decreases Distance(a, b)
  {
    if a == b {
      k := 0;
    } else {
      NextIsCloser(h, a, b);
      var rest := ListIsOneCycle(h, h.ptr[a], b);
      k := rest + 1;
    }
  }

  predicate Bounded(h: Blocks, f: int) { BlockOk(h.size, f, h.brk) }

  lemma {:induction false} MaxBelow(free: set<int>, b: int) returns (t: int)
    requires exists f :: f in free && f < b
    ensures t in free && t < b && forall f :: f in free && f < b ==> f <= t
    decreases free
  {
    var u :| u in free && u < b;
    t := u;
    if exists f :: f in free - {u} && u < f < b {
      var v := MaxBelow(free - {u}, b);
      assert u < v;
      t := v;
    }
    forall f | f in free && f < b ensures f <= t { assert f != u ==> f in free - {u}; }
  }

  /** The header fields free writes, in 32 bits, give exactly the list with b inserted. */
  lemma InsertWrites(h: Blocks, p: int, b: int)
    requires HeapInv(h) && b in h.live && Place(h, p, b)
    ensures p != b && p in h.ptr && p in h.size && b in h.size
    ensures h.ptr[p] in h.ptr && h.ptr[p] in h.size && h.ptr[p] != b
    ensures b + h.size[b] == h.ptr[p] ==> h.ptr[p] != p
    ensures var q, up, down := h.ptr[p], b + h.size[b] == h.ptr[p], p + h.size[p] == b;
            var next := if up then h.ptr[q] else q;
            var len := if up then h.size[b := Add32(h.size[b], h.size[q])] else h.size;
            && Insert(h, p, b).ptr == h.ptr[b := next][p := if down then next else b]
            && Insert(h, p, b).size == (if down then len[p := Add32(len[p], len[b])] else len)
            && Insert(h, p, b).live == h.live - {b} && Insert(h, p, b).core == h.core && Insert(h, p, b).brk == h.brk
  {
    InsertKeeps(h, p, b);
    InsertEffect(h, p, b);
    InsertFields(h, p, b);
    hide HeapInv, Insert, Place;
  }

  class Arena {
    var ptr: map<int, int>
    var size: map<int, int>
    var freep: int
    ghost var free: set<int>
    ghost var live: set<int>
    ghost var core: set<int>
    ghost var brk: int

    ghost function View(): Blocks
      reads this
    {
      Blocks(ptr, size, free, live, core, brk)
    }

    ghost predicate Valid()
      reads this
    {
      if freep == NULL then free == {} && live == {} && core == {} && BASE < brk <= LIMIT
      else HeapInv(View()) && freep in free
    }

    constructor (start: int)
      requires BASE < start <= LIMIT
      ensures Valid() && live == {} && core == {} && brk == start
    {
      ptr, size, freep := map[], map[], NULL;
      free, live, core, brk := {}, {}, {}, start;
    }

    /** The search loop of free. */
    method FindPlace(b: int) returns (p: int)
      requires Valid() && b in live
      ensures freep != NULL && BASE <= p && Place(View(), p, b)
    {
      ghost var h := View();
      assert BlockOk(size, b, brk) && BlockOk(size, BASE, brk);
      ghost var t := MaxBelow(free, b);
      p := freep;
      assert Linked(ptr, free, p);
      while !(b > p && b < ptr[p])
        invariant p in free && View() == h && BASE <= p
        decreases Distance(p, t)
      {
        assert Linked(ptr, free, p) && Linked(ptr, free, t);
        if p >= ptr[p] && (b > p || b < ptr[p]) { break; }
        NextIsCloser(h, p, t);
        assert Linked(ptr, free, ptr[p]);
        p := ptr[p];
      }
    }

    /** The rest of free: b goes in after p, and merges with what it touches. */
    method Relink(p: int, b: int)
      requires HeapInv(View()) && b in live && Place(View(), p, b)
      modifies this
      ensures p in old(size) && b in old(size) && old(ptr)[p] in old(ptr) && old(ptr)[p] in old(size)
      ensures View() == Insert(old(View()), p, b) && freep == p
    {
      ghost var h := View();
      InsertWrites(h, p, b);
      var q := ptr[p];
      hide HeapInv, Insert, Place, Add32;
      if b + size[b] == q {
        size := size[b := Add32(size[b], size[q])];
        ptr := ptr[b := ptr[q]];
      } else {
        ptr := ptr[b := q];
      }
      if p + size[p] == b {
        size := size[p := Add32(size[p], size[b])];
        ptr := ptr[p := ptr[b]];
      } else {
        ptr := ptr[p := b];
      }
      freep := p;
      free, live := Insert(h, p, b).free, live - {b};
    }

    /** free(ap), where b is the header in front of ap. */
    method Free(b: int)
      requires Valid() && b in live
      modifies this
      ensures Valid() && freep != NULL
      ensures live == old(live) - {b} && core == old(core) && brk == old(brk)
      ensures forall a :: a in live ==> a in size && a in old(size) && size[a] == old(size)[a]
      ensures b in old(size) && exists f :: f in free && f in size && f <= b && b + old(size)[b] <= f + size[f]
    {
      ghost var h := View();
      var p := FindPlace(b);
      InsertKeeps(h, p, b);
      InsertEffect(h, p, b);
      hide HeapInv, Insert;
      Relink(p, b);
    }

    /** sbrk is `got`: the address of the new memory, above all that it returned before, or nothing. */
    method Morecore(units: int, got: Option<int>) returns (ok: bool)
      requires Valid() && freep != NULL && 0 < units
      requires got.Some? ==> brk <= got.value && got.value + CoreRequest(units) <= LIMIT
      modifies this
      ensures ok <==> got.Some?
      ensures !ok ==> View() == old(View()) && freep == old(freep)
      ensures ok ==>
        core == old(core) + Interval(got.value, got.value + CoreRequest(units))
            && old(core) !! Interval(got.value, got.value + CoreRequest(units))
      ensures ok ==> exists f :: f in free && f in size && units <= size[f]
      ensures Valid() && freep != NULL && live == old(live)
      ensures forall a :: a in live ==> a in size && a in old(size) && size[a] == old(size)[a]
    {
      if got.None? { return false; }
      var nu := CoreRequest(units);
      var hp := got.value;
      GrowKeeps(View(), hp, nu);
      ghost var h := View();
      size := size[hp := nu];
      live, core, brk := live + {hp}, core + Interval(hp, hp + nu), hp + nu;
      assert View() == Grow(h, hp, nu);
      Free(hp);
      return true;
    }

    /** malloc cuts n units off the free block p, which follows prev, or takes it whole. */
    method Carve(prev: int, p: int, n: int) returns (b: int)
      requires HeapInv(View()) && prev in free && prev in ptr
      requires ptr[prev] == p && p in free && p in size && 0 < n <= size[p]
      modifies this
      ensures HeapInv(View()) && freep == prev && freep in free && freep != NULL && core == old(core) && brk == old(brk)
      ensures b !in old(live) && live == old(live) + {b} && b in size && size[b] == n
      ensures p <= b && b + n == p + old(size)[p]
      ensures forall a :: a in old(live) ==> a in size && a in old(size) && size[a] == old(size)[a]
    {
      ghost var h := View();
      assert BlockOk(size, BASE, brk) && Linked(ptr, free, prev);
      forall a | a in live ensures a in size { assert BlockOk(size, a, brk); }
      if size[p] == n {
        TakeKeeps(h, prev);
        hide HeapInv;
        ptr := ptr[prev := ptr[p]];
        free, live := free - {p}, live + {p};
        assert View() == Take(h, prev);
        b := p;
      } else {
        SplitKeeps(h, p, n);
        hide HeapInv;
        size := size[p := size[p] - n];
        b := p + size[p];
        size := size[b := n];
        live := live + {b};
        assert View() == Split(h, p, n);
      }
      freep := prev;
    }

    ghost predicate Fits(n: int)
      reads this
    {
      exists f :: f in free && f in size && n <= size[f]
    }

    /** The search loop of malloc: it goes round the list once, and after morecore once more. */
    method Search(n: int, got: Option<int>) returns (r: Option<int>)
      requires HeapInv(View()) && freep in free && freep != NULL && 0 < n
      requires got.Some? && !Fits(n) ==> brk <= got.value && got.value + CoreRequest(n) <= LIMIT
      modifies this
      ensures HeapInv(View()) && freep in free && freep != NULL
      ensures r.Some? <==> old(Fits(n)) || got.Some?
      ensures r.Some? ==>
        r.value !in old(live) && live == old(live) + {r.value} && r.value in size && size[r.value] == n
      ensures r.None? ==> live == old(live)
      ensures core == old(core) + if old(Fits(n)) || got.None? then {}
                                  else Interval(got.value, got.value + CoreRequest(n))
      ensures SameSizes(old(View()), size)
    {
      ghost var h := View();
      hide HeapInv, Tiled, Distance;
      var prev := freep;
      FirstIsFarthest(h, prev);
      var p := ptr[prev];
      ghost var grown := false;
      while true
        invariant HeapInv(View()) && freep in free && freep != NULL && live == h.live && SameSizes(h, size)
        invariant !grown ==> View() == h
        invariant grown ==>
          got.Some? && !old(Fits(n)) && Fits(n) && core == h.core + Interval(got.value, got.value + CoreRequest(n))
        invariant prev in free && prev in ptr && ptr[prev] == p && p in free && p in size
        invariant Passed(View(), p, freep, n)
        decreases if grown then 0 else 1, Distance(p, freep)
      {
        ghost var now := View();
        if size[p] >= n {
          var b := Carve(prev, p, n);
          return Some(b);
        }
        if p == freep {
          AllPassed(now, p, n);
          assert !grown;
          var ok := Morecore(n, got);
          if !ok { return None; }
          grown := true;
          p := freep;
          FirstIsFarthest(View(), p);
        } else {
          PassedNext(now, p, freep, n);
        }
        prev := p;
        p := ptr[p];
      }
    }

    /** malloc(nbytes); `got` is what sbrk returns if it is called, and then it returns memory only for an
        argument that survived the conversion. The result is the block's header: the caller's memory
        starts one unit after it. */
    method Malloc(nbytes: nat, got: Option<int>) returns (r: Option<int>)
      requires Valid() && nbytes < 0x1_0000_0000
      requires got.Some? && !Fits(Request(nbytes)) ==>
                 nbytes <= MAX_REQUEST && brk <= got.value && got.value + CoreRequest(Request(nbytes)) <= LIMIT
      modifies this
      ensures Valid()
      ensures r.Some? <==> old(Fits(Request(nbytes))) || got.Some?
      ensures r.Some? ==> r.value !in old(live) && live == old(live) + {r.value}
      ensures r.Some? ==> r.value in size && size[r.value] == Request(nbytes)
      ensures r.None? ==> live == old(live)
      ensures core == old(core) + if old(Fits(Request(nbytes))) || got.None? then {}
                                  else Interval(got.value, got.value + CoreRequest(Request(nbytes)))
      ensures forall a :: a in old(live) ==> a in size && a in old(size) && size[a] == old(size)[a]
    {
      if freep == NULL {
        ptr, size, freep := ptr[BASE := BASE], size[BASE := 0], BASE;
        free := {BASE};
        FirstHeap(View());
      }
      assert Fits(Request(nbytes)) == old(Fits(Request(nbytes))) && live == old(live);
      r := Search(Request(nbytes), got);
    }
  }

  ghost predicate SameSizes(h: Blocks, size: map<int, int>) {
    forall a :: a in h.live ==> a in size && a in h.size && size[a] == h.size[a]
  }

  /** The blocks that the search from t has come past are all too small. */
  ghost predicate Passed(h: Blocks, p: int, t: int, n: int) {
    forall f :: f in h.free && Distance(p, t) < Distance(f, t) ==> f in h.size && h.size[f] < n
  }

  lemma FirstIsFarthest(h: Blocks, t: int)
    requires HeapInv(h) && t in h.free
    ensures t in h.ptr && h.ptr[t] in h.free && h.ptr[t] in h.size && SameSizes(h, h.size)
    ensures forall f :: f in h.free ==> Distance(f, t) <= Distance(h.ptr[t], t)
  {
    assert Linked(h.ptr, h.free, t) && BlockOk(h.size, h.ptr[t], h.brk);
    forall a | a in h.live ensures a in h.size { assert BlockOk(h.size, a, h.brk); }
    forall f | f in h.free ensures BASE <= f < LIMIT { assert BlockOk(h.size, f, h.brk); }
  }

  lemma PassedNext(h: Blocks, p: int, t: int, n: int)
    requires HeapInv(h) && p in h.free && t in h.free && p != t && Passed(h, p, t, n) && p in h.size && h.size[p] < n
    ensures p in h.ptr && h.ptr[p] in h.free && h.ptr[p] in h.size && Passed(h, h.ptr[p], t, n)
    ensures 0 <= Distance(h.ptr[p], t) < Distance(p, t)
  {
    NextIsCloser(h, p, t);
    assert BlockOk(h.size, h.ptr[p], h.brk);
    forall f | f in h.free && Distance(h.ptr[p], t) < Distance(f, t) ensures f in h.size && h.size[f] < n {
      assert BlockOk(h.size, f, h.brk) && BlockOk(h.size, p, h.brk) && BlockOk(h.size, t, h.brk);
    }
  }

  lemma AllPassed(h: Blocks, t: int, n: int)
    requires HeapInv(h) && t in h.free && Passed(h, t, t, n) && t in h.size && h.size[t] < n
    ensures forall f :: f in h.free ==> f in h.size && h.size[f] < n
  {
    forall f | f in h.free ensures f in h.size && h.size[f] < n {
      assert BlockOk(h.size, f, h.brk) && BlockOk(h.size, t, h.brk);
    }
  }

  lemma FirstHeap(h: Blocks)
    requires h.free == {BASE} && h.live == {} && h.core == {} && BASE < h.brk <= LIMIT
    requires BASE in h.ptr && h.ptr[BASE] == BASE && BASE in h.size && h.size[BASE] == 0
    ensures HeapInv(h)
  {
    assert Linked(h.ptr, h.free, BASE) && BlockOk(h.size, BASE, h.brk) && Disjoint(h.size, BASE, BASE);
  }
}
