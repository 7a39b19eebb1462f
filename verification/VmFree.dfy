/** uvmcreate, freewalk and uvmfree: a page table from its first page to its last. */
module VmFree {
  import opened PageTable
  import opened PageMap
  import opened VmCode
  import opened VmUser
  import opened VmProc

  // ---------------------------------------------------------------- uvmcreate

  function NewRoot(s: State, p: int): State { s.(role := s.role[p := Node(p, 2, 0)], loose := s.loose - {p}) }

  lemma NewRootInv(s: State, p: int)
    requires Inv(s, NONE) && p in s.loose && p in s.pages && s.pages[p] == EmptyTable()
    ensures Inv(NewRoot(s, p), NONE) && IsRoot(NewRoot(s, p), p)
    ensures forall v :: 0 <= v < MAXVPN ==> Removed(NewRoot(s, p), p, v)
  {
    var s' := NewRoot(s, p);
    assert Placed(s, p) && Placed(s, 0);
    forall n ensures Own(s', NONE, n) {
      assert Own(s, NONE, n) && Placed(s, Loc(s.pages, n));
      if n.root == p { EmptyRoot(s.pages, p, n); }
    }
    forall x ensures Back(s', x) { assert Back(s, x) && Placed(s, x); }
    forall x ensures KindOk(s', x) { assert KindOk(s, x) && Placed(s, x); }
    forall i ensures FreeOk(s', i) { assert FreeOk(s, i); }
    forall i, j ensures Apart(s', i, j) { assert Apart(s, i, j); }
    forall x ensures Placed(s', x) { assert Placed(s, x); }
  }

  lemma EmptyRoot(pages: map<int, Page>, p: int, n: Node)
    requires p in pages && pages[p] == EmptyTable() && n.root == p && 0 !in pages
    ensures Loc(pages, n) == 0 || n == Node(p, 2, 0)
  {
  }

  /** uvmcreate(). */
  method Create(vm: Vm) returns (t: int)
    requires vm.Valid()
    modifies vm`pages, vm`freelist, vm`free, vm`role, vm`loose
    ensures vm.Valid() && vm.loose == old(vm.loose) && (t == 0 <==> old(vm.free) == [])
    ensures t == 0 ==> vm.View() == old(vm.View())
    ensures t != 0 ==> t !in old(vm.role) && IsRoot(vm.View(), t)
    ensures t != 0 ==> forall v :: 0 <= v < MAXVPN ==> Removed(vm.View(), t, v)
  {
    ghost var s := vm.View();
    t := vm.Kalloc();
    if t == 0 { return; }
    PopInv(s, EmptyTable());
    NewRootInv(Pop(s, EmptyTable()), t);
    hide Inv;
    vm.pages := vm.pages[t := EmptyTable()];
    vm.role, vm.loose := vm.role[t := Node(t, 2, 0)], vm.loose - {t};
    assert vm.View() == NewRoot(Pop(s, EmptyTable()), t);
  }

  // ---------------------------------------------------------------- freewalk

  /** m is n or a node below it. */
  predicate Under(n: Node, m: Node) {
    m.root == n.root &&
    (|| m == n
     || (m.level == n.level - 1 && m.prefix / ENTRIES == n.prefix)
     || (m.level == n.level - 2 && m.prefix / ENTRIES / ENTRIES == n.prefix)
     || (m.level == n.level - 3 && m.prefix / ENTRIES / ENTRIES / ENTRIES == n.prefix))
  }

  lemma UnderBelow(n: Node, i: nat, m: Node)
    requires i < ENTRIES && Under(Below(n, i), m) && -1 <= m.level && n.level <= 2
    ensures Under(n, m) && m != n
  {
  }

  /** No page of t is mapped any more. */
  predicate BareAt(s: State, t: int, p: int) {
    p in s.role && s.role[p].root == t && s.role[p].level == 0 ==> p in s.pages && AllInvalid(s.pages[p])
  }

  /** The page p is where it was, unless it was at or below node n; no page has a new place. */
  predicate KeptBy(s: State, u: State, n: Node, p: int) {
    && (p in u.role ==> p in s.role && u.role[p] == s.role[p])
    && (p in s.role && !Under(n, s.role[p]) ==> p in u.role && p in s.pages && p in u.pages && u.pages[p] == s.pages[p])
  }

  /** Only what is at or below n has been given back. */
  ghost predicate Pruned(s: State, u: State, n: Node) {
    u.lo == s.lo && u.hi == s.hi && u.loose == s.loose && forall p :: KeptBy(s, u, n, p)
  }

  /** freewalk is at entry i of the table q, which is the node n. */
  ghost predicate Walking(s: State, u: State, n: Node, q: int, i: nat) {
    && Inv(u, NONE) && q in s.role && s.role[q] == n && q in u.role && u.role[q] == n
    && q in s.pages && q in u.pages && s.pages[q].Table? && u.pages[q].Table?
    && |u.pages[q].ptes| == |s.pages[q].ptes| == ENTRIES
    && u.lo == s.lo && u.hi == s.hi && u.loose == s.loose && (forall p :: p == q || KeptBy(s, u, n, p))
    && (forall p :: BareAt(u, n.root, p))
    && (forall j :: 0 <= j < ENTRIES ==>
       if j < i then !u.pages[q].ptes[j].v else u.pages[q].ptes[j] == s.pages[q].ptes[j])
  }

  /** A valid entry that freewalk meets leads to a table of the next level. */
  lemma ChildOf(u: State, n: Node, q: int, i: nat)
    requires Inv(u, NONE) && q in u.role && u.role[q] == n && n.level >= 0
    requires i < ENTRIES && (forall p :: BareAt(u, n.root, p))
    ensures q in u.pages && TableOk(n, u.pages[q]) && 0 <= n.level <= 2
    ensures var e := u.pages[q].ptes[i];
            e.v ==> n.level > 0 && !e.r && !e.w && !e.x && e.ppn in u.role && u.role[e.ppn] == Below(n, i)
  {
    assert KindOk(u, q) && Back(u, q) && BareAt(u, n.root, q);
    var e := u.pages[q].ptes[i];
    assert PteOk(n, i, e);
    if e.v {
      LocStep(u.pages, Below(n, i));
      assert Own(u, NONE, Below(n, i));
    }
  }

  lemma WalkingStarts(s: State, n: Node, q: int)
    requires Inv(s, NONE) && q in s.role && s.role[q] == n && n.level >= 0 && (forall p :: BareAt(s, n.root, p))
    ensures Walking(s, s, n, q, 0)
  {
    assert KindOk(s, q);
    forall p ensures KeptBy(s, s, n, p) { assert KindOk(s, p); }
  }

  /** The table below entry i is gone, and the entry is cleared. */
  lemma WalkingNext(s: State, u: State, w: State, n: Node, q: int, i: nat)
    requires Walking(s, u, n, q, i) && n.level > 0 && i < ENTRIES
    requires Inv(w, Below(n, i)) && Pruned(u, w, Below(n, i)) && n.level <= 2
    requires u.pages[q].ptes[i].v && u.pages[q].ptes[i].ppn !in w.role
    requires u.pages[q].ptes[i].ppn in w.pages && !w.pages[u.pages[q].ptes[i].ppn].Table?
    requires forall p :: BareAt(w, n.root, p)
    ensures q in w.pages && w.pages[q] == u.pages[q] && Settable(w, q, i, NOPTE)
    ensures Walking(s, w.(pages := WithEntry(w.pages, q, i, NOPTE)), n, q, i + 1)
  {
    var c := Below(n, i);
    assert KeptBy(u, w, c, q) && KindOk(u, q) && Back(u, q);
    ClearInv(w, q, i, c);
    var z' := w.(pages := WithEntry(w.pages, q, i, NOPTE));
    forall p ensures p == q || KeptBy(s, z', n, p) {
      assert p == q || KeptBy(s, u, n, p);
      assert KeptBy(u, w, c, p);
      if p in u.role && Under(c, u.role[p]) { assert Back(u, p); UnderBelow(n, i, u.role[p]); }
    }
    forall p ensures BareAt(z', n.root, p) { assert BareAt(w, n.root, p); }
  }

  lemma WalkingSkips(s: State, u: State, n: Node, q: int, i: nat)
    requires Walking(s, u, n, q, i) && i < ENTRIES && !u.pages[q].ptes[i].v
    ensures Walking(s, u, n, q, i + 1)
  {
  }

  lemma WalkingEnds(s: State, u: State, n: Node, q: int)
    requires Walking(s, u, n, q, ENTRIES) && n.level >= 0
    ensures u.lo <= q < u.hi && q in u.role
    ensures Inv(Bury(u, q), DeadNode(n)) && Pruned(s, Bury(u, q), n) && forall p :: BareAt(Bury(u, q), n.root, p)
  {
    assert KindOk(u, q) && Placed(u, q);
    BuryInv(u, q);
    var z := Bury(u, q);
    forall p ensures KeptBy(s, z, n, p) {
      assert p == q || KeptBy(s, u, n, p);
    }
    forall p ensures BareAt(z, n.root, p) { assert BareAt(u, n.root, p); }
  }

  /** freewalk(q), where q is the table at node n: its pages, and those of all tables below it, go to the free list. */
  method FreeWalk(vm: Vm, q: int, ghost n: Node)
    requires vm.Valid() && q in vm.role && vm.role[q] == n && n.level >= 0 && (forall p :: BareAt(vm.View(), n.root, p))
    modifies vm`pages, vm`freelist, vm`free, vm`role, vm`loose
    ensures Inv(vm.View(), DeadNode(n)) && vm.freelist == Head(vm.View()) && Pruned(old(vm.View()), vm.View(), n)
    ensures q !in vm.role && q in vm.pages && !vm.pages[q].Table? && (forall p :: BareAt(vm.View(), n.root, p))
    decreases n.level
  {
    ghost var s := vm.View();
    WalkingStarts(s, n, q);
    ChildOf(s, n, q, 0);
    hide Inv, BareAt, Pruned;
    var i := 0;
    while i < ENTRIES
      invariant 0 <= i <= ENTRIES && Walking(s, vm.View(), n, q, i) && vm.freelist == Head(vm.View())
    {
      ghost var u := vm.View();
      ChildOf(u, n, q, i);
      var pte := vm.pages[q].ptes[i];
      if pte.v && !pte.r && !pte.w && !pte.x {
        FreeWalk(vm, pte.ppn, Below(n, i));
        WalkingNext(s, u, vm.View(), n, q, i);
        vm.pages := WithEntry(vm.pages, q, i, NOPTE);
      } else {
        assert !pte.v;
        WalkingSkips(s, u, n, q, i);
      }
      i := i + 1;
    }
    WalkingEnds(s, vm.View(), n, q);
    ghost var u := vm.View();
    vm.Kfree(q);
    assert vm.View() == Bury(u, q);
  }

  // ---------------------------------------------------------------- uvmfree

  /** What freeing the page table t leaves alone. */
  ghost predicate Without(s: State, u: State, t: int) {
    && u.loose == s.loose && !IsRoot(u, t)
    && (forall r :: r != t ==> (IsRoot(u, r) <==> IsRoot(s, r)))
    && (forall r, v :: r != t ==> SameAt(s, u, r, v))
    && (forall p :: p in s.role && s.role[p].root != t ==> UserSame(s, u, p))
    && (forall p :: p in u.role ==> p in s.role && s.role[p].root != t)
  }

  lemma AllBare(s: State, t: int, p: int)
    requires Inv(s, NONE) && IsRoot(s, t) && forall v :: 0 <= v < MAXVPN ==> Removed(s, t, v)
    ensures BareAt(s, t, p)
  {
    if p in s.role && s.role[p].root == t && s.role[p].level == 0 {
      assert KindOk(s, p) && Back(s, p);
      forall i | 0 <= i < ENTRIES ensures !s.pages[p].ptes[i].v {
        var v := s.role[p].prefix * ENTRIES + i;
        assert v / ENTRIES == s.role[p].prefix && v % ENTRIES == i && Removed(s, t, v);
        TableOf(s, t, v);
      }
    }
  }

  /** The other page tables translate as before. */
  lemma PrunedMap(s: State, u: State, t: int, r: int, v: nat)
    requires Inv(s, NONE) && Inv(u, NONE) && Pruned(s, u, Node(t, 2, 0)) && r != t && IsRoot(s, r) && v < MAXVPN
    ensures IsRoot(u, r) && Lookup(u.pages, r, v) == Lookup(s.pages, r, v)
  {
    var n := Node(t, 2, 0);
    assert KeptBy(s, u, n, r) && Placed(s, 0) && Placed(u, 0);
    var n1, n0 := At(r, 1, v), At(r, 0, v);
    WalkDown(r, 2, v);
    WalkDown(r, 1, v);
    LocStep(s.pages, n1);
    LocStep(u.pages, n1);
    LocStep(s.pages, n0);
    LocStep(u.pages, n0);
    assert Own(s, NONE, n1) && KeptBy(s, u, n, Loc(s.pages, n1));
    assert Own(s, NONE, n0) && KeptBy(s, u, n, Loc(s.pages, n0));
    TableOf(s, r, v);
  }

  lemma FreedTable(s: State, u: State, t: int)
    requires Inv(s, NONE) && Inv(u, NONE) && Pruned(s, u, Node(t, 2, 0)) && t !in u.role && IsRoot(s, t)
    ensures Without(s, u, t)
  {
    var n := Node(t, 2, 0);
    forall r | r != t ensures IsRoot(u, r) <==> IsRoot(s, r) { assert KeptBy(s, u, n, r); }
    forall r, v | r != t ensures SameAt(s, u, r, v) { if IsRoot(s, r) && 0 <= v < MAXVPN { PrunedMap(s, u, t, r, v); } }
    forall p | p in s.role && s.role[p].root != t ensures UserSame(s, u, p) { assert KeptBy(s, u, n, p); }
    forall p | p in u.role ensures p in s.role && s.role[p].root != t { assert KeptBy(s, u, n, p) && Back(u, p); }
  }

  /** uvmfree(t, sz): every page of t's tables and of its memory is on the free list afterwards. */
  method Free(vm: Vm, t: int, sz: nat)
    requires vm.Valid() && IsRoot(vm.View(), t) && sz <= TRAPVPN * PGSIZE
    requires forall v: nat :: v * PGSIZE < sz ==> Removable(vm.View(), t, v, true)
    requires forall v: nat :: sz <= v * PGSIZE && v < MAXVPN ==> Removed(vm.View(), t, v)
    modifies vm`pages, vm`freelist, vm`free, vm`role, vm`loose
    ensures vm.Valid() && Without(old(vm.View()), vm.View(), t)
    ensures forall p :: p in old(vm.role) && old(vm.role)[p].root == t ==> p in vm.free
  {
    ghost var s := vm.View();
    var n := PagesUp(sz);
    forall v: nat ensures v < n <==> v * PGSIZE < sz { PagesUpExact(sz, v); }
    UpTo(sz);
    QuietSelf(s);
    QuietEdit(s, s, t, 0, n);
    if sz > 0 { Unmap(vm, t, 0, n, true); }
    ghost var m := vm.View();
    EditWhole(s, m, t, n);
    forall p ensures BareAt(m, t, p) { AllBare(m, t, p); }
    FreeWalk(vm, t, Node(t, 2, 0));
    FreedTable(m, vm.View(), t);
    WithoutOn(s, m, vm.View(), t, n);
    forall p | p in s.role && s.role[p].root == t ensures p in vm.free { Returned(s, vm.View(), t, p); }
  }

  lemma EditWhole(s: State, m: State, t: int, n: nat)
    requires Edit(s, m, t, 0, n) && IsRoot(s, t) && n <= TRAPVPN && (forall v :: n <= v < MAXVPN ==> Removed(s, t, v))
    requires n > 0 ==> forall v :: 0 <= v < n ==> Removed(m, t, v)
    ensures IsRoot(m, t) && forall v :: 0 <= v < MAXVPN ==> Removed(m, t, v)
  {
    forall v | 0 <= v < MAXVPN ensures Removed(m, t, v) {
      assert v < n || (Removed(s, t, v) && SameOutside(s, m, t, 0, n, t, v));
    }
  }

  lemma WithoutOn(s: State, m: State, u: State, t: int, n: nat)
    requires Edit(s, m, t, 0, n) && m.loose == s.loose && Shrinks(s, m) && Without(m, u, t)
    ensures Without(s, u, t)
  {
    forall r, v | r != t ensures SameAt(s, u, r, v) { assert SameOutside(s, m, t, 0, n, r, v) && SameAt(m, u, r, v); }
    forall p | p in s.role && s.role[p].root != t ensures UserSame(s, u, p) {
      assert UserOutside(s, m, t, 0, n, p);
      if p in m.role && m.role[p].root != t { assert UserSame(m, u, p); }
    }
  }

  lemma Returned(s: State, u: State, t: int, p: int)
    requires Inv(s, NONE) && Inv(u, NONE) && u.loose == s.loose
    requires u.lo == s.lo && u.hi == s.hi && p in s.role && p !in u.role
    ensures p in u.free
  {
    assert Placed(s, p) && Placed(u, p);
  }
}
