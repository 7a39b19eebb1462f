/** mappages and uvmunmap over ranges of pages. */
module VmUser {
  import opened PageTable
  import opened PageMap
  import opened VmCode

  /** The entry that mappages gives to page v of a range that starts at vpn and is mapped to ppn on. */
  function Want(perm: Pte, vpn: int, ppn: int, v: int): Pte { perm.(ppn := ppn + (v - vpn)) }

  predicate Ready(s: State, t: int, perm: Pte, vpn: nat, ppn: int, v: nat) {
    !Lookup(s.pages, t, v).v && Mappable(s, v, Want(perm, vpn, ppn, v))
  }

  predicate UserPage(vpn: int, ppn: int, p: int) { vpn + (p - ppn) < TRAPVPN }

  /** The user pages among those mapped to vpn..end-1. */
  ghost function Given(vpn: int, ppn: int, end: int): set<int> {
    set p: int | ppn <= p < ppn + (end - vpn) && UserPage(vpn, ppn, p)
  }

  /** Page v of the range, when mappages has come to end: mapped, the user's page with the bytes it had, or not yet. */
  predicate MapsTo(s: State, u: State, t: int, perm: Pte, vpn: int, ppn: int, end: int, v: int) {
    var e := Want(perm, vpn, ppn, v);
    && Lookup(u.pages, t, v) == (if v < end then e else NOPTE)
    && (v < end && v < TRAPVPN ==>
       e.ppn in u.role && u.role[e.ppn] == Node(t, -1, v) && e.ppn in s.pages
           && e.ppn in u.pages && u.pages[e.ppn] == s.pages[e.ppn])
  }

  /** Pages that are still nobody's keep their contents. */
  ghost predicate LooseLeft(s: State, u: State) {
    forall p :: p in s.loose && p in u.loose ==> p in s.pages && p in u.pages && u.pages[p] == s.pages[p]
  }

  ghost predicate Mapping(s: State, u: State, t: int, perm: Pte, vpn: nat, n: nat, ppn: int, end: int) {
    && Inv(u, NONE) && IsRoot(u, t) && Edit(s, u, t, vpn, vpn + n)
    && LooseLeft(s, u) && u.loose == s.loose - Given(vpn, ppn, end)
    && forall v :: vpn <= v < vpn + n ==> MapsTo(s, u, t, perm, vpn, ppn, end, v)
  }

  lemma MappingStarts(s: State, t: int, perm: Pte, vpn: nat, n: nat, ppn: int)
    requires Inv(s, NONE) && IsRoot(s, t) && forall v: nat :: vpn <= v < vpn + n ==> Ready(s, t, perm, vpn, ppn, v)
    ensures Mapping(s, s, t, perm, vpn, n, ppn, vpn)
  {
    QuietSelf(s);
    QuietEdit(s, s, t, vpn, vpn + n);
    LooseHere(s);
    forall v | vpn <= v < vpn + n ensures MapsTo(s, s, t, perm, vpn, ppn, vpn, v) {
      assert Ready(s, t, perm, vpn, ppn, v);
    }
    assert Given(vpn, ppn, vpn) == {};
  }

  /** One more page is mapped. */
  lemma MappingNext(s: State, m: State, u: State, t: int, perm: Pte, vpn: nat, n: nat, ppn: int, c: nat)
    requires Mapping(s, m, t, perm, vpn, n, ppn, c) && Inv(s, NONE) && Inv(u, NONE) && vpn <= c < vpn + n <= MAXVPN
    requires Edit(m, u, t, c, c + 1) && LooseSame(m, u) && IsRoot(u, t)
    requires var e := Want(perm, vpn, ppn, c);
             && Mappable(s, c, e) && Lookup(u.pages, t, c) == e
                && u.loose == m.loose - if c < TRAPVPN then {e.ppn} else {}
    ensures Mapping(s, u, t, perm, vpn, n, ppn, c + 1)
  {
    EditWider(m, u, t, c, c + 1, vpn, vpn + n);
    EditOn(s, m, u, t, vpn, vpn + n);
    var e, d := Want(perm, vpn, ppn, c), c + 1;
    assert MapsTo(s, m, t, perm, vpn, ppn, c, c);
    forall v | vpn <= v < vpn + n ensures MapsTo(s, u, t, perm, vpn, ppn, d, v) {
      assert MapsTo(s, m, t, perm, vpn, ppn, c, v) && SameOutside(m, u, t, c, c + 1, t, v);
      if v != c {
        assert UserOutside(m, u, t, c, c + 1, Want(perm, vpn, ppn, v).ppn);
      } else if c < TRAPVPN {
        MappedHere(u, t, c);
      }
    }
    assert Given(vpn, ppn, c + 1) == Given(vpn, ppn, c) + if c < TRAPVPN then {e.ppn} else {};
  }

  /** mappages stops: walk may have made tables, and that is all. */
  lemma MappingStops(s: State, m: State, u: State, t: int, perm: Pte, vpn: nat, n: nat, ppn: int, c: nat)
    requires Mapping(s, m, t, perm, vpn, n, ppn, c) && Inv(u, NONE) && vpn + n <= MAXVPN
    requires Quiet(m, u) && LooseSame(m, u) && u.loose == m.loose && IsRoot(u, t)
    ensures Mapping(s, u, t, perm, vpn, n, ppn, c)
  {
    QuietEdit(m, u, t, vpn, vpn + n);
    EditOn(s, m, u, t, vpn, vpn + n);
    forall v | vpn <= v < vpn + n ensures MapsTo(s, u, t, perm, vpn, ppn, c, v) {
      assert MapsTo(s, m, t, perm, vpn, ppn, c, v) && SameAt(m, u, t, v) && UserSame(m, u, Want(perm, vpn, ppn, v).ppn);
    }
  }

  /** The page a user's translation leads to is that node's own. */
  lemma MappedHere(u: State, t: int, v: nat)
    requires Inv(u, NONE) && IsRoot(u, t) && v < TRAPVPN && Lookup(u.pages, t, v).v
    ensures var p := Lookup(u.pages, t, v).ppn;
            && p in u.role && u.role[p] == Node(t, -1, v)
            && p in u.pages && u.pages[p].Data? && |u.pages[p].bytes| == PGSIZE
  {
    var p := Lookup(u.pages, t, v).ppn;
    TableOf(u, t, v);
    assert Placed(u, 0) && Own(u, NONE, Node(t, -1, v));
    var q := Table0(u.pages, t, v / ENTRIES);
    assert KindOk(u, q) && PteOk(u.role[q], v % ENTRIES, u.pages[q].ptes[v % ENTRIES]);
    assert KindOk(u, p);
  }

  /** mappages(t, va, size, pa, perm), in pages: the pages below `end` get mapped, all of them unless memory
      runs out. */
  method MapPages(vm: Vm, t: int, vpn: nat, n: nat, ppn: int, perm: Pte) returns (ok: bool, ghost end: int)
    requires vm.Valid() && IsRoot(vm.View(), t) && 0 < n && vpn + n <= MAXVPN
    requires forall v: nat :: vpn <= v < vpn + n ==> Ready(vm.View(), t, perm, vpn, ppn, v)
    modifies vm`pages, vm`freelist, vm`free, vm`role, vm`loose
    ensures vm.Valid() && Mapping(old(vm.View()), vm.View(), t, perm, vpn, n, ppn, end)
    ensures vpn <= end <= vpn + n && (ok <==> end == vpn + n) && |vm.free| + 2 * n >= |old(vm.free)|
    ensures !ok ==> vm.free == [] && |old(vm.free)| <= 2 * (end - vpn) + 1
  {
    ghost var s := vm.View();
    MappingStarts(s, t, perm, vpn, n, ppn);
    hide Inv, Quiet, Edit;
    var a, pa := vpn, ppn;
    while true
      invariant vpn <= a < vpn + n && pa == ppn + (a - vpn) && vm.Valid()
      invariant Mapping(s, vm.View(), t, perm, vpn, n, ppn, a)
      invariant |vm.free| + 2 * (a - vpn) >= |s.free|
      decreases vpn + n - a
    {
      ghost var m := vm.View();
      assert Ready(s, t, perm, vpn, ppn, a) && MapsTo(s, m, t, perm, vpn, ppn, a, a);
      var done := vm.MapOne(t, a, perm.(ppn := pa));
      if !done {
        MappingStops(s, m, vm.View(), t, perm, vpn, n, ppn, a);
        return false, a;
      }
      MappingNext(s, m, vm.View(), t, perm, vpn, n, ppn, a);
      if a == vpn + n - 1 { break; }
      a := a + 1;
      pa := pa + 1;
    }
    return true, vpn + n;
  }

  // ---------------------------------------------------------------- uvmunmap

  /** A page that uvmunmap may take out: mapped, and the user's if it is to be freed. */
  predicate Removable(s: State, t: int, v: nat, free: bool) { Lookup(s.pages, t, v).v && (free ==> v < TRAPVPN) }

  /** No page has got a role it did not have. */
  ghost predicate Shrinks(s: State, u: State) { forall p :: p in u.role ==> p in s.role && u.role[p] == s.role[p] }

  /** What uvmunmap makes of the page for v when it frees it. */
  function Released(m: State, q: int, i: int, free: bool): State
    requires Settable(m, q, i, NOPTE)
  {
    if free then Push(Detach(m, q, i), m.pages[q].ptes[i].ppn) else Detach(m, q, i)
  }

  lemma GivenBack(s: State, d: State, p: int, t: int, v: nat)
    requires Inv(d, NONE) && IsRoot(d, t) && p in d.loose && p !in d.role && d.lo <= p < d.hi && v < MAXVPN
    requires Edit(s, d, t, v, v + 1) && Lookup(d.pages, t, v) == NOPTE
    ensures Inv(Push(d, p), NONE) && IsRoot(Push(d, p), t)
    ensures Edit(s, Push(d, p), t, v, v + 1) && Lookup(Push(d, p).pages, t, v) == NOPTE
  {
    PushInv(d, p);
    PushQuiet(d, p);
    assert SameAt(d, Push(d, p), t, v);
    QuietEdit(d, Push(d, p), t, v, v + 1);
    hide Inv, Edit, Quiet, Loc;
    EditOn(s, d, Push(d, p), t, v, v + 1);
  }

  lemma ReleaseOne(s: State, t: int, v: nat, free: bool, q: int)
    requires Inv(s, NONE) && IsRoot(s, t) && v < MAXVPN
    requires Removable(s, t, v, free) && q == Table0(s.pages, t, v / ENTRIES)
    requires q in s.role && s.role[q] == Node(t, 0, v / ENTRIES) && q in s.pages && TableOk(s.role[q], s.pages[q])
    ensures Detachable(s, q, v % ENTRIES) && s.pages[q].ptes[v % ENTRIES] == Lookup(s.pages, t, v)
    ensures var u := Released(s, q, v % ENTRIES, free);
            Inv(u, NONE) && IsRoot(u, t) && Edit(s, u, t, v, v + 1)
                && Lookup(u.pages, t, v) == NOPTE && LooseSame(s, u) && Shrinks(s, u)
            && (free || v >= TRAPVPN ==> u.loose == s.loose) && (!free ==> u.free == s.free)
  {
    var i := v % ENTRIES;
    var p := s.pages[q].ptes[i].ppn;
    assert Detachable(s, q, i) && Below(s.role[q], i) == Node(t, -1, v);
    DetachPage(s, q, i);
    DetachInv(s, q, i);
    DetachEdit(s, q, i);
    var d := Detach(s, q, i);
    forall x | x in s.loose ensures x in s.pages && x != q && (free ==> x != p) { assert Placed(s, x); }
    if free {
      assert Placed(s, p);
      GivenBack(s, d, p, t, v);
    }
    hide Inv, Edit, Loc;
  }

  /** The fields after one round of uvmunmap. */
  lemma ReleasedFields(s: State, t: int, v: nat, free: bool, q: int)
    requires Inv(s, NONE) && v < MAXVPN && Detachable(s, q, v % ENTRIES)
    requires s.role[q] == Node(t, 0, v / ENTRIES) && (free ==> v < TRAPVPN)
    ensures var i := v % ENTRIES;
            var p, u := s.pages[q].ptes[i].ppn, Released(s, q, i, free);
            && u.lo == s.lo && u.hi == s.hi
            && (v < TRAPVPN ==> p != q && p in s.role && s.lo <= p < s.hi && p !in s.loose)
            && u.pages == (if free then s.pages[p := Unused(Head(s))] else s.pages)
                          [q := Table(s.pages[q].ptes[i := NOPTE])]
            && u.free == (if free then s.free + [p] else s.free)
            && u.role == (if v < TRAPVPN then s.role - {p} else s.role)
            && u.loose == if v < TRAPVPN && !free then s.loose + {p} else s.loose
  {
    var i := v % ENTRIES;
    DetachPage(s, q, i);
    assert Back(s, q) && Placed(s, s.pages[q].ptes[i].ppn) && Below(s.role[q], i) == Node(t, -1, v);
    assert Own(s, NONE, Below(s.role[q], i));
  }

  /** One round of uvmunmap. */
  method UnmapOne(vm: Vm, t: int, v: nat, free: bool)
    requires vm.Valid() && IsRoot(vm.View(), t) && v < MAXVPN && Removable(vm.View(), t, v, free)
    modifies vm`pages, vm`freelist, vm`free, vm`role, vm`loose
    ensures vm.Valid() && IsRoot(vm.View(), t)
    ensures Edit(old(vm.View()), vm.View(), t, v, v + 1) && Lookup(vm.pages, t, v) == NOPTE
    ensures LooseSame(old(vm.View()), vm.View()) && Shrinks(old(vm.View()), vm.View())
    ensures (free || v >= TRAPVPN ==> vm.loose == old(vm.loose)) && (!free ==> vm.free == old(vm.free))
  {
    ghost var s := vm.View();
    var q := vm.Walk(t, v, false);
    var i := v % ENTRIES;
    assert Placed(s, 0);
    ReleaseOne(s, t, v, free, q);
    ReleasedFields(s, t, v, free, q);
    hide Inv, Quiet, Edit, Released, Settable, Lookup;
    var pte := vm.pages[q].ptes[i];
    if free {
      vm.Kfree(pte.ppn);
    }
    vm.pages := WithEntry(vm.pages, q, i, NOPTE);
    if !free && v < TRAPVPN { vm.role, vm.loose := vm.role - {pte.ppn}, vm.loose + {pte.ppn}; }
    assert vm.View() == Released(s, q, i, free);
  }

  predicate Removed(u: State, t: int, v: int) { Lookup(u.pages, t, v) == NOPTE }

  /** uvmunmap has come to c. */
  ghost predicate Unmapping(s: State, u: State, t: int, vpn: nat, n: nat, free: bool, c: int) {
    && Inv(u, NONE) && IsRoot(u, t) && Edit(s, u, t, vpn, vpn + n) && Shrinks(s, u)
    && (free || vpn >= TRAPVPN ==> u.loose == s.loose && LooseSame(s, u)) && (!free ==> u.free == s.free)
    && (forall v :: vpn <= v < c ==> Removed(u, t, v))
    && (forall v: nat :: c <= v < vpn + n ==> Removable(u, t, v, free))
  }

  lemma UnmappingStarts(s: State, t: int, vpn: nat, n: nat, free: bool)
    requires Inv(s, NONE) && IsRoot(s, t) && forall v: nat :: vpn <= v < vpn + n ==> Removable(s, t, v, free)
    ensures Unmapping(s, s, t, vpn, n, free, vpn)
  {
    QuietSelf(s);
    QuietEdit(s, s, t, vpn, vpn + n);
    LooseHere(s);
  }

  lemma UnmappingNext(s: State, m: State, u: State, t: int, vpn: nat, n: nat, free: bool, c: nat)
    requires Unmapping(s, m, t, vpn, n, free, c) && vpn <= c < vpn + n <= MAXVPN && Inv(u, NONE) && IsRoot(u, t)
    requires Edit(m, u, t, c, c + 1) && Lookup(u.pages, t, c) == NOPTE && LooseSame(m, u) && Shrinks(m, u)
    requires (free || c >= TRAPVPN ==> u.loose == m.loose) && (!free ==> u.free == m.free)
    ensures Unmapping(s, u, t, vpn, n, free, c + 1)
  {
    EditWider(m, u, t, c, c + 1, vpn, vpn + n);
    EditOn(s, m, u, t, vpn, vpn + n);
    var d := c + 1;
    forall v | vpn <= v < d ensures Removed(u, t, v) {
      assert v == c || Removed(m, t, v);
      assert SameOutside(m, u, t, c, d, t, v);
    }
    forall v: nat | d <= v < vpn + n ensures Removable(u, t, v, free) {
      assert Removable(m, t, v, free) && SameOutside(m, u, t, c, d, t, v);
    }
  }

  /** uvmunmap(t, va, npages, do_free), in pages. */
  method Unmap(vm: Vm, t: int, vpn: nat, n: nat, free: bool)
    requires vm.Valid() && IsRoot(vm.View(), t) && vpn + n <= MAXVPN
    requires forall v: nat :: vpn <= v < vpn + n ==> Removable(vm.View(), t, v, free)
    modifies vm`pages, vm`freelist, vm`free, vm`role, vm`loose
    ensures vm.Valid() && IsRoot(vm.View(), t) && Edit(old(vm.View()), vm.View(), t, vpn, vpn + n)
    ensures Shrinks(old(vm.View()), vm.View())
    ensures forall v :: vpn <= v < vpn + n ==> Removed(vm.View(), t, v)
    ensures free || vpn >= TRAPVPN ==> vm.loose == old(vm.loose) && LooseSame(old(vm.View()), vm.View())
    ensures !free ==> vm.free == old(vm.free)
  {
    ghost var s := vm.View();
    UnmappingStarts(s, t, vpn, n, free);
    hide Inv, Quiet, Edit, Lookup;
    var a := vpn;
    while a < vpn + n
      invariant vpn <= a <= vpn + n && vm.Valid() && Unmapping(s, vm.View(), t, vpn, n, free, a)
    {
      ghost var m := vm.View();
      assert Removable(m, t, a, free);
      UnmapOne(vm, t, a, free);
      UnmappingNext(s, m, vm.View(), t, vpn, n, free, a);
      a := a + 1;
    }
  }
}
