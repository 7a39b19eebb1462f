/** uvmalloc, uvmdealloc and uvmcopy: growing, shrinking and copying a user address space. */
module VmProc {
  import opened Common
  import opened PageTable
  import opened PageMap
  import opened VmCode
  import opened VmUser
  import opened VmCopy

  /** PGROUNDUP, as a number of pages. */
  function PagesUp(sz: nat): nat { (sz + PGSIZE - 1) / PGSIZE }

  /** The pages below it are those that start below sz. */
  lemma PagesUpExact(sz: nat, v: nat)
    ensures v < PagesUp(sz) <==> v * PGSIZE < sz
  {
  }

  // ---------------------------------------------------------------- in bytes

  /** The byte at va is there for the user as it was. */
  predicate SameByte(s: State, u: State, t: int, va: nat) {
    && UserByte(u, t, va) == UserByte(s, t, va)
    && Usable(u, t, va / PGSIZE, false) == Usable(s, t, va / PGSIZE, false)
    && Usable(u, t, va / PGSIZE, true) == Usable(s, t, va / PGSIZE, true)
  }

  /** Where a page starts. */
  function StartOf(va: nat): nat { va / PGSIZE * PGSIZE }

  lemma ByteOutside(s: State, u: State, t: int, a: nat, b: nat, va: nat)
    requires Inv(s, NONE) && IsRoot(s, t) && Edit(s, u, t, a, b) && va < TRAPVPN * PGSIZE && !(a <= va / PGSIZE < b)
    ensures SameByte(s, u, t, va)
  {
    var v := va / PGSIZE;
    assert v < TRAPVPN && SameOutside(s, u, t, a, b, t, v);
    var e := Lookup(s.pages, t, v);
    if e.v {
      MappedHere(s, t, v);
      assert UserOutside(s, u, t, a, b, e.ppn);
    }
    hide Inv, Edit, Lookup;
  }

  /** uvmdealloc in bytes: what lies below newsz stays, the pages that start in newsz..oldsz-1 go, and no other. */
  ghost predicate Shrunk(s: State, u: State, t: int, oldsz: nat, newsz: nat) {
    && (forall va: nat :: va < newsz && va < TRAPVPN * PGSIZE ==> SameByte(s, u, t, va))
    && (forall v: nat :: newsz <= v * PGSIZE < oldsz ==> Removed(u, t, v))
    && (forall v: nat :: v < MAXVPN && !(newsz <= v * PGSIZE < oldsz) ==> SameAt(s, u, t, v))
  }

  lemma ShrunkBy(s: State, u: State, t: int, oldsz: nat, newsz: nat)
    requires Inv(s, NONE) && IsRoot(s, t) && Edit(s, u, t, PagesUp(newsz), PagesUp(oldsz))
    requires forall v :: PagesUp(newsz) <= v < PagesUp(oldsz) ==> Removed(u, t, v)
    ensures Shrunk(s, u, t, oldsz, newsz)
  {
    forall v: nat ensures (v < PagesUp(newsz) <==> v * PGSIZE < newsz) && (v < PagesUp(oldsz) <==> v * PGSIZE < oldsz) {
      PagesUpExact(newsz, v);
      PagesUpExact(oldsz, v);
    }
    var a, b := PagesUp(newsz), PagesUp(oldsz);
    hide PagesUp;
    forall va: nat | va < newsz && va < TRAPVPN * PGSIZE ensures SameByte(s, u, t, va) {
      assert va / PGSIZE * PGSIZE <= va;
      ByteOutside(s, u, t, a, b, va);
    }
    forall v: nat | v < MAXVPN && !(newsz <= v * PGSIZE < oldsz) ensures SameAt(s, u, t, v) {
      assert SameOutside(s, u, t, a, b, t, v);
    }
    hide Inv, Edit, Lookup;
  }

  /** A byte of new memory: zero, and the user's to read, with the permissions asked. */
  predicate NewByte(u: State, t: int, va: nat, w: bool, x: bool) {
    var e := Lookup(u.pages, t, va / PGSIZE);
    UserByte(u, t, va) == 0 && Usable(u, t, va / PGSIZE, false) && e.r && e.w == w && e.x == x
  }

  /** uvmalloc in bytes: the pages that start below oldsz stay, those that start in oldsz..newsz-1 are new and hold
      zeros, and nothing changes above. */
  ghost predicate Grown(s: State, u: State, t: int, oldsz: nat, newsz: nat, w: bool, x: bool) {
    && (forall va: nat :: va < TRAPVPN * PGSIZE && StartOf(va) < oldsz ==> SameByte(s, u, t, va))
    && (forall va: nat :: oldsz <= StartOf(va) < newsz ==> NewByte(u, t, va, w, x))
    && (forall v: nat :: v < MAXVPN && oldsz <= v * PGSIZE && newsz <= v * PGSIZE ==> SameAt(s, u, t, v))
  }

  /** So if all of the old memory was the user's, all of the new is. */
  lemma GrownUsable(s: State, u: State, t: int, oldsz: nat, newsz: nat, w: bool, x: bool, va: nat)
    requires Grown(s, u, t, oldsz, newsz, w, x) && newsz <= TRAPVPN * PGSIZE && va < newsz
    requires forall y: nat :: y < oldsz ==> Usable(s, t, y / PGSIZE, false)
    ensures Usable(u, t, va / PGSIZE, false)
  {
    var y := StartOf(va);
    if y < oldsz {
      assert Usable(s, t, y / PGSIZE, false) && y / PGSIZE == va / PGSIZE && SameByte(s, u, t, va);
    } else {
      assert NewByte(u, t, va, w, x);
    }
    hide Usable;
  }

  lemma GrownBy(s: State, u: State, t: int, oldsz: nat, newsz: nat, perm: Pte)
    requires Inv(s, NONE) && IsRoot(s, t) && newsz <= TRAPVPN * PGSIZE && perm.v && perm.r && perm.u
    requires Growing(s, u, t, Zero(perm), PagesUp(oldsz), PagesUp(newsz), PagesUp(newsz))
    ensures Grown(s, u, t, oldsz, newsz, perm.w, perm.x)
  {
    forall v: nat ensures (v < PagesUp(newsz) <==> v * PGSIZE < newsz) && (v < PagesUp(oldsz) <==> v * PGSIZE < oldsz) {
      PagesUpExact(newsz, v);
      PagesUpExact(oldsz, v);
    }
    var a, b := PagesUp(oldsz), PagesUp(newsz);
    hide PagesUp, Inv, Edit, Lookup;
    forall va: nat | va < TRAPVPN * PGSIZE && StartOf(va) < oldsz ensures SameByte(s, u, t, va) {
      ByteOutside(s, u, t, a, b, va);
    }
    forall va: nat | oldsz <= StartOf(va) < newsz ensures NewByte(u, t, va, perm.w, perm.x) {
      assert Fresh(s, u, t, Zero(perm), va / PGSIZE);
      assert va / PGSIZE < b;
    }
    forall v: nat | v < MAXVPN && oldsz <= v * PGSIZE && newsz <= v * PGSIZE ensures SameAt(s, u, t, v) {
      EditAt(s, u, t, a, b, v);
    }
  }

  lemma EditAt(s: State, u: State, t: int, a: nat, b: nat, v: nat)
    requires Edit(s, u, t, a, b) && !(a <= v < b)
    ensures SameAt(s, u, t, v)
  {
    assert SameOutside(s, u, t, a, b, t, v);
  }

  /** A change that left the range it touched as empty as it was is no change. */
  lemma EditUndone(s: State, u: State, t: int, a: nat, b: nat)
    requires Inv(s, NONE) && Inv(u, NONE) && Edit(s, u, t, a, b) && IsRoot(s, t) && b <= TRAPVPN
    requires forall v :: a <= v < b ==> Removed(s, t, v) && Removed(u, t, v)
    ensures Quiet(s, u)
  {
    forall r, v ensures SameAt(s, u, r, v) {
      assert SameOutside(s, u, t, a, b, r, v);
      if r == t && a <= v < b { assert Removed(s, t, v) && Removed(u, t, v); }
    }
    forall p ensures UserSame(s, u, p) && UserSame(u, s, p) {
      assert UserOutside(s, u, t, a, b, p) && UserOutside(u, s, t, a, b, p);
      NotThere(s, t, a, b, p);
      NotThere(u, t, a, b, p);
    }
  }

  /** A user page is mapped where its role says. */
  lemma UserMapped(s: State, p: int)
    requires Inv(s, NONE) && p in s.role && s.role[p].level == -1
    ensures var e := Lookup(s.pages, s.role[p].root, s.role[p].prefix); e.v && e.ppn == p
  {
    var n := s.role[p];
    assert Back(s, p) && Placed(s, p) && Placed(s, 0);
    TableOf(s, n.root, n.prefix);
    LocStep(s.pages, n);
    assert KindOk(s, Table0(s.pages, n.root, n.prefix / ENTRIES));
  }

  /** Where nothing is mapped there are no user pages. */
  lemma NotThere(s: State, t: int, a: nat, b: nat, p: int)
    requires Inv(s, NONE) && IsRoot(s, t) && forall v :: a <= v < b ==> Removed(s, t, v)
    ensures p in s.role && s.role[p].level == -1 ==> !InRange(t, a, b, s.role[p].root, s.role[p].prefix)
  {
    if p in s.role && s.role[p].level == -1 {
      UserMapped(s, p);
      assert a <= s.role[p].prefix < b ==> Removed(s, t, s.role[p].prefix);
    }
  }

  // ---------------------------------------------------------------- uvmdealloc

  /** uvmdealloc(t, oldsz, newsz). */
  method Dealloc(vm: Vm, t: int, oldsz: nat, newsz: nat) returns (r: nat)
    requires vm.Valid() && IsRoot(vm.View(), t) && oldsz <= TRAPVPN * PGSIZE
    requires forall v: nat :: newsz <= v * PGSIZE < oldsz ==> Removable(vm.View(), t, v, true)
    modifies vm`pages, vm`freelist, vm`free, vm`role, vm`loose
    ensures vm.Valid() && IsRoot(vm.View(), t) && vm.loose == old(vm.loose) && LooseSame(old(vm.View()), vm.View())
    ensures r == if newsz < oldsz then newsz else oldsz
    ensures Edit(old(vm.View()), vm.View(), t, PagesUp(newsz), PagesUp(oldsz))
    ensures forall v :: PagesUp(newsz) <= v < PagesUp(oldsz) ==> Removed(vm.View(), t, v)
    ensures Shrunk(old(vm.View()), vm.View(), t, oldsz, newsz)
  {
    ghost var s := vm.View();
    forall v: nat ensures (v < PagesUp(newsz) <==> v * PGSIZE < newsz) && (v < PagesUp(oldsz) <==> v * PGSIZE < oldsz) {
      PagesUpExact(newsz, v);
      PagesUpExact(oldsz, v);
    }
    UpTo(oldsz);
    QuietSelf(s);
    LooseHere(s);
    QuietEdit(s, s, t, PagesUp(newsz), PagesUp(oldsz));
    hide Inv, Quiet, Edit, Lookup, Shrunk;
    if newsz >= oldsz {
      ShrunkBy(s, s, t, oldsz, newsz);
      return oldsz;
    }
    if PagesUp(newsz) < PagesUp(oldsz) {
      Unmap(vm, t, PagesUp(newsz), PagesUp(oldsz) - PagesUp(newsz), true);
    }
    ShrunkBy(s, vm.View(), t, oldsz, newsz);
    return newsz;
  }

  lemma UpTo(sz: nat)
    requires sz <= TRAPVPN * PGSIZE
    ensures PagesUp(sz) <= TRAPVPN
  {
  }

  // ---------------------------------------------------------------- uvmalloc

  /** What new user memory is to hold: zeros with given permissions, or a copy of another address space. */
  datatype Job = Zero(perm: Pte) | Copy(source: int)

  function Perm(s: State, job: Job, v: int): Pte { if job.Zero? then job.perm else Lookup(s.pages, job.source, v) }

  function Filled(s: State, job: Job, v: int): Page {
    if job.Zero? || Lookup(s.pages, job.source, v).ppn !in s.pages then Junk(0)
    else s.pages[Lookup(s.pages, job.source, v).ppn]
  }

  /** The job can be done for page v: with the permissions of a user's page. */
  predicate Doable(s: State, job: Job, v: int) {
    && Perm(s, job, v).v && (Perm(s, job, v).r || Perm(s, job, v).w || Perm(s, job, v).x)
    && Filled(s, job, v).Data? && |Filled(s, job, v).bytes| == PGSIZE
  }

  /** A new page of user memory for v. */
  predicate Fresh(s: State, u: State, t: int, job: Job, v: int) {
    var e := Lookup(u.pages, t, v);
    e == Perm(s, job, v).(ppn := e.ppn) && e.ppn in u.pages && u.pages[e.ppn] == Filled(s, job, v)
  }

  ghost predicate Doables(s: State, job: Job, a: int, b: int) { forall v :: a <= v < b ==> Doable(s, job, v) }

  /** The job has been done up to page c. */
  ghost predicate Growing(s: State, u: State, t: int, job: Job, a: nat, b: nat, c: int) {
    && Inv(u, NONE) && IsRoot(u, t) && Edit(s, u, t, a, b) && u.loose == s.loose && LooseSame(s, u)
    && (forall v :: a <= v < c ==> Fresh(s, u, t, job, v))
    && (forall v :: c <= v < b ==> Removed(u, t, v))
  }

  lemma GrowingNext(s: State, m: State, u: State, t: int, job: Job, a: nat, b: nat, c: nat, p: int)
    requires Growing(s, m, t, job, a, b, c) && a <= c < b <= TRAPVPN && Doables(s, job, a, b) && Inv(s, NONE)
    requires |m.free| > 0 && p == Head(m) && p !in m.loose
    requires Mapping(Pop(m, Filled(s, job, c)), u, t, Perm(s, job, c), c, 1, p, c + 1)
    ensures Growing(s, u, t, job, a, b, c + 1)
  {
    var m1, d := Pop(m, Filled(s, job, c)), c + 1;
    PopInv(m, Filled(s, job, c));
    PopQuiet(m, Filled(s, job, c));
    QuietEdit(m, m1, t, a, b);
    EditWider(m1, u, t, c, d, a, b);
    EditOn(m, m1, u, t, a, b);
    EditOn(s, m, u, t, a, b);
    assert Given(c, p, d) == {p};
    assert MapsTo(m1, u, t, Perm(s, job, c), c, p, d, c) && FreeOk(m, |m.free| - 1);
    forall v | a <= v < d ensures Fresh(s, u, t, job, v) {
      if v != c {
        assert Fresh(s, m, t, job, v) && Doable(s, job, v) && SameAt(m, m1, t, v) && SameOutside(m1, u, t, c, d, t, v);
        MappedHere(m, t, v);
        assert UserSame(m, m1, Lookup(m.pages, t, v).ppn) && UserOutside(m1, u, t, c, d, Lookup(m.pages, t, v).ppn);
      }
    }
    forall v | d <= v < b ensures Removed(u, t, v) {
      assert Removed(m, t, v) && SameAt(m, m1, t, v) && SameOutside(m1, u, t, c, d, t, v);
    }
    forall x | x in s.loose ensures x in s.pages && x in u.pages && u.pages[x] == s.pages[x] {
      assert x in m.loose && x in m1.loose;
    }
  }

  lemma LoosePage(u: State, p: int)
    requires Inv(u, NONE) && p in u.loose
    ensures u.lo <= p < u.hi && p !in u.role
  {
    assert Placed(u, p);
  }

  /** The page could not be mapped and goes back: the address space is as it was before. */
  lemma GrowingFails(s: State, m: State, u: State, t: int, job: Job, a: nat, b: nat, c: nat, p: int)
    requires Growing(s, m, t, job, a, b, c) && a <= c < b <= TRAPVPN && Doables(s, job, a, b) && Inv(s, NONE)
    requires |m.free| > 0 && p == Head(m) && p !in m.loose
    requires Mapping(Pop(m, Filled(s, job, c)), u, t, Perm(s, job, c), c, 1, p, c)
    ensures p in u.loose && p !in u.role && s.lo <= p < s.hi && Growing(s, Push(u, p), t, job, a, b, c)
  {
    hide Inv;
    var m1, d, w := Pop(m, Filled(s, job, c)), c + 1, Push(u, p);
    PopInv(m, Filled(s, job, c));
    PopQuiet(m, Filled(s, job, c));
    assert Given(c, p, c) == {};
    LoosePage(u, p);
    PushInv(u, p);
    PushQuiet(u, p);
    QuietEdit(m, m1, t, a, b);
    EditWider(m1, u, t, c, d, a, b);
    QuietEdit(u, w, t, a, b);
    EditOn(m, m1, u, t, a, b);
    EditOn(m, u, w, t, a, b);
    EditOn(s, m, w, t, a, b);
    forall v | a <= v < c ensures Fresh(s, w, t, job, v) {
      assert Fresh(s, m, t, job, v) && Doable(s, job, v) && SameAt(m, m1, t, v)
        && SameOutside(m1, u, t, c, d, t, v) && SameAt(u, w, t, v);
      MappedHere(m, t, v);
      var x := Lookup(m.pages, t, v).ppn;
      assert UserSame(m, m1, x) && UserOutside(m1, u, t, c, d, x) && UserSame(u, w, x);
    }
    forall v | c <= v < b ensures Removed(w, t, v) {
      assert Removed(m, t, v) && SameAt(m, m1, t, v) && SameOutside(m1, u, t, c, d, t, v) && SameAt(u, w, t, v);
      assert v == c ==> MapsTo(m1, u, t, Perm(s, job, c), c, p, c, c);
    }
    forall x | x in s.loose ensures x in s.pages && x in w.pages && w.pages[x] == s.pages[x] {
      assert x in m.loose && x in m1.loose && x in u.loose;
    }
  }

  lemma GrowingStarts(s: State, t: int, job: Job, a: nat, b: nat)
    requires Inv(s, NONE) && IsRoot(s, t) && forall v :: a <= v < b ==> Removed(s, t, v)
    ensures Growing(s, s, t, job, a, b, a)
  {
    QuietSelf(s);
    LooseHere(s);
    QuietEdit(s, s, t, a, b);
  }

  /** A failed uvmalloc has given back every page of user memory it took. */
  lemma RolledBack(s: State, m: State, u: State, t: int, job: Job, a: nat, b: nat, c: nat)
    requires Growing(s, m, t, job, a, b, c) && a <= c <= b <= TRAPVPN && Inv(s, NONE) && IsRoot(s, t)
    requires forall v :: a <= v < b ==> Removed(s, t, v)
    requires Inv(u, NONE) && Edit(m, u, t, a, c) && u.loose == m.loose && forall v :: a <= v < c ==> Removed(u, t, v)
    ensures Quiet(s, u) && u.loose == s.loose
  {
    EditWider(m, u, t, a, c, a, b);
    EditOn(s, m, u, t, a, b);
    forall v | a <= v < b ensures Removed(u, t, v) {
      assert v < c || (Removed(m, t, v) && SameOutside(m, u, t, a, c, t, v));
    }
    EditUndone(s, u, t, a, b);
  }

  lemma FreshRemovable(s: State, u: State, t: int, job: Job, a: nat, b: nat, c: nat)
    requires Growing(s, u, t, job, a, b, c) && a <= c <= b <= TRAPVPN && Doables(s, job, a, b)
    ensures forall v: nat :: a <= v < c ==> Removable(u, t, v, true)
  {
    forall v: nat | a <= v < c ensures Removable(u, t, v, true) { assert Fresh(s, u, t, job, v) && Doable(s, job, v); }
  }

  /** One round of uvmalloc or uvmcopy: a new page for vpn c, or nothing. */
  method AllocOne(vm: Vm, ghost s: State, t: int, ghost job: Job, perm: Pte, g: Page,
      ghost a: nat, ghost b: nat, c: nat) returns (ok: bool)
    requires Inv(s, NONE) && vm.Valid() && Growing(s, vm.View(), t, job, a, b, c)
    requires a <= c < b <= TRAPVPN && Doables(s, job, a, b)
    requires perm == Perm(s, job, c) && g == Filled(s, job, c)
    modifies vm`pages, vm`freelist, vm`free, vm`role, vm`loose
    ensures vm.Valid() && Growing(s, vm.View(), t, job, a, b, if ok then c + 1 else c)
    ensures if ok then |vm.free| + 3 >= |old(vm.free)| else |old(vm.free)| < 3
  {
    ghost var m := vm.View();
    var mem := vm.Kalloc();
    if mem == 0 { return false; }
    PageReady(s, m, t, job, a, b, c);
    hide Inv, Edit, Quiet, Growing, Mapping, Lookup, Perm, Filled, Doables;
    vm.pages := vm.pages[mem := g];
    ghost var m1 := vm.View();
    assert m1 == Pop(m, g);
    ghost var end;
    ok, end := MapPages(vm, t, c, 1, mem, perm);
    if ok {
      GrowingNext(s, m, vm.View(), t, job, a, b, c, mem);
    } else {
      ghost var u := vm.View();
      GrowingFails(s, m, u, t, job, a, b, c, mem);
      vm.Kfree(mem);
      assert vm.View() == Push(u, mem);
    }
  }

  /** A page from the free list, filled, can be mapped where the job has got to. */
  lemma PageReady(s: State, m: State, t: int, job: Job, a: nat, b: nat, c: nat)
    requires Growing(s, m, t, job, a, b, c) && a <= c < b <= TRAPVPN && Doables(s, job, a, b) && |m.free| > 0
    ensures var m1 := Pop(m, Filled(s, job, c));
            && Inv(m1, NONE) && IsRoot(m1, t) && Head(m) !in m.loose
            && forall v: nat :: c <= v < c + 1 ==> Ready(m1, t, Perm(s, job, c), c, Head(m), v)
  {
    var m1 := Pop(m, Filled(s, job, c));
    assert Removed(m, t, c) && Doable(s, job, c);
    PopQuiet(m, Filled(s, job, c));
    PopInv(m, Filled(s, job, c));
    assert FreeOk(m, |m.free| - 1) && Placed(m, Head(m)) && Placed(m, 0);
    QuietSame(m, m1, t, c);
    assert Ready(m1, t, Perm(s, job, c), c, Head(m), c);
  }

  lemma QuietSame(s: State, u: State, t: int, v: nat)
    requires Quiet(s, u) && IsRoot(s, t) && v < MAXVPN
    ensures IsRoot(u, t) && Lookup(u.pages, t, v) == Lookup(s.pages, t, v)
  {
    assert SameAt(s, u, t, v);
  }

  /** uvmalloc(t, oldsz, newsz, xperm), with the bits W and X of xperm: ok is false where memory ran out. */
  method Alloc(vm: Vm, t: int, oldsz: nat, newsz: nat, w: bool, x: bool) returns (r: nat, ghost ok: bool)
    requires vm.Valid() && IsRoot(vm.View(), t) && newsz <= TRAPVPN * PGSIZE
    requires forall v: nat :: oldsz <= v * PGSIZE < newsz ==> Removed(vm.View(), t, v)
    modifies vm`pages, vm`freelist, vm`free, vm`role, vm`loose
    ensures vm.Valid()
    ensures ok ==> r == if newsz < oldsz then oldsz else newsz
    ensures ok ==> Grown(old(vm.View()), vm.View(), t, oldsz, newsz, w, x)
    ensures ok ==> Edit(old(vm.View()), vm.View(), t, PagesUp(oldsz), PagesUp(newsz)) && vm.loose == old(vm.loose)
    ensures !ok ==> r == 0 && Quiet(old(vm.View()), vm.View()) && vm.loose == old(vm.loose)
    ensures !ok ==> oldsz < newsz && PGSIZE * |old(vm.free)| < 3 * (newsz - oldsz + PGSIZE)
  {
    ghost var s := vm.View();
    var perm := Pte(0, true, true, w, x, true);
    ghost var job := Zero(perm);
    var a := PagesUp(oldsz);
    ghost var b := PagesUp(newsz);
    forall v: nat ensures (v < a <==> v * PGSIZE < oldsz) && (v < b <==> v * PGSIZE < newsz) {
      PagesUpExact(oldsz, v);
      PagesUpExact(newsz, v);
    }
    UpTo(newsz);
    GrowingStarts(s, t, job, a, b);
    forall v ensures Doable(s, job, v) { }
    hide Inv, Edit, Quiet, Growing, Lookup, Grown, PagesUp;
    if newsz < oldsz {
      GrowingEnds(s, s, t, job, a, b, a);
      GrownBy(s, s, t, oldsz, newsz, perm);
      return oldsz, true;
    }
    PagesBetween(oldsz, newsz);
    var c := a;
    while c * PGSIZE < newsz
      invariant a <= c <= b && vm.Valid() && Growing(s, vm.View(), t, job, a, b, c)
      invariant |vm.free| + 3 * (c - a) >= |s.free|
      decreases b - c
    {
      var done := AllocOne(vm, s, t, job, perm, Junk(0), a, b, c);
      if !done {
        ghost var m := vm.View();
        FreshRemovable(s, m, t, job, a, b, c);
        GrowingRoot(s, m, t, job, a, b, c);
        var y := Dealloc(vm, t, c * PGSIZE, a * PGSIZE);
        RolledBack(s, m, vm.View(), t, job, a, b, c);
        return 0, false;
      }
      c := c + 1;
    }
    GrowingEnds(s, vm.View(), t, job, a, b, c);
    GrownBy(s, vm.View(), t, oldsz, newsz, perm);
    return newsz, true;
  }

  lemma PagesBetween(oldsz: nat, newsz: nat)
    requires oldsz <= newsz
    ensures PagesUp(oldsz) <= PagesUp(newsz)
    ensures PGSIZE * (PagesUp(newsz) - PagesUp(oldsz)) < newsz - oldsz + PGSIZE
  {
  }

  lemma GrowingEnds(s: State, u: State, t: int, job: Job, a: nat, b: nat, c: nat)
    requires Growing(s, u, t, job, a, b, c) && b <= c
    ensures Growing(s, u, t, job, a, b, b) && Edit(s, u, t, a, b) && u.loose == s.loose
  {
  }

  lemma GrowingRoot(s: State, u: State, t: int, job: Job, a: nat, b: nat, c: nat)
    requires Growing(s, u, t, job, a, b, c)
    ensures IsRoot(u, t) && PagesUp(c * PGSIZE) == c && PagesUp(a * PGSIZE) == a
  {
  }

  // ---------------------------------------------------------------- uvmcopy

  /** uvmcopy in bytes: the target has the pages of the source that start below sz, with the same bytes and for the same
      uses, and nothing above. */
  ghost predicate Copied(s: State, u: State, source: int, target: int, sz: nat) {
    && (forall va: nat :: StartOf(va) < sz ==> SameAs(s, u, source, target, va))
    && (forall v: nat :: v < MAXVPN && sz <= v * PGSIZE ==> SameAt(s, u, target, v))
  }

  predicate SameAs(s: State, u: State, source: int, target: int, va: nat) {
    var e, f := Lookup(s.pages, source, va / PGSIZE), Lookup(u.pages, target, va / PGSIZE);
    UserByte(u, target, va) == UserByte(s, source, va) && f == e.(ppn := f.ppn)
  }

  lemma CopiedBy(s: State, u: State, source: int, target: int, sz: nat)
    requires Inv(s, NONE) && IsRoot(s, source) && sz <= TRAPVPN * PGSIZE
    requires Growing(s, u, target, Copy(source), 0, PagesUp(sz), PagesUp(sz))
    requires forall v: nat :: v * PGSIZE < sz ==> Removable(s, source, v, true)
    ensures Copied(s, u, source, target, sz)
  {
    forall v: nat ensures v < PagesUp(sz) <==> v * PGSIZE < sz { PagesUpExact(sz, v); }
    var b := PagesUp(sz);
    hide PagesUp, Inv, Edit, Lookup;
    forall va: nat | StartOf(va) < sz ensures SameAs(s, u, source, target, va) {
      var v := va / PGSIZE;
      assert v < b && Fresh(s, u, target, Copy(source), v) && Removable(s, source, v, true);
      MappedHere(s, source, v);
    }
    forall v: nat | v < MAXVPN && sz <= v * PGSIZE ensures SameAt(s, u, target, v) { EditAt(s, u, target, 0, b, v); }
  }

  /** uvmcopy(old, new, sz), to where nothing is mapped yet. */
  method CopySpace(vm: Vm, source: int, target: int, sz: nat) returns (ok: bool)
    requires vm.Valid() && IsRoot(vm.View(), source) && IsRoot(vm.View(), target) && source != target
    requires sz <= TRAPVPN * PGSIZE
    requires forall v: nat :: v * PGSIZE < sz ==> Removable(vm.View(), source, v, true)
    requires forall v: nat :: v * PGSIZE < sz ==> Removed(vm.View(), target, v)
    modifies vm`pages, vm`freelist, vm`free, vm`role, vm`loose
    ensures vm.Valid()
    ensures ok ==> Copied(old(vm.View()), vm.View(), source, target, sz)
    ensures ok ==> Edit(old(vm.View()), vm.View(), target, 0, PagesUp(sz)) && vm.loose == old(vm.loose)
    ensures !ok ==> Quiet(old(vm.View()), vm.View()) && vm.loose == old(vm.loose)
    ensures !ok ==> 0 < sz && PGSIZE * |old(vm.free)| < 3 * (sz + PGSIZE)
  {
    ghost var s := vm.View();
    ghost var job := Copy(source);
    ghost var n := PagesUp(sz);
    forall v: nat ensures v < n <==> v * PGSIZE < sz { PagesUpExact(sz, v); }
    UpTo(sz);
    PagesBetween(0, sz);
    GrowingStarts(s, target, job, 0, n);
    forall v: nat | v < n ensures Doable(s, job, v) { CopyDoable(s, source, v); }
    hide Inv, Edit, Quiet, Growing, Lookup, Copied, PagesUp;
    var i := 0;
    while i * PGSIZE < sz
      invariant 0 <= i <= n && vm.Valid() && Growing(s, vm.View(), target, job, 0, n, i)
      invariant |vm.free| + 3 * i >= |s.free|
      decreases n - i
    {
      ghost var m := vm.View();
      CopySource(s, m, source, target, n, i);
      var q := vm.Walk(source, i, false);
      var pte := vm.pages[q].ptes[i % ENTRIES];
      var done := AllocOne(vm, s, target, job, pte, vm.pages[pte.ppn], 0, n, i);
      if !done {
        ghost var u := vm.View();
        FreshRemovable(s, u, target, job, 0, n, i);
        GrowingRoot(s, u, target, job, 0, n, i);
        Unmap(vm, target, 0, i, true);
        RolledBack(s, u, vm.View(), target, job, 0, n, i);
        return false;
      }
      i := i + 1;
    }
    GrowingEnds(s, vm.View(), target, job, 0, n, i);
    CopiedBy(s, vm.View(), source, target, sz);
    return true;
  }

  lemma CopyDoable(s: State, source: int, v: nat)
    requires Inv(s, NONE) && IsRoot(s, source) && v < TRAPVPN && Removable(s, source, v, true)
    ensures Doable(s, Copy(source), v)
  {
    MappedHere(s, source, v);
    TableOf(s, source, v);
    assert Placed(s, 0);
    var q := Table0(s.pages, source, v / ENTRIES);
    assert KindOk(s, q) && PteOk(s.role[q], v % ENTRIES, s.pages[q].ptes[v % ENTRIES]);
  }

  /** While the copy goes on, the source is as it was. */
  lemma CopySource(s: State, m: State, source: int, target: int, n: nat, i: nat)
    requires Inv(s, NONE) && Growing(s, m, target, Copy(source), 0, n, i)
    requires IsRoot(s, source) && source != target && i < n <= TRAPVPN
    requires Removable(s, source, i, true)
    ensures IsRoot(m, source)
    ensures var q := Table0(m.pages, source, i / ENTRIES);
            && q in m.pages && m.pages[q].Table? && |m.pages[q].ptes| == ENTRIES && q != 0
            && m.pages[q].ptes[i % ENTRIES] == Perm(s, Copy(source), i)
            && m.pages[q].ptes[i % ENTRIES].ppn in m.pages
            && m.pages[m.pages[q].ptes[i % ENTRIES].ppn] == Filled(s, Copy(source), i)
  {
    assert SameOutside(s, m, target, 0, n, source, i);
    MappedHere(s, source, i);
    MappedHere(m, source, i);
    TableOf(m, source, i);
    assert Placed(m, 0);
    assert KindOk(m, Table0(m.pages, source, i / ENTRIES));
    assert UserOutside(s, m, target, 0, n, Lookup(s.pages, source, i).ppn);
  }
}
