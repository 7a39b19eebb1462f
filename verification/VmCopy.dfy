/** copyout, copyin and copyinstr: moving bytes between the kernel and the flat user address space. */
module VmCopy {
  import opened Common
  import opened PageTable
  import opened PageMap
  import opened VmCode
  import opened VmUser

  /** The byte at virtual address va of t. */
  function UserByte(s: State, t: int, va: nat): int {
    var e := Lookup(s.pages, t, va / PGSIZE);
    if e.v && e.ppn in s.pages && s.pages[e.ppn].Data? && va % PGSIZE < |s.pages[e.ppn].bytes|
    then s.pages[e.ppn].bytes[va % PGSIZE] else 0
  }

  /** The user may use page vpn: read it, and write it if w is asked for. */
  predicate Usable(s: State, t: int, vpn: nat, w: bool) {
    vpn < MAXVPN && Lookup(s.pages, t, vpn).v && Lookup(s.pages, t, vpn).u && (w ==> Lookup(s.pages, t, vpn).w)
  }

  lemma UsablePage(s: State, t: int, vpn: nat, w: bool)
    requires Inv(s, NONE) && IsRoot(s, t) && Usable(s, t, vpn, w)
    ensures var p := Lookup(s.pages, t, vpn).ppn;
            && p != 0 && p in s.role && s.role[p] == Node(t, -1, vpn)
            && p in s.pages && s.pages[p].Data? && |s.pages[p].bytes| == PGSIZE
  {
    TableOf(s, t, vpn);
    assert Placed(s, 0);
    var q := Table0(s.pages, t, vpn / ENTRIES);
    assert KindOk(s, q) && PteOk(s.role[q], vpn % ENTRIES, s.pages[q].ptes[vpn % ENTRIES]);
    MappedHere(s, t, vpn);
  }

  // ---------------------------------------------------------------- writing user memory

  function WithData(s: State, p: int, d: seq<int>): State { s.(pages := s.pages[p := Data(d)]) }

  lemma DataLoc(s: State, p: int, d: seq<int>, m: Node)
    requires Inv(s, NONE) && p in s.role && s.role[p].level == -1 && IsRoot(s, m.root)
    ensures Loc(WithData(s, p, d).pages, m) == Loc(s.pages, m)
    decreases 2 - m.level
  {
    assert KindOk(s, p) && Placed(s, 0) && Placed(s, p);
    if Range(m) {
      LocStep(s.pages, m);
      LocStep(WithData(s, p, d).pages, m);
      if m.level < 1 { DataLoc(s, p, d, Above(m)); }
    }
  }

  lemma DataInv(s: State, p: int, d: seq<int>)
    requires Inv(s, NONE) && p in s.role && s.role[p].level == -1 && |d| == PGSIZE
    ensures Inv(WithData(s, p, d), NONE)
    ensures forall t, vpn :: IsRoot(s, t) && 0 <= vpn < MAXVPN ==>
      Lookup(WithData(s, p, d).pages, t, vpn) == Lookup(s.pages, t, vpn)
  {
    var s' := WithData(s, p, d);
    assert KindOk(s, p) && Placed(s, p) && Placed(s, 0);
    forall n: Node | IsRoot(s, n.root) ensures Loc(s'.pages, n) == Loc(s.pages, n) { DataLoc(s, p, d, n); }
    forall n ensures Own(s', NONE, n) { assert Own(s, NONE, n); }
    forall x ensures Back(s', x) { assert Back(s, x); }
    forall x ensures KindOk(s', x) { assert KindOk(s, x); }
    forall i ensures FreeOk(s', i) { assert FreeOk(s, i); }
    forall i, j ensures Apart(s', i, j) { assert Apart(s, i, j); }
    forall x ensures Placed(s', x) { assert Placed(s, x); }
    forall t, vpn | IsRoot(s, t) && 0 <= vpn < MAXVPN ensures Lookup(s'.pages, t, vpn) == Lookup(s.pages, t, vpn) {
      TableOf(s, t, vpn);
      TableOf(s', t, vpn);
      assert KindOk(s, Table0(s.pages, t, vpn / ENTRIES));
    }
  }

  predicate Hit(t: int, a: int, b: int, r: int, x: int) { r == t && a <= x < b }

  /** Address x of r, after the bytes d have been put at va in t: only user addresses are looked at. */
  predicate ByteIs(s: State, u: State, t: int, va: nat, d: seq<int>, r: int, x: nat) {
    IsRoot(s, r) && x / PGSIZE < MAXVPN && x / PGSIZE < TRAPVPN ==>
      UserByte(u, r, x) == if Hit(t, va, va + |d|, r, x) then d[x - va] else UserByte(s, r, x)
  }

  /** u is s with the bytes d at va in t's memory, and nothing else changed. */
  ghost predicate Stored(s: State, u: State, t: int, va: nat, d: seq<int>) {
    && Inv(u, NONE) && u.free == s.free && u.role == s.role && u.loose == s.loose && u.lo == s.lo && u.hi == s.hi
    && (forall r, vpn :: SameAt(s, u, r, vpn))
    && (forall r, x: nat :: ByteIs(s, u, t, va, d, r, x))
  }

  /** Bytes put into one page are bytes put into the flat address space: no other address shares that page. */
  lemma StorePage(s: State, m: State, t: int, va: nat, d: seq<int>, c: seq<int>)
    requires Inv(s, NONE) && IsRoot(s, t) && Stored(s, m, t, va, d)
    requires Usable(m, t, (va + |d|) / PGSIZE, true) && (va + |d|) % PGSIZE + |c| <= PGSIZE
    ensures var p := Lookup(m.pages, t, (va + |d|) / PGSIZE).ppn;
            && p in m.pages && m.pages[p].Data? && |m.pages[p].bytes| == PGSIZE
            && Stored(s, WithData(m, p, Patch(m.pages[p].bytes, (va + |d|) % PGSIZE, c)), t, va, d + c)
  {
    var at := va + |d|;
    UsablePage(m, t, at / PGSIZE, true);
    var p := Lookup(m.pages, t, at / PGSIZE).ppn;
    var b := Patch(m.pages[p].bytes, at % PGSIZE, c);
    var u := WithData(m, p, b);
    DataInv(m, p, b);
    forall r, vpn ensures SameAt(s, u, r, vpn) { assert SameAt(s, m, r, vpn); }
    forall r, x: nat ensures ByteIs(s, u, t, va, d + c, r, x) {
      assert ByteIs(s, m, t, va, d, r, x);
      if IsRoot(s, r) && x / PGSIZE < TRAPVPN { SharesNot(m, u, t, r, at, x, p, b, c); }
    }
  }

  lemma SharesNot(m: State, u: State, t: int, r: int, at: nat, x: nat, p: int, b: seq<int>, c: seq<int>)
    requires Inv(m, NONE) && IsRoot(m, t) && IsRoot(m, r) && x / PGSIZE < TRAPVPN && at % PGSIZE + |c| <= PGSIZE
    requires p in m.role && m.role[p] == Node(t, -1, at / PGSIZE)
    requires p in m.pages && m.pages[p].Data? && |m.pages[p].bytes| == PGSIZE
    requires Lookup(m.pages, t, at / PGSIZE).v && Lookup(m.pages, t, at / PGSIZE).ppn == p
    requires b == Patch(m.pages[p].bytes, at % PGSIZE, c) && u == WithData(m, p, b)
    requires forall q, vpn :: IsRoot(m, q) && 0 <= vpn < MAXVPN ==> Lookup(u.pages, q, vpn) == Lookup(m.pages, q, vpn)
    ensures UserByte(u, r, x) == if Hit(t, at, at + |c|, r, x) then c[x - at] else UserByte(m, r, x)
  {
    var v := x / PGSIZE;
    assert Lookup(u.pages, r, v) == Lookup(m.pages, r, v);
    if Lookup(m.pages, r, v).v { MappedHere(m, r, v); }
    assert x == PGSIZE * v + x % PGSIZE && at == PGSIZE * (at / PGSIZE) + at % PGSIZE;
  }

  /** The first part of a store: nothing yet. */
  lemma StoreNothing(s: State, t: int, va: nat)
    requires Inv(s, NONE)
    ensures Stored(s, s, t, va, [])
  {
  }

  lemma StillUsable(s: State, u: State, t: int, va: nat, d: seq<int>, vpn: nat, w: bool)
    requires Stored(s, u, t, va, d) && IsRoot(s, t)
    ensures IsRoot(u, t) && Usable(u, t, vpn, w) == Usable(s, t, vpn, w)
  {
    assert SameAt(s, u, t, vpn);
  }

  /** One round of copyout: c goes after d, inside one page. */
  method OutPage(vm: Vm, ghost s: State, t: int, ghost dstva: nat, ghost d: seq<int>,
      va: nat, c: seq<int>) returns (ok: bool)
    requires vm.Valid() && Inv(s, NONE) && IsRoot(s, t) && Stored(s, vm.View(), t, dstva, d)
    requires va == dstva + |d| && va % PGSIZE + |c| <= PGSIZE
    modifies vm`pages, vm`freelist, vm`free, vm`role, vm`loose
    ensures vm.Valid() && Stored(s, vm.View(), t, dstva, if ok then d + c else d)
    ensures (ok <==> Usable(s, t, va / PGSIZE, true))
  {
    ghost var m := vm.View();
    var v := va / PGSIZE;
    StillUsable(s, m, t, dstva, d, v, true);
    if v >= MAXVPN { return false; }
    var q := vm.Walk(t, v, false);
    EntryOf(m, t, v, q);
    if Usable(m, t, v, true) { StorePage(s, m, t, dstva, d, c); }
    hide Inv, Stored, Lookup;
    if q == 0 { return false; }
    var pte := vm.pages[q].ptes[v % ENTRIES];
    if !pte.v || !pte.u || !pte.w { return false; }
    vm.pages := vm.pages[pte.ppn := Data(Patch(vm.pages[pte.ppn].bytes, va % PGSIZE, c))];
    assert vm.View() == WithData(m, pte.ppn, Patch(m.pages[pte.ppn].bytes, va % PGSIZE, c));
    return true;
  }

  /** copyout(t, dstva, src, len): k bytes arrive, all of them if and only if every page of the range is the
      user's to write. */
  method CopyOut(vm: Vm, t: int, dstva: nat, src: seq<int>) returns (ok: bool, ghost k: nat)
    requires vm.Valid() && IsRoot(vm.View(), t)
    modifies vm`pages, vm`freelist, vm`free, vm`role, vm`loose
    ensures vm.Valid() && k <= |src| && (ok <==> k == |src|) && Stored(old(vm.View()), vm.View(), t, dstva, src[..k])
    ensures forall x :: dstva <= x < dstva + k ==> Usable(old(vm.View()), t, x / PGSIZE, true)
    ensures !ok ==> !Usable(old(vm.View()), t, (dstva + k) / PGSIZE, true)
    ensures !ok ==> var v := (dstva + k) / PGSIZE; var e := Lookup(old(vm.View()).pages, t, v);
                    v >= MAXVPN || !e.v || !e.u || !e.w
  {
    ghost var s := vm.View();
    StoreNothing(s, t, dstva);
    assert src[..0] == [];
    var done := 0;
    hide Inv, Stored, Usable;
    while done < |src|
      invariant 0 <= done <= |src| && Stored(s, vm.View(), t, dstva, src[..done]) && vm.Valid()
      invariant forall x :: dstva <= x < dstva + done ==> Usable(s, t, x / PGSIZE, true)
    {
      var va := dstva + done;
      var n := Min(PGSIZE - va % PGSIZE, |src| - done);
      var stored := OutPage(vm, s, t, dstva, src[..done], va, src[done..done + n]);
      if !stored { return false, done; }
      assert src[..done] + src[done..done + n] == src[..done + n];
      SamePage(va, n);
      done := done + n;
    }
    return true, done;
  }

  /** What copyout stores goes to pages that are mapped for the user, to write: all other memory is as it was. */
  lemma ReadOnlyStays(s: State, u: State, t: int, va: nat, d: seq<int>, r: int, x: nat)
    requires Stored(s, u, t, va, d) && (forall y :: va <= y < va + |d| ==> Usable(s, t, y / PGSIZE, true))
    requires IsRoot(s, r) && x / PGSIZE < TRAPVPN
    requires var e := Lookup(s.pages, t, x / PGSIZE); r != t || !e.v || !e.u || !e.w
    ensures UserByte(u, r, x) == UserByte(s, r, x)
  {
    assert ByteIs(s, u, t, va, d, r, x);
    if va <= x < va + |d| { assert Usable(s, t, x / PGSIZE, true); }
    hide Lookup;
  }

  lemma SamePage(va: nat, n: nat)
    requires va % PGSIZE + n <= PGSIZE
    ensures forall x: nat :: va <= x < va + n ==> x / PGSIZE == va / PGSIZE
  {
    forall x: nat | va <= x < va + n ensures x / PGSIZE == va / PGSIZE {
      assert va == PGSIZE * (va / PGSIZE) + va % PGSIZE && x == PGSIZE * (x / PGSIZE) + x % PGSIZE;
    }
  }

  /** What walk's result says about the translation of v. */
  lemma EntryOf(s: State, t: int, v: nat, q: int)
    requires Inv(s, NONE) && IsRoot(s, t) && v < MAXVPN && q == Table0(s.pages, t, v / ENTRIES)
    ensures q == 0 ==> !Lookup(s.pages, t, v).v
    ensures q != 0 ==> q in s.pages && s.pages[q].Table? && |s.pages[q].ptes| == ENTRIES
                       && (s.pages[q].ptes[v % ENTRIES].v ==> Lookup(s.pages, t, v) == s.pages[q].ptes[v % ENTRIES])
                       && (Lookup(s.pages, t, v).v <==> s.pages[q].ptes[v % ENTRIES].v)
  {
    TableOf(s, t, v);
    assert Placed(s, 0) && KindOk(s, q);
  }

  // ---------------------------------------------------------------- reading user memory

  /** walkaddr(t, va): the page for vpn if the user may use it, or 0. */
  method WalkAddr(vm: Vm, t: int, vpn: nat) returns (p: int)
    requires vm.Valid() && IsRoot(vm.View(), t)
    modifies vm`pages, vm`freelist, vm`free, vm`role, vm`loose
    ensures vm.Valid() && vm.View() == old(vm.View()) && (p != 0 <==> Usable(vm.View(), t, vpn, false))
    ensures p != 0 ==>
      p == Lookup(vm.pages, t, vpn).ppn && p in vm.pages && vm.pages[p].Data? && |vm.pages[p].bytes| == PGSIZE
  {
    ghost var s := vm.View();
    if vpn >= MAXVPN { return 0; }
    var q := vm.Walk(t, vpn, false);
    EntryOf(s, t, vpn, q);
    if Usable(s, t, vpn, false) { UsablePage(s, t, vpn, false); }
    hide Inv;
    if q == 0 { return 0; }
    var pte := vm.pages[q].ptes[vpn % ENTRIES];
    if !pte.v || !pte.u { return 0; }
    return pte.ppn;
  }

  predicate BytesAt(s: State, t: int, va: nat, d: seq<int>) {
    forall i :: 0 <= i < |d| ==> d[i] == UserByte(s, t, va + i)
  }

  lemma PageBytes(s: State, t: int, va: nat, d: seq<int>, n: nat, p: int)
    requires BytesAt(s, t, va, d) && (va + |d|) % PGSIZE + n <= PGSIZE && Lookup(s.pages, t, (va + |d|) / PGSIZE).v
    requires p == Lookup(s.pages, t, (va + |d|) / PGSIZE).ppn && p in s.pages
    requires s.pages[p].Data? && |s.pages[p].bytes| == PGSIZE
    ensures BytesAt(s, t, va, d + s.pages[p].bytes[(va + |d|) % PGSIZE..(va + |d|) % PGSIZE + n])
  {
    var at := va + |d|;
    SamePage(at, n);
    var e := d + s.pages[p].bytes[at % PGSIZE..at % PGSIZE + n];
    forall i | 0 <= i < |e| ensures e[i] == UserByte(s, t, va + i) {
      if i >= |d| {
        assert (va + i) / PGSIZE == at / PGSIZE;
        assert (va + i) % PGSIZE == at % PGSIZE + (i - |d|);
      }
    }
  }

  /** Of the n bytes at va the user may read the first k, up to a page that is not theirs. */
  ghost predicate Readable(s: State, t: int, va: nat, n: nat, k: nat) {
    && k <= n && (forall x :: va <= x < va + k ==> Usable(s, t, x / PGSIZE, false))
    && (k < n ==> !Usable(s, t, (va + k) / PGSIZE, false))
  }

  /** In terms of the page table: the first k bytes lie on pages that are mapped for the user, and the next one, if it
      was asked for, on one that is not. */
  lemma ReadableBits(s: State, t: int, va: nat, n: nat, k: nat, x: nat)
    requires Readable(s, t, va, n, k) && va <= x <= va + k && x < va + n
    ensures var e := Lookup(s.pages, t, x / PGSIZE); x < va + k <==> x / PGSIZE < MAXVPN && e.v && e.u
  {
    if x < va + k { assert Usable(s, t, x / PGSIZE, false); }
    hide Lookup;
  }

  /** What a whole range gives decides what each part of it gives, copied on its own. */
  lemma ReadableWithin(s: State, t: int, va: nat, n: nat, k: nat, a: nat, m: nat, j: nat)
    requires Readable(s, t, va, n, k) && a <= k && a + m <= n
    ensures Readable(s, t, va + a, m, j) <==> j == Min(m, k - a)
  {
    var x, y := va + a + j, va + k;
    assert j < Min(m, k - a) ==> Usable(s, t, x / PGSIZE, false);
    assert k < n ==> !Usable(s, t, y / PGSIZE, false);
  }

  /** copyin(t, dst, srcva, len): exactly the bytes of the range if every page of it is the user's, else a failure. */
  method CopyIn(vm: Vm, t: int, srcva: nat, len: nat) returns (ok: bool, dst: seq<int>)
    requires vm.Valid() && IsRoot(vm.View(), t)
    modifies vm`pages, vm`freelist, vm`free, vm`role, vm`loose
    ensures vm.Valid() && vm.View() == old(vm.View()) && |dst| <= len
    ensures BytesAt(vm.View(), t, srcva, dst) && (ok <==> |dst| == len) && Readable(vm.View(), t, srcva, len, |dst|)
  {
    ghost var s := vm.View();
    dst := [];
    hide Inv, Lookup;
    while |dst| < len
      invariant |dst| <= len && vm.Valid() && vm.View() == s && BytesAt(s, t, srcva, dst)
      invariant forall x :: srcva <= x < srcva + |dst| ==> Usable(s, t, x / PGSIZE, false)
    {
      var va := srcva + |dst|;
      var pa0 := WalkAddr(vm, t, va / PGSIZE);
      if pa0 == 0 { return false, dst; }
      var n := Min(PGSIZE - va % PGSIZE, len - |dst|);
      PageBytes(s, t, srcva, dst, n, pa0);
      SamePage(va, n);
      dst := dst + vm.pages[pa0].bytes[va % PGSIZE..va % PGSIZE + n];
    }
    return true, dst;
  }

  /** What copyout stored, copyin reads back. */
  lemma RoundTrip(s: State, u: State, t: int, va: nat, d: seq<int>, e: seq<int>)
    requires Inv(s, NONE) && IsRoot(s, t) && Stored(s, u, t, va, d) && BytesAt(u, t, va, e) && |e| == |d|
    requires forall x :: va <= x < va + |d| ==> Usable(s, t, x / PGSIZE, true)
    ensures e == d
  {
    forall i | 0 <= i < |d| ensures e[i] == d[i] {
      assert Usable(s, t, (va + i) / PGSIZE, true);
      UsablePage(s, t, (va + i) / PGSIZE, true);
      assert Back(s, Lookup(s.pages, t, (va + i) / PGSIZE).ppn);
      assert ByteIs(s, u, t, va, d, t, va + i);
    }
  }

  // ---------------------------------------------------------------- copyinstr

  /** The inner loop of copyinstr: the bytes of one page up to a zero, at most n. */
  method CopyUntilZero(b: seq<int>, o: nat, n: nat) returns (c: seq<int>, found: bool)
    requires o + n <= |b|
    ensures |c| <= n && c == b[o..o + |c|] && (forall i :: 0 <= i < |c| ==> c[i] != 0)
    ensures found <==> |c| < n
    ensures found ==> b[o + |c|] == 0
  {
    c := [];
    var p := o;
    while p < o + n
      invariant o <= p <= o + n && c == b[o..p] && forall i :: 0 <= i < |c| ==> c[i] != 0
    {
      if b[p] == 0 { return c, true; }
      c := c + [b[p]];
      p := p + 1;
    }
    return c, false;
  }

  /** copyinstr(t, dst, srcva, max): the string at srcva if its zero comes within max bytes and before an
      unusable page. */
  method CopyInStr(vm: Vm, t: int, srcva: nat, max: nat) returns (ok: bool, dst: seq<int>)
    requires vm.Valid() && IsRoot(vm.View(), t)
    modifies vm`pages, vm`freelist, vm`free, vm`role, vm`loose
    ensures vm.Valid() && vm.View() == old(vm.View()) && |dst| <= max
    ensures BytesAt(vm.View(), t, srcva, dst) && forall i :: 0 <= i < |dst| ==> dst[i] != 0
    ensures forall x :: srcva <= x < srcva + |dst| ==> Usable(vm.View(), t, x / PGSIZE, false)
    ensures ok ==>
      |dst| < max && Usable(vm.View(), t, (srcva + |dst|) / PGSIZE, false) && UserByte(vm.View(), t, srcva + |dst|) == 0
    ensures !ok ==> |dst| == max || !Usable(vm.View(), t, (srcva + |dst|) / PGSIZE, false)
  {
    ghost var s := vm.View();
    dst := [];
    hide Inv, Lookup;
    while |dst| < max
      invariant |dst| <= max && vm.Valid() && vm.View() == s
      invariant BytesAt(s, t, srcva, dst) && forall i :: 0 <= i < |dst| ==> dst[i] != 0
      invariant forall x :: srcva <= x < srcva + |dst| ==> Usable(s, t, x / PGSIZE, false)
    {
      var va := srcva + |dst|;
      var pa0 := WalkAddr(vm, t, va / PGSIZE);
      if pa0 == 0 { return false, dst; }
      var n := Min(PGSIZE - va % PGSIZE, max - |dst|);
      var c, found := CopyUntilZero(vm.pages[pa0].bytes, va % PGSIZE, n);
      PageBytes(s, t, srcva, dst, |c|, pa0);
      SamePage(va, |c|);
      if found {
        ZeroAt(s, t, va, |c|, pa0);
        return true, dst + c;
      }
      dst := dst + c;
    }
    return false, dst;
  }

  lemma ZeroAt(s: State, t: int, va: nat, n: nat, p: int)
    requires va % PGSIZE + n < PGSIZE && Usable(s, t, va / PGSIZE, false)
    requires p == Lookup(s.pages, t, va / PGSIZE).ppn && p in s.pages
    requires s.pages[p].Data? && |s.pages[p].bytes| == PGSIZE
    ensures UserByte(s, t, va + n) == s.pages[p].bytes[va % PGSIZE + n] && Usable(s, t, (va + n) / PGSIZE, false)
  {
    SamePage(va, n + 1);
    assert (va + n) / PGSIZE == va / PGSIZE;
    assert (va + n) % PGSIZE == va % PGSIZE + n;
  }
}
