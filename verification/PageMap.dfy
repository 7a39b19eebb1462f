/** The page table as a flat map from virtual page numbers to entries, and what each change does to it. */
module PageMap {
  import opened PageTable

  predicate SameAt(s: State, s': State, t: int, vpn: int) {
    IsRoot(s, t) && 0 <= vpn < MAXVPN ==> Lookup(s'.pages, t, vpn) == Lookup(s.pages, t, vpn)
  }

  /** The page of user memory p is still there, with the same bytes. */
  predicate UserSame(s: State, s': State, p: int) {
    p in s.role && s.role[p].level == -1 ==>
        p in s'.role && s'.role[p] == s.role[p] && p in s.pages && p in s'.pages && s'.pages[p] == s.pages[p]
  }

  /** Roots stay roots, no translation and no user page changes, and nobody else's page is touched: at most, free pages
      have become tables, or the other way round. */
  ghost predicate Quiet(s: State, s': State) {
    && s'.lo == s.lo && s'.hi == s.hi
    && (forall t :: IsRoot(s, t) <==> IsRoot(s', t))
    && (forall t, vpn :: SameAt(s, s', t, vpn))
    && (forall p :: UserSame(s, s', p) && UserSame(s', s, p))
  }

  lemma QuietSelf(s: State)
    requires Inv(s, NONE)
    ensures Quiet(s, s)
  {
    forall p ensures UserSame(s, s, p) { assert KindOk(s, p); }
  }

  lemma QuietOn(s: State, t: State, u: State)
    requires Quiet(s, t) && Quiet(t, u)
    ensures Quiet(s, u)
  {
    forall r, vpn ensures SameAt(s, u, r, vpn) { assert SameAt(s, t, r, vpn) && SameAt(t, u, r, vpn); }
    forall p ensures UserSame(s, u, p) && UserSame(u, s, p) {
      assert UserSame(s, t, p) && UserSame(t, u, p) && UserSame(t, s, p) && UserSame(u, t, p);
    }
  }

  /** The table that holds the entry for vpn is in the page table, or there is none. */
  lemma TableOf(s: State, t: int, vpn: int)
    requires Inv(s, NONE) && IsRoot(s, t)
    ensures var q := Table0(s.pages, t, vpn / ENTRIES);
            q == Loc(s.pages, Node(t, 0, vpn / ENTRIES))
                && (q != 0 ==> q in s.role && s.role[q] == Node(t, 0, vpn / ENTRIES) && q in s.pages)
  {
    assert Own(s, NONE, Node(t, 0, vpn / ENTRIES));
    assert KindOk(s, Table0(s.pages, t, vpn / ENTRIES));
  }

  lemma PopQuiet(s: State, g: Page)
    requires Inv(s, NONE) && |s.free| > 0
    ensures Quiet(s, Pop(s, g))
  {
    PopInv(s, g);
    var s', p := Pop(s, g), s.free[|s.free| - 1];
    assert FreeOk(s, |s.free| - 1);
    forall t, vpn ensures SameAt(s, s', t, vpn) {
      if IsRoot(s, t) { TableOf(s, t, vpn); TableOf(s', t, vpn); assert Placed(s, 0) && Placed(s', 0); }
    }
    forall x ensures UserSame(s, s', x) && UserSame(s', s, x) { assert KindOk(s, x) && KindOk(s', x); }
  }

  lemma PushQuiet(s: State, p: int)
    requires Inv(s, NONE) && p in s.loose
    ensures Quiet(s, Push(s, p))
  {
    PushInv(s, p);
    var s' := Push(s, p);
    assert Placed(s, p);
    forall t, vpn ensures SameAt(s, s', t, vpn) {
      if IsRoot(s, t) { TableOf(s, t, vpn); TableOf(s', t, vpn); assert Placed(s, 0) && Placed(s', 0); }
    }
    forall x ensures UserSame(s, s', x) && UserSame(s', s, x) { assert KindOk(s, x) && KindOk(s', x); }
  }

  /** A new, empty table changes no translation. */
  lemma GrowQuiet(s: State, q: int, i: int, e: Pte)
    requires Inv(s, NONE) && Attachable(s, q, i, e) && s.role[q].level > 0
    ensures Quiet(s, Attach(s, q, i, e))
  {
    AttachInv(s, q, i, e);
    var s' := Attach(s, q, i, e);
    assert Placed(s, e.ppn) && Back(s, q);
    forall t, vpn ensures SameAt(s, s', t, vpn) {
      if IsRoot(s, t) { TableOf(s, t, vpn); TableOf(s', t, vpn); assert Placed(s, 0) && Placed(s', 0); }
    }
    forall x ensures UserSame(s, s', x) && UserSame(s', s, x) { assert KindOk(s, x) && KindOk(s', x); }
  }

  /** Changing an entry of a level-0 table changes the translation of that page and no other. */
  lemma LeafMap(s: State, s': State, q: int, i: int, e: Pte, t: int, vpn: int)
    requires Inv(s, NONE) && Inv(s', NONE) && Settable(s, q, i, e) && s.role[q].level == 0
    requires s'.pages == WithEntry(s.pages, q, i, e) && IsRoot(s, t) && IsRoot(s', t) && 0 <= vpn < MAXVPN
    requires forall m: Node :: IsRoot(s, m.root) && m.level >= 0 ==> Loc(s'.pages, m) == Loc(s.pages, m)
    ensures Lookup(s'.pages, t, vpn) ==
              if Node(t, -1, vpn) == Below(s.role[q], i) then (if e.v then e else NOPTE) else Lookup(s.pages, t, vpn)
  {
    TableOf(s, t, vpn);
    TableOf(s', t, vpn);
    assert Placed(s, 0) && Placed(s', 0) && Back(s, q);
  }

  // ---------------------------------------------------------------- changing a range of one page table

  predicate InRange(t: int, a: int, b: int, r: int, vpn: int) { r == t && a <= vpn < b }

  predicate SameOutside(s: State, s': State, t: int, a: int, b: int, r: int, vpn: int) {
    InRange(t, a, b, r, vpn) || SameAt(s, s', r, vpn)
  }

  predicate UserOutside(s: State, s': State, t: int, a: int, b: int, p: int) {
    (p in s.role && InRange(t, a, b, s.role[p].root, s.role[p].prefix)) || UserSame(s, s', p)
  }

  /** Nothing changes but the translations of t's pages a..b-1 and the user pages there. */
  ghost predicate Edit(s: State, s': State, t: int, a: int, b: int) {
    && s'.lo == s.lo && s'.hi == s.hi
    && (forall r :: IsRoot(s, r) <==> IsRoot(s', r))
    && (forall r, vpn :: SameOutside(s, s', t, a, b, r, vpn))
    && (forall p :: UserOutside(s, s', t, a, b, p) && UserOutside(s', s, t, a, b, p))
  }

  lemma QuietEdit(s: State, s': State, t: int, a: int, b: int)
    requires Quiet(s, s')
    ensures Edit(s, s', t, a, b)
  {
    forall r, vpn ensures SameOutside(s, s', t, a, b, r, vpn) { assert SameAt(s, s', r, vpn); }
    forall p ensures UserOutside(s, s', t, a, b, p) && UserOutside(s', s, t, a, b, p) {
      assert UserSame(s, s', p) && UserSame(s', s, p);
    }
  }

  lemma EditWider(s: State, s': State, t: int, a: int, b: int, c: int, d: int)
    requires Edit(s, s', t, a, b) && c <= a && b <= d
    ensures Edit(s, s', t, c, d)
  {
    forall r, vpn ensures SameOutside(s, s', t, c, d, r, vpn) { assert SameOutside(s, s', t, a, b, r, vpn); }
    forall p ensures UserOutside(s, s', t, c, d, p) && UserOutside(s', s, t, c, d, p) {
      assert UserOutside(s, s', t, a, b, p) && UserOutside(s', s, t, a, b, p);
    }
  }

  lemma EditOn(s: State, m: State, s': State, t: int, a: int, b: int)
    requires Edit(s, m, t, a, b) && Edit(m, s', t, a, b)
    ensures Edit(s, s', t, a, b)
  {
    forall r, vpn ensures SameOutside(s, s', t, a, b, r, vpn) {
      assert SameOutside(s, m, t, a, b, r, vpn) && SameOutside(m, s', t, a, b, r, vpn);
    }
    forall p ensures UserOutside(s, s', t, a, b, p) && UserOutside(s', s, t, a, b, p) {
      assert UserOutside(s, m, t, a, b, p) && UserOutside(m, s', t, a, b, p)
        && UserOutside(m, s, t, a, b, p) && UserOutside(s', m, t, a, b, p);
    }
  }

  lemma AttachEdit(s: State, q: int, i: int, e: Pte)
    requires Inv(s, NONE) && Attachable(s, q, i, e) && s.role[q].level == 0
    ensures var n := Below(s.role[q], i);
            && Edit(s, Attach(s, q, i, e), n.root, n.prefix, n.prefix + 1)
            && (0 <= n.prefix < MAXVPN ==> Lookup(Attach(s, q, i, e).pages, n.root, n.prefix) == e)
  {
    AttachInv(s, q, i, e);
    var s', n := Attach(s, q, i, e), Below(s.role[q], i);
    var t, a, b := n.root, n.prefix, n.prefix + 1;
    assert Placed(s, e.ppn) && Back(s, q) && Placed(s, q);
    forall r, vpn ensures SameOutside(s, s', t, a, b, r, vpn) {
      if IsRoot(s, r) && 0 <= vpn < MAXVPN { LeafMap(s, s', q, i, e, r, vpn); }
    }
    forall p ensures UserOutside(s, s', t, a, b, p) && UserOutside(s', s, t, a, b, p) {
      assert KindOk(s, p) && KindOk(s', p);
    }
    if 0 <= n.prefix < MAXVPN { LeafMap(s, s', q, i, e, n.root, n.prefix); }
  }

  lemma DetachEdit(s: State, q: int, i: int)
    requires Inv(s, NONE) && Detachable(s, q, i)
    ensures var n := Below(s.role[q], i);
            && Edit(s, Detach(s, q, i), n.root, n.prefix, n.prefix + 1)
            && (0 <= n.prefix < MAXVPN ==> Lookup(Detach(s, q, i).pages, n.root, n.prefix) == NOPTE)
  {
    DetachInv(s, q, i);
    DetachPage(s, q, i);
    var s', n := Detach(s, q, i), Below(s.role[q], i);
    var t, a, b := n.root, n.prefix, n.prefix + 1;
    assert Back(s, q) && Placed(s, q);
    forall r, vpn ensures SameOutside(s, s', t, a, b, r, vpn) {
      if IsRoot(s, r) && 0 <= vpn < MAXVPN { LeafMap(s, s', q, i, NOPTE, r, vpn); }
    }
    forall p ensures UserOutside(s, s', t, a, b, p) && UserOutside(s', s, t, a, b, p) {
      assert KindOk(s, p) && KindOk(s', p);
    }
    if 0 <= n.prefix < MAXVPN { LeafMap(s, s', q, i, NOPTE, n.root, n.prefix); }
  }
}
