/** kalloc, kfree, walk, mappages, uvmunmap and freewalk, on the pages themselves. */
module VmCode {
  import opened Common
  import opened PageTable
  import opened PageMap

  /** PX(level, va), for a virtual page number. */
  function PX(level: nat, vpn: nat): nat {
    if level == 2 then vpn / (ENTRIES * ENTRIES) % ENTRIES
    else if level == 1 then vpn / ENTRIES % ENTRIES
    else vpn % ENTRIES
  }

  /** The node of the table that walk is at. */
  function At(t: int, level: nat, vpn: nat): Node {
    Node(t, level, if level == 2 then 0 else if level == 1 then vpn / (ENTRIES * ENTRIES) else vpn / ENTRIES)
  }

  lemma WalkDown(t: int, level: nat, vpn: nat)
    requires 1 <= level <= 2 && vpn < MAXVPN
    ensures Below(At(t, level, vpn), PX(level, vpn)) == At(t, level - 1, vpn)
    ensures Above(At(t, level - 1, vpn)) == At(t, level, vpn)
    ensures At(t, level - 1, vpn).prefix % ENTRIES == PX(level, vpn)
    ensures Range(At(t, level - 1, vpn)) && NodeOk(At(t, level - 1, vpn)) && NodeOk(At(t, level, vpn))
  {
  }

  /** What walk finds in the table q for the next level. */
  lemma Descend(s: State, t: int, level: nat, vpn: nat, q: int)
    requires Inv(s, NONE) && IsRoot(s, t) && 1 <= level <= 2
    requires vpn < MAXVPN && q in s.role && s.role[q] == At(t, level, vpn)
    ensures q in s.pages && TableOk(s.role[q], s.pages[q])
    ensures PX(level, vpn) < ENTRIES && Loc(s.pages, At(t, level, vpn)) == q
    ensures Loc(s.pages, At(t, level - 1, vpn)) == Entry(s.pages, q, PX(level, vpn))
    ensures s.pages[q].ptes[PX(level, vpn)].v ==>
              var p := s.pages[q].ptes[PX(level, vpn)].ppn;
              p in s.role && s.role[p] == At(t, level - 1, vpn) && Loc(s.pages, At(t, level - 1, vpn)) == p
    ensures !s.pages[q].ptes[PX(level, vpn)].v ==> Table0(s.pages, t, vpn / ENTRIES) == 0
  {
    assert KindOk(s, q) && Back(s, q) && Placed(s, 0);
    WalkDown(t, level, vpn);
    LocStep(s.pages, At(t, level - 1, vpn));
    assert PteOk(s.role[q], PX(level, vpn), s.pages[q].ptes[PX(level, vpn)]) && Own(s, NONE, At(t, level - 1, vpn));
  }

  lemma Arrived(s: State, q: int)
    requires Inv(s, NONE) && q in s.role
    ensures q != 0 && q in s.pages && (s.role[q].level >= 0 ==> TableOk(s.role[q], s.pages[q]))
  {
    assert KindOk(s, q) && Placed(s, q) && Placed(s, 0);
  }

  function Junk(b: int): Page { Data(seq(PGSIZE, i => b)) }

  function EmptyTable(): Page { Table(seq(ENTRIES, i => NOPTE)) }

  /** The pages that are nobody's in the page tables keep their contents. */
  ghost predicate LooseSame(s: State, s': State) {
    forall p :: p in s.loose ==> p in s.pages && p in s'.pages && s'.pages[p] == s.pages[p]
  }

  class Vm {
    var lo: int
    var hi: int
    var pages: map<int, Page>
    var freelist: int
    ghost var free: seq<int>
    ghost var role: map<int, Node>
    ghost var loose: set<int>

    ghost function View(): State
      reads this
    {
      State(lo, hi, pages, free, role, loose)
    }

    ghost predicate Valid()
      reads this
    {
      Inv(View(), NONE) && freelist == Head(View())
    }

    /** kinit: freerange hands every page from start to end to kfree. */
    constructor (start: int, end: int)
      requires 0 < start <= end
      ensures Valid() && lo == start && hi == end && role == map[]
      ensures loose == {} && forall p :: start <= p < end ==> p in free
    {
      lo, hi := start, end;
      pages := map p: int | start <= p < end && Between(start, p, end) :: Junk(0);
      freelist := 0;
      free, role, loose := [], map[], set p: int | start <= p < end && Between(start, p, end);
      new;
      BootInv(View());
      var p := start;
      while p < end
        invariant start <= p <= end && Valid() && lo == start && hi == end && role == map[]
        invariant loose == set x: int | p <= x < end && Between(p, x, end)
      {
        ghost var s := View();
        PushInv(s, p);
        Kfree(p);
        assert View() == Push(s, p);
        p := p + 1;
      }
      forall x | start <= x < end ensures x in free { assert Placed(View(), x); }
    }

    method Kalloc() returns (p: int)
      requires Valid()
      modifies `pages, `freelist, `free, `loose
      ensures Valid() && (p == 0 <==> old(free) == [])
      ensures p == 0 ==> View() == old(View())
      ensures p != 0 ==> p == old(Head(View())) && View() == Pop(old(View()), Junk(5))
      ensures p != 0 ==> p in pages && p in loose && p !in old(loose) && p !in role && pages[p] == Junk(5)
    {
      ghost var s := View();
      p := freelist;
      assert FreeOk(s, |free| - 1) && FreeOk(s, |free| - 2) && Placed(s, Head(s));
      if p != 0 {
        PopInv(s, Junk(5));
        hide Inv;
        freelist := pages[p].next;
        pages := pages[p := Junk(5)];
        free, loose := free[..|free| - 1], loose + {p};
      }
    }

    /** kfree: of the caller's page, or of a table that has just lost its last entry. */
    method Kfree(p: int)
      requires lo <= p < hi
      modifies `pages, `freelist, `free, `role, `loose
      ensures freelist == p
      ensures View() == if p in old(role) then Bury(old(View()), p).(pages := old(pages)[p := Unused(old(freelist))])
                        else Push(old(View()), p).(pages := old(pages)[p := Unused(old(freelist))])
    {
      pages := pages[p := Unused(freelist)];
      freelist := p;
      if p in role { role := role - {p}; } else { loose := loose - {p}; }
      free := free + [p];
    }

    /** walk(t, va, alloc): the level-0 table for vpn, or 0. */
    method Walk(t: int, vpn: nat, alloc: bool) returns (q: int)
      requires Valid() && IsRoot(View(), t) && vpn < MAXVPN
      modifies `pages, `freelist, `free, `role, `loose
      ensures Valid() && Quiet(old(View()), View()) && loose == old(loose)
      ensures q == Table0(pages, t, vpn / ENTRIES)
      ensures (q != 0 ==> q in role && role[q] == Node(t, 0, vpn / ENTRIES) && q in pages && TableOk(role[q], pages[q]))
      ensures q == 0 && alloc ==> free == [] && |old(free)| <= 1
      ensures |free| + 2 >= |old(free)|
      ensures LooseSame(old(View()), View())
      ensures !alloc ==> View() == old(View())
    {
      ghost var s := View();
      QuietSelf(s);
      LooseHere(s);
      hide Inv, Quiet;
      q := t;
      var level := 2;
      while level > 0
        invariant 0 <= level <= 2 && Valid() && Quiet(s, View())
        invariant loose == old(loose) && LooseSame(s, View()) && (!alloc ==> View() == s)
        invariant IsRoot(View(), t) && q == Loc(pages, At(t, level, vpn)) && q in role && role[q] == At(t, level, vpn)
        invariant |free| + (2 - level) >= |old(free)|
      {
        ghost var s1 := View();
        Descend(s1, t, level, vpn, q);
        var pte := pages[q].ptes[PX(level, vpn)];
        if pte.v {
          q := pte.ppn;
        } else {
          q := Grow(t, level, vpn, q, alloc);
          QuietOn(s, s1, View());
          if q == 0 { return; }
        }
        level := level - 1;
      }
      Arrived(View(), q);
    }

    /** The part of walk that creates a table. */
    method Grow(t: int, level: nat, vpn: nat, q: int, alloc: bool) returns (p: int)
      requires Valid() && IsRoot(View(), t) && vpn < MAXVPN && 1 <= level <= 2
      requires q in role && role[q] == At(t, level, vpn) && q in pages
      requires TableOk(role[q], pages[q]) && !pages[q].ptes[PX(level, vpn)].v
      modifies `pages, `freelist, `free, `role, `loose
      ensures Valid() && Quiet(old(View()), View()) && loose == old(loose)
      ensures p == 0 ==> View() == old(View()) && (alloc ==> free == []) && Table0(pages, t, vpn / ENTRIES) == 0
      ensures (!alloc ==> p == 0) && |free| + 1 >= |old(free)|
      ensures LooseSame(old(View()), View())
      ensures IsRoot(View(), t)
      ensures p != 0 ==> p == Loc(pages, At(t, level - 1, vpn)) && p in role && role[p] == At(t, level - 1, vpn)
    {
      hide Inv, Quiet;
      ghost var s := View();
      QuietSelf(s);
      Descend(s, t, level, vpn, q);
      LooseHere(s);
      WalkDown(t, level, vpn);
      if !alloc { return 0; }
      p := Kalloc();
      if p == 0 { return; }
      var e := Pte(p, true, false, false, false, false);
      NewTable(s, t, level, vpn, q, e);
      pages := pages[p := EmptyTable()];
      pages := WithEntry(pages, q, PX(level, vpn), e);
      role, loose := role[p := At(t, level - 1, vpn)], loose - {p};
      assert View() == Attach(Pop(s, EmptyTable()), q, PX(level, vpn), e);
    }

    /** One round of mappages: vpn gets the entry e. */
    method MapOne(t: int, vpn: nat, e: Pte) returns (ok: bool)
      requires Valid() && IsRoot(View(), t) && vpn < MAXVPN && !Lookup(pages, t, vpn).v && Mappable(View(), vpn, e)
      modifies `pages, `freelist, `free, `role, `loose
      ensures Valid() && IsRoot(View(), t) && LooseSame(old(View()), View())
      ensures ok ==> Edit(old(View()), View(), t, vpn, vpn + 1) && Lookup(pages, t, vpn) == e
      ensures ok ==> loose == old(loose) - if vpn < TRAPVPN then {e.ppn} else {}
      ensures !ok ==> Quiet(old(View()), View()) && loose == old(loose) && free == [] && |old(free)| <= 1
      ensures |free| + 2 >= |old(free)|
    {
      ghost var s := View();
      var q := Walk(t, vpn, true);
      if q == 0 { return false; }
      ghost var m := View();
      var i := vpn % ENTRIES;
      MapEntry(s, m, t, vpn, e, q);
      assert !pages[q].ptes[i].v;
      hide Inv, Quiet, Edit;
      pages := WithEntry(pages, q, i, e);
      if vpn < TRAPVPN { role, loose := role[e.ppn := Node(t, -1, vpn)], loose - {e.ppn}; }
      assert View() == Attach(m, q, i, e);
      return true;
    }
  }

  lemma LooseHere(s: State)
    requires Inv(s, NONE)
    ensures LooseSame(s, s)
  {
    forall p | p in s.loose ensures p in s.pages { assert Placed(s, p); }
  }

  /** e may become the entry for vpn: a user's page must be the caller's to give. */
  predicate Mappable(s: State, vpn: nat, e: Pte) {
    && e.v && e.ppn != 0 && (e.r || e.w || e.x) && (e.u ==> vpn < TRAPVPN)
    && (vpn < TRAPVPN ==>
       e.ppn in s.loose && e.ppn in s.pages && s.pages[e.ppn].Data? && |s.pages[e.ppn].bytes| == PGSIZE)
  }

  lemma MapEdit(s: State, m: State, t: int, vpn: nat, e: Pte, q: int)
    requires Inv(m, NONE) && Quiet(s, m) && vpn < MAXVPN
    requires Attachable(m, q, vpn % ENTRIES, e) && m.role[q] == Node(t, 0, vpn / ENTRIES)
    ensures Edit(s, Attach(m, q, vpn % ENTRIES, e), t, vpn, vpn + 1)
    ensures Lookup(Attach(m, q, vpn % ENTRIES, e).pages, t, vpn) == e
  {
    var i := vpn % ENTRIES;
    assert Below(m.role[q], i) == Node(t, -1, vpn);
    hide Edit, Quiet, Inv, Loc, Lookup;
    AttachEdit(m, q, i, e);
    QuietEdit(s, m, t, vpn, vpn + 1);
    EditOn(s, m, Attach(m, q, i, e), t, vpn, vpn + 1);
  }

  lemma MapEntry(s: State, m: State, t: int, vpn: nat, e: Pte, q: int)
    requires Inv(s, NONE) && Inv(m, NONE) && IsRoot(s, t) && vpn < MAXVPN
    requires !Lookup(s.pages, t, vpn).v && Mappable(s, vpn, e)
    requires Quiet(s, m) && m.loose == s.loose && LooseSame(s, m) && q != 0 && q == Table0(m.pages, t, vpn / ENTRIES)
    requires q in m.role && m.role[q] == Node(t, 0, vpn / ENTRIES) && q in m.pages && TableOk(m.role[q], m.pages[q])
    ensures Settable(m, q, vpn % ENTRIES, e) && !m.pages[q].ptes[vpn % ENTRIES].v
    ensures var u := Attach(m, q, vpn % ENTRIES, e);
            && Inv(u, NONE) && IsRoot(u, t) && LooseSame(s, u)
            && Edit(s, u, t, vpn, vpn + 1) && Lookup(u.pages, t, vpn) == e
            && u.loose == s.loose - (if vpn < TRAPVPN then {e.ppn} else {})
            && u.role == if vpn < TRAPVPN then m.role[e.ppn := Node(t, -1, vpn)] else m.role
  {
    var i := vpn % ENTRIES;
    assert SameAt(s, m, t, vpn) && Below(m.role[q], i) == Node(t, -1, vpn) && Range(Node(t, -1, vpn));
    assert PteOk(m.role[q], i, e);
    forall x | x in s.loose ensures x != q { assert Placed(m, x); }
    AttachInv(m, q, i, e);
    MapEdit(s, m, t, vpn, e, q);
    hide Inv, Edit, Quiet, Loc;
  }

  lemma BootInv(s: State)
    requires 0 < s.lo <= s.hi && s.free == [] && s.role == map[]
    requires (forall p :: p in s.pages <==> s.lo <= p < s.hi) && (forall p :: p in s.loose <==> s.lo <= p < s.hi)
    ensures Inv(s, NONE)
  {
  }

  /** A page from the free list becomes the table that walk misses. */
  lemma NewTable(s: State, t: int, level: nat, vpn: nat, q: int, e: Pte)
    requires Inv(s, NONE) && IsRoot(s, t) && vpn < MAXVPN && 1 <= level <= 2 && |s.free| > 0
    requires q in s.role && s.role[q] == At(t, level, vpn) && q in s.pages
    requires TableOk(s.role[q], s.pages[q]) && !s.pages[q].ptes[PX(level, vpn)].v
    requires e == Pte(Head(s), true, false, false, false, false)
    ensures var s1, i := Pop(s, EmptyTable()), PX(level, vpn);
            && Settable(s1, q, i, e)
            && var s2 := Attach(s1, q, i, e);
               && Inv(s2, NONE) && Quiet(s, s2) && IsRoot(s2, t) && s2.loose == s.loose
               && Loc(s2.pages, At(t, level - 1, vpn)) == Head(s) && Head(s) != 0
               && LooseSame(s, s2) && s2.role == s.role[Head(s) := At(t, level - 1, vpn)]
  {
    var s1, i, p := Pop(s, EmptyTable()), PX(level, vpn), Head(s);
    PopInv(s, EmptyTable());
    PopQuiet(s, EmptyTable());
    WalkDown(t, level, vpn);
    assert Placed(s, p) && FreeOk(s, |s.free| - 1) && KindOk(s1, q) && Placed(s, 0);
    assert Attachable(s1, q, i, e);
    AttachInv(s1, q, i, e);
    GrowQuiet(s1, q, i, e);
    QuietOn(s, s1, Attach(s1, q, i, e));
    forall x | x in s.loose ensures x in s.pages && x != p && x != q { assert Placed(s, x); }
  }
}
