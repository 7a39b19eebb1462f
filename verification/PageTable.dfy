/** Physical pages, the free list threaded through them, and the three-level page tables built from them
    (Sv39, section 4.4 of the RISC-V Privileged Architecture). Addresses are page numbers here. */
module PageTable {
  import opened Common

  const ENTRIES := 512
  const PGSIZE := 4096
  /** One more than the highest virtual page number: MAXVA is one bit less than Sv39 allows. */
  const MAXVPN := 0x400_0000
  /** The trampoline and the trapframe are mapped at the top, in every address space; nothing above is the user's. */
  const TRAPVPN := 0x3ff_fffe

  datatype Pte = Pte(ppn: int, v: bool, r: bool, w: bool, x: bool, u: bool)

  const NOPTE := Pte(0, false, false, false, false, false)

  datatype Page = Table(ptes: seq<Pte>) | Data(bytes: seq<int>) | Unused(next: int)

  /** A place in the tree of the page table `root`: levels 2, 1 and 0 are tables, -1 is a mapped page.
      prefix is the part of the virtual page number that leads there. */
  datatype Node = Node(root: int, level: int, prefix: int)

  /** lo..hi-1 are the managed pages. free is the free list from its far end; role says which node each page of a page
      table or of user memory is; loose pages belong to somebody else. */
  datatype State = State(lo: int, hi: int, pages: map<int, Page>, free: seq<int>, role: map<int, Node>, loose: set<int>)

  // ---------------------------------------------------------------- the tree

  /** The page that entry i of table q leads to, or 0. */
  function Entry(pages: map<int, Page>, q: int, i: int): int {
    if q in pages && pages[q].Table? && 0 <= i < |pages[q].ptes| && pages[q].ptes[i].v then pages[q].ptes[i].ppn else 0
  }

  function Table1(pages: map<int, Page>, t: int, a: int): int { if 0 <= a < ENTRIES then Entry(pages, t, a) else 0 }

  function Table0(pages: map<int, Page>, t: int, ab: int): int {
    Entry(pages, Table1(pages, t, ab / ENTRIES), ab % ENTRIES)
  }

  function Mapped(pages: map<int, Page>, t: int, vpn: int): int {
    Entry(pages, Table0(pages, t, vpn / ENTRIES), vpn % ENTRIES)
  }

  /** The page at node n, or 0. */
  function Loc(pages: map<int, Page>, n: Node): int {
    if n.level == 2 then (if n.prefix == 0 then n.root else 0)
    else if n.level == 1 then Table1(pages, n.root, n.prefix)
    else if n.level == 0 then Table0(pages, n.root, n.prefix)
    else if n.level == -1 then Mapped(pages, n.root, n.prefix)
    else 0
  }

  /** The node that entry i of the table at n leads to. */
  function Below(n: Node, i: int): Node { Node(n.root, n.level - 1, n.prefix * ENTRIES + i) }

  function Above(n: Node): Node { Node(n.root, n.level + 1, n.prefix / ENTRIES) }

  lemma LocStep(pages: map<int, Page>, n: Node)
    requires -1 <= n.level < 2 && 0 <= n.prefix && (n.level == 1 ==> n.prefix < ENTRIES)
    ensures Loc(pages, n) == Entry(pages, Loc(pages, Above(n)), n.prefix % ENTRIES)
    ensures Below(Above(n), n.prefix % ENTRIES) == n
  {
  }

  // ---------------------------------------------------------------- the invariant

  predicate IsRoot(s: State, t: int) { t in s.role && s.role[t] == Node(t, 2, 0) }

  /** Nodes whose page the page table itself owns: its tables, and the user's pages. */
  predicate Owning(n: Node) { n.level >= 0 || n.prefix < TRAPVPN }

  /** The owner of the page at n is n; dead is a node whose page was just freed though its parent still lists it. */
  predicate Own(s: State, dead: Node, n: Node) {
    IsRoot(s, n.root) && Loc(s.pages, n) != 0 && Owning(n) && n != dead ==>
        Loc(s.pages, n) in s.role && s.role[Loc(s.pages, n)] == n
  }

  predicate NodeOk(n: Node) {
    && -1 <= n.level <= 2 && 0 <= n.prefix && Owning(n)
    && (n.level == 2 ==> n.prefix == 0) && (n.level == 1 ==> n.prefix < MAXVPN / ENTRIES / ENTRIES)
    && (n.level == 0 ==> n.prefix < MAXVPN / ENTRIES)
  }

  predicate Back(s: State, p: int) {
    p in s.role ==> NodeOk(s.role[p]) && IsRoot(s, s.role[p].root) && Loc(s.pages, s.role[p]) == p
  }

  /** An entry of the table at n: a pointer to a table has no R, W or X bit, a mapping has one, and U only for
      the user's pages. */
  predicate PteOk(n: Node, i: int, e: Pte) {
    e.v ==> e.ppn != 0 && (if n.level > 0 then !e.r && !e.w && !e.x
                           else (e.r || e.w || e.x) && (e.u ==> n.prefix * ENTRIES + i < TRAPVPN))
  }

  predicate TableOk(n: Node, g: Page) {
    g.Table? && |g.ptes| == ENTRIES && forall i :: 0 <= i < ENTRIES ==> PteOk(n, i, g.ptes[i])
  }

  predicate KindOk(s: State, p: int) {
    p in s.role ==>
      && p in s.pages
      && if s.role[p].level >= 0 then TableOk(s.role[p], s.pages[p])
         else s.pages[p].Data? && |s.pages[p].bytes| == PGSIZE
  }

  /** The i-th page on the free list, counted from its far end. */
  predicate FreeOk(s: State, i: int) {
    0 <= i < |s.free| ==>
      && s.free[i] in s.pages && s.pages[s.free[i]] == Unused(if i == 0 then 0 else s.free[i - 1])
      && s.free[i] !in s.role && s.free[i] !in s.loose
  }

  predicate Apart(s: State, i: int, j: int) { 0 <= i < j < |s.free| ==> s.free[i] != s.free[j] }

  /** Every managed page is free, or in a page table, or user memory, or somebody else's: exactly one of these. */
  predicate Placed(s: State, p: int) {
    && (p in s.pages <==> s.lo <= p < s.hi)
    && (p in s.pages ==> p in s.free || p in s.role || p in s.loose)
    && (p in s.role ==> p in s.pages && p !in s.loose)
    && (p in s.loose ==> p in s.pages)
  }

  predicate DeadOk(s: State, dead: Node) {
    dead != NONE ==> Loc(s.pages, dead) == 0 || (Loc(s.pages, dead) in s.pages && !s.pages[Loc(s.pages, dead)].Table?)
  }

  ghost predicate Inv(s: State, dead: Node) {
    && 0 < s.lo <= s.hi && DeadOk(s, dead)
    && (forall n :: Own(s, dead, n))
    && (forall p :: Back(s, p))
    && (forall p :: KindOk(s, p))
    && (forall i :: FreeOk(s, i))
    && (forall i, j :: Apart(s, i, j))
    && (forall p :: Placed(s, p))
  }

  /** No page is dead. */
  const NONE := Node(0, 3, 0)

  lemma {:induction false} ListCount(l: seq<int>)
    requires forall i, j :: 0 <= i < j < |l| ==> l[i] != l[j]
    ensures |set p | p in l| == |l|
    decreases |l|
  {
    if l != [] {
      var n := |l| - 1;
      ListCount(l[..n]);
      assert (set p | p in l) == (set p | p in l[..n]) + {l[n]};
    }
  }

  lemma CountParts(lo: int, hi: int, l: seq<int>, a: set<int>, b: set<int>)
    requires lo <= hi && (forall i, j :: 0 <= i < j < |l| ==> l[i] != l[j]) && a !! b
    requires forall p :: lo <= p < hi <==> p in l || p in a || p in b
    requires forall p :: p in l ==> p !in a && p !in b
    ensures |l| + |a| + |b| == hi - lo
  {
    ListCount(l);
    IntervalCount(lo, hi);
    var f := set p | p in l;
    assert Interval(lo, hi) == f + a + b;
    assert |f + a| == |f| + |a|;
  }

  /** Page conservation: the free list, the pages of page tables and user memory, and the pages in other hands
      partition the managed pages; the free list has no page twice. */
  lemma PagesConserved(s: State)
    requires Inv(s, NONE)
    ensures forall p :: s.lo <= p < s.hi <==> p in s.free || p in s.role || p in s.loose
    ensures forall p :: p in s.role ==> p !in s.free && p !in s.loose
    ensures forall p :: p in s.free ==> p !in s.loose
    ensures |s.free| + |s.role| + |s.loose| == s.hi - s.lo
  {
    forall i, j | 0 <= i < j < |s.free| ensures s.free[i] != s.free[j] { assert Apart(s, i, j); }
    forall p | p in s.free ensures s.lo <= p < s.hi && p !in s.role && p !in s.loose {
      var i :| 0 <= i < |s.free| && s.free[i] == p;
      assert FreeOk(s, i) && Placed(s, p);
    }
    forall p
      ensures (s.lo <= p < s.hi <==> p in s.free || p in s.role || p in s.loose) && !(p in s.role && p in s.loose)
    {
      assert Placed(s, p);
    }
    assert s.lo <= s.hi;
    hide Inv;
    CountParts(s.lo, s.hi, s.free, s.role.Keys, s.loose);
    assert |s.role.Keys| == |s.role|;
  }

  // ---------------------------------------------------------------- the flat map

  /** What the page table t says of virtual page vpn: its entry in the last table, valid or not. */
  function Lookup(pages: map<int, Page>, t: int, vpn: int): Pte {
    var q := Table0(pages, t, vpn / ENTRIES);
    if q in pages && pages[q].Table? && vpn % ENTRIES < |pages[q].ptes| && pages[q].ptes[vpn % ENTRIES].v
    then pages[q].ptes[vpn % ENTRIES] else NOPTE
  }

  // ---------------------------------------------------------------- changing one entry

  function WithEntry(pages: map<int, Page>, q: int, i: int, e: Pte): map<int, Page>
    requires q in pages && pages[q].Table? && 0 <= i < |pages[q].ptes|
  {
    pages[q := Table(pages[q].ptes[i := e])]
  }

  predicate AllInvalid(g: Page) { g.Table? && forall i :: 0 <= i < |g.ptes| ==> !g.ptes[i].v }

  /** Entry i of the table q may be set to e: it is not in use, or e is not; a new table is empty. */
  predicate Settable(s: State, q: int, i: int, e: Pte) {
    && q in s.role && s.role[q].level >= 0 && q in s.pages && TableOk(s.role[q], s.pages[q]) && 0 <= i < ENTRIES
    && (e.v ==> PteOk(s.role[q], i, e) && !s.pages[q].ptes[i].v)
    && (e.v && s.role[q].level > 0 ==> e.ppn !in s.role && e.ppn in s.pages && AllInvalid(s.pages[e.ppn]))
    && (!e.v && s.role[q].level > 0 && s.pages[q].ptes[i].v ==>
          s.pages[q].ptes[i].ppn !in s.role
              && (s.pages[q].ptes[i].ppn in s.pages ==> !s.pages[s.pages[q].ptes[i].ppn].Table?))
  }

  /** Going down one level before and after the change. */
  lemma EntryAfter(s: State, dead: Node, q: int, i: int, e: Pte, m: Node, j: int)
    requires Inv(s, dead) && Settable(s, q, i, e) && IsRoot(s, m.root) && 0 <= m.level <= 2 && Owning(m)
    requires q in s.pages && m != NONE
    ensures Entry(WithEntry(s.pages, q, i, e), Loc(s.pages, m), j)
            == if m == s.role[q] && j == i then (if e.v then e.ppn else 0) else Entry(s.pages, Loc(s.pages, m), j)
  {
    assert Own(s, dead, m) && Back(s, q) && Placed(s, q) && Placed(s, 0);
  }

  predicate Range(m: Node) {
    -1 <= m.level < 2 && 0 <= m.prefix && (m.level == 1 ==> m.prefix < ENTRIES)
        && (m.level == 0 ==> m.prefix < ENTRIES * ENTRIES)
  }

  /** A change of one entry moves the node below it and no other. */
  lemma LocAfter(s: State, dead: Node, q: int, i: int, e: Pte, m: Node)
    requires Inv(s, dead) && Settable(s, q, i, e) && IsRoot(s, m.root) && q in s.pages
    ensures Loc(WithEntry(s.pages, q, i, e), m)
         == if m == Below(s.role[q], i) && Range(m) then (if e.v then e.ppn else 0) else Loc(s.pages, m)
    decreases 2 - m.level
  {
    var n := s.role[q];
    var pages' := WithEntry(s.pages, q, i, e);
    assert Back(s, q) && Placed(s, 0) && Placed(s, q);
    if Range(m) {
      LocStep(s.pages, m);
      LocStep(pages', m);
      var up := Above(m);
      EntryAfter(s, dead, q, i, e, up, m.prefix % ENTRIES);
      if m.level < 1 {
        LocAfter(s, dead, q, i, e, up);
      }
    }
  }

  /** A page that is in no page table may hold anything. */
  lemma LocLoose(s: State, dead: Node, p: int, g: Page, m: Node)
    requires Inv(s, dead) && p !in s.role && p != 0 && IsRoot(s, m.root) && (dead == NONE || !g.Table?)
    ensures Loc(s.pages[p := g], m) == Loc(s.pages, m)
    decreases 2 - m.level
  {
    assert Placed(s, 0);
    if Range(m) {
      LocStep(s.pages, m);
      LocStep(s.pages[p := g], m);
      var up := Above(m);
      assert Own(s, dead, up);
      if m.level < 1 { LocLoose(s, dead, p, g, up); }
    }
  }

  // ---------------------------------------------------------------- kalloc and kfree

  /** kalloc: the first page of the free list becomes the caller's. */
  function Pop(s: State, g: Page): State
    requires |s.free| > 0
  {
    var p := s.free[|s.free| - 1];
    s.(free := s.free[..|s.free| - 1], loose := s.loose + {p}, pages := s.pages[p := g])
  }

  function Head(s: State): int { if |s.free| == 0 then 0 else s.free[|s.free| - 1] }

  /** kfree of a page that is in no page table. */
  function Push(s: State, p: int): State {
    s.(free := s.free + [p], loose := s.loose - {p}, pages := s.pages[p := Unused(Head(s))])
  }

  lemma PopInv(s: State, g: Page)
    requires Inv(s, NONE) && |s.free| > 0
    ensures Inv(Pop(s, g), NONE)
    ensures forall n: Node :: IsRoot(s, n.root) ==> Loc(Pop(s, g).pages, n) == Loc(s.pages, n)
  {
    var p, s' := s.free[|s.free| - 1], Pop(s, g);
    assert FreeOk(s, |s.free| - 1) && Placed(s, p);
    forall n: Node | IsRoot(s, n.root) ensures Loc(s'.pages, n) == Loc(s.pages, n) { LocLoose(s, NONE, p, g, n); }
    forall n ensures Own(s', NONE, n) { assert Own(s, NONE, n); }
    forall x ensures Back(s', x) && KindOk(s', x) { assert Back(s, x) && KindOk(s, x); }
    forall i ensures FreeOk(s', i) { assert FreeOk(s, i) && Apart(s, i, |s.free| - 1); }
    forall i, j ensures Apart(s', i, j) { assert Apart(s, i, j); }
    forall x ensures Placed(s', x) {
      assert Placed(s, x);
      if x in s.free && x != p { var i :| 0 <= i < |s.free| && s.free[i] == x; assert s'.free[i] == x; }
    }
  }

  lemma PushInv(s: State, p: int)
    requires Inv(s, NONE) && p in s.loose
    ensures Inv(Push(s, p), NONE)
    ensures forall n: Node :: IsRoot(s, n.root) ==> Loc(Push(s, p).pages, n) == Loc(s.pages, n)
  {
    var s' := Push(s, p);
    assert Placed(s, p);
    forall n: Node | IsRoot(s, n.root) ensures Loc(s'.pages, n) == Loc(s.pages, n) {
      LocLoose(s, NONE, p, Unused(Head(s)), n);
    }
    forall n ensures Own(s', NONE, n) { assert Own(s, NONE, n); }
    forall x ensures Back(s', x) && KindOk(s', x) { assert Back(s, x) && KindOk(s, x); }
    forall i ensures FreeOk(s', i) { assert FreeOk(s, i); }
    forall i, j ensures Apart(s', i, j) { assert Apart(s, i, j) && FreeOk(s, i); }
    forall x ensures Placed(s', x) { assert Placed(s, x); }
  }

  // ---------------------------------------------------------------- linking and unlinking

  /** Entry i of table q gets the valid entry e, and the page behind it, if it is the page table's, its role. */
  function Attach(s: State, q: int, i: int, e: Pte): State
    requires Settable(s, q, i, e)
  {
    var n := Below(s.role[q], i);
    var s1 := s.(pages := WithEntry(s.pages, q, i, e));
    if Owning(n) then s1.(role := s.role[e.ppn := n], loose := s.loose - {e.ppn}) else s1
  }

  predicate Attachable(s: State, q: int, i: int, e: Pte) {
    && Settable(s, q, i, e) && e.v && Range(Below(s.role[q], i))
    && (Owning(Below(s.role[q], i)) ==> e.ppn in s.loose && e.ppn in s.pages && NodeOk(Below(s.role[q], i)))
    && (s.role[q].level == 0 && Owning(Below(s.role[q], i)) ==>
       s.pages[e.ppn].Data? && |s.pages[e.ppn].bytes| == PGSIZE)
    && (s.role[q].level > 0 ==> |s.pages[e.ppn].ptes| == ENTRIES)
  }

  lemma AttachKind(s: State, q: int, i: int, e: Pte, x: int)
    requires Inv(s, NONE) && Attachable(s, q, i, e)
    ensures KindOk(Attach(s, q, i, e), x)
  {
    assert KindOk(s, x) && KindOk(s, q) && Placed(s, x) && Placed(s, e.ppn);
  }

  lemma AttachOwn(s: State, q: int, i: int, e: Pte, m: Node)
    requires Inv(s, NONE) && Attachable(s, q, i, e)
    ensures Own(Attach(s, q, i, e), NONE, m)
  {
    assert Placed(s, e.ppn) && Placed(s, q) && Back(s, q);
    if IsRoot(s, m.root) { LocAfter(s, NONE, q, i, e, m); }
    hide Loc;
    assert Own(s, NONE, m) && Placed(s, Loc(s.pages, m));
    hide Inv;
  }

  lemma AttachBack(s: State, q: int, i: int, e: Pte, x: int)
    requires Inv(s, NONE) && Attachable(s, q, i, e)
    ensures Back(Attach(s, q, i, e), x)
  {
    var s' := Attach(s, q, i, e);
    assert Placed(s, e.ppn) && Placed(s, q) && Back(s, q) && Back(s, x) && Placed(s, x);
    if x in s'.role { LocAfter(s, NONE, q, i, e, s'.role[x]); }
    hide Loc, Inv;
  }

  lemma AttachInv(s: State, q: int, i: int, e: Pte)
    requires Inv(s, NONE) && Attachable(s, q, i, e)
    ensures Inv(Attach(s, q, i, e), NONE)
    ensures forall m: Node :: IsRoot(s, m.root) ==>
              Loc(Attach(s, q, i, e).pages, m) == if m == Below(s.role[q], i) then e.ppn else Loc(s.pages, m)
  {
    var s', n := Attach(s, q, i, e), Below(s.role[q], i);
    assert Placed(s, e.ppn) && Placed(s, q) && Back(s, q);
    forall m: Node | IsRoot(s, m.root) ensures Loc(s'.pages, m) == if m == n then e.ppn else Loc(s.pages, m) {
      LocAfter(s, NONE, q, i, e, m);
    }
    hide Loc, Own, Back, KindOk;
    forall m ensures Own(s', NONE, m) { AttachOwn(s, q, i, e, m); }
    forall x ensures Back(s', x) { AttachBack(s, q, i, e, x); }
    forall x ensures KindOk(s', x) { AttachKind(s, q, i, e, x); }
    forall k ensures FreeOk(s', k) { assert FreeOk(s, k); }
    forall k, l ensures Apart(s', k, l) { assert Apart(s, k, l); }
    forall x ensures Placed(s', x) { assert Placed(s, x); }
  }

  /** A mapping is taken out of a level-0 table; its page, if it was the user's, is the caller's now. */
  function Detach(s: State, q: int, i: int): State
    requires Settable(s, q, i, NOPTE)
  {
    var n, p := Below(s.role[q], i), s.pages[q].ptes[i].ppn;
    var s1 := s.(pages := WithEntry(s.pages, q, i, NOPTE));
    if Owning(n) then s1.(role := s.role - {p}, loose := s.loose + {p}) else s1
  }

  predicate Detachable(s: State, q: int, i: int) {
    Settable(s, q, i, NOPTE) && s.role[q].level == 0 && s.pages[q].ptes[i].v
  }

  lemma DetachPage(s: State, q: int, i: int)
    requires Inv(s, NONE) && Detachable(s, q, i)
    ensures Loc(s.pages, Below(s.role[q], i)) == s.pages[q].ptes[i].ppn && Range(Below(s.role[q], i))
    ensures Owning(Below(s.role[q], i)) ==>
              s.pages[q].ptes[i].ppn in s.role && s.role[s.pages[q].ptes[i].ppn] == Below(s.role[q], i)
  {
    assert Back(s, q) && PteOk(s.role[q], i, s.pages[q].ptes[i]);
    LocStep(s.pages, Below(s.role[q], i));
    assert Own(s, NONE, Below(s.role[q], i));
  }

  lemma DetachInv(s: State, q: int, i: int)
    requires Inv(s, NONE) && Detachable(s, q, i)
    ensures Inv(Detach(s, q, i), NONE)
    ensures forall m: Node :: IsRoot(s, m.root) ==>
              Loc(Detach(s, q, i).pages, m) == if m == Below(s.role[q], i) then 0 else Loc(s.pages, m)
  {
    var s', n, p := Detach(s, q, i), Below(s.role[q], i), s.pages[q].ptes[i].ppn;
    DetachPage(s, q, i);
    assert Placed(s, q);
    forall m: Node | IsRoot(s, m.root) ensures Loc(s'.pages, m) == if m == n then 0 else Loc(s.pages, m) {
      LocAfter(s, NONE, q, i, NOPTE, m);
    }
    hide Loc;
    forall m ensures Own(s', NONE, m) { assert Own(s, NONE, m); }
    forall x ensures Back(s', x) { assert Back(s, x); }
    forall x ensures KindOk(s', x) { assert KindOk(s, x); }
    forall k ensures FreeOk(s', k) { assert FreeOk(s, k); }
    forall k, l ensures Apart(s', k, l) { assert Apart(s, k, l); }
    forall x ensures Placed(s', x) { assert Placed(s, x) && Placed(s, p); }
  }

  // ---------------------------------------------------------------- freeing a page table

  /** kfree of the table p, which has no entries left: its node is dead until the parent's entry is cleared. */
  function Bury(s: State, p: int): State {
    s.(free := s.free + [p], role := s.role - {p}, pages := s.pages[p := Unused(Head(s))])
  }

  function DeadNode(n: Node): Node { if n.level == 2 then NONE else n }

  lemma BuryLoc(s: State, p: int, m: Node)
    requires Inv(s, NONE) && p in s.role && s.role[p].level >= 0
    requires p in s.pages && AllInvalid(s.pages[p]) && IsRoot(s, m.root)
    ensures Loc(Bury(s, p).pages, m) == Loc(s.pages, m)
    decreases 2 - m.level
  {
    var s' := Bury(s, p);
    assert Placed(s, 0) && Placed(s, p);
    if Range(m) {
      LocStep(s.pages, m);
      LocStep(s'.pages, m);
      if m.level < 1 { BuryLoc(s, p, Above(m)); }
    }
  }

  lemma BuryInv(s: State, p: int)
    requires Inv(s, NONE) && p in s.role && s.role[p].level >= 0 && p in s.pages && AllInvalid(s.pages[p])
    ensures Inv(Bury(s, p), DeadNode(s.role[p]))
    ensures forall m: Node :: IsRoot(s, m.root) ==> Loc(Bury(s, p).pages, m) == Loc(s.pages, m)
  {
    var s', dead := Bury(s, p), DeadNode(s.role[p]);
    assert Back(s, p) && Placed(s, p);
    forall m: Node | IsRoot(s, m.root) ensures Loc(s'.pages, m) == Loc(s.pages, m) { BuryLoc(s, p, m); }
    forall x | x in s'.role && s.role[p].level == 2 ensures s.role[x].root != p { BuryRoot(s, p, x); }
    hide Loc;
    forall m ensures Own(s', dead, m) { assert Own(s, NONE, m); }
    forall x ensures Back(s', x) { assert Back(s, x); }
    forall x ensures KindOk(s', x) { assert KindOk(s, x); }
    forall k ensures FreeOk(s', k) { assert FreeOk(s, k); }
    forall k, l ensures Apart(s', k, l) { assert Apart(s, k, l) && FreeOk(s, k); }
    forall x ensures Placed(s', x) { assert Placed(s, x); }
  }

  /** A root without entries has no pages below it. */
  lemma BuryRoot(s: State, p: int, x: int)
    requires Inv(s, NONE) && IsRoot(s, p) && p in s.pages && AllInvalid(s.pages[p]) && x in s.role && x != p
    ensures s.role[x].root != p
  {
    assert Back(s, x) && Placed(s, 0) && Placed(s, x);
    if s.role[x].root == p {
      LocStep(s.pages, s.role[x]);
      if s.role[x].level < 1 { LocStep(s.pages, Above(s.role[x])); }
      if s.role[x].level < 0 { LocStep(s.pages, Above(Above(s.role[x]))); }
    }
  }

  lemma ClearInv(s: State, q: int, i: int, dead: Node)
    requires Inv(s, dead) && Settable(s, q, i, NOPTE) && s.role[q].level > 0 && dead == Below(s.role[q], i)
    ensures var s' := s.(pages := WithEntry(s.pages, q, i, NOPTE));
            && Inv(s', NONE)
            && forall m: Node :: IsRoot(s, m.root) ==> Loc(s'.pages, m) == if m == dead then 0 else Loc(s.pages, m)
  {
    var s' := s.(pages := WithEntry(s.pages, q, i, NOPTE));
    assert Back(s, q) && Placed(s, q);
    forall m: Node | IsRoot(s, m.root) ensures Loc(s'.pages, m) == if m == dead then 0 else Loc(s.pages, m) {
      LocAfter(s, dead, q, i, NOPTE, m);
    }
    hide Loc;
    forall m ensures Own(s', NONE, m) { assert Own(s, dead, m); }
    forall x ensures Back(s', x) { assert Back(s, x); }
    forall x ensures KindOk(s', x) { assert KindOk(s, x); }
    forall k ensures FreeOk(s', k) { assert FreeOk(s, k); }
    forall k, l ensures Apart(s', k, l) { assert Apart(s, k, l); }
    forall x ensures Placed(s', x) { assert Placed(s, x); }
  }
}
