/** writei: which bytes reach the file, which of them count, and what is logged, also when the source can be
    read only in part. */
module FsWrite {
  import opened Common
  import opened FsImage
  import opened FsState
  import opened FsCode
  import opened FsFile

  // ---------------------------------------------------------------- a copy that fails half way

  /** Every change is recorded but, perhaps, that of block a. */
  ghost predicate RecordedBut(s: State, u: State, logged: set<nat>, a: int) {
    && u.sb == s.sb && |u.bits| == |s.bits|
    && forall b: nat :: (b != a ==> BlockLogged(s, u, logged, b)) && BitLogged(s, u, logged, b)
  }

  /** Bytes c that reach file i at `at` without being logged: there are none, or the block is new and was logged when
      it was zeroed, or had been logged before, or holds these bytes already. */
  predicate Harmless(s: State, i: int, at: nat, c: seq<int>, before: set<nat>) {
    var a, q := Loc(s, i, at / BSIZE), at % BSIZE;
    c == [] || a == 0 || a in before || (a in s.blocks && q + |c| <= |s.blocks[a]| && s.blocks[a][q..q + |c|] == c)
  }

  /** What a write has recorded that began in s with `before` and left the bytes c at `at` unlogged. */
  ghost predicate Torn(s: State, u: State, i: int, at: nat, c: seq<int>, before: set<nat>, logged: set<nat>) {
    && RecordedBut(s, u, logged, Loc(u, i, at / BSIZE))
    && (Recorded(s, u, logged) <==> Harmless(s, i, at, c, before))
  }

  /** The blocks of file i from lo on are the ones it had, and the write has not logged them. */
  ghost predicate Ahead(s: State, t: State, i: int, lo: nat, before: set<nat>, logged: set<nat>) {
    forall k: nat :: lo <= k < MAXFILE ==> AheadAt(s, t, i, k, before, logged)
  }

  predicate AheadAt(s: State, t: State, i: int, k: nat, before: set<nat>, logged: set<nat>) {
    Loc(t, i, k) == Loc(s, i, k) && (Loc(s, i, k) != 0 && Loc(s, i, k) !in before ==> Loc(s, i, k) !in logged)
  }

  lemma AheadNext(s: State, t: State, mid: State, u: State, i: nat, lo: nat,
      before: set<nat>, l: set<nat>, l': set<nat>,
                  addr: nat, maps: set<nat>)
    requires Ahead(s, t, i, lo, before, l) && FsInv(mid) && addr == Loc(mid, i, lo)
    requires l' <= l + maps + {addr} + Ind(mid, i) && forall m :: m in maps ==> m < mid.sb.nmeta
    requires forall k :: lo < k < MAXFILE ==> Loc(mid, i, k) == Loc(t, i, k)
    requires forall k :: Loc(u, i, k) == Loc(mid, i, k)
    ensures Ahead(s, u, i, lo + 1, before, l')
  {
    forall k: nat | lo + 1 <= k < MAXFILE ensures AheadAt(s, u, i, k, before, l') {
      assert AheadAt(s, t, i, k, before, l) && Loc(mid, i, k) == Loc(t, i, k);
      assert Owns(mid, 0, NDIRECT, i, k) && Owns(mid, 0, NDIRECT, i, lo) && Owns(mid, 0, NDIRECT, i, INDIRECT);
      assert OwnedBack(mid, 0, NDIRECT, Loc(mid, i, k));
    }
  }

  lemma PatchSame(b: Block, q: nat, c: seq<int>)
    requires q + |c| <= |b|
    ensures Patch(b, q, c) == b <==> b[q..q + |c|] == c
  {
    assert Patch(b, q, c)[q..q + |c|] == c;
    if b[q..q + |c|] == c { assert Patch(b, q, c) == b[..q] + b[q..q + |c|] + b[q + |c|..]; }
  }

  /** A block that was there is changed and not logged: all is recorded if and only if that does no harm. */
  lemma TornOld(s: State, t: State, i: nat, at: nat, c: seq<int>, before: set<nat>, l: set<nat>)
    requires Recorded(s, t, l) && before <= l && AheadAt(s, t, i, at / BSIZE, before, l)
    requires var a := Loc(t, i, at / BSIZE); a > 0 && Allocated(t, a) && at % BSIZE + |c| <= BSIZE
    ensures var a := Loc(t, i, at / BSIZE);
            var u := WithBlock(t, a, Patch(t.blocks[a], at % BSIZE, c));
            RecordedBut(s, u, l, a) && (Recorded(s, u, l) <==> Harmless(s, i, at, c, before))
  {
    hide Loc, Marked;
    var a: nat := Loc(t, i, at / BSIZE);
    var u := WithBlock(t, a, Patch(t.blocks[a], at % BSIZE, c));
    forall b: nat ensures (b != a ==> BlockLogged(s, u, l, b)) && BitLogged(s, u, l, b) {
      assert BlockLogged(s, t, l, b) && BitLogged(s, t, l, b);
    }
    PatchSame(t.blocks[a], at % BSIZE, c);
    assert BlockLogged(s, t, l, a);
    assert Recorded(s, u, l) <==> BlockLogged(s, u, l, a);
  }

  lemma RecordedAll(s: State, u: State, i: int, at: nat, c: seq<int>, before: set<nat>, l: set<nat>)
    requires Recorded(s, u, l) && Harmless(s, i, at, c, before)
    ensures Torn(s, u, i, at, c, before, l)
  {
    hide Harmless, Loc;
    forall b: nat ensures BlockLogged(s, u, l, b) && BitLogged(s, u, l, b) { }
  }

  /** Logging a block that is no data block changes none of this. */
  lemma TornLogs(s: State, t: State, u: State, i: int, at: nat, c: seq<int>, before: set<nat>, l: set<nat>, m: nat)
    requires Torn(s, t, i, at, c, before, l) && u.sb == t.sb && u.bits == t.bits && u.blocks == t.blocks
    requires Loc(u, i, at / BSIZE) == Loc(t, i, at / BSIZE) != m
    ensures Torn(s, u, i, at, c, before, l + {m})
  {
    hide Harmless, Loc;
    var a := Loc(t, i, at / BSIZE);
    forall b: nat ensures (b != a ==> BlockLogged(s, u, l + {m}, b)) && BitLogged(s, u, l + {m}, b) {
      assert (b != a ==> BlockLogged(s, t, l, b)) && BitLogged(s, t, l, b);
    }
    if Recorded(s, u, l + {m}) {
      forall b: nat ensures BlockLogged(s, t, l, b) && BitLogged(s, t, l, b) {
        assert (b != a ==> BlockLogged(s, t, l, b)) && BitLogged(s, t, l, b) && BlockLogged(s, u, l + {m}, b);
      }
    }
    if Recorded(s, t, l) {
      forall b: nat ensures BlockLogged(s, u, l + {m}, b) && BitLogged(s, u, l + {m}, b) {
        assert BlockLogged(s, t, l, b) && BitLogged(s, t, l, b);
      }
    }
  }

  // ---------------------------------------------------------------- writei

  lemma PatchStays(s: State, i: int, bn: int, d: Block)
    requires FsInv(s) && 0 <= bn < MAXFILE && Loc(s, i, bn) != 0 && |d| == BSIZE
    ensures forall j, k :: Loc(WithBlock(s, Loc(s, i, bn), d), j, k) == Loc(s, j, k)
    ensures Stays(s, WithBlock(s, Loc(s, i, bn), d))
  {
    assert Owned(s, 0, NDIRECT);
    WriteOwned(s, i, bn, d);
    SameLocStays(s, WithBlock(s, Loc(s, i, bn), d));
  }

  /** mid with the bytes c at the offset `at` of file i, if it has a block there. */
  function WithBytes(mid: State, i: int, at: nat, c: seq<int>): State {
    var a := Loc(mid, i, at / BSIZE);
    if a != 0 && Allocated(mid, a) && at % BSIZE + |c| <= BSIZE
    then WithBlock(mid, a, Patch(mid.blocks[a], at % BSIZE, c)) else mid
  }

  /** The body of writei's loop: c goes to offset off, if there is a block for it. Only its first `have` bytes can be
      read: if that is not all, the block keeps them and is not logged. */
  method WriteBlock(fs: Fs, i: nat, off: nat, c: seq<int>, have: nat)
    returns (done: bool, ghost put: nat, ghost addr: nat, ghost maps: set<nat>, ghost mid: State)
    requires FsInv(fs.View()) && i < |fs.inodes| && off / BSIZE < MAXFILE && off % BSIZE + |c| <= BSIZE && have <= |c|
    modifies fs`bits, fs`blocks, fs`inodes, fs`logged, fs`owner
    ensures |mid.inodes| == |old(fs.inodes)| && mid.inodes == old(fs.inodes)[i := mid.inodes[i]]
    ensures FsInv(mid) && Extends(old(fs.View()), mid) && addr == Loc(mid, i, off / BSIZE)
    ensures done <==> addr != 0 && have == |c|
    ensures put == (if addr == 0 then 0 else have) && (addr == 0 ==> Full(mid))
    ensures (addr != 0 ==> Allocated(mid, addr)) && fs.View() == WithBytes(mid, i, off, c[..put])
    ensures fs.logged <= old(fs.logged) + maps + {addr} + Ind(mid, i) && forall m :: m in maps ==> m < mid.sb.nmeta
    ensures |maps| <= (if Loc(old(fs.View()), i, off / BSIZE) == 0 then 1 else 0)
                      + (if Loc(old(fs.View()), i, INDIRECT) != Loc(mid, i, INDIRECT) then 1 else 0)
    ensures forall k :: 0 <= k < MAXFILE && k != off / BSIZE ==> Loc(mid, i, k) == old(Loc(fs.View(), i, k))
    ensures Recorded(old(fs.View()), mid, fs.logged) && old(fs.logged) <= fs.logged
    ensures old(Loc(fs.View(), i, off / BSIZE)) == 0 && addr != 0 ==> addr in fs.logged
    ensures if done then addr in fs.logged
            else old(Loc(fs.View(), i, off / BSIZE)) != 0 ==> mid == old(fs.View()) && fs.logged == old(fs.logged)
  {
    ghost var s := fs.View();
    var a;
    a, maps := fs.BMap(i, off / BSIZE);
    mid := fs.View();
    addr := a;
    put := 0;
    if a == 0 { return false, put, addr, maps, mid; }
    put := have;
    assert Owns(mid, 0, NDIRECT, i, off / BSIZE) && OwnedBack(mid, 0, NDIRECT, a) && Allocated(mid, a);
    hide FsInv, Extends, Recorded, Full;
    fs.blocks := fs.blocks[a := Patch(fs.blocks[a], off % BSIZE, c[..have])];
    if have < |c| { return false, put, addr, maps, mid; }
    ghost var before := fs.logged;
    fs.logged := fs.logged + {a};
    RecordedMore(s, mid, before, fs.logged);
    return true, put, addr, maps, mid;
  }

  lemma RecordedMore(s: State, u: State, before: set<nat>, logged: set<nat>)
    requires Recorded(s, u, before) && before <= logged
    ensures Recorded(s, u, logged)
  {
    RecordedSelf(u, logged);
    RecordedOn(s, u, u, before, logged);
  }

  /** How far a write of n bytes at off0 has come after `it` blocks and tot bytes. */
  predicate Pace(off0: nat, n: nat, tot: nat, it: nat) {
    && tot <= n && (tot == 0 <==> it == 0) && it <= Touched(off0, n)
    && (0 < tot < n ==> (off0 + tot) % BSIZE == 0 && (off0 + tot) / BSIZE == off0 / BSIZE + it)
  }

  lemma PaceNext(off0: nat, n: nat, tot: nat, it: nat, m: nat)
    requires Pace(off0, n, tot, it) && tot < n && m == Min(n - tot, BSIZE - (off0 + tot) % BSIZE)
    ensures it < Touched(off0, n) && (it == 0 <==> tot == 0)
    ensures 0 < m <= n - tot && (off0 + tot) / BSIZE == off0 / BSIZE + it
    ensures (off0 + tot) % BSIZE + m <= BSIZE && Pace(off0, n, tot + m, it + 1)
  {
  }

  /** How many of n bytes for off are written if only the first `avail` of them can be read: those up to the last block
      boundary. */
  function Landed(off: nat, n: nat, avail: nat): (r: nat)
    ensures r <= Min(avail, n) && (r == n <==> n <= avail)
  {
    if n <= avail then n else Max((off + avail) / BSIZE * BSIZE, off) - off
  }

  /** The copies of such a write fail nowhere, or at a block boundary. */
  predicate Whole(off: nat, n: nat, avail: nat) { n <= avail || avail == 0 || (off + avail) % BSIZE == 0 }

  /** Bytes get into a block without being counted if and only if the first byte that cannot be read lies inside one. */
  lemma WholeExactly(off: nat, n: nat, avail: nat)
    ensures Landed(off, n, avail) == Min(avail, n) <==> Whole(off, n, avail)
  {
  }

  lemma StartPace(off: nat, n: nat)
    ensures Pace(off, n, 0, 0)
  {
  }

  lemma LandedHere(off: nat, n: nat, tot: nat, it: nat, m: nat, avail: nat)
    requires Pace(off, n, tot, it) && tot < n && m == Min(n - tot, BSIZE - (off + tot) % BSIZE) && tot <= avail
    ensures tot <= Landed(off, n, avail) && (avail < tot + m ==> tot == Landed(off, n, avail))
  {
  }

  /** A write in progress, with what it has logged. */
  ghost predicate Writing(s: State, t: State, i: nat, off0: nat, d: seq<int>,
      a: Tally, before: set<nat>, logged: set<nat>) {
    && FsInv(t) && Progress(s, t, i, off0, d) && TallyOk(a, s, t, i, off0, before, logged)
    && Stays(s, t) && before <= logged
  }

  /** Everything so far is recorded, and lies behind block lo. */
  ghost predicate Tidy(s: State, t: State, i: nat, lo: nat, before: set<nat>, logged: set<nat>) {
    Recorded(s, t, logged) && Ahead(s, t, i, lo, before, logged)
  }

  /** Block bn of the file is next: what bmap and the copy do to it. */
  ghost predicate Round(t: State, mid: State, u: State, i: nat, at: nat, c: seq<int>,
      l: set<nat>, l': set<nat>, addr: nat, maps: set<nat>) {
    && at / BSIZE < MAXFILE && at % BSIZE + |c| <= BSIZE && FsInv(mid)
    && Extends(t, mid) && addr == Loc(mid, i, at / BSIZE)
    && (addr != 0 ==> Allocated(mid, addr)) && (addr == 0 ==> c == []) && u == WithBytes(mid, i, at, c)
    && l' <= l + maps + {addr} + Ind(mid, i)
    && |maps| <= (if Loc(t, i, at / BSIZE) == 0 then 1 else 0)
                 + (if Loc(t, i, INDIRECT) != Loc(mid, i, INDIRECT) then 1 else 0)
  }

  lemma RoundStays(s: State, t: State, mid: State, u: State, i: nat, at: nat, c: seq<int>,
      l: set<nat>, l': set<nat>, addr: nat, maps: set<nat>)
    requires Round(t, mid, u, i, at, c, l, l', addr, maps) && Stays(s, t)
    ensures Stays(s, u) && forall j, k :: Loc(u, j, k) == Loc(mid, j, k)
  {
    ExtendsStays(t, mid);
    hide Stays, FsInv, Extends;
    if addr != 0 {
      PatchStays(mid, i, at / BSIZE, Patch(mid.blocks[addr], at % BSIZE, c));
    } else {
      SameLocStays(mid, u);
    }
    StaysOn(t, mid, u);
    StaysOn(s, t, u);
  }

  lemma RoundProgress(s: State, t: State, mid: State, u: State, i: nat, off0: nat, d: seq<int>, at: nat, c: seq<int>,
      l: set<nat>, l': set<nat>, addr: nat, maps: set<nat>)
    requires FsInv(s) && FsInv(t) && Progress(s, t, i, off0, d) && at == off0 + |d|
    requires Round(t, mid, u, i, at, c, l, l', addr, maps)
    ensures FsInv(u) && Progress(s, u, i, off0, d + c)
  {
    ProgressExtends(s, t, mid, i, off0, d);
    if addr == 0 {
      assert d + c == d;
    } else {
      var bn := at / BSIZE;
      ProgressWrite(s, mid, i, off0, d, bn, at % BSIZE, c);
      WriteOwned(mid, i, bn, Patch(mid.blocks[addr], at % BSIZE, c));
      forall j, x ensures NoHole(u, j, x) { assert NoHole(mid, j, x); }
    }
  }

  lemma RoundTally(s: State, t: State, mid: State, u: State, i: nat, off0: nat,
      d: seq<int>, at: nat, c: seq<int>, a: Tally,
      before: set<nat>, l: set<nat>, l': set<nat>, addr: nat, maps: set<nat>)
    returns (a': Tally)
    requires FsInv(s) && Progress(s, t, i, off0, d) && TallyOk(a, s, t, i, off0, before, l) && at == off0 + |d|
    requires Round(t, mid, u, i, at, c, l, l', addr, maps) && i < |s.inodes| && off0 <= s.inodes[i].size
    requires (a.it == 0 ==> d == []) && forall k :: Loc(u, i, k) == Loc(mid, i, k)
    ensures a'.it == a.it + 1 && TallyOk(a', s, u, i, off0, before, l')
  {
    var bn := at / BSIZE;
    assert Kept(t, mid, i, INDIRECT) && NoHole(s, i, bn) && Cell(s, t, i, off0, d, bn, off0 % BSIZE);
    a' := Tally(a.datas + {addr}, a.maps + maps, a.it + 1, a.news + if Loc(t, i, bn) == 0 then 1 else 0);
    TallyNext(a, s, t, mid, i, off0, bn, before, l, l', addr, maps);
    assert Loc(u, i, INDIRECT) == Loc(mid, i, INDIRECT);
  }

  lemma WritingNext(s: State, t: State, mid: State, u: State, i: nat, off0: nat,
      d: seq<int>, at: nat, c: seq<int>, a: Tally,
      before: set<nat>, l: set<nat>, l': set<nat>, addr: nat, maps: set<nat>)
    returns (a': Tally)
    requires FsInv(s) && Writing(s, t, i, off0, d, a, before, l) && i < |s.inodes| && off0 <= s.inodes[i].size
    requires at == off0 + |d| && (a.it == 0 ==> d == []) && l <= l'
    requires Round(t, mid, u, i, at, c, l, l', addr, maps)
    ensures a'.it == a.it + 1 && Writing(s, u, i, off0, d + c, a', before, l')
    ensures forall k :: Loc(u, i, k) == Loc(mid, i, k)
  {
    hide FsInv, Progress, TallyOk, Stays, Round, Loc;
    RoundStays(s, t, mid, u, i, at, c, l, l', addr, maps);
    RoundProgress(s, t, mid, u, i, off0, d, at, c, l, l', addr, maps);
    a' := RoundTally(s, t, mid, u, i, off0, d, at, c, a, before, l, l', addr, maps);
  }

  /** A round that logged its block leaves everything recorded. */
  lemma TidyNext(s: State, t: State, mid: State, u: State, i: nat, at: nat, c: seq<int>,
      before: set<nat>, l: set<nat>, l': set<nat>, addr: nat, maps: set<nat>)
    requires Tidy(s, t, i, at / BSIZE, before, l) && Round(t, mid, u, i, at, c, l, l', addr, maps) && l <= l'
    requires Recorded(t, mid, l') && addr in l' && forall m :: m in maps ==> m < mid.sb.nmeta
    requires forall k :: 0 <= k < MAXFILE && k != at / BSIZE ==> Loc(mid, i, k) == Loc(t, i, k)
    requires forall k :: Loc(u, i, k) == Loc(mid, i, k)
    ensures Tidy(s, u, i, at / BSIZE + 1, before, l')
  {
    AheadNext(s, t, mid, u, i, at / BSIZE, before, l, l', addr, maps);
    hide Ahead, Recorded, FsInv, Extends, Loc;
    if addr == 0 { RecordedSelf(mid, l'); } else { OneBlockRecorded(mid, u, addr, l'); }
    RecordedOn(t, mid, u, l', l');
    RecordedOn(s, t, u, l, l');
  }

  /** A round that did not log its block leaves everything recorded if and only if that does no harm. */
  lemma TornEnds(s: State, t: State, mid: State, u: State, i: nat, at: nat, c: seq<int>,
      before: set<nat>, l: set<nat>, l': set<nat>, addr: nat, maps: set<nat>)
    requires Tidy(s, t, i, at / BSIZE, before, l) && Round(t, mid, u, i, at, c, l, l', addr, maps)
    requires Recorded(t, mid, l') && before <= l <= l' && Stays(s, t)
    requires Loc(t, i, at / BSIZE) == 0 && addr != 0 ==> addr in l'
    requires Loc(t, i, at / BSIZE) != 0 ==> mid == t && l' == l
    requires Loc(u, i, at / BSIZE) == Loc(mid, i, at / BSIZE)
    ensures Torn(s, u, i, at, c, before, l')
  {
    assert LocStays(s, t, i, at / BSIZE) && AheadAt(s, t, i, at / BSIZE, before, l);
    hide Recorded, FsInv, Extends, Loc, Stays, Ahead, RecordedBut;
    if Loc(t, i, at / BSIZE) == 0 {
      if addr == 0 { RecordedSelf(mid, l'); } else { OneBlockRecorded(mid, u, addr, l'); }
      RecordedOn(t, mid, u, l', l');
      RecordedOn(s, t, u, l, l');
      RecordedAll(s, u, i, at, c, before, l');
    } else {
      TornOld(s, t, i, at, c, before, l);
    }
  }

  lemma WritingStarts(s: State, i: nat, off: nat, before: set<nat>)
    requires FsInv(s)
    ensures Writing(s, s, i, off, [], Tally({}, {}, 0, 0), before, before) && Tidy(s, s, i, off / BSIZE, before, before)
  {
    forall j, k | j != i ensures Kept(s, s, j, k) { }
    SameLocStays(s, s);
    RecordedSelf(s, before);
  }

  lemma WritingInv(s: State, t: State, i: nat, off0: nat, d: seq<int>, a: Tally, before: set<nat>, logged: set<nat>)
    requires Writing(s, t, i, off0, d, a, before, logged)
    ensures FsInv(t) && Owned(t, 0, NDIRECT) && Progress(s, t, i, off0, d) && Stays(s, t) && before <= logged
  {
  }

  /** One round of the loop, as a step of the write that has put d at off0 so far. */
  method WriteStep(fs: Fs, ghost s: State, i: nat, off0: nat, ghost d: seq<int>, off: nat, c: seq<int>, have: nat,
                   ghost a: Tally, ghost before: set<nat>)
    returns (done: bool, ghost put: nat, ghost a': Tally)
    requires FsInv(s) && i < |s.inodes| == |fs.inodes| && off0 <= s.inodes[i].size && off == off0 + |d|
    requires Writing(s, fs.View(), i, off0, d, a, before, fs.logged) && (a.it == 0 ==> d == [])
    requires Tidy(s, fs.View(), i, off / BSIZE, before, fs.logged)
    requires off / BSIZE < MAXFILE && off % BSIZE + |c| <= BSIZE && have <= |c|
    modifies fs`bits, fs`blocks, fs`inodes, fs`logged, fs`owner
    ensures |fs.inodes| == |old(fs.inodes)| && fs.inodes == old(fs.inodes)[i := fs.inodes[i]]
    ensures put <= have && (done ==> put == have == |c|)
    ensures Writing(s, fs.View(), i, off0, d + c[..put], a', before, fs.logged) && a'.it == a.it + 1
    ensures done ==> Tidy(s, fs.View(), i, off / BSIZE + 1, before, fs.logged)
    ensures !done ==> Torn(s, fs.View(), i, off, c[..put], before, fs.logged)
    ensures !done ==> (put == have < |c|) || (put == 0 && Full(fs.View()) && Loc(fs.View(), i, off / BSIZE) == 0)
  {
    hide Recorded, Stays, FsInv, Writing, Extends, Patch, Loc, Allocated, Tidy, Torn;
    ghost var t, l := fs.View(), fs.logged;
    WritingInv(s, t, i, off0, d, a, before, l);
    ghost var addr: nat, maps: set<nat>, mid: State;
    done, put, addr, maps, mid := WriteBlock(fs, i, off, c, have);
    assert Round(t, mid, fs.View(), i, off, c[..put], l, fs.logged, addr, maps);
    hide Round, WithBytes;
    a' := WritingNext(s, t, mid, fs.View(), i, off0, d, off, c[..put], a, before, l, fs.logged, addr, maps);
    if done {
      TidyNext(s, t, mid, fs.View(), i, off, c[..put], before, l, fs.logged, addr, maps);
    } else {
      TornEnds(s, t, mid, fs.View(), i, off, c[..put], before, l, fs.logged, addr, maps);
    }
  }

  /** How a write of n bytes for off ends, of which the first `avail` can be read: tot are written, and `part`
      more are in the block after them. It ends early where the copy fails, or where there is no block and the
      disk is full. */
  ghost predicate Ends(u: State, i: int, off: nat, n: nat, avail: nat, tot: nat, part: nat) {
    || (tot == Landed(off, n, avail) && part == Min(avail, n) - tot)
    || (part == 0 && tot < n && tot <= Landed(off, n, avail) && Full(u) && Loc(u, i, (off + tot) / BSIZE) == 0)
  }

  /** The loop of writei. */
  method WriteLoop(fs: Fs, i: nat, off: nat, src: seq<int>, avail: nat)
    returns (tot: nat, ghost part: nat, ghost a: Tally)
    requires FsInv(fs.View()) && i < |fs.inodes| && off <= fs.inodes[i].size && off + |src| <= MAXFILE * BSIZE
    modifies fs`bits, fs`blocks, fs`inodes, fs`logged, fs`owner
    ensures tot + part <= |src| && a.it <= Touched(off, |src|)
    ensures Writing(old(fs.View()), fs.View(), i, off, src[..tot + part], a, old(fs.logged), fs.logged)
    ensures |fs.inodes| == |old(fs.inodes)| && fs.inodes == old(fs.inodes)[i := fs.inodes[i]]
    ensures Ends(fs.View(), i, off, |src|, avail, tot, part)
    ensures Torn(old(fs.View()), fs.View(), i, off + tot, src[tot..tot + part], old(fs.logged), fs.logged)
  {
    hide FsInv, Writing, Tidy, Torn, Full, Touched, Loc, Landed, Pace;
    ghost var s, before := fs.View(), fs.logged;
    WritingStarts(s, i, off, before);
    a := Tally({}, {}, 0, 0);
    tot, part := 0, 0;
    assert src[..0] == [];
    StartPace(off, |src|);
    while tot < |src|
      invariant tot <= |src| && tot <= avail && Writing(s, fs.View(), i, off, src[..tot], a, before, fs.logged)
      invariant Pace(off, |src|, tot, a.it) && a.it <= Touched(off, |src|)
      invariant Tidy(s, fs.View(), i, off / BSIZE + a.it, before, fs.logged)
      invariant |fs.inodes| == |s.inodes| && fs.inodes == s.inodes[i := fs.inodes[i]]
    {
      var m := Min(|src| - tot, BSIZE - (off + tot) % BSIZE);
      PaceNext(off, |src|, tot, a.it, m);
      LandedHere(off, |src|, tot, a.it, m, avail);
      var done;
      ghost var put: nat;
      var c, have := src[tot..tot + m], Min(m, avail - tot);
      done, put, a := WriteStep(fs, s, i, off, src[..tot], off + tot, c, have, a, before);
      Subslice(src, tot, m, put);
      Slices(src, 0, tot, tot + put);
      if !done { return tot, put, a; }
      assert tot + put == tot + m;
      tot := tot + m;
    }
    WrittenAll(s, fs.View(), i, off, src, off / BSIZE + a.it, before, fs.logged);
  }

  lemma WrittenAll(s: State, u: State, i: nat, off: nat, src: seq<int>, lo: nat, before: set<nat>, logged: set<nat>)
    requires Tidy(s, u, i, lo, before, logged)
    ensures Torn(s, u, i, off + |src|, src[|src|..|src| + 0], before, logged)
  {
    RecordedAll(s, u, i, off + |src|, src[|src|..|src| + 0], before, logged);
  }

  lemma GrownStays(s: State, t: State, i: nat, off: nat, d: seq<int>, tot: nat)
    requires FsInv(s) && Progress(s, t, i, off, d) && Owned(t, 0, NDIRECT) && tot <= |d|
    requires i < |s.inodes| && off <= s.inodes[i].size && off + |d| <= MAXFILE * BSIZE
    ensures Stays(t, Grown(t, i, off + tot)) && forall j, k :: Loc(Grown(t, i, off + tot), j, k) == Loc(t, j, k)
  {
    GrownInv(s, t, i, off, d, tot);
    SameLocStays(t, Grown(t, i, off + tot));
  }

  /** writei(ip, src, off, n), of whose source only the first `avail` bytes can be read. `part` bytes more
      than the result are in the block where a copy failed. */
  method WriteI(fs: Fs, i: nat, off: nat, src: seq<int>, avail: nat) returns (r: int, ghost part: nat)
    requires FsInv(fs.View()) && i < |fs.inodes| && fs.dinodes == fs.inodes && off < U32 && |src| < U32
    modifies fs
    ensures FsInv(fs.View()) && |fs.inodes| == |old(fs.inodes)| && fs.dinodes == fs.inodes
    ensures r == -1 <==> off > old(fs.inodes)[i].size || off + |src| > MAXFILE * BSIZE
    ensures r == -1 ==> fs.View() == old(fs.View()) && fs.logged == old(fs.logged) && part == 0
    ensures r != -1 ==> 0 <= r && r + part <= |src| && Ends(fs.View(), i, off, |src|, avail, r, part)
    ensures r != -1 ==> Contents(fs.View(), i) == Counted(old(Contents(fs.View(), i)), off, src[..r + part], r)
    ensures r != -1 ==> Torn(old(fs.View()), fs.View(), i, off + r, src[r..r + part], old(fs.logged), fs.logged)
    ensures Whole(off, |src|, avail) ==> part == 0
    ensures r != -1 && part == 0 ==> Contents(fs.View(), i) == Overwrite(old(Contents(fs.View(), i)), off, src[..r])
    ensures part == 0 ==> Recorded(old(fs.View()), fs.View(), fs.logged)
    ensures r != -1 ==> IBlock(fs.sb, i) in fs.logged
    ensures fs.sb == old(fs.sb) && InodesLogged(fs.sb, old(fs.dinodes), fs.dinodes, fs.logged)
    ensures forall j: nat :: j < |fs.inodes| && j != i ==> Contents(fs.View(), j) == old(Contents(fs.View(), j))
    ensures |fs.logged - old(fs.logged)| <= Budget(off, |src|)
    ensures old(fs.logged) <= fs.logged && Stays(old(fs.View()), fs.View())
  {
    hide FsInv, Writing, Progress, Recorded, Torn, Stays, Contents, Overwrite, Counted, Budget, Loc, Ends, Whole, Full,
      InodesLogged;
    ghost var s, before := fs.View(), fs.logged;
    RecordedSelf(s, before);
    SameLocStays(s, s);
    SizeIs(s, i);
    part := 0;
    SameInodes(fs.sb, fs.dinodes, fs.logged);
    if off > fs.inodes[i].size || (off + |src|) % U32 < off { return -1, part; }
    if off + |src| > MAXFILE * BSIZE { return -1, part; }
    ghost var a;
    var tot;
    tot, part, a := WriteLoop(fs, i, off, src, avail);
    ghost var t, l := fs.View(), fs.logged;
    WritingInv(s, t, i, off, src[..tot + part], a, before, l);
    Finish(s, t, i, off, src[..tot + part], tot);
    GrownStays(s, t, i, off, src[..tot + part], tot);
    if off + tot > fs.inodes[i].size {
      fs.inodes := fs.inodes[i := fs.inodes[i].(size := off + tot)];
    }
    assert fs.View() == Grown(t, i, off + tot);
    fs.IUpdate(i);
    StaysOn(s, t, fs.View());
    NoInodeBlock(t, i, i, (off + tot) / BSIZE);
    TornLogs(s, t, fs.View(), i, off + tot, src[tot..tot + part], before, l, IBlock(fs.sb, i));
    TallyDone(s, t, i, off, src[..tot + part], a, |src|, before, l, IBlock(fs.sb, i));
    EndsSame(t, fs.View(), i, off, |src|, avail, tot, part);
    PlainEnd(s, fs.View(), i, off, src, tot, part, before, fs.logged);
    r := tot;
  }

  lemma SameInodes(sb: Super, ips: seq<Inode>, logged: set<nat>)
    ensures InodesLogged(sb, ips, ips, logged)
  {
  }

  lemma EndsSame(t: State, u: State, i: int, off: nat, n: nat, avail: nat, tot: nat, part: nat)
    requires Ends(t, i, off, n, avail, tot, part) && u.bits == t.bits && u.sb == t.sb
    requires Loc(u, i, (off + tot) / BSIZE) == Loc(t, i, (off + tot) / BSIZE)
    ensures Ends(u, i, off, n, avail, tot, part) && (Whole(off, n, avail) ==> part == 0)
  {
    WholeExactly(off, n, avail);
    hide Loc, Landed, Whole;
  }

  lemma PlainEnd(s: State, u: State, i: nat, off: nat, src: seq<int>, tot: nat,
      part: nat, before: set<nat>, logged: set<nat>)
    requires i < |s.inodes| && i < |u.inodes| && off <= |Contents(s, i)| && tot + part <= |src|
    requires Contents(u, i) == Counted(Contents(s, i), off, src[..tot + part], tot)
    requires Torn(s, u, i, off + tot, src[tot..tot + part], before, logged)
    ensures part == 0 ==> Contents(u, i) == Overwrite(Contents(s, i), off, src[..tot]) && Recorded(s, u, logged)
  {
    hide Contents, Overwrite, Counted, Torn, Recorded;
    if part == 0 {
      PlainCount(Contents(s, i), off, src[..tot]);
      TornNone(s, u, i, off + tot, src[tot..tot + part], before, logged);
    }
  }

  lemma PlainCount(c: seq<int>, off: nat, d: seq<int>)
    requires off <= |c|
    ensures Counted(c, off, d, |d|) == Overwrite(c, off, d)
  {
  }

  lemma TornNone(s: State, u: State, i: int, at: nat, c: seq<int>, before: set<nat>, logged: set<nat>)
    requires Torn(s, u, i, at, c, before, logged) && c == []
    ensures Recorded(s, u, logged)
  {
    hide Recorded, RecordedBut;
  }

  /** The block at a position of a file is not the block of an inode. */
  lemma NoInodeBlock(t: State, i: nat, j: nat, k: int)
    requires FsInv(t) && i < |t.inodes|
    ensures Loc(t, j, k) != IBlock(t.sb, i)
  {
    MetaBlocks(t, 0, i);
    assert Owns(t, 0, NDIRECT, j, k) && OwnedBack(t, 0, NDIRECT, Loc(t, j, k));
  }

  lemma TallyDone(s: State, t: State, i: nat, off0: nat, d: seq<int>, a: Tally,
      n: nat, before: set<nat>, logged: set<nat>, iblock: nat)
    requires Writing(s, t, i, off0, d, a, before, logged) && a.it <= Touched(off0, n)
    ensures |(logged + {iblock}) - before| <= Budget(off0, n)
  {
    TallyFits(a, s, t, i, off0, n, before, logged, iblock);
  }

  // ---------------------------------------------------------------- when a failing copy shows

  /** The bytes p, at `at`, are in the file c already as far as c reaches. */
  predicate Unseen(c: seq<int>, at: nat, p: seq<int>) { forall x :: 0 <= x < |p| && at + x < |c| ==> c[at + x] == p[x] }

  /** The file is overwritten by the bytes that count, and by nothing else, if and only if the others do not show. */
  lemma PlainExactly(c: seq<int>, off: nat, d: seq<int>, r: nat)
    requires off <= |c| && r <= |d|
    ensures Counted(c, off, d, r) == Overwrite(c, off, d[..r]) <==> Unseen(c, off + r, d[r..])
  {
    hide Counted, Overwrite;
    CountedAt(c, off, d, r);
    CountedAt(c, off, d[..r], r);
    PlainCount(c, off, d[..r]);
    var a, b := Counted(c, off, d, r), Counted(c, off, d[..r], r);
    if a == b {
      forall x | 0 <= x < |d[r..]| && off + r + x < |c| ensures c[off + r + x] == d[r..][x] {
        var o := off + r + x;
        assert a[o] == d[r + x] && b[o] == c[o];
      }
    }
    if Unseen(c, off + r, d[r..]) {
      forall o | 0 <= o < |a| ensures a[o] == b[o] {
        if off + r <= o < off + |d| && o < |c| {
          var x := o - off - r;
          assert c[off + r + x] == d[r..][x];
        }
      }
    }
  }

  /** A write of src for off to the file c of which `avail` bytes can be read, on a disk with room, is the plain one. */
  predicate Plain(c: seq<int>, off: nat, src: seq<int>, avail: nat) {
    var r := Landed(off, |src|, avail);
    Counted(c, off, src[..Min(avail, |src|)], r) == Overwrite(c, off, src[..r])
  }

  /** It is so for all files of a size and all bytes if and only if the copy fails at no place inside a block, or past
      the end of the file. */
  lemma PlainForAll(size: nat, off: nat, n: nat, avail: nat)
    requires off <= size
    ensures Whole(off, n, avail) || off + Landed(off, n, avail) >= size <==>
            forall c: seq<int>, src: seq<int> :: |c| == size && |src| == n ==> Plain(c, off, src, avail)
  {
    var r, k := Landed(off, n, avail), Min(avail, n);
    WholeExactly(off, n, avail);
    hide Landed, Counted, Overwrite;
    if r == k || off + r >= size {
      forall c: seq<int>, src: seq<int> | |c| == size && |src| == n ensures Plain(c, off, src, avail) {
        PlainExactly(c, off, src[..k], r);
        assert src[..k][..r] == src[..r];
      }
    } else {
      var c, src := seq(size, _ => 0), seq(n, _ => 1);
      PlainExactly(c, off, src[..k], r);
      assert c[off + r + 0] != src[..k][r..][0] && src[..k][..r] == src[..r];
      assert !Plain(c, off, src, avail);
    }
  }

  lemma OwnBlock(u: State, j: nat, k: int)
    requires FsInv(u) && Loc(u, j, k) != 0
    ensures u.sb.nmeta <= Loc(u, j, k) < u.sb.size && Loc(u, j, k) in u.owner && u.owner[Loc(u, j, k)] == (j, k)
    ensures Marked(u.bits, Loc(u, j, k)) && Allocated(u, Loc(u, j, k))
  {
    var b := Loc(u, j, k);
    assert Owns(u, 0, NDIRECT, j, k) && OwnedBack(u, 0, NDIRECT, b) && MarkOk(u, b) && Allocated(u, b);
  }

  lemma RecycledInv(s: State, u: State, i: nat, bn: nat)
    requires FsInv(u) && bn < MAXFILE && Loc(u, i, bn) == Loc(s, i, bn) != 0 && Allocated(s, Loc(s, i, bn))
    ensures var v := WithBlock(u, Loc(s, i, bn), s.blocks[Loc(s, i, bn)]);
            FsInv(v) && forall j, k :: Loc(v, j, k) == Loc(u, j, k)
  {
    var v := WithBlock(u, Loc(s, i, bn), s.blocks[Loc(s, i, bn)]);
    WriteOwned(u, i, bn, s.blocks[Loc(s, i, bn)]);
    forall j, x ensures NoHole(v, j, x) { assert NoHole(u, j, x); }
  }

  lemma RecycledByte(s: State, u: State, i: nat, bn: nat, o: nat)
    requires FsInv(u) && bn < MAXFILE && Loc(u, i, bn) == Loc(s, i, bn) != 0 && Allocated(s, Loc(s, i, bn))
    requires i < |u.inodes| && o < u.inodes[i].size
    ensures var v := WithBlock(u, Loc(s, i, bn), s.blocks[Loc(s, i, bn)]);
            ByteIn(v, i, o / BSIZE, o % BSIZE) == ByteIn(if o / BSIZE == bn then s else u, i, o / BSIZE, o % BSIZE)
  {
    RecycledInv(s, u, i, bn);
    assert Owns(u, 0, NDIRECT, i, o / BSIZE) && Owns(u, 0, NDIRECT, i, bn)
      && InodeOk(u.inodes[i]) && NoHole(u, i, o / BSIZE);
    hide FsInv, Loc;
  }

  lemma RecycledOther(s: State, u: State, i: nat, bn: nat, j: nat)
    requires FsInv(u) && bn < MAXFILE && Loc(u, i, bn) == Loc(s, i, bn) != 0 && Allocated(s, Loc(s, i, bn))
    requires j < |u.inodes| && j != i
    ensures Contents(WithBlock(u, Loc(s, i, bn), s.blocks[Loc(s, i, bn)]), j) == Contents(u, j)
  {
    RecycledInv(s, u, i, bn);
    var v := WithBlock(u, Loc(s, i, bn), s.blocks[Loc(s, i, bn)]);
    forall o: nat | o < u.inodes[j].size ensures Contents(v, j)[o] == Contents(u, j)[o] {
      assert Owns(u, 0, NDIRECT, j, o / BSIZE) && Owns(u, 0, NDIRECT, i, bn)
        && InodeOk(u.inodes[j]) && NoHole(u, j, o / BSIZE);
    }
    hide FsInv, Loc;
  }

  lemma RecycledFile(s: State, u: State, i: nat, off: nat, d: seq<int>, r: nat, bn: nat)
    requires FsInv(s) && FsInv(u) && i < |s.inodes| && i < |u.inodes|
    requires off <= s.inodes[i].size && bn == (off + r) / BSIZE
    requires r < |d| && off + |d| <= MAXFILE * BSIZE && (r == 0 || (off + r) % BSIZE == 0)
    requires (off + r) % BSIZE + |d| - r <= BSIZE
    requires bn < MAXFILE && Loc(u, i, bn) == Loc(s, i, bn) != 0 && Allocated(s, Loc(s, i, bn))
    requires Contents(u, i) == Counted(Contents(s, i), off, d, r)
    ensures var v := WithBlock(u, Loc(s, i, bn), s.blocks[Loc(s, i, bn)]);
            Contents(v, i) == Counted(Contents(s, i), off, d[..r], r)
  {
    SizeIs(s, i);
    SizeIs(u, i);
    hide FsInv, Counted, ByteIn, Loc;
    var v := WithBlock(u, Loc(s, i, bn), s.blocks[Loc(s, i, bn)]);
    var c, w := Contents(s, i), Contents(u, i);
    CountedAt(c, off, d[..r], r);
    CountedAt(c, off, d, r);
    forall o: nat | o < |w| ensures Contents(v, i)[o] == Counted(c, off, d[..r], r)[o] {
      assert w[o] == ByteIn(u, i, o / BSIZE, o % BSIZE);
      RecycledByte(s, u, i, bn, o);
    }
  }

  /** The bytes that do not count are in a buffer that was not logged: when it is recycled, the file is the
      plain one. */
  lemma Recycled(s: State, u: State, i: nat, off: nat, d: seq<int>, r: nat)
    requires FsInv(s) && FsInv(u) && Stays(s, u) && i < |s.inodes| == |u.inodes| && off <= s.inodes[i].size
    requires r < |d| && off + |d| <= MAXFILE * BSIZE && (r == 0 || (off + r) % BSIZE == 0)
    requires (off + r) % BSIZE + |d| - r <= BSIZE && Loc(s, i, (off + r) / BSIZE) != 0
    requires Contents(u, i) == Counted(Contents(s, i), off, d, r)
    ensures var a := Loc(s, i, (off + r) / BSIZE);
            && Allocated(s, a)
            && var v := WithBlock(u, a, s.blocks[a]);
            && FsInv(v) && Contents(v, i) == Overwrite(Contents(s, i), off, d[..r])
            && forall j: nat :: j < |u.inodes| && j != i ==> Contents(v, j) == Contents(u, j)
  {
    var bn := (off + r) / BSIZE;
    OwnBlock(s, i, bn);
    assert LocStays(s, u, i, bn);
    hide FsInv, Counted, Overwrite, Stays, Contents, Loc;
    RecycledInv(s, u, i, bn);
    RecycledFile(s, u, i, off, d, r, bn);
    SizeIs(s, i);
    PlainCount(Contents(s, i), off, d[..r]);
    var v := WithBlock(u, Loc(s, i, bn), s.blocks[Loc(s, i, bn)]);
    forall j: nat | j < |u.inodes| && j != i ensures Contents(v, j) == Contents(u, j) { RecycledOther(s, u, i, bn, j); }
  }
}
