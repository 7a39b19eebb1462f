/** File contents: a file as a sequence of bytes, what a write in progress has done to it, and readi. */
module FsFile {
  import opened Common
  import opened FsImage
  import opened FsState
  import opened FsCode

  /** Byte r of data block bn of inode i. */
  function ByteIn(s: State, i: int, bn: int, r: int): int {
    if Loc(s, i, bn) in s.blocks && 0 <= r < |s.blocks[Loc(s, i, bn)]| then s.blocks[Loc(s, i, bn)][r] else 0
  }

  /** The file inode i stands for. */
  ghost function Contents(s: State, i: nat): seq<int>
    requires i < |s.inodes|
  {
    seq(s.inodes[i].size, o => ByteIn(s, i, o / BSIZE, o % BSIZE))
  }

  // ---------------------------------------------------------------- a write in progress

  /** Where byte r of block bn stands once the bytes d have been written at off. */
  predicate Cell(s: State, t: State, i: int, off: int, d: seq<int>, bn: int, r: int) {
    var o := bn * BSIZE + r;
    if off <= o < off + |d| then Loc(t, i, bn) != 0 && ByteIn(t, i, bn, r) == d[o - off]
    else Loc(s, i, bn) != 0 ==> Loc(t, i, bn) != 0 && ByteIn(t, i, bn, r) == ByteIn(s, i, bn, r)
  }

  /** t is s with the bytes d written at off in inode i's blocks; the sizes are still the old ones. */
  ghost predicate Progress(s: State, t: State, i: int, off: int, d: seq<int>) {
    && t.sb == s.sb && |t.inodes| == |s.inodes|
    && (forall j :: 0 <= j < |s.inodes| ==> t.inodes[j].size == s.inodes[j].size)
    && (forall j, k :: j != i ==> Kept(s, t, j, k))
    && (forall bn, r :: 0 <= bn < MAXFILE && 0 <= r < BSIZE ==> Cell(s, t, i, off, d, bn, r))
    && (Loc(s, i, INDIRECT) != 0 ==> Loc(t, i, INDIRECT) == Loc(s, i, INDIRECT))
  }

  lemma ProgressExtends(s: State, t: State, u: State, i: int, off: int, d: seq<int>)
    requires Progress(s, t, i, off, d) && Extends(t, u) && Owned(t, 0, NDIRECT)
    ensures Progress(s, u, i, off, d)
  {
    forall j, k | j != i ensures Kept(s, u, j, k) { assert Kept(s, t, j, k) && Kept(t, u, j, k); }
    forall bn, r | 0 <= bn < MAXFILE && 0 <= r < BSIZE ensures Cell(s, u, i, off, d, bn, r) {
      assert Cell(s, t, i, off, d, bn, r) && Kept(t, u, i, bn) && Owns(t, 0, NDIRECT, i, bn)
        && OwnedBack(t, 0, NDIRECT, Loc(t, i, bn));
      assert Loc(t, i, bn) != 0 ==> Allocated(t, Loc(t, i, bn));
    }
    assert Kept(t, u, i, INDIRECT);
    forall j | 0 <= j < |s.inodes| ensures u.inodes[j].size == s.inodes[j].size {
      assert t.inodes[j].size == s.inodes[j].size;
    }
  }

  function WithBlock(t: State, b: int, d: Block): State { t.(blocks := t.blocks[b := d]) }

  lemma ProgressWrite(s: State, t: State, i: int, off: nat, d: seq<int>, bn: nat, r: nat, c: seq<int>)
    requires Progress(s, t, i, off, d) && Owned(t, 0, NDIRECT) && bn < MAXFILE && Loc(t, i, bn) != 0
    requires off + |d| == bn * BSIZE + r && r + |c| <= BSIZE
    ensures Allocated(t, Loc(t, i, bn))
    ensures Progress(s, WithBlock(t, Loc(t, i, bn), Patch(t.blocks[Loc(t, i, bn)], r, c)), i, off, d + c)
  {
    var b := Loc(t, i, bn);
    assert Owns(t, 0, NDIRECT, i, bn) && OwnedBack(t, 0, NDIRECT, b) && Allocated(t, b);
    var u := WithBlock(t, b, Patch(t.blocks[b], r, c));
    WriteOwned(t, i, bn, Patch(t.blocks[b], r, c));
    forall j, k | j != i ensures Kept(s, u, j, k) { assert Kept(s, t, j, k) && Owns(t, 0, NDIRECT, j, k); }
    forall x, y | 0 <= x < MAXFILE && 0 <= y < BSIZE ensures Cell(s, u, i, off, d + c, x, y) {
      assert Cell(s, t, i, off, d, x, y) && Owns(t, 0, NDIRECT, i, x);
    }
  }

  /** The file c with the bytes d at off: overwritten, and extended where they reach past the end; no write
      starts past it. */
  function Overwrite(c: seq<int>, off: nat, d: seq<int>): seq<int> {
    if off > |c| then c else c[..off] + d + if off + |d| < |c| then c[off + |d|..] else []
  }

  /** writei's last step: the size grows to what was written. */
  function Grown(t: State, i: nat, end: nat): State
    requires i < |t.inodes|
  {
    t.(inodes := t.inodes[i := t.inodes[i].(size := Max(t.inodes[i].size, end))])
  }

  lemma SameContents(s: State, u: State, j: nat)
    requires FsInv(s) && j < |s.inodes| == |u.inodes|
    requires u.inodes[j].size == s.inodes[j].size && forall k :: Kept(s, u, j, k)
    ensures Contents(u, j) == Contents(s, j)
  {
    assert InodeOk(s.inodes[j]);
    forall o | 0 <= o < s.inodes[j].size ensures Contents(u, j)[o] == Contents(s, j)[o] {
      assert Kept(s, u, j, o / BSIZE) && NoHole(s, j, o / BSIZE) && Owns(s, 0, NDIRECT, j, o / BSIZE)
        && OwnedBack(s, 0, NDIRECT, Loc(s, j, o / BSIZE));
      assert Allocated(s, Loc(s, j, o / BSIZE));
    }
  }

  lemma GrownInv(s: State, t: State, i: nat, off: nat, d: seq<int>, tot: nat)
    requires FsInv(s) && Progress(s, t, i, off, d) && Owned(t, 0, NDIRECT) && tot <= |d|
    requires i < |s.inodes| && off <= s.inodes[i].size && off + |d| <= MAXFILE * BSIZE
    ensures FsInv(Grown(t, i, off + tot))
    ensures forall j, k :: Loc(Grown(t, i, off + tot), j, k) == Loc(t, j, k)
  {
    assert InodeOk(t.inodes[i]);
    Resized(t, i, Max(t.inodes[i].size, off + tot));
    var u := Grown(t, i, off + tot);
    forall j, bn ensures NoHole(u, j, bn) {
      assert NoHole(s, j, bn);
      if j != i {
        assert Kept(s, t, j, bn);
      } else if 0 <= bn < MAXFILE {
        assert Cell(s, t, i, off, d, bn, 0);
      }
    }
  }

  /** The file c after a write at off that put the bytes d there and counts the first tot of them: what lies
      past the old end and was not counted is not part of the file. */
  function Counted(c: seq<int>, off: nat, d: seq<int>, tot: nat): seq<int>
    requires tot <= |d|
  {
    var w := Overwrite(c, off, d);
    if Max(|c|, off + tot) <= |w| then w[..Max(|c|, off + tot)] else w
  }

  lemma CountedAt(c: seq<int>, off: nat, d: seq<int>, tot: nat)
    requires off <= |c| && tot <= |d|
    ensures var r := Counted(c, off, d, tot);
            && |r| == Max(|c|, off + tot)
            && forall o :: 0 <= o < |r| ==> r[o] == if off <= o < off + |d| then d[o - off] else c[o]
  {
  }

  lemma FinishByte(s: State, t: State, u: State, i: nat, off: nat, d: seq<int>, o: nat)
    requires FsInv(s) && Progress(s, t, i, off, d) && i < |s.inodes| && off <= s.inodes[i].size
    requires off <= o < off + |d| || o < s.inodes[i].size
    requires o < MAXFILE * BSIZE && u.blocks == t.blocks && Loc(u, i, o / BSIZE) == Loc(t, i, o / BSIZE)
    ensures ByteIn(u, i, o / BSIZE, o % BSIZE)
         == if off <= o < off + |d| then d[o - off] else ByteIn(s, i, o / BSIZE, o % BSIZE)
  {
    assert Cell(s, t, i, off, d, o / BSIZE, o % BSIZE) && NoHole(s, i, o / BSIZE);
    hide FsInv, Progress, Loc;
  }

  lemma FinishFile(s: State, t: State, i: nat, off: nat, d: seq<int>, tot: nat)
    requires FsInv(s) && Progress(s, t, i, off, d) && Owned(t, 0, NDIRECT) && tot <= |d|
    requires i < |s.inodes| && off <= s.inodes[i].size && off + |d| <= MAXFILE * BSIZE
    ensures i < |t.inodes| && Contents(Grown(t, i, off + tot), i) == Counted(Contents(s, i), off, d, tot)
  {
    GrownInv(s, t, i, off, d, tot);
    SizeIs(s, i);
    assert t.inodes[i].size == s.inodes[i].size;
    hide FsInv, Owned, Progress, Counted, Loc, ByteIn;
    CountedAt(Contents(s, i), off, d, tot);
    var u, c := Grown(t, i, off + tot), Counted(Contents(s, i), off, d, tot);
    forall o: nat | o < |c| ensures Contents(u, i)[o] == c[o] { FinishByte(s, t, u, i, off, d, o); }
  }

  /** A write that has come to its end has changed one file and left the others alone. */
  lemma Finish(s: State, t: State, i: nat, off: nat, d: seq<int>, tot: nat)
    requires FsInv(s) && Progress(s, t, i, off, d) && Owned(t, 0, NDIRECT) && tot <= |d|
    requires i < |s.inodes| && off <= s.inodes[i].size && off + |d| <= MAXFILE * BSIZE
    ensures var u := Grown(t, i, off + tot);
            && FsInv(u) && |u.inodes| == |s.inodes| && Contents(u, i) == Counted(Contents(s, i), off, d, tot)
            && forall j: nat :: j < |s.inodes| && j != i ==> Contents(u, j) == Contents(s, j)
  {
    GrownInv(s, t, i, off, d, tot);
    FinishFile(s, t, i, off, d, tot);
    hide FsInv, Owned, Contents, Counted;
    var u := Grown(t, i, off + tot);
    forall j: nat | j < |s.inodes| && j != i ensures Contents(u, j) == Contents(s, j) {
      forall k ensures Kept(s, u, j, k) { assert Kept(s, t, j, k) && Loc(u, j, k) == Loc(t, j, k); }
      SameContents(s, u, j);
    }
  }

  // ---------------------------------------------------------------- the log budget

  /** How many blocks the bytes off..off+n-1 lie in. */
  function Touched(off: nat, n: nat): nat { if n == 0 then 0 else (off + n - 1) / BSIZE - off / BSIZE + 1 }

  /** These are the blocks that hold one of the bytes. */
  lemma TouchedExact(off: nat, n: nat, b: nat)
    ensures off / BSIZE <= b < off / BSIZE + Touched(off, n) <==>
            n > 0 && b * BSIZE < off + n && off < b * BSIZE + BSIZE
  {
  }

  /** How many of them can be new: the one before an unaligned start is not. */
  function Fresh(off: nat, n: nat): nat { if n == 0 || off % BSIZE == 0 then Touched(off, n) else Touched(off, n) - 1 }

  /** Data blocks, a free-map block for each new one, the indirect block and its free-map block, the inode block. */
  function Budget(off: nat, n: nat): nat { Touched(off, n) + Fresh(off, n) + 3 }

  /** filewrite's chunk size. */
  const CHUNK := (MAXOPBLOCKS - 1 - 1 - 2) / 2 * BSIZE

  /** A chunk fits in a transaction. */
  lemma ChunkFits(off: nat, n: nat)
    requires n <= CHUNK
    ensures Budget(off, n) <= MAXOPBLOCKS
  {
  }

  /** What a write has logged after `it` blocks: `news` of them were new. */
  datatype Tally = Tally(datas: set<nat>, maps: set<nat>, it: nat, news: nat)

  ghost predicate TallyOk(a: Tally, s: State, t: State, i: nat, off: nat, before: set<nat>, logged: set<nat>) {
    && logged <= before + a.datas + a.maps + Ind(t, i)
    && |a.datas| <= a.it
    && |a.maps| <= a.news + (if Loc(s, i, INDIRECT) == Loc(t, i, INDIRECT) then 0 else 1)
    && a.news <= a.it && (off % BSIZE != 0 && 0 < a.it ==> a.news < a.it)
  }

  /** One more block: addr is its address, maps the free-map blocks that bmap logged for it. */
  lemma TallyNext(a: Tally, s: State, t: State, u: State, i: nat, off: nat, bn: nat,
                  before: set<nat>, l: set<nat>, l': set<nat>, addr: nat, maps: set<nat>)
    requires TallyOk(a, s, t, i, off, before, l) && l' <= l + maps + {addr} + Ind(u, i)
    requires |maps| <= (if Loc(t, i, bn) == 0 then 1 else 0)
                       + (if Loc(t, i, INDIRECT) != Loc(u, i, INDIRECT) then 1 else 0)
    requires a.it == 0 && off % BSIZE != 0 ==> Loc(t, i, bn) != 0
    requires Loc(t, i, INDIRECT) != 0 ==> Loc(u, i, INDIRECT) == Loc(t, i, INDIRECT)
    requires Loc(s, i, INDIRECT) != 0 ==> Loc(t, i, INDIRECT) == Loc(s, i, INDIRECT)
    ensures var news := a.news + if Loc(t, i, bn) == 0 then 1 else 0;
            TallyOk(Tally(a.datas + {addr}, a.maps + maps, a.it + 1, news), s, u, i, off, before, l')
  {
    assert |a.datas + {addr}| <= |a.datas| + 1;
    SetSum(a.maps, maps);
  }

  lemma SetSum<T>(a: set<T>, b: set<T>)
    ensures |a + b| <= |a| + |b|
  {
    assert a + b == a + (b - a);
    assert |b - a| <= |b|;
  }

  /** Everything a write logged, the inode block included, fits its budget. */
  lemma TallyFits(a: Tally, s: State, t: State, i: nat, off: nat, n: nat,
      before: set<nat>, logged: set<nat>, iblock: nat)
    requires TallyOk(a, s, t, i, off, before, logged) && a.it <= Touched(off, n)
    ensures |(logged + {iblock}) - before| <= Budget(off, n)
  {
    var all := a.datas + a.maps + Ind(t, i) + {iblock};
    SetSum(a.datas, a.maps);
    SetSum(a.datas + a.maps, Ind(t, i));
    SetSum(a.datas + a.maps + Ind(t, i), {iblock});
    SubsetCount((logged + {iblock}) - before, all);
  }

  // ---------------------------------------------------------------- blocks that stay where they are

  predicate LocStays(s: State, t: State, j: int, k: int) { Loc(s, j, k) != 0 ==> Loc(t, j, k) == Loc(s, j, k) }

  /** No file loses a block or gets another one in its place. */
  ghost predicate Stays(s: State, t: State) { forall j, k :: LocStays(s, t, j, k) }

  lemma StaysOn(s: State, m: State, t: State)
    requires Stays(s, m) && Stays(m, t)
    ensures Stays(s, t)
  {
    forall j, k ensures LocStays(s, t, j, k) { assert LocStays(s, m, j, k) && LocStays(m, t, j, k); }
  }

  lemma ExtendsStays(s: State, t: State)
    requires Extends(s, t)
    ensures Stays(s, t)
  {
    forall j, k ensures LocStays(s, t, j, k) { assert Kept(s, t, j, k); }
  }

  lemma SameLocStays(s: State, t: State)
    requires forall j, k :: Loc(t, j, k) == Loc(s, j, k)
    ensures Stays(s, t)
  {
    forall j, k ensures LocStays(s, t, j, k) { assert Loc(t, j, k) == Loc(s, j, k); }
  }

  // ---------------------------------------------------------------- readi

  /** The bytes of a file that lie in one block are a slice of that block. */
  lemma SliceOf(s: State, i: nat, off: nat, m: nat)
    requires FsInv(s) && i < |s.inodes| && off + m <= s.inodes[i].size && 0 < m && off % BSIZE + m <= BSIZE
    ensures off / BSIZE < MAXFILE && Loc(s, i, off / BSIZE) != 0 && Allocated(s, Loc(s, i, off / BSIZE))
    ensures Contents(s, i)[off..off + m] == s.blocks[Loc(s, i, off / BSIZE)][off % BSIZE..off % BSIZE + m]
  {
    var bn := off / BSIZE;
    assert InodeOk(s.inodes[i]) && NoHole(s, i, bn) && Owns(s, 0, NDIRECT, i, bn)
      && OwnedBack(s, 0, NDIRECT, Loc(s, i, bn));
    assert Allocated(s, Loc(s, i, bn));
    var c := s.blocks[Loc(s, i, bn)][off % BSIZE..off % BSIZE + m];
    hide FsInv;
    forall x | 0 <= x < m ensures Contents(s, i)[off..off + m][x] == c[x] {
      assert (off + x) / BSIZE == bn && (off + x) % BSIZE == off % BSIZE + x;
    }
  }

  /** The body of readi's loop. */
  method ReadBlock(fs: Fs, i: nat, off: nat, m: nat) returns (c: seq<int>)
    requires FsInv(fs.View()) && i < |fs.inodes| && off + m <= fs.inodes[i].size && 0 < m && off % BSIZE + m <= BSIZE
    modifies fs`bits, fs`blocks, fs`inodes, fs`logged, fs`owner
    ensures fs.View() == old(fs.View()) && fs.logged == old(fs.logged)
    ensures c == Contents(fs.View(), i)[off..off + m]
  {
    SliceOf(fs.View(), i, off, m);
    hide FsInv, Contents, Extends;
    var addr;
    ghost var maps;
    addr, maps := fs.BMap(i, off / BSIZE);
    c := fs.blocks[addr][off % BSIZE..off % BSIZE + m];
  }

  /** The loop of readi. */
  method ReadLoop(fs: Fs, i: nat, off: nat, len: nat, room: nat) returns (r: int, dst: seq<int>)
    requires FsInv(fs.View()) && i < |fs.inodes| && off + len <= fs.inodes[i].size
    modifies fs`bits, fs`blocks, fs`inodes, fs`logged, fs`owner
    ensures fs.View() == old(fs.View()) && fs.logged == old(fs.logged)
    ensures r == if len <= room then len else -1
    ensures |Contents(fs.View(), i)| == fs.inodes[i].size && dst == Contents(fs.View(), i)[off..off + Min(room, len)]
  {
    hide FsInv, Contents;
    ghost var s := fs.View();
    ghost var file := Contents(s, i);
    SizeIs(s, i);
    dst := [];
    var tot := 0;
    while tot < len
      invariant 0 <= tot <= len && tot <= room && fs.View() == s && fs.logged == old(fs.logged)
      invariant dst == file[off..off + tot]
    {
      var m := Min(len - tot, BSIZE - (off + tot) % BSIZE);
      var c := ReadBlock(fs, i, off + tot, m);
      var k := Min(m, room - tot);
      Subslice(file, off + tot, m, k);
      Slices(file, off, off + tot, off + tot + k);
      dst := dst + c[..k];
      if k < m { return -1, dst; }
      tot := tot + m;
    }
    r := tot;
  }

  lemma Slices(f: seq<int>, a: nat, b: nat, c: nat)
    requires a <= b <= c <= |f|
    ensures f[a..b] + f[b..c] == f[a..c] && f[..b] + f[b..c] == f[..c]
  {
  }

  lemma Subslice(f: seq<int>, a: nat, n: nat, r: nat)
    requires r <= n && a + n <= |f|
    ensures f[a..a + n][..r] == f[a..a + r]
  {
  }

  /** readi(ip, dst, off, n), of whose destination only the first `room` bytes can be written: dst is what arrives
      there. Nothing else changes, so bmap never allocates. */
  method ReadI(fs: Fs, i: nat, off: nat, n: nat, room: nat) returns (r: int, dst: seq<int>)
    requires FsInv(fs.View()) && i < |fs.inodes| && off < U32 && n < U32
    modifies fs`bits, fs`blocks, fs`inodes, fs`logged, fs`owner
    ensures fs.View() == old(fs.View()) && fs.logged == old(fs.logged)
    ensures off > fs.inodes[i].size || off + n >= U32 ==> r == 0 && dst == []
    ensures off <= fs.inodes[i].size && off + n < U32 ==>
              var len := Min(n, fs.inodes[i].size - off);
              && |Contents(fs.View(), i)| == fs.inodes[i].size
              && dst == Contents(fs.View(), i)[off..off + Min(room, len)]
              && r == if len <= room then len else -1
  {
    if off > fs.inodes[i].size || (off + n) % U32 < off { return 0, []; }
    r, dst := ReadLoop(fs, i, off, Min(n, fs.inodes[i].size - off), room);
  }

  lemma SizeIs(s: State, i: nat)
    requires FsInv(s) && i < |s.inodes|
    ensures |Contents(s, i)| == s.inodes[i].size <= MAXFILE * BSIZE
  {
    assert InodeOk(s.inodes[i]);
  }
}
