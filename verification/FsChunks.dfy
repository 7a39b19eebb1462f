/** filewrite: a write in chunks, each a transaction of its own. */
module FsChunks {
  import opened Common
  import opened FsImage
  import opened FsState
  import opened FsCode
  import opened FsFile
  import opened FsWrite

  /** u is s after d went to off in file i, of which the first tot bytes count, and every other file is as it was. */
  ghost predicate Written(s: State, u: State, i: nat, off: nat, d: seq<int>, tot: nat) {
    && FsInv(u) && i < |s.inodes| == |u.inodes| && tot <= |d|
    && Contents(u, i) == Counted(Contents(s, i), off, d, tot)
    && forall j: nat :: j < |s.inodes| && j != i ==> Contents(u, j) == Contents(s, j)
  }

  lemma NothingWritten(s: State, i: nat, off: nat, src: seq<int>)
    requires FsInv(s) && i < |s.inodes|
    ensures Written(s, s, i, off, src[..0], 0)
  {
    var c := Contents(s, i);
    hide FsInv;
    assert Counted(c, off, src[..0], 0) == c;
  }

  lemma ChunkStart(s: State, u: State, i: nat, off: nat, src: seq<int>, done: nat)
    requires FsInv(s) && i < |s.inodes| && done <= |src|
    requires (off > s.inodes[i].size ==> done == 0) && Written(s, u, i, off, src[..done], done)
    ensures FsInv(u) && |u.inodes| == |s.inodes| && (off > s.inodes[i].size <==> off + done > u.inodes[i].size)
  {
    SizeIs(s, i);
    SizeIs(u, i);
    if off <= s.inodes[i].size { CountedAt(Contents(s, i), off, src[..done], done); }
  }

  /** p bytes more after a, of which r count. */
  lemma CountedOn(c: seq<int>, off: nat, src: seq<int>, a: nat, p: nat, r: nat)
    requires off <= |c| && a + p <= |src| && r <= p
    ensures Counted(Counted(c, off, src[..a], a), off + a, src[a..a + p], r) == Counted(c, off, src[..a + p], a + r)
  {
    hide Counted;
    var m := Counted(c, off, src[..a], a);
    CountedAt(c, off, src[..a], a);
    var x, y := Counted(m, off + a, src[a..a + p], r), Counted(c, off, src[..a + p], a + r);
    CountedAt(m, off + a, src[a..a + p], r);
    CountedAt(c, off, src[..a + p], a + r);
    forall o | 0 <= o < |x| ensures x[o] == y[o] {
      if off <= o < off + a {
        assert x[o] == m[o] == src[..a][o - off];
      } else if off + a <= o < off + a + p {
        assert x[o] == src[a..a + p][o - off - a];
      }
    }
  }

  lemma ChunkEnd(s: State, m: State, u: State, i: nat, off: nat, src: seq<int>, done: nat, n: nat, p: nat, r: nat)
    requires FsInv(s) && done + n <= |src| && r <= p <= n && Written(s, m, i, off, src[..done], done)
    requires off <= s.inodes[i].size && Written(m, u, i, off + done, src[done..done + n][..p], r)
    ensures Written(s, u, i, off, src[..done + p], done + r)
  {
    SizeIs(s, i);
    Subslice(src, done, n, p);
    CountedOn(Contents(s, i), off, src, done, p, r);
    hide FsInv, Contents, Counted;
  }

  lemma AsWritten(s: State, u: State, i: nat, off: nat, d: seq<int>, tot: nat)
    requires FsInv(u) && i < |s.inodes| == |u.inodes| && tot <= |d|
    requires Contents(u, i) == Counted(Contents(s, i), off, d, tot)
    requires forall j: nat :: j < |u.inodes| && j != i ==> Contents(u, j) == Contents(s, j)
    ensures Written(s, u, i, off, d, tot)
  {
    hide FsInv, Contents, Counted;
  }

  // ---------------------------------------------------------------- how far a write gets

  /** How many of n bytes for off are written if only the first `avail` of them can be read. */
  function FileLanded(off: nat, n: nat, avail: nat): (r: nat)
    ensures r <= Min(avail, n) && (r == n <==> n <= avail)
  {
    if n <= avail then n
    else var done := avail / CHUNK * CHUNK; done + Landed(off + done, Min(n - done, CHUNK), avail - done)
  }

  predicate FileWhole(off: nat, n: nat, avail: nat) { n <= avail || avail % CHUNK == 0 || (off + avail) % BSIZE == 0 }

  /** Bytes get into a block without being counted if and only if the first byte that cannot be read lies inside a block
      and inside a chunk. */
  lemma FileWholeExactly(off: nat, n: nat, avail: nat)
    ensures FileLanded(off, n, avail) == Min(avail, n) <==> FileWhole(off, n, avail)
  {
    hide Landed;
    var done := avail / CHUNK * CHUNK;
    Remainder(avail);
    if avail < n { WholeExactly(off + done, Min(n - done, CHUNK), avail - done); }
  }

  lemma Remainder(a: nat)
    ensures a % CHUNK == 0 <==> a / CHUNK * CHUNK == a
    ensures a - CHUNK < a / CHUNK * CHUNK <= a
  {
    assert CHUNK == 3072 && a == 3072 * (a / 3072) + a % 3072;
  }

  /** How a write of n bytes for off to file i ends: tot are written, and `part` more are in the block after
      them. It ends early where a copy fails, where the offset is past the end of the file, at the chunk that
      would reach past the largest size, or where there is no block and the disk is full. */
  ghost predicate FileEnds(u: State, i: int, size: nat, off: nat, n: nat, avail: nat, tot: nat, part: nat) {
    || (tot == FileLanded(off, n, avail) && part == Min(avail, n) - tot)
    || (&& part == 0 && tot < n && tot <= FileLanded(off, n, avail)
        && (|| off > size
            || (tot % CHUNK == 0 && off + tot + Min(n - tot, CHUNK) > MAXFILE * BSIZE)
            || (Full(u) && Loc(u, i, (off + tot) / BSIZE) == 0)))
  }

  /** The chunk after `done` bytes. */
  lemma ChunkLanded(off: nat, n: nat, avail: nat, k: nat, done: nat, r: nat)
    requires done == CHUNK * k && done < n && done <= avail
    requires r <= Landed(off + done, Min(n - done, CHUNK), avail - done)
    ensures done + r <= FileLanded(off, n, avail)
    ensures r == Landed(off + done, Min(n - done, CHUNK), avail - done) && r < Min(n - done, CHUNK) ==>
              done + r == FileLanded(off, n, avail) && avail < n
  {
    hide Landed;
    ChunkOf(avail, k, done);
  }

  lemma ChunkOf(avail: nat, k: nat, done: nat)
    requires done == CHUNK * k && done <= avail
    ensures avail < done + CHUNK ==> avail / CHUNK * CHUNK == done
    ensures avail >= done + CHUNK ==> avail / CHUNK * CHUNK >= done + CHUNK
    ensures done % CHUNK == 0
  {
    assert CHUNK == 3072;
    Divided(avail, k);
  }

  lemma Divided(a: nat, k: nat)
    requires 3072 * k <= a
    ensures a < 3072 * k + 3072 ==> a / 3072 == k
    ensures a >= 3072 * k + 3072 ==> a / 3072 >= k + 1
    ensures 3072 * k % 3072 == 0
  {
  }

  lemma ChunkEnds(u: State, i: int, size: nat, off: nat, n: nat, avail: nat, k: nat, done: nat, r: nat, part: nat)
    requires done == CHUNK * k && done < n && done <= avail && r < Min(n - done, CHUNK)
    requires Ends(u, i, off + done, Min(n - done, CHUNK), avail - done, r, part)
    ensures FileEnds(u, i, size, off, n, avail, done + r, part)
  {
    hide Landed, FileLanded, Loc, Full;
    ChunkLanded(off, n, avail, k, done, r);
  }

  lemma RangeEnds(u: State, i: int, size: nat, off: nat, n: nat, avail: nat, k: nat, done: nat)
    requires done == CHUNK * k && done < n && done <= avail && (off > size ==> done == 0)
    requires off > size || off + done + Min(n - done, CHUNK) > MAXFILE * BSIZE
    ensures FileEnds(u, i, size, off, n, avail, done + 0, 0)
  {
    hide Landed, FileLanded, Loc, Full;
    ChunkLanded(off, n, avail, k, done, 0);
    ChunkOf(avail, k, done);
  }

  // ---------------------------------------------------------------- the transactions

  /** Every transaction logged at most MAXOPBLOCKS blocks. */
  ghost predicate AllFit(txs: seq<set<nat>>) { forall k :: 0 <= k < |txs| ==> |txs[k]| <= MAXOPBLOCKS }

  lemma FitNext(txs: seq<set<nat>>, tx: set<nat>)
    requires AllFit(txs) && |tx| <= MAXOPBLOCKS
    ensures AllFit(txs + [tx])
  {
  }

  /** The k-th transaction logged all that it changed. */
  ghost predicate Logs(states: seq<State>, txs: seq<set<nat>>, k: int)
    requires |states| == |txs| + 1
  {
    0 <= k < |txs| ==> Recorded(states[k], states[k + 1], txs[k])
  }

  /** The k-th transaction logged the inodes that it changed. */
  ghost predicate LogsInodes(states: seq<State>, txs: seq<set<nat>>, k: int)
    requires |states| == |txs| + 1
  {
    0 <= k < |txs| ==> InodesLogged(states[k].sb, states[k].inodes, states[k + 1].inodes, txs[k])
  }

  /** The states between the transactions, all of which logged the inodes that they changed, and the first n of them all
      other blocks too. */
  ghost predicate Course(states: seq<State>, txs: seq<set<nat>>, s: State, u: State, n: int) {
    && |states| == |txs| + 1 && states[0] == s && states[|txs|] == u && n <= |txs|
    && (forall k :: k < n ==> Logs(states, txs, k))
    && forall k :: k < |txs| ==> LogsInodes(states, txs, k)
  }

  lemma CourseNext(states: seq<State>, txs: seq<set<nat>>, s: State, m: State, u: State, tx: set<nat>)
    requires Course(states, txs, s, m, |txs|) && InodesLogged(m.sb, m.inodes, u.inodes, tx)
    ensures Course(states + [u], txs + [tx], s, u, |txs|)
    ensures Recorded(m, u, tx) ==> Course(states + [u], txs + [tx], s, u, |txs| + 1)
  {
    hide Recorded, InodesLogged;
    forall k | k < |txs| + 1 ensures LogsInodes(states + [u], txs + [tx], k) {
      if k < |txs| { assert LogsInodes(states, txs, k); }
    }
    forall k | k < |txs| ensures Logs(states + [u], txs + [tx], k) { assert Logs(states, txs, k); }
    if Recorded(m, u, tx) { assert Logs(states + [u], txs + [tx], |txs|); }
  }

  /** A filewrite whose full chunks so far have put `done` bytes of src at off. */
  ghost predicate Filing(s: State, u: State, i: nat, off: nat, src: seq<int>, avail: nat, done: nat,
      states: seq<State>, txs: seq<set<nat>>) {
    && i < |s.inodes| && done <= |src| && done <= avail && Written(s, u, i, off, src[..done], done)
    && (off > s.inodes[i].size ==> done == 0) && off + done < U32
    && done == Min(CHUNK * |txs|, |src|) && AllFit(txs) && Course(states, txs, s, u, |txs|)
  }

  lemma FilingStarts(s: State, i: nat, off: nat, src: seq<int>, avail: nat)
    requires FsInv(s) && i < |s.inodes| && off < U32
    ensures Filing(s, s, i, off, src, avail, 0, [s], [])
  {
    hide FsInv, Written;
    NothingWritten(s, i, off, src);
  }

  /** A filewrite that has ended. */
  ghost predicate Filed(s: State, u: State, i: nat, off: nat, src: seq<int>, avail: nat, tot: nat, part: nat,
      states: seq<State>, txs: seq<set<nat>>) {
    && i < |s.inodes| && tot + part <= |src| && Written(s, u, i, off, src[..tot + part], tot)
    && FileEnds(u, i, s.inodes[i].size, off, |src|, avail, tot, part) && AllFit(txs)
    && Course(states, txs, s, u, |txs| - 1)
    && (|txs| > 0 ==> Torn(states[|txs| - 1], u, i, off + tot, src[tot..tot + part], {}, txs[|txs| - 1]))
  }

  lemma FilingDone(s: State, u: State, i: nat, off: nat, src: seq<int>,
      avail: nat, states: seq<State>, txs: seq<set<nat>>)
    requires Filing(s, u, i, off, src, avail, |src|, states, txs)
    ensures Filed(s, u, i, off, src, avail, |src|, 0, states, txs)
  {
    hide Written, Recorded, Loc, Full;
    assert src[..|src| + 0] == src[..|src|];
    if |txs| > 0 {
      assert Logs(states, txs, |txs| - 1);
      RecordedAll(states[|txs| - 1], u, i, off + |src|, src[|src|..|src| + 0], {}, txs[|txs| - 1]);
    }
  }

  lemma FilingNext(s: State, m: State, u: State, i: nat, off: nat, src: seq<int>, avail: nat, done: nat, n1: nat,
      states: seq<State>, txs: seq<set<nat>>, tx: set<nat>)
    requires Filing(s, m, i, off, src, avail, done, states, txs) && done < |src| && n1 == Min(|src| - done, CHUNK)
    requires |tx| <= MAXOPBLOCKS && Written(s, u, i, off, src[..done + n1], done + n1) && Recorded(m, u, tx)
    requires InodesLogged(m.sb, m.inodes, u.inodes, tx)
    requires off <= s.inodes[i].size && off + done + n1 <= MAXFILE * BSIZE && n1 <= avail - done
    ensures Filing(s, u, i, off, src, avail, done + n1, states + [u], txs + [tx])
  {
    hide Written, Recorded, Course, AllFit;
    FitNext(txs, tx);
    CourseNext(states, txs, s, m, u, tx);
  }

  lemma FilingStops(s: State, m: State, u: State, i: nat, off: nat,
      src: seq<int>, avail: nat, done: nat, r: nat, part: nat,
      states: seq<State>, txs: seq<set<nat>>, tx: set<nat>)
    requires Filing(s, m, i, off, src, avail, done, states, txs) && done < |src| && |tx| <= MAXOPBLOCKS
    requires done + r + part <= |src| && Written(s, u, i, off, src[..done + r + part], done + r)
    requires FileEnds(u, i, s.inodes[i].size, off, |src|, avail, done + r, part)
    requires Torn(m, u, i, off + done + r, src[done + r..done + r + part], {}, tx)
    requires InodesLogged(m.sb, m.inodes, u.inodes, tx)
    ensures Filed(s, u, i, off, src, avail, done + r, part, states + [u], txs + [tx])
  {
    hide Written, Recorded, AllFit, FileEnds, Torn;
    FitNext(txs, tx);
    CourseNext(states, txs, s, m, u, tx);
  }

  lemma FilingAt(s: State, u: State, i: nat, off: nat, src: seq<int>, avail: nat, done: nat,
      states: seq<State>, txs: seq<set<nat>>)
    requires Filing(s, u, i, off, src, avail, done, states, txs)
    ensures i < |s.inodes| && done <= |src| && done <= avail && Written(s, u, i, off, src[..done], done)
    ensures (off > s.inodes[i].size ==> done == 0) && off + done < U32
    ensures done < |src| ==> done == CHUNK * |txs|
  {
    hide Written, Course, AllFit;
  }

  lemma Slice(f: seq<int>, a: nat, n: nat, b: nat, c: nat)
    requires b <= c <= n && a + n <= |f|
    ensures f[a..a + n][b..c] == f[a + b..a + c]
  {
    var g, h := f[a..a + n][b..c], f[a + b..a + c];
    assert forall x :: 0 <= x < |g| ==> g[x] == h[x];
  }

  lemma NotStarted(s: State, i: nat, at: nat, tx: set<nat>)
    ensures Torn(s, s, i, at, [], {}, tx)
  {
    hide Loc, Recorded;
    RecordedSelf(s, tx);
    RecordedAll(s, s, i, at, [], {}, tx);
  }

  lemma NoBytes(src: seq<int>, done: nat)
    requires done <= |src|
    ensures src[done + 0..done + 0 + 0] == [] && src[..done + 0 + 0] == src[..done]
  {
  }

  lemma ChunkRefused(s: State, m: State, i: nat, off: nat, src: seq<int>, avail: nat, done: nat,
      states: seq<State>, txs: seq<set<nat>>, tx: set<nat>)
    requires Filing(s, m, i, off, src, avail, done, states, txs) && done < |src| && |tx| <= MAXOPBLOCKS
    requires off > s.inodes[i].size || off + done + Min(|src| - done, CHUNK) > MAXFILE * BSIZE
    ensures Filed(s, m, i, off, src, avail, done, 0, states + [m], txs + [tx])
  {
    hide Filing, Filed, FileEnds, Torn, Written, InodesLogged;
    FilingAt(s, m, i, off, src, avail, done, states, txs);
    NotStarted(m, i, off + done, tx);
    SameInodes(m.sb, m.inodes, tx);
    RangeEnds(m, i, s.inodes[i].size, off, |src|, avail, |txs|, done);
    NoBytes(src, done);
    FilingStops(s, m, m, i, off, src, avail, done, 0, 0, states, txs, tx);
  }

  lemma ChunkStops(s: State, m: State, u: State, i: nat, off: nat,
      src: seq<int>, avail: nat, done: nat, n1: nat, r: nat,
      part: nat, states: seq<State>, txs: seq<set<nat>>, tx: set<nat>)
    requires Filing(s, m, i, off, src, avail, done, states, txs) && done < |src| && |tx| <= MAXOPBLOCKS
    requires n1 == Min(|src| - done, CHUNK) && r < n1 && r + part <= n1 && done <= avail
    requires Written(s, u, i, off, src[..done + (r + part)], done + r)
    requires Ends(u, i, off + done, n1, avail - done, r, part)
    requires Torn(m, u, i, off + done + r, src[done..done + n1][r..r + part], {}, tx)
    requires InodesLogged(m.sb, m.inodes, u.inodes, tx)
    ensures Filed(s, u, i, off, src, avail, done + r, part, states + [u], txs + [tx])
  {
    hide Filed, FileEnds, Torn, Written, Ends;
    FilingAt(s, m, i, off, src, avail, done, states, txs);
    hide Filing;
    Slice(src, done, n1, r, r + part);
    ChunkEnds(u, i, s.inodes[i].size, off, |src|, avail, |txs|, done, r, part);
    FilingStops(s, m, u, i, off, src, avail, done, r, part, states, txs, tx);
  }

  /** One transaction of filewrite: n1 bytes more, after `done`. */
  method WriteChunk(fs: Fs, ghost s: State, i: nat, off: nat, src: seq<int>, avail: nat, done: nat, n1: nat,
      ghost states: seq<State>, ghost txs: seq<set<nat>>)
    returns (r: int, ghost part: nat)
    requires FsInv(s) && i < |s.inodes| == |fs.inodes| && fs.dinodes == fs.inodes && done < |src| < U32
    requires Filing(s, fs.View(), i, off, src, avail, done, states, txs) && n1 == Min(|src| - done, CHUNK)
    modifies fs
    ensures |fs.inodes| == |s.inodes| && fs.dinodes == fs.inodes && -1 <= r <= n1 && |fs.logged| <= MAXOPBLOCKS
    ensures r == n1 ==>
      part == 0 && Filing(s, fs.View(), i, off, src, avail, done + n1, states + [fs.View()], txs + [fs.logged])
    ensures r != n1 ==>
      Filed(s, fs.View(), i, off, src, avail, done + Max(r, 0), part, states + [fs.View()], txs + [fs.logged])
  {
    hide FsInv, Budget, Contents, Overwrite, Counted, Full, Touched, Written,
        Filing, Filed, Recorded, Torn, Landed, FileEnds, Loc, InodesLogged;
    ghost var m := fs.View();
    FilingAt(s, m, i, off, src, avail, done, states, txs);
    ChunkStart(s, m, i, off, src, done);
    ChunkFits(off + done, n1);
    fs.logged := {};
    r, part := WriteI(fs, i, off + done, src[done..done + n1], avail - done);
    ghost var u := fs.View();
    assert u.sb == m.sb && InodesLogged(m.sb, m.inodes, u.inodes, fs.logged);
    if r == -1 {
      ChunkRefused(s, m, i, off, src, avail, done, states, txs, fs.logged);
      return;
    }
    AsWritten(m, u, i, off + done, src[done..done + n1][..r + part], r);
    ChunkEnd(s, m, u, i, off, src, done, n1, r + part, r);
    if r == n1 {
      FilingNext(s, m, u, i, off, src, avail, done, n1, states, txs, fs.logged);
    } else {
      ChunkStops(s, m, u, i, off, src, avail, done, n1, r, part, states, txs, fs.logged);
    }
  }

  /** filewrite(f, addr, n) on an inode, of whose source only the first `avail` bytes can be read; end is the
      new f->off. Each chunk is one transaction: its set of logged blocks is in txs, and the states around it
      are in states. */
  method FileWrite(fs: Fs, i: nat, off: nat, src: seq<int>, avail: nat)
    returns (ret: int, end: nat, ghost part: nat, ghost states: seq<State>, ghost txs: seq<set<nat>>)
    requires FsInv(fs.View()) && i < |fs.inodes| && fs.dinodes == fs.inodes && off < U32 && |src| < 0x8000_0000
    modifies fs
    ensures |fs.inodes| == |old(fs.inodes)| && fs.dinodes == fs.inodes
    ensures off <= end <= off + |src| && ret == (if end == off + |src| then |src| else -1)
    ensures Filed(old(fs.View()), fs.View(), i, off, src, avail, end - off, part, states, txs)
  {
    hide FsInv, Written, Filing, Filed;
    ghost var s := fs.View();
    part, states, txs := 0, [s], [];
    FilingStarts(s, i, off, src, avail);
    var done := 0;
    while done < |src|
      invariant 0 <= done <= |src| && Filing(s, fs.View(), i, off, src, avail, done, states, txs)
      invariant |fs.inodes| == |s.inodes| && fs.dinodes == fs.inodes && part == 0
    {
      var n1 := Min(|src| - done, CHUNK);
      FilingAt(s, fs.View(), i, off, src, avail, done, states, txs);
      var r;
      r, part := WriteChunk(fs, s, i, off, src, avail, done, n1, states, txs);
      states, txs := states + [fs.View()], txs + [fs.logged];
      if r != n1 { return -1, off + done + Max(r, 0), part, states, txs; }
      done := done + r;
    }
    FilingDone(s, fs.View(), i, off, src, avail, states, txs);
    return |src|, off + done, part, states, txs;
  }

  lemma WholeEnds(u: State, i: int, size: nat, off: nat, n: nat, avail: nat, tot: nat, part: nat)
    requires FileEnds(u, i, size, off, n, avail, tot, part) && FileWhole(off, n, avail)
    ensures part == 0
  {
    hide FileLanded, FileWhole, Loc, Full;
    FileWholeExactly(off, n, avail);
  }

  lemma PlainFile(c: seq<int>, off: nat, d: seq<int>)
    ensures Counted(c, off, d, |d|) == Overwrite(c, off, d)
  {
    if off <= |c| { PlainCount(c, off, d); }
  }

  /** A filewrite whose copy does not fail inside a block and a chunk is the plain one, and logs all that it changes. */
  lemma WholeFiled(s: State, u: State, i: nat, off: nat, src: seq<int>, avail: nat, tot: nat, part: nat,
      states: seq<State>, txs: seq<set<nat>>)
    requires Filed(s, u, i, off, src, avail, tot, part, states, txs) && FileWhole(off, |src|, avail)
    ensures part == 0 && i < |u.inodes| && Course(states, txs, s, u, |txs|)
    ensures Contents(u, i) == Overwrite(Contents(s, i), off, src[..tot])
  {
    hide FileEnds, FileLanded, FileWhole, Recorded, Contents, Counted, Overwrite, Loc, Full, FsInv, Torn, AllFit;
    WholeEnds(u, i, s.inodes[i].size, off, |src|, avail, tot, part);
    assert src[..tot + part] == src[..tot];
    PlainFile(Contents(s, i), off, src[..tot]);
    if |txs| > 0 {
      TornNone(states[|txs| - 1], u, i, off + tot, src[tot..tot + part], {}, txs[|txs| - 1]);
      forall k | k < |txs| ensures Logs(states, txs, k) { if k < |txs| - 1 { assert Logs(states, txs, k); } }
    }
  }
}
