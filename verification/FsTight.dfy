/** filewrite's transaction bound is tight: a file system image on which a chunk's write logs MAXOPBLOCKS blocks. */
module FsTight {
  import opened Common
  import opened FsImage
  import opened FsState
  import opened FsCode
  import opened FsFile
  import opened FsWrite

  /** Eleven free-map blocks, from block 600 on; inodes from block 32 on. */
  const SB := Super(11 * BPB, 1000, 11 * BPB / NDIRECT, 32, 600)

  /** The free blocks: the last one of each free-map block. */
  predicate Spare(b: int) { b % BPB == BPB - 1 }

  const OFF := 11 * BSIZE + 1

  /** File 0 ends one byte into its last direct block, there is one free block for each free-map block, and
      all data are zeros. */
  ghost predicate Worst(s: State) {
    && FsInv(s) && s.sb == SB && |s.inodes| > 0 && s.inodes[0].size == OFF && Loc(s, 0, INDIRECT) == 0
    && (forall b :: s.sb.nmeta <= b < s.sb.size ==> b in s.blocks && s.blocks[b] == Zeros(BSIZE))
    && forall b: nat :: b < s.sb.size ==> (Marked(s.bits, b) <==> !Spare(b))
  }

  // ---------------------------------------------------------------- there is such an image

  predicate Owner(b: int) { SB.nmeta <= b < SB.size && !Spare(b) }

  /** Inode j has the twelve data blocks from nmeta + 12 * j on, but for the spare ones. */
  function Direct(j: int, k: int): nat {
    var b := SB.nmeta + NDIRECT * j + k;
    if 0 <= j && 0 <= k < NDIRECT && Owner(b) then b else 0
  }

  lemma MapBits(b: nat)
    requires b < SB.size
    ensures var j := ByteOf(b);
            && j < 11 * BSIZE && (Spare(b) <==> j % BSIZE == BSIZE - 1 && b % 8 == 7)
  {
  }

  lemma AllBits(k: int)
    requires 0 <= k < 8
    ensures Bit(0xff, k) && (Bit(0x7f, k) <==> k != 7)
  {
  }

  function Bits(): seq<bv8> { seq(11 * BSIZE, i => if i % BSIZE == BSIZE - 1 then 0x7f as bv8 else 0xff as bv8) }

  function File(j: int): Inode { Inode(if j == 0 then OFF else 0, seq(NDIRECT + 1, k requires 0 <= k => Direct(j, k))) }

  function Owners(): map<int, (int, int)> {
    map b: int | SB.nmeta <= b < SB.size && Owner(b) :: ((b - SB.nmeta) / NDIRECT, (b - SB.nmeta) % NDIRECT)
  }

  function Image(): State {
    State(SB, Bits(), Blank(SB.size), seq(SB.size / NDIRECT, j requires 0 <= j => File(j)), Owners())
  }

  lemma LocIs(i: int, k: int)
    ensures Loc(Image(), i, k) == if 0 <= i < SB.size / NDIRECT then Direct(i, k) else 0
  {
    hide Blank, Bits, Owners;
    assert 0 <= i < SB.size / NDIRECT ==> Image().inodes[i] == File(i);
  }

  lemma DirectOwner(i: int, k: int)
    requires Direct(i, k) != 0
    ensures Owner(Direct(i, k)) && (Direct(i, k) - SB.nmeta) / NDIRECT == i && (Direct(i, k) - SB.nmeta) % NDIRECT == k
  {
  }

  lemma OwnerDirect(b: int)
    requires Owner(b)
    ensures var i, k := (b - SB.nmeta) / NDIRECT, (b - SB.nmeta) % NDIRECT;
            0 <= i < SB.size / NDIRECT && 0 <= k < NDIRECT && Direct(i, k) == b
  {
  }

  lemma MarkIs(b: nat)
    requires b < SB.size
    ensures Marked(Bits(), b) <==> !Spare(b)
  {
    MapBits(b);
    AllBits(b % 8);
    hide Bit, ByteOf;
  }

  lemma ImageShape()
    ensures Shape(Image())
  {
    var s := Image();
    forall b | 0 <= b < s.sb.size ensures Allocated(s, b) { }
    forall i | 0 <= i < |s.inodes| ensures InodeOk(s.inodes[i]) { assert s.inodes[i] == File(i); }
    hide Owners, Direct, Blank;
  }

  lemma ImageOwned(i: int, k: int, b: int)
    ensures var s := Image();
            Owns(s, 0, NDIRECT, i, k) && OwnedBack(s, 0, NDIRECT, b) && MarkOk(s, b) && NoHole(s, i, k)
  {
    LocIs(i, k);
    if Direct(i, k) != 0 { DirectOwner(i, k); }
    if Owner(b) {
      OwnerDirect(b);
      LocIs((b - SB.nmeta) / NDIRECT, (b - SB.nmeta) % NDIRECT);
    }
    if 0 <= b < SB.size { MarkIs(b); }
    hide Blank, Bits, Loc, Marked;
    var s := Image();
    assert 0 <= i < |s.inodes| ==> s.inodes[i] == File(i);
    hide Image;
  }

  lemma ImageInv()
    ensures FsInv(Image())
  {
    hide Image, Owns, OwnedBack, MarkOk, NoHole, Shape;
    ImageShape();
    forall i, k ensures Owns(Image(), 0, NDIRECT, i, k) && NoHole(Image(), i, k) { ImageOwned(i, k, 0); }
    forall b ensures OwnedBack(Image(), 0, NDIRECT, b) && MarkOk(Image(), b) { ImageOwned(0, 0, b); }
  }

  /** The image of a file system that satisfies the invariant and is as bad as can be. */
  lemma WorstImage() returns (s: State)
    ensures Worst(s)
  {
    hide FsInv, Bits, Owners, Loc, Marked;
    ImageInv();
    LocIs(0, INDIRECT);
    s := Image();
    assert s.inodes[0] == File(0);
    forall b: nat | b < SB.size ensures Marked(s.bits, b) <==> !Spare(b) { MarkIs(b); }
  }

  // ---------------------------------------------------------------- what a write of a chunk must log there

  /** u is s after the bytes src, none of them zero, went to OFF in file 0; `logged` is what was logged. */
  ghost predicate After(s: State, u: State, src: seq<int>, logged: set<nat>) {
    && Worst(s) && FsInv(u) && |u.inodes| == |s.inodes| && Recorded(s, u, logged) && Stays(s, u) && |src| == CHUNK
    && (forall x :: 0 <= x < |src| ==> src[x] != 0) && Contents(u, 0) == Overwrite(Contents(s, 0), OFF, src)
  }

  /** Data blocks 11 to 14 of the file hold bytes of src, so they have changed and have been logged. */
  lemma DataLogged(s: State, u: State, src: seq<int>, logged: set<nat>, bn: int)
    requires After(s, u, src, logged) && 11 <= bn <= 14
    ensures Loc(u, 0, bn) != 0 && Loc(u, 0, bn) in logged
  {
    var r := if bn == 11 then 1 else 0;
    var o := bn * BSIZE + r;
    SizeIs(s, 0);
    SizeIs(u, 0);
    assert o / BSIZE == bn && o % BSIZE == r && OFF <= o < OFF + |src|;
    assert Contents(u, 0)[o] == src[o - OFF];
    assert NoHole(u, 0, bn);
    var b := Loc(u, 0, bn);
    OwnBlock(u, 0, bn);
    assert u.blocks[b][r] != 0 && Zeros(BSIZE)[r] == 0;
    assert BlockLogged(s, u, logged, b);
    hide FsInv, Contents, Overwrite;
  }

  /** So has the indirect block, which lists block 12. */
  lemma IndirectLogged(s: State, u: State, src: seq<int>, logged: set<nat>)
    requires After(s, u, src, logged)
    ensures Loc(u, 0, INDIRECT) != 0 && Loc(u, 0, INDIRECT) in logged
  {
    DataLogged(s, u, src, logged, 12);
    var a := Loc(u, 0, INDIRECT);
    OwnBlock(u, 0, INDIRECT);
    assert Word(u.blocks[a], 0) != 0 && Word(Zeros(BSIZE), 0) == 0;
    assert BlockLogged(s, u, logged, a);
    hide FsInv, Contents, Overwrite;
  }

  /** A block that a file had is where it was. */
  lemma StaysOwned(s: State, u: State, b: nat)
    requires FsInv(s) && FsInv(u) && Stays(s, u) && |u.inodes| == |s.inodes| && b in s.owner
    ensures b in u.owner && u.owner[b] == s.owner[b] && Loc(s, s.owner[b].0, s.owner[b].1) == b != 0
  {
    var (j, k) := s.owner[b];
    assert OwnedBack(s, 0, NDIRECT, b) && LocStays(s, u, j, k) && Owns(u, 0, NDIRECT, j, k);
  }

  /** A block at a position that was empty was free, and its free-map block has been logged. */
  lemma MapLogged(s: State, u: State, src: seq<int>, logged: set<nat>, k: int)
    requires After(s, u, src, logged) && Loc(s, 0, k) == 0 && Loc(u, 0, k) != 0
    ensures Spare(Loc(u, 0, k)) && Loc(u, 0, k) / BPB + 600 in logged
  {
    var b := Loc(u, 0, k);
    OwnBlock(u, 0, k);
    if b in s.owner {
      StaysOwned(s, u, b);
      assert false;
    }
    assert Owned(s, 0, NDIRECT) && MarkOk(s, b) && BitLogged(s, u, logged, b);
    hide FsInv, Contents, Overwrite;
  }

  /** The disk is not full: that would take more free-map blocks than a write may log. */
  lemma NotFull(s: State, u: State, logged: set<nat>)
    requires Worst(s) && Recorded(s, u, logged) && Full(u) && u.sb == s.sb
    ensures |logged| > MAXOPBLOCKS
  {
    forall k | k in Interval(600, 611) ensures k in logged {
      var b := (k - 600) * BPB + BPB - 1;
      assert b < SB.size && Spare(b) && b / BPB == k - 600;
      assert Marked(u.bits, b) && !Marked(s.bits, b);
      assert BitLogged(s, u, logged, b);
    }
    IntervalCount(600, 611);
    SubsetCount(Interval(600, 611), logged);
  }

  /** The ten blocks: the inode's, five with changed bytes, four of the free map. */
  lemma TenBlocks(s: State, u: State, src: seq<int>, logged: set<nat>)
    requires After(s, u, src, logged) && IBlock(SB, 0) in logged
    ensures |logged| >= MAXOPBLOCKS
  {
    hide After, FsInv, Contents, Overwrite, Recorded, Stays, Worst, Owned, Loc;
    At(s, u, src, logged, 11);
    At(s, u, src, logged, 12);
    At(s, u, src, logged, 13);
    At(s, u, src, logged, 14);
    At(s, u, src, logged, INDIRECT);
    CountTen(Loc(u, 0, 11), Loc(u, 0, 12), Loc(u, 0, 13), Loc(u, 0, 14), Loc(u, 0, INDIRECT), logged);
  }

  lemma Empty(s: State, k: int)
    requires Worst(s)
    ensures s.sb == SB && (12 <= k <= 14 || k == INDIRECT ==> Loc(s, 0, k) == 0)
  {
  }

  /** What is logged for the block at position k. */
  lemma At(s: State, u: State, src: seq<int>, logged: set<nat>, k: int)
    requires After(s, u, src, logged) && (11 <= k <= 14 || k == INDIRECT)
    ensures var b := Loc(u, 0, k);
            && b in logged && Data(b) && b in u.owner && u.owner[b] == (0, k)
            && (k != 11 ==> Spare(b) && b / BPB + 600 in logged)
  {
    hide Contents, Overwrite, Stays, Owned, FsInv;
    if k == INDIRECT { IndirectLogged(s, u, src, logged); } else { DataLogged(s, u, src, logged, k); }
    OwnBlock(u, 0, k);
    Empty(s, k);
    if k != 11 { MapLogged(s, u, src, logged, k); }
  }

  predicate Data(b: nat) { SB.nmeta <= b < SB.size }

  /** Five different blocks above the metadata, four of them spare, the spare ones' free-map blocks and block 32. */
  lemma CountTen(d0: nat, d1: nat, d2: nat, d3: nat, a: nat, logged: set<nat>)
    requires |{d0, d1, d2, d3, a}| == 5 && Data(d0) && Data(d1) && Data(d2) && Data(d3) && Data(a)
    requires {d0, d1, d2, d3, a} <= logged && Spare(d1) && Spare(d2) && Spare(d3) && Spare(a)
    requires {d1 / BPB + 600, d2 / BPB + 600, d3 / BPB + 600, a / BPB + 600, 32} <= logged
    ensures |logged| >= 10
  {
    var data := {d0, d1, d2, d3, a};
    var meta := {d1 / BPB + 600, d2 / BPB + 600, d3 / BPB + 600, a / BPB + 600, 32};
    assert |meta| == 5;
    assert forall x :: x in meta ==> x < SB.nmeta;
    assert data !! meta;
    assert |data + meta| == 10;
    SubsetCount(data + meta, logged);
  }

  /** A write of a chunk that no copy stops: it writes everything, and logs as many blocks as one operation may. */
  method TightWrite(fs: Fs, src: seq<int>) returns (r: int)
    requires Worst(fs.View()) && fs.dinodes == fs.inodes && fs.logged == {}
    requires |src| == CHUNK && forall x :: 0 <= x < |src| ==> src[x] != 0
    modifies fs
    ensures r == CHUNK && |fs.logged| == MAXOPBLOCKS
  {
    hide FsInv, Contents, Overwrite, Counted, Recorded, Stays, Owned, Torn, Ends, Worst, Whole;
    ghost var s := fs.View();
    Fits(s);
    ghost var part: nat;
    r, part := WriteI(fs, 0, OFF, src, CHUNK);
    AllLands(s, fs.View(), r, part, fs.logged);
    assert src[..CHUNK] == src;
    assert After(s, fs.View(), src, fs.logged);
    TenBlocks(s, fs.View(), src, fs.logged);
  }

  lemma Fits(s: State)
    requires Worst(s)
    ensures FsInv(s) && |s.inodes| > 0 && s.sb == SB && s.inodes[0].size == OFF && OFF + CHUNK <= MAXFILE * BSIZE
    ensures Whole(OFF, CHUNK, CHUNK) && Budget(OFF, CHUNK) == MAXOPBLOCKS
  {
  }

  lemma AllLands(s: State, u: State, r: int, part: nat, logged: set<nat>)
    requires Worst(s) && Recorded(s, u, logged) && r >= 0 && Ends(u, 0, OFF, CHUNK, CHUNK, r, part)
    requires |logged| <= MAXOPBLOCKS
    ensures r == CHUNK && u.sb == SB
  {
    if r < CHUNK { NotFull(s, u, logged); }
    hide Loc;
  }

  // ---------------------------------------------------------------- a copy that fails inside a block

  /** A write of one block of ones to the start of that file, of whose source only 100 bytes can be read:
      nothing counts, and yet the file is changed, and nothing of that is logged. */
  method TornWrite(fs: Fs) returns (r: int)
    requires Worst(fs.View()) && fs.dinodes == fs.inodes && fs.logged == {}
    modifies fs
    ensures r == 0 && |fs.inodes| == |old(fs.inodes)| > 0 && Contents(fs.View(), 0) != old(Contents(fs.View(), 0))
    ensures !Recorded(old(fs.View()), fs.View(), fs.logged)
  {
    ghost var s := fs.View();
    var src := seq(BSIZE, _ => 1);
    ghost var part: nat;
    r, part := WriteI(fs, 0, 0, src, 100);
    TornThere(s, fs.View(), r, part);
    TornShows(s, src);
  }

  /** The first block is there, so it is the copy that fails. */
  lemma TornThere(s: State, u: State, r: int, part: nat)
    requires Worst(s) && Stays(s, u) && r >= 0 && Ends(u, 0, 0, BSIZE, 100, r, part)
    ensures r == 0 && part == 100
  {
    assert NoHole(s, 0, 0) && LocStays(s, u, 0, 0);
    hide FsInv, Loc, Full;
  }

  lemma TornShows(s: State, src: seq<int>)
    requires Worst(s) && src == seq(BSIZE, _ => 1)
    ensures Counted(Contents(s, 0), 0, src[..100], 0) != Contents(s, 0) && !Harmless(s, 0, 0, src[0..100], {})
  {
    assert NoHole(s, 0, 0);
    OwnBlock(s, 0, 0);
    SizeIs(s, 0);
    CountedAt(Contents(s, 0), 0, src[..100], 0);
    hide FsInv, Loc, Counted;
    assert Contents(s, 0)[0] == ByteIn(s, 0, 0, 0) == 0;
    assert s.blocks[Loc(s, 0, 0)][0..100][0] != src[0..100][0];
  }
}
