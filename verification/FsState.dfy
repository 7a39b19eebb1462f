/** The file system's blocks, inodes and free map, and the invariant that ties them together. */
module FsState {
  import opened FsImage

  const IPB := 16

  /** size: blocks on the disk; the first nmeta of them are boot block, super block, log, inodes and free map. */
  datatype Super = Super(size: nat, nmeta: nat, ninodes: nat, inodestart: nat, bmapstart: nat)

  datatype Inode = Inode(size: nat, addrs: seq<nat>)

  /** owner says, for each allocated data block, which inode has it at which position. */
  datatype State = State(sb: Super, bits: seq<bv8>, blocks: map<int, Block>,
      inodes: seq<Inode>, owner: map<int, (int, int)>)

  predicate SuperOk(sb: Super) {
    && 0 < sb.nmeta <= sb.size < 0x1_0000_0000
    && 0 < sb.inodestart <= sb.nmeta - 1 - sb.ninodes / IPB && sb.bmapstart + (sb.size - 1) / BPB < sb.nmeta
  }

  predicate InodeOk(ip: Inode) { |ip.addrs| == NDIRECT + 1 && ip.size <= MAXFILE * BSIZE }

  predicate Allocated(s: State, b: int) { b in s.blocks && |s.blocks[b]| == BSIZE }

  ghost predicate Shape(s: State) {
    && SuperOk(s.sb) && |s.inodes| <= s.sb.ninodes && |s.bits| == ((s.sb.size - 1) / BPB + 1) * BSIZE
    && (forall b :: 0 <= b < s.sb.size ==> Allocated(s, b))
    && (forall i :: 0 <= i < |s.inodes| ==> InodeOk(s.inodes[i]))
  }

  lemma BitExists(s: State, b: nat)
    requires Shape(s) && b < s.sb.size
    ensures ByteOf(b) < |s.bits|
  {
  }

  /** The j-th entry of the indirect block a; nothing is listed in block 0. */
  function Entry(blocks: map<int, Block>, a: int, j: nat): int {
    if a != 0 && a in blocks && 4 * j + 4 <= |blocks[a]| then Word(blocks[a], j) else 0
  }

  /** The block at position k of inode i, or 0. */
  function Loc(s: State, i: int, k: int): int {
    if !(0 <= i < |s.inodes| && |s.inodes[i].addrs| == NDIRECT + 1) then 0
    else if 0 <= k < NDIRECT then s.inodes[i].addrs[k]
    else if k == INDIRECT then s.inodes[i].addrs[NDIRECT]
    else if NDIRECT <= k < MAXFILE then Entry(s.blocks, s.inodes[i].addrs[NDIRECT], k - NDIRECT)
    else 0
  }

  /** While inode g is being truncated, its positions NDIRECT..lo-1 are gone although still listed. */
  predicate Gone(g: int, lo: int, i: int, k: int) { i == g && NDIRECT <= k < lo }

  predicate Owns(s: State, g: int, lo: int, i: int, k: int) {
    Loc(s, i, k) != 0 && !Gone(g, lo, i, k) ==> Loc(s, i, k) in s.owner && s.owner[Loc(s, i, k)] == (i, k)
  }

  predicate OwnedBack(s: State, g: int, lo: int, b: int) {
    b in s.owner ==>
        s.sb.nmeta <= b < s.sb.size && Loc(s, s.owner[b].0, s.owner[b].1) == b
            && !Gone(g, lo, s.owner[b].0, s.owner[b].1)
  }

  /** The free map holds exactly the metadata and the owned blocks. */
  predicate MarkOk(s: State, b: int) {
    0 <= b < s.sb.size ==> (Marked(s.bits, b) <==> b < s.sb.nmeta || b in s.owner)
  }

  ghost predicate Owned(s: State, g: int, lo: int) {
    && Shape(s)
    && (forall i, k :: Owns(s, g, lo, i, k))
    && (forall b :: OwnedBack(s, g, lo, b))
    && (forall b :: MarkOk(s, b))
  }

  /** Every byte below an inode's size is in a block. */
  predicate NoHole(s: State, i: int, bn: int) {
    0 <= i < |s.inodes| && 0 <= bn < MAXFILE && bn * BSIZE < s.inodes[i].size ==> Loc(s, i, bn) != 0
  }

  ghost predicate FsInv(s: State) { Owned(s, 0, NDIRECT) && forall i, bn :: NoHole(s, i, bn) }

  // ---------------------------------------------------------------- a new file system

  /** A free map with the blocks below n marked. */
  function Reserved(bits: seq<bv8>, n: nat): (r: seq<bv8>)
    requires forall b: nat :: b < n ==> ByteOf(b) < |bits|
    ensures |r| == |bits|
  {
    if n == 0 then bits else Mark(Reserved(bits, n - 1), n - 1)
  }

  lemma {:induction false} ReservedMarks(bits: seq<bv8>, n: nat, c: nat)
    requires (forall b: nat :: b < n ==> ByteOf(b) < |bits|) && ByteOf(c) < |bits|
    ensures Marked(Reserved(bits, n), c) <==> c < n || Marked(bits, c)
  {
    if n > 0 {
      ReservedMarks(bits, n - 1, c);
      MarkOne(Reserved(bits, n - 1), n - 1, c);
    }
  }

  function Blank(n: nat): (r: map<int, Block>)
    ensures forall b :: 0 <= b < n ==> b in r && r[b] == Zeros(BSIZE)
  {
    if n == 0 then map[] else Blank(n - 1)[n - 1 := Zeros(BSIZE)]
  }

  /** An image whose metadata is marked and whose inodes are all empty satisfies the invariant. */
  lemma EmptyImage(sb: Super, n: nat) returns (s: State)
    requires SuperOk(sb) && n <= sb.ninodes
    ensures FsInv(s) && s.sb == sb && |s.inodes| == n && forall i :: 0 <= i < n ==> s.inodes[i].size == 0
  {
    var clear := seq(((sb.size - 1) / BPB + 1) * BSIZE, i => 0 as bv8);
    var none := Inode(0, seq(NDIRECT + 1, i => 0));
    forall b: nat | b < sb.size ensures ByteOf(b) < |clear| { ByteBound(b, sb.size); }
    s := State(sb, Reserved(clear, sb.nmeta), Blank(sb.size), seq(n, i => none), map[]);
    forall b ensures MarkOk(s, b) {
      if 0 <= b < sb.size {
        ReservedMarks(clear, sb.nmeta, b);
        NoBit(b % 8);
      }
    }
    forall i, k ensures Owns(s, 0, NDIRECT, i, k) && NoHole(s, i, k) { }
  }

  lemma NoBit(k: int)
    ensures !Bit(0, k)
  {
  }

  lemma ByteBound(b: nat, size: nat)
    requires b < size
    ensures ByteOf(b) < ((size - 1) / BPB + 1) * BSIZE
  {
  }

  // ---------------------------------------------------------------- what the operations do to the state

  /** balloc's effect: the bit is set and the block zeroed. */
  function Claim(s: State, b: nat): State
    requires ByteOf(b) < |s.bits|
  {
    s.(bits := Mark(s.bits, b), blocks := s.blocks[b := Zeros(BSIZE)])
  }

  /** bmap's effect: the claimed block b becomes position k of inode i. */
  function Put(s: State, i: nat, k: nat, b: nat): State
    requires i < |s.inodes| && |s.inodes[i].addrs| == NDIRECT + 1
  {
    var ip := s.inodes[i];
    var s1 := s.(owner := s.owner[b := (i, k)]);
    if k < NDIRECT then s1.(inodes := s.inodes[i := ip.(addrs := ip.addrs[k := b])])
    else if k == INDIRECT then s1.(inodes := s.inodes[i := ip.(addrs := ip.addrs[NDIRECT := b])])
    else if k < MAXFILE && ip.addrs[NDIRECT] in s.blocks && 4 * (k - NDIRECT) + 4 <= |s.blocks[ip.addrs[NDIRECT]]|
    then s1.(blocks := s.blocks[ip.addrs[NDIRECT] := SetWord(s.blocks[ip.addrs[NDIRECT]], k - NDIRECT, b)])
    else s1
  }

  /** A position that bmap may fill: it is empty, and an entry of the indirect block needs one. */
  predicate Fillable(s: State, i: int, k: int) {
    0 <= i < |s.inodes| && 0 <= k <= INDIRECT && Loc(s, i, k) == 0
        && (NDIRECT <= k < MAXFILE ==> Loc(s, i, INDIRECT) != 0)
  }

  lemma Unowned(s: State, b: nat, i: int, k: int)
    requires Owned(s, 0, NDIRECT) && b < s.sb.size && !Marked(s.bits, b)
    ensures Loc(s, i, k) != b && b !in s.owner && s.sb.nmeta <= b
  {
    assert MarkOk(s, b) && Owns(s, 0, NDIRECT, i, k);
  }

  lemma ClaimLoc(s: State, b: nat, i: int, k: int)
    requires Owned(s, 0, NDIRECT) && b < s.sb.size && !Marked(s.bits, b) && ByteOf(b) < |s.bits|
    ensures Loc(Claim(s, b), i, k) == Loc(s, i, k)
  {
    Unowned(s, b, i, INDIRECT);
  }

  /** Put changes the position it fills and no other. */
  lemma PutLoc(s: State, i: nat, k: nat, b: nat, j: int, l: int)
    requires Owned(s, 0, NDIRECT) && b < s.sb.size && !Marked(s.bits, b) && ByteOf(b) < |s.bits| && Fillable(s, i, k)
    ensures Loc(Put(Claim(s, b), i, k, b), j, l) == if j == i && l == k then b else Loc(s, j, l)
  {
    var s1 := Claim(s, b);
    ClaimLoc(s, b, j, l);
    ClaimLoc(s, b, i, INDIRECT);
    Unowned(s, b, i, INDIRECT);
    assert Owns(s, 0, NDIRECT, i, INDIRECT) && Owns(s, 0, NDIRECT, j, INDIRECT);
    assert InodeOk(s.inodes[i]);
    var a := s.inodes[i].addrs[NDIRECT];
    if NDIRECT <= k < MAXFILE {
      assert OwnedBack(s, 0, NDIRECT, a) && Allocated(s, a);
      if NDIRECT <= l < MAXFILE && j == i { WordSet(s1.blocks[a], k - NDIRECT, b, l - NDIRECT); }
    }
  }

  lemma PutShape(s: State, i: nat, k: nat, b: nat)
    requires Owned(s, 0, NDIRECT) && b < s.sb.size && !Marked(s.bits, b) && ByteOf(b) < |s.bits| && Fillable(s, i, k)
    ensures |s.inodes[i].addrs| == NDIRECT + 1 && Shape(Put(Claim(s, b), i, k, b))
  {
    assert InodeOk(s.inodes[i]);
    var s' := Put(Claim(s, b), i, k, b);
    forall c | 0 <= c < s'.sb.size ensures Allocated(s', c) { assert Allocated(s, c); }
    forall j | 0 <= j < |s'.inodes| ensures InodeOk(s'.inodes[j]) { assert InodeOk(s.inodes[j]); }
  }

  lemma PutOwned(s: State, i: nat, k: nat, b: nat)
    requires Owned(s, 0, NDIRECT) && b < s.sb.size && !Marked(s.bits, b) && ByteOf(b) < |s.bits| && Fillable(s, i, k)
    ensures |s.inodes[i].addrs| == NDIRECT + 1 && Owned(Put(Claim(s, b), i, k, b), 0, NDIRECT)
  {
    PutShape(s, i, k, b);
    var s' := Put(Claim(s, b), i, k, b);
    forall j, l ensures Owns(s', 0, NDIRECT, j, l) {
      PutLoc(s, i, k, b, j, l);
      Unowned(s, b, j, l);
      assert Owns(s, 0, NDIRECT, j, l);
    }
    forall c ensures OwnedBack(s', 0, NDIRECT, c) {
      Unowned(s, b, i, k);
      assert OwnedBack(s, 0, NDIRECT, c);
      if c in s'.owner { PutLoc(s, i, k, b, s'.owner[c].0, s'.owner[c].1); }
    }
    forall c ensures MarkOk(s', c) {
      assert MarkOk(s, c);
      if 0 <= c < s.sb.size {
        BitExists(s, c);
        MarkOne(s.bits, b, c);
      }
    }
  }

  /** Everything s has at position k of inode i is still there, and a data block still holds the same bytes. */
  predicate Kept(s: State, s': State, i: int, k: int) {
    Loc(s, i, k) != 0 ==>
      && Loc(s', i, k) == Loc(s, i, k)
      && (k != INDIRECT && Loc(s, i, k) in s.blocks ==>
            Loc(s, i, k) in s'.blocks && s'.blocks[Loc(s, i, k)] == s.blocks[Loc(s, i, k)])
  }

  ghost predicate Extends(s: State, s': State) {
    && s'.sb == s.sb && |s'.inodes| == |s.inodes|
    && (forall i :: 0 <= i < |s.inodes| ==> s'.inodes[i].size == s.inodes[i].size)
    && forall i, k :: Kept(s, s', i, k)
  }

  lemma PutExtends(s: State, i: nat, k: nat, b: nat)
    requires Owned(s, 0, NDIRECT) && b < s.sb.size && !Marked(s.bits, b) && ByteOf(b) < |s.bits| && Fillable(s, i, k)
    ensures |s.inodes[i].addrs| == NDIRECT + 1 && Extends(s, Put(Claim(s, b), i, k, b))
  {
    assert InodeOk(s.inodes[i]);
    var s' := Put(Claim(s, b), i, k, b);
    forall j, l ensures Kept(s, s', j, l) {
      PutLoc(s, i, k, b, j, l);
      Unowned(s, b, j, l);
      assert Owns(s, 0, NDIRECT, j, l) && Owns(s, 0, NDIRECT, i, INDIRECT);
    }
  }

  lemma ExtendsHoles(s: State, s': State)
    requires Extends(s, s') && forall i, bn :: NoHole(s, i, bn)
    ensures forall i, bn :: NoHole(s', i, bn)
  {
    forall i, bn ensures NoHole(s', i, bn) { assert NoHole(s, i, bn) && Kept(s, s', i, bn); }
  }

  lemma ExtendsSelf(s: State)
    ensures Extends(s, s)
  {
    assert forall i, k :: Kept(s, s, i, k);
  }

  lemma ExtendsOn(s: State, t: State, u: State)
    requires Extends(s, t) && Extends(t, u)
    ensures Extends(s, u)
  {
    forall i, k ensures Kept(s, u, i, k) { assert Kept(s, t, i, k) && Kept(t, u, i, k); }
    forall i | 0 <= i < |s.inodes| ensures u.inodes[i].size == s.inodes[i].size {
      assert t.inodes[i].size == s.inodes[i].size;
    }
  }

  /** A claimed block at a fillable position keeps the invariant and everything that was there. */
  lemma Placed(s: State, i: nat, k: nat, b: nat)
    requires FsInv(s) && b < s.sb.size && !Marked(s.bits, b) && ByteOf(b) < |s.bits| && Fillable(s, i, k)
    ensures |s.inodes[i].addrs| == NDIRECT + 1
    ensures var s' := Put(Claim(s, b), i, k, b);
            && FsInv(s') && Extends(s, s') && Loc(s', i, k) == b
            && (k < MAXFILE ==> Loc(s', i, INDIRECT) == Loc(s, i, INDIRECT))
            && forall l :: 0 <= l < MAXFILE && l != k ==> Loc(s', i, l) == Loc(s, i, l)
  {
    PutOwned(s, i, k, b);
    PutExtends(s, i, k, b);
    ExtendsHoles(s, Put(Claim(s, b), i, k, b));
    PutLoc(s, i, k, b, i, k);
    PutLoc(s, i, k, b, i, INDIRECT);
    forall l | 0 <= l < MAXFILE && l != k ensures Loc(Put(Claim(s, b), i, k, b), i, l) == Loc(s, i, l) {
      PutLoc(s, i, k, b, i, l);
    }
  }

  // ---------------------------------------------------------------- writing a data block

  lemma WriteOwned(s: State, i: int, bn: int, d: Block)
    requires Owned(s, 0, NDIRECT) && 0 <= bn < MAXFILE && Loc(s, i, bn) != 0 && |d| == BSIZE
    ensures Owned(s.(blocks := s.blocks[Loc(s, i, bn) := d]), 0, NDIRECT)
    ensures forall j, l :: Loc(s.(blocks := s.blocks[Loc(s, i, bn) := d]), j, l) == Loc(s, j, l)
  {
    var b := Loc(s, i, bn);
    var s' := s.(blocks := s.blocks[b := d]);
    assert Owns(s, 0, NDIRECT, i, bn);
    forall j, l ensures Loc(s', j, l) == Loc(s, j, l) {
      assert Owns(s, 0, NDIRECT, j, INDIRECT);
    }
    forall c | 0 <= c < s'.sb.size ensures Allocated(s', c) { assert Allocated(s, c); }
    forall j, l ensures Owns(s', 0, NDIRECT, j, l) { assert Owns(s, 0, NDIRECT, j, l); }
    forall c ensures OwnedBack(s', 0, NDIRECT, c) && MarkOk(s', c) {
      assert OwnedBack(s, 0, NDIRECT, c) && MarkOk(s, c);
    }
  }

  // ---------------------------------------------------------------- truncation

  /** itrunc frees position k of inode i; an entry of the indirect block stays listed. */
  function Drop(s: State, i: nat, k: nat): State
    requires i < |s.inodes| && |s.inodes[i].addrs| == NDIRECT + 1
    requires 0 <= Loc(s, i, k) && ByteOf(Loc(s, i, k)) < |s.bits|
  {
    var ip := s.inodes[i];
    var s1 := s.(bits := Unmark(s.bits, Loc(s, i, k)), owner := s.owner - {Loc(s, i, k)});
    if k < NDIRECT then s1.(inodes := s.inodes[i := ip.(addrs := ip.addrs[k := 0])])
    else if k == INDIRECT then s1.(inodes := s.inodes[i := ip.(addrs := ip.addrs[NDIRECT := 0])])
    else s1
  }

  /** The next position itrunc comes to. */
  predicate Next(s: State, i: int, k: int, lo: int) {
    && 0 <= i < |s.inodes| && 0 <= k <= INDIRECT && NDIRECT <= lo <= MAXFILE
    && (NDIRECT <= k < MAXFILE ==> k == lo) && (k == INDIRECT ==> lo == MAXFILE) && (k < NDIRECT ==> lo == NDIRECT)
  }

  /** What is gone once position k has been dropped. */
  function Later(k: int, lo: int): int { if k == INDIRECT then NDIRECT else if k < NDIRECT then lo else lo + 1 }

  lemma DropFrees(s: State, i: nat, k: nat, lo: int)
    requires Owned(s, i, lo) && Next(s, i, k, lo) && Loc(s, i, k) != 0
    ensures |s.inodes[i].addrs| == NDIRECT + 1 && s.sb.nmeta <= Loc(s, i, k) < s.sb.size
    ensures ByteOf(Loc(s, i, k)) < |s.bits| && Marked(s.bits, Loc(s, i, k))
    ensures Loc(s, i, k) in s.owner && s.owner[Loc(s, i, k)] == (i, k)
  {
    var b := Loc(s, i, k);
    assert InodeOk(s.inodes[i]) && Owns(s, i, lo, i, k) && OwnedBack(s, i, lo, b) && MarkOk(s, b);
    BitExists(s, b);
  }

  lemma DropLoc(s: State, i: nat, k: nat, lo: int, j: int, l: int)
    requires Owned(s, i, lo) && Next(s, i, k, lo) && Loc(s, i, k) != 0
    ensures |s.inodes[i].addrs| == NDIRECT + 1 && 0 <= Loc(s, i, k) && ByteOf(Loc(s, i, k)) < |s.bits|
    ensures Loc(Drop(s, i, k), j, l) ==
              if j == i && l == k && !(NDIRECT <= k < MAXFILE) then 0
              else if j == i && k == INDIRECT && NDIRECT <= l < MAXFILE then 0
              else Loc(s, j, l)
  {
    DropFrees(s, i, k, lo);
  }

  lemma DropOwned(s: State, i: nat, k: nat, lo: int)
    requires Owned(s, i, lo) && Next(s, i, k, lo) && Loc(s, i, k) != 0
    ensures |s.inodes[i].addrs| == NDIRECT + 1 && 0 <= Loc(s, i, k) && ByteOf(Loc(s, i, k)) < |s.bits|
    ensures Owned(Drop(s, i, k), i, Later(k, lo))
  {
    DropFrees(s, i, k, lo);
    var b := Loc(s, i, k);
    var s', lo' := Drop(s, i, k), Later(k, lo);
    forall c | 0 <= c < s'.sb.size ensures Allocated(s', c) { assert Allocated(s, c); }
    forall j | 0 <= j < |s'.inodes| ensures InodeOk(s'.inodes[j]) { assert InodeOk(s.inodes[j]); }
    forall j, l ensures Owns(s', i, lo', j, l) {
      DropLoc(s, i, k, lo, j, l);
      assert Owns(s, i, lo, j, l);
    }
    forall c ensures OwnedBack(s', i, lo', c) {
      assert OwnedBack(s, i, lo, c);
      if c in s'.owner { DropLoc(s, i, k, lo, s'.owner[c].0, s'.owner[c].1); }
    }
    forall c ensures MarkOk(s', c) {
      assert MarkOk(s, c);
      if 0 <= c < s.sb.size {
        BitExists(s, c);
        MarkOne(s.bits, b, c);
      }
    }
  }

  /** Passing an empty position changes nothing. */
  lemma DropNone(s: State, i: nat, k: nat, lo: int)
    requires Owned(s, i, lo) && Next(s, i, k, lo) && Loc(s, i, k) == 0
    ensures Owned(s, i, Later(k, lo))
  {
    assert InodeOk(s.inodes[i]);
    forall j, l ensures Owns(s, i, Later(k, lo), j, l) { assert Owns(s, i, lo, j, l); }
    forall c ensures OwnedBack(s, i, Later(k, lo), c) { assert OwnedBack(s, i, lo, c); }
  }

  lemma NothingGone(s: State, i: int, j: int)
    requires Owned(s, i, NDIRECT)
    ensures Owned(s, j, NDIRECT)
  {
    forall a, l ensures Owns(s, j, NDIRECT, a, l) { assert Owns(s, i, NDIRECT, a, l); }
    forall c ensures OwnedBack(s, j, NDIRECT, c) { assert OwnedBack(s, i, NDIRECT, c); }
  }

  /** t is s with nothing but inode i's blocks given back. */
  ghost predicate Others(s: State, t: State, i: int) {
    && t.sb == s.sb && t.blocks == s.blocks && |t.inodes| == |s.inodes|
    && forall j :: 0 <= j < |s.inodes| && j != i ==> t.inodes[j] == s.inodes[j]
  }

  lemma OthersLoc(s: State, t: State, i: int, j: int, k: int)
    requires Others(s, t, i) && j != i
    ensures Loc(t, j, k) == Loc(s, j, k)
  {
  }

  /** When inode i has no blocks left, the free map has lost exactly the blocks that were inode i's. */
  lemma FreedExactly(s: State, t: State, i: int, b: nat)
    requires Owned(s, 0, NDIRECT) && Owned(t, 0, NDIRECT) && Others(s, t, i) && b < s.sb.size
    requires forall k :: Loc(t, i, k) == 0
    ensures Marked(t.bits, b) <==> Marked(s.bits, b) && !(b in s.owner && s.owner[b].0 == i)
  {
    assert MarkOk(s, b) && MarkOk(t, b) && OwnedBack(s, 0, NDIRECT, b) && OwnedBack(t, 0, NDIRECT, b);
    if b in s.owner {
      if s.owner[b].0 != i {
        OthersLoc(s, t, i, s.owner[b].0, s.owner[b].1);
        assert Owns(t, 0, NDIRECT, s.owner[b].0, s.owner[b].1);
      }
    }
    if b in t.owner && t.owner[b].0 != i {
      OthersLoc(s, t, i, t.owner[b].0, t.owner[b].1);
      assert Owns(s, 0, NDIRECT, t.owner[b].0, t.owner[b].1);
    }
  }

  /** The size of an inode says nothing about who owns what. */
  lemma Resized(s: State, i: nat, n: nat)
    requires Owned(s, 0, NDIRECT) && i < |s.inodes| && n <= MAXFILE * BSIZE
    ensures Owned(s.(inodes := s.inodes[i := s.inodes[i].(size := n)]), 0, NDIRECT)
    ensures forall j, k :: Loc(s.(inodes := s.inodes[i := s.inodes[i].(size := n)]), j, k) == Loc(s, j, k)
  {
    var t := s.(inodes := s.inodes[i := s.inodes[i].(size := n)]);
    forall j, k ensures Loc(t, j, k) == Loc(s, j, k) && Owns(t, 0, NDIRECT, j, k) {
      assert Owns(s, 0, NDIRECT, j, k);
    }
    forall j | 0 <= j < |t.inodes| ensures InodeOk(t.inodes[j]) { assert InodeOk(s.inodes[j]); }
    forall b | 0 <= b < s.sb.size ensures Allocated(t, b) { assert Allocated(s, b); }
    forall b ensures OwnedBack(t, 0, NDIRECT, b) && MarkOk(t, b) { assert OwnedBack(s, 0, NDIRECT, b) && MarkOk(s, b); }
  }

  lemma TruncatedInv(s: State, t: State, i: int)
    requires FsInv(s) && Owned(t, 0, NDIRECT) && Others(s, t, i) && 0 <= i < |t.inodes| && t.inodes[i].size == 0
    ensures FsInv(t)
  {
    forall j, bn ensures NoHole(t, j, bn) {
      assert NoHole(s, j, bn);
      if j != i { OthersLoc(s, t, i, j, bn); }
    }
  }
}
