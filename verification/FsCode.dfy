/** balloc, bfree, bmap, itrunc, readi and writei of fs.c, and filewrite of file.c, as they run inside one
    file-system operation: `logged` is the set of blocks the operation has passed to log_write. */
module FsCode {
  import opened FsImage
  import opened FsState

  function BBlock(sb: Super, b: nat): nat { b / BPB + sb.bmapstart }

  function IBlock(sb: Super, i: nat): nat { i / IPB + sb.inodestart }

  /** How many bytes an inode takes on the disk. */
  const DINODE := 64

  /** The inodes lie one after the other from inodestart on: block b holds all of inode j. */
  predicate HoldsInode(sb: Super, b: nat, j: nat) {
    b * BSIZE <= sb.inodestart * BSIZE + DINODE * j && sb.inodestart * BSIZE + DINODE * j + DINODE <= b * BSIZE + BSIZE
  }

  /** IBLOCK finds that block, and i % IPB the inode in it. */
  lemma InodeAt(sb: Super, i: nat)
    ensures IBlock(sb, i) * BSIZE + i % IPB * DINODE == sb.inodestart * BSIZE + DINODE * i
    ensures forall b: nat :: HoldsInode(sb, b, i) <==> b == IBlock(sb, i)
  {
    assert i == IPB * (i / IPB) + i % IPB;
  }

  /** The bits of the free map lie one after the other from bmapstart on: BBLOCK finds the block of bit b, and b % BPB
      the bit in it. */
  lemma MapBitAt(sb: Super, b: nat)
    ensures BBlock(sb, b) * BPB + b % BPB == sb.bmapstart * BPB + b
  {
    assert b == BPB * (b / BPB) + b % BPB;
  }

  /** Every inode that differs on the disk lies in a block that has been logged. */
  ghost predicate InodesLogged(sb: Super, was: seq<Inode>, now: seq<Inode>, logged: set<nat>) {
    |now| == |was| && forall j: nat :: j < |was| && now[j] != was[j] ==> exists b :: b in logged && HoldsInode(sb, b, j)
  }

  /** Inode blocks and free-map blocks lie below the data blocks. */
  lemma MetaBlocks(s: State, b: nat, i: nat)
    requires Shape(s)
    ensures b < s.sb.size ==> BBlock(s.sb, b) < s.sb.nmeta
    ensures i < |s.inodes| ==> IBlock(s.sb, i) < s.sb.nmeta
  {
  }

  lemma BitAddress(b: nat, bi: nat)
    requires b % BPB == 0 && bi < BPB
    ensures ByteOf(b + bi) == b / BPB * BSIZE + bi / 8 && (b + bi) % 8 == bi % 8 && (b + bi) / BPB == b / BPB
    ensures (b + BPB) % BPB == 0
  {
    Quotient(b / BPB, bi);
  }

  lemma Quotient(q: nat, bi: nat)
    requires bi < 8192
    ensures (8192 * q + bi) / 8192 == q && (8192 * q + bi) % 8192 == bi && (8192 * q + bi) % 8 == bi % 8
    ensures (8192 * q + 8192) % 8192 == 0
  {
  }

  ghost predicate Lowest(s: State, b: nat) {
    b < s.sb.size && !Marked(s.bits, b) && forall c: nat :: c < b ==> Marked(s.bits, c)
  }

  ghost predicate Full(s: State) { forall c: nat :: c < s.sb.size ==> Marked(s.bits, c) }

  /** The indirect block of inode i, if it has one. */
  function Ind(s: State, i: int): set<int> { if Loc(s, i, INDIRECT) == 0 then {} else {Loc(s, i, INDIRECT)} }

  // ---------------------------------------------------------------- nothing changes unlogged

  predicate BlockLogged(s: State, u: State, logged: set<nat>, b: nat) {
    (b in s.blocks) != (b in u.blocks) || (b in s.blocks && b in u.blocks && u.blocks[b] != s.blocks[b]) ==> b in logged
  }

  predicate BitLogged(s: State, u: State, logged: set<nat>, b: nat) {
    Marked(u.bits, b) != Marked(s.bits, b) ==> BBlock(s.sb, b) in logged
  }

  /** Every data or indirect block that differs between s and u has been logged, and every free-map block with
      a bit that does. */
  ghost predicate Recorded(s: State, u: State, logged: set<nat>) {
    u.sb == s.sb && |u.bits| == |s.bits| && forall b: nat :: BlockLogged(s, u, logged, b) && BitLogged(s, u, logged, b)
  }

  lemma RecordedSelf(s: State, logged: set<nat>)
    ensures Recorded(s, s, logged)
  {
  }

  lemma RecordedOn(s: State, m: State, u: State, before: set<nat>, logged: set<nat>)
    requires Recorded(s, m, before) && Recorded(m, u, logged) && before <= logged
    ensures Recorded(s, u, logged)
  {
    forall b: nat ensures BlockLogged(s, u, logged, b) && BitLogged(s, u, logged, b) {
      assert BlockLogged(s, m, before, b) && BitLogged(s, m, before, b)
        && BlockLogged(m, u, logged, b) && BitLogged(m, u, logged, b);
    }
  }

  lemma ClaimRecorded(s: State, b: nat, logged: set<nat>)
    requires ByteOf(b) < |s.bits| && b in logged && BBlock(s.sb, b) in logged
    ensures Recorded(s, Claim(s, b), logged)
  {
    forall c: nat ensures BlockLogged(s, Claim(s, b), logged, c) && BitLogged(s, Claim(s, b), logged, c) {
      if ByteOf(c) < |s.bits| { MarkOne(s.bits, b, c); }
      hide ByteOf, Bit, WithBit;
    }
  }

  /** One block changed, and was logged; inodes and owners are another matter. */
  lemma OneBlockRecorded(s: State, u: State, b: nat, logged: set<nat>)
    requires u.sb == s.sb && u.bits == s.bits && b in logged && b in u.blocks && u.blocks == s.blocks[b := u.blocks[b]]
    ensures Recorded(s, u, logged)
  {
  }

  lemma SameRecorded(s: State, u: State, logged: set<nat>)
    requires u.sb == s.sb && u.bits == s.bits && u.blocks == s.blocks
    ensures Recorded(s, u, logged)
  {
  }

  lemma UnmarkRecorded(s: State, b: nat, logged: set<nat>)
    requires ByteOf(b) < |s.bits| && BBlock(s.sb, b) in logged
    ensures Recorded(s, s.(bits := Unmark(s.bits, b)), logged)
  {
    var u := s.(bits := Unmark(s.bits, b));
    forall c: nat ensures BlockLogged(s, u, logged, c) && BitLogged(s, u, logged, c) {
      if ByteOf(c) < |s.bits| { MarkOne(s.bits, b, c); }
      hide ByteOf, Bit, WithoutBit;
    }
  }

  class Fs {
    var sb: Super
    var bits: seq<bv8>
    var blocks: map<int, Block>
    /** The inodes in memory, and as they are in the inode blocks. */
    var inodes: seq<Inode>
    var dinodes: seq<Inode>
    var logged: set<nat>
    ghost var owner: map<int, (int, int)>

    ghost function View(): State
      reads this
    {
      State(sb, bits, blocks, inodes, owner)
    }

    method BZero(b: nat)
      modifies `blocks, `logged
      ensures blocks == old(blocks)[b := Zeros(BSIZE)] && logged == old(logged) + {b}
    {
      blocks := blocks[b := Zeros(BSIZE)];
      logged := logged + {b};
    }

    /** What balloc does when it has found bit bi of the free-map block for b clear. */
    method Claimed(b: nat, bi: nat)
      requires b % BPB == 0 && bi < BPB && ByteOf(b + bi) < |bits|
      modifies `bits, `blocks, `logged
      ensures View() == Claim(old(View()), b + bi) && logged == old(logged) + {BBlock(sb, b + bi), b + bi}
      ensures Recorded(old(View()), View(), logged)
    {
      ghost var s := View();
      BitAddress(b, bi);
      var at := b / BPB * BSIZE + bi / 8;
      bits := bits[at := WithBit(bits[at], bi % 8)];
      logged := logged + {BBlock(sb, b)};
      BZero(b + bi);
      ClaimRecorded(s, b + bi, logged);
      hide Recorded;
    }

    /** The lowest free block, marked and zeroed; 0 if and only if there is none. */
    method BAlloc() returns (r: nat)
      requires Owned(View(), 0, NDIRECT)
      modifies `bits, `blocks, `logged
      ensures r == 0 <==> old(Full(View()))
      ensures r == 0 ==> View() == old(View()) && logged == old(logged)
      ensures r != 0 ==> Lowest(old(View()), r) && ByteOf(r) < |old(bits)| && View() == Claim(old(View()), r)
      ensures r != 0 ==> logged == old(logged) + {BBlock(sb, r), r}
      ensures Recorded(old(View()), View(), logged)
    {
      ghost var s := View();
      assert MarkOk(s, 0);
      forall c: nat | c < sb.size ensures ByteOf(c) < |bits| { BitExists(s, c); }
      RecordedSelf(s, logged);
      hide Owned, Bit, Claim, Recorded;
      var b := 0;
      while b < sb.size
        invariant b % BPB == 0 && View() == s && logged == old(logged)
        invariant forall c: nat :: c < b && c < sb.size ==> Marked(bits, c)
      {
        var bi := 0;
        while bi < BPB && b + bi < sb.size
          invariant bi <= BPB && View() == s && logged == old(logged)
          invariant forall c: nat :: c < b + bi && c < sb.size ==> Marked(bits, c)
        {
          BitAddress(b, bi);
          var at := b / BPB * BSIZE + bi / 8;
          if !Bit(bits[at], bi % 8) {
            assert Lowest(s, b + bi);
            Claimed(b, bi);
            return b + bi;
          }
          bi := bi + 1;
        }
        BitAddress(b, 0);
        b := b + BPB;
      }
      return 0;
    }

    /** The result is false where the source panics. */
    method BFree(b: nat) returns (ok: bool)
      requires ByteOf(b) < |bits|
      modifies `bits, `logged
      ensures ok == Marked(old(bits), b)
      ensures bits == (if ok then Unmark(old(bits), b) else old(bits))
      ensures logged == old(logged) + if ok then {BBlock(sb, b)} else {}
      ensures Recorded(old(View()), View(), logged)
    {
      UnmarkRecorded(View(), b, logged + {BBlock(sb, b)});
      RecordedSelf(View(), logged);
      hide Recorded;
      var bi := b % BPB;
      ByteOfExact(b);
      var at := b / BPB * BSIZE + bi / 8;
      if !Bit(bits[at], bi % 8) { return false; }
      bits := bits[at := WithoutBit(bits[at], bi % 8)];
      logged := logged + {BBlock(sb, b)};
      return true;
    }

    /** The part of bmap that looks at entry j of an indirect block that is there. */
    method BMapEntry(i: nat, j: nat) returns (addr: nat, ghost maps: set<nat>)
      requires FsInv(View()) && i < |inodes| && j < NINDIRECT && Loc(View(), i, INDIRECT) != 0
      modifies `bits, `blocks, `logged, `owner
      ensures FsInv(View()) && Extends(old(View()), View())
      ensures addr == Loc(View(), i, NDIRECT + j) && (addr == 0 ==> Full(View()))
      ensures Loc(View(), i, INDIRECT) == old(Loc(View(), i, INDIRECT))
      ensures old(Loc(View(), i, NDIRECT + j)) != 0 ==> View() == old(View()) && logged == old(logged) && maps == {}
      ensures logged <= old(logged) + maps + {addr} + Ind(View(), i)
      ensures |maps| <= if old(Loc(View(), i, NDIRECT + j)) == 0 && addr != 0 then 1 else 0
      ensures forall m :: m in maps ==> m < sb.nmeta
      ensures old(Loc(View(), i, NDIRECT + j)) == 0 && addr != 0 ==> addr in logged
      ensures forall l :: 0 <= l < MAXFILE && l != NDIRECT + j ==> Loc(View(), i, l) == old(Loc(View(), i, l))
      ensures Recorded(old(View()), View(), logged) && old(logged) <= logged
    {
      ghost var s := View();
      maps := {};
      assert InodeOk(inodes[i]) && Owns(s, 0, NDIRECT, i, INDIRECT) && Owned(s, 0, NDIRECT);
      var ind := inodes[i].addrs[NDIRECT];
      assert OwnedBack(s, 0, NDIRECT, ind) && Allocated(s, ind) && Owns(s, 0, NDIRECT, i, NDIRECT + j);
      assert OwnedBack(s, 0, NDIRECT, Loc(s, i, NDIRECT + j));
      assert Word(blocks[ind], j) == Loc(s, i, NDIRECT + j) && ind == Loc(s, i, INDIRECT) && Shape(s);
      hide FsInv, Extends, Full, Recorded, BBlock, Loc, Owned, Word;
      ExtendsSelf(s);
      RecordedSelf(s, logged);
      addr := Word(blocks[ind], j);
      if addr == 0 {
        addr := BAlloc();
        if addr != 0 {
          ghost var m, before := View(), logged;
          Placed(s, i, NDIRECT + j, addr);
          Unowned(s, addr, i, INDIRECT);
          blocks := blocks[ind := SetWord(blocks[ind], j, addr)];
          owner := owner[addr := (i, NDIRECT + j)];
          assert View() == Put(Claim(s, addr), i, NDIRECT + j, addr);
          logged := logged + {ind};
          OneBlockRecorded(m, View(), ind, logged);
          RecordedOn(s, m, View(), before, logged);
          MetaBlocks(s, addr, i);
          maps := {BBlock(sb, addr)};
        }
      }
    }

    /** The part of bmap that looks at ip->addrs, for a direct block or the indirect block. */
    method BMapSlot(i: nat, k: nat) returns (addr: nat, ghost maps: set<nat>)
      requires FsInv(View()) && i < |inodes| && (k < NDIRECT || k == INDIRECT)
      modifies `bits, `blocks, `inodes, `logged, `owner
      ensures |inodes| == |old(inodes)| && inodes == old(inodes)[i := inodes[i]]
      ensures FsInv(View()) && Extends(old(View()), View())
      ensures addr == Loc(View(), i, k) && (addr == 0 ==> Full(View()) && View() == old(View()))
      ensures forall l :: 0 <= l < MAXFILE && l != k ==> Loc(View(), i, l) == old(Loc(View(), i, l))
      ensures k != INDIRECT ==> Loc(View(), i, INDIRECT) == old(Loc(View(), i, INDIRECT))
      ensures old(Loc(View(), i, k)) != 0 ==> View() == old(View()) && logged == old(logged) && maps == {}
      ensures logged <= old(logged) + maps + {addr}
      ensures |maps| <= if old(Loc(View(), i, k)) == 0 && addr != 0 then 1 else 0
      ensures forall m :: m in maps ==> m < sb.nmeta
      ensures old(Loc(View(), i, k)) == 0 && addr != 0 ==> addr in logged
      ensures Recorded(old(View()), View(), logged) && old(logged) <= logged
    {
      ghost var s := View();
      maps := {};
      assert InodeOk(inodes[i]) && Owned(s, 0, NDIRECT);
      ExtendsSelf(s);
      RecordedSelf(s, logged);
      hide FsInv, Owned, Extends, Full, Recorded;
      var slot := if k < NDIRECT then k else NDIRECT;
      addr := inodes[i].addrs[slot];
      if addr == 0 {
        addr := BAlloc();
        if addr != 0 {
          Placed(s, i, k, addr);
          ghost var m := View();
          inodes := inodes[i := inodes[i].(addrs := inodes[i].addrs[slot := addr])];
          owner := owner[addr := (i, k)];
          assert View() == Put(Claim(s, addr), i, k, addr);
          SameRecorded(m, View(), logged);
          RecordedOn(s, m, View(), logged, logged);
          MetaBlocks(s, addr, i);
          maps := {BBlock(sb, addr)};
        }
      }
    }

    /** bmap(ip, bn). maps are the free-map blocks it logged: one for each block it allocated. */
    method BMap(i: nat, bn: nat) returns (addr: nat, ghost maps: set<nat>)
      requires FsInv(View()) && i < |inodes| && bn < MAXFILE
      modifies `bits, `blocks, `inodes, `logged, `owner
      ensures |inodes| == |old(inodes)| && inodes == old(inodes)[i := inodes[i]]
      ensures FsInv(View()) && Extends(old(View()), View())
      ensures addr == Loc(View(), i, bn) && (addr == 0 ==> Full(View()))
      ensures old(Loc(View(), i, bn)) != 0 ==> View() == old(View()) && logged == old(logged) && maps == {}
      ensures logged <= old(logged) + maps + {addr} + Ind(View(), i)
      ensures |maps| <= (if old(Loc(View(), i, bn)) == 0 && addr != 0 then 1 else 0)
                        + (if old(Loc(View(), i, INDIRECT)) != Loc(View(), i, INDIRECT) then 1 else 0)
      ensures forall m :: m in maps ==> m < sb.nmeta
      ensures old(Loc(View(), i, bn)) == 0 && addr != 0 ==> addr in logged
      ensures forall l :: 0 <= l < MAXFILE && l != bn ==> Loc(View(), i, l) == old(Loc(View(), i, l))
      ensures Recorded(old(View()), View(), logged) && old(logged) <= logged
    {
      hide Recorded, FsInv, Extends, Full;
      ghost var s := View();
      if bn < NDIRECT {
        addr, maps := BMapSlot(i, bn);
        return;
      }
      var ind;
      ind, maps := BMapSlot(i, INDIRECT);
      if ind == 0 { return 0, maps; }
      ghost var t, before := View(), logged;
      ghost var more: set<nat>;
      addr, more := BMapEntry(i, bn - NDIRECT);
      ExtendsOn(s, t, View());
      RecordedOn(s, t, View(), before, logged);
      maps := maps + more;
    }

    /** iupdate(ip). */
    method IUpdate(i: nat)
      requires i < |inodes| == |dinodes|
      modifies `dinodes, `logged
      ensures dinodes == old(dinodes)[i := inodes[i]] && logged == old(logged) + {IBlock(sb, i)}
      ensures InodesLogged(sb, old(dinodes), dinodes, logged)
    {
      InodeAt(sb, i);
      hide IBlock, HoldsInode;
      dinodes := dinodes[i := inodes[i]];
      logged := logged + {IBlock(sb, i)};
    }

    /** itrunc frees position k, if there is a block: bfree does not panic. */
    method DropBlock(i: nat, k: nat, ghost lo: int)
      requires Owned(View(), i, lo) && Next(View(), i, k, lo)
      modifies `bits, `inodes, `logged, `owner
      ensures Owned(View(), i, Later(k, lo)) && Others(old(View()), View(), i) && inodes[i].size == old(inodes)[i].size
      ensures |old(inodes)[i].addrs| == NDIRECT + 1
      ensures inodes[i].addrs == if NDIRECT <= k < MAXFILE then old(inodes)[i].addrs
                                 else old(inodes)[i].addrs[(if k < NDIRECT then k else NDIRECT) := 0]
      ensures Recorded(old(View()), View(), logged) && old(logged) <= logged
    {
      ghost var s := View();
      assert InodeOk(inodes[i]);
      RecordedSelf(s, logged);
      hide Recorded;
      var addr := if k < NDIRECT then inodes[i].addrs[k] else if k == INDIRECT then inodes[i].addrs[NDIRECT]
                  else Entry(blocks, inodes[i].addrs[NDIRECT], k - NDIRECT);
      if addr == 0 {
        DropNone(s, i, k, lo);
        return;
      }
      DropFrees(s, i, k, lo);
      DropOwned(s, i, k, lo);
      hide Owned;
      var ok := BFree(addr);
      assert ok;
      ghost var m := View();
      if k < NDIRECT {
        inodes := inodes[i := inodes[i].(addrs := inodes[i].addrs[k := 0])];
      } else if k == INDIRECT {
        inodes := inodes[i := inodes[i].(addrs := inodes[i].addrs[NDIRECT := 0])];
      }
      owner := owner - {addr};
      assert View() == Drop(s, i, k);
      SameRecorded(m, View(), logged);
      RecordedOn(s, m, View(), logged, logged);
    }

    /** The direct blocks of itrunc. */
    method TruncDirect(i: nat)
      requires i < |inodes| && Owned(View(), i, NDIRECT)
      modifies `bits, `inodes, `logged, `owner
      ensures Owned(View(), i, NDIRECT) && Others(old(View()), View(), i) && |inodes[i].addrs| == NDIRECT + 1
      ensures forall l :: 0 <= l < NDIRECT ==> inodes[i].addrs[l] == 0
      ensures Recorded(old(View()), View(), logged) && old(logged) <= logged
    {
      ghost var s := View();
      assert InodeOk(inodes[i]);
      RecordedSelf(s, logged);
      hide Owned, Recorded;
      var k := 0;
      while k < NDIRECT
        invariant Recorded(s, View(), logged) && old(logged) <= logged
        invariant 0 <= k <= NDIRECT && Owned(View(), i, NDIRECT)
        invariant Others(s, View(), i) && |inodes[i].addrs| == NDIRECT + 1
        invariant forall l :: 0 <= l < k ==> inodes[i].addrs[l] == 0
      {
        ghost var m, before := View(), logged;
        DropBlock(i, k, NDIRECT);
        RecordedOn(s, m, View(), before, logged);
        k := k + 1;
      }
    }

    /** The indirect block of itrunc and what it lists. */
    method TruncIndirect(i: nat)
      requires i < |inodes| && Owned(View(), i, NDIRECT)
      modifies `bits, `inodes, `logged, `owner
      ensures Owned(View(), i, NDIRECT) && Others(old(View()), View(), i)
      ensures |inodes[i].addrs| == |old(inodes)[i].addrs| == NDIRECT + 1
      ensures inodes[i].addrs == old(inodes)[i].addrs[NDIRECT := 0]
      ensures Recorded(old(View()), View(), logged) && old(logged) <= logged
    {
      ghost var s := View();
      assert InodeOk(inodes[i]);
      RecordedSelf(s, logged);
      hide Owned, Recorded;
      if inodes[i].addrs[NDIRECT] != 0 {
        var j := 0;
        while j < NINDIRECT
          invariant 0 <= j <= NINDIRECT && Owned(View(), i, NDIRECT + j) && Others(s, View(), i)
          invariant inodes[i].addrs == s.inodes[i].addrs && Recorded(s, View(), logged) && old(logged) <= logged
        {
          ghost var m, before := View(), logged;
          DropBlock(i, NDIRECT + j, NDIRECT + j);
          RecordedOn(s, m, View(), before, logged);
          j := j + 1;
        }
        ghost var m, before := View(), logged;
        DropBlock(i, INDIRECT, MAXFILE);
        RecordedOn(s, m, View(), before, logged);
      }
    }

    /** itrunc(ip). */
    method ITrunc(i: nat)
      requires FsInv(View()) && i < |inodes| == |dinodes|
      modifies `bits, `inodes, `dinodes, `logged, `owner
      ensures FsInv(View()) && Others(old(View()), View(), i)
      ensures inodes[i].size == 0 && forall k :: Loc(View(), i, k) == 0
      ensures dinodes == old(dinodes)[i := inodes[i]] && InodesLogged(sb, old(dinodes), dinodes, logged)
      ensures IBlock(sb, i) in logged && Recorded(old(View()), View(), logged)
      ensures forall b: nat :: b < sb.size ==>
                (Marked(bits, b) <==> Marked(old(bits), b) && !(b in old(owner) && old(owner)[b].0 == i))
    {
      ghost var s := View();
      assert Owned(s, 0, NDIRECT);
      NothingGone(s, 0, i);
      hide FsInv, Owned, Recorded, InodesLogged;
      TruncDirect(i);
      ghost var m, before := View(), logged;
      TruncIndirect(i);
      RecordedOn(s, m, View(), before, logged);
      m, before := View(), logged;
      NothingGone(View(), i, 0);
      Resized(View(), i, 0);
      inodes := inodes[i := inodes[i].(size := 0)];
      IUpdate(i);
      SameRecorded(m, View(), logged);
      RecordedOn(s, m, View(), before, logged);
      TruncatedInv(s, View(), i);
      forall b: nat | b < sb.size
        ensures Marked(bits, b) <==> Marked(old(bits), b) && !(b in old(owner) && old(owner)[b].0 == i)
      {
        FreedExactly(s, View(), i, b);
      }
    }
  }
}
