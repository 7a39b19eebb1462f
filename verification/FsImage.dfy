/** The on-disk file system of fs.h and fs.c: free-map bits, indirect blocks, inodes, and who owns which block. */
module FsImage {

  const BSIZE := 1024
  const BPB := 8192
  const NDIRECT := 12
  const NINDIRECT := 256
  const MAXFILE := 268
  /** Positions 0..MAXFILE-1 of a file are its data blocks; this one is its indirect block. */
  const INDIRECT := 268

  // ---------------------------------------------------------------- the free map

  /** 1 << k, for a bit k of a byte. */
  function Mask(k: int): bv8 {
    match k
    case 0 => 1
    case 1 => 2
    case 2 => 4
    case 3 => 8
    case 4 => 16
    case 5 => 32
    case 6 => 64
    case _ => 128
  }

  predicate Bit(x: bv8, k: int) { x & Mask(k) != 0 }

  function WithBit(x: bv8, k: int): bv8 { x | Mask(k) }

  function WithoutBit(x: bv8, k: int): bv8 { x & !Mask(k) }

  lemma BitChange(x: bv8, k: int, j: int)
    requires 0 <= j < 8 && 0 <= k < 8
    ensures Bit(WithBit(x, k), j) == (j == k || Bit(x, j))
    ensures Bit(WithoutBit(x, k), j) == (j != k && Bit(x, j))
  {
  }

  /** Where the bit of block b is: the byte of the free map that holds it. */
  function ByteOf(b: nat): nat { b / BPB * BSIZE + b % BPB / 8 }

  /** The free map is the bits in order. */
  lemma ByteOfExact(b: nat)
    ensures b == 8 * ByteOf(b) + b % 8 && b % BPB % 8 == b % 8
  {
    var q, t := b / BPB, b % BPB;
    assert b == 8 * (q * BSIZE) + t && t == 8 * (t / 8) + t % 8;
  }

  predicate Marked(bits: seq<bv8>, b: nat) { ByteOf(b) < |bits| && Bit(bits[ByteOf(b)], b % 8) }

  function Mark(bits: seq<bv8>, b: nat): seq<bv8>
    requires ByteOf(b) < |bits|
  {
    bits[ByteOf(b) := WithBit(bits[ByteOf(b)], b % 8)]
  }

  function Unmark(bits: seq<bv8>, b: nat): seq<bv8>
    requires ByteOf(b) < |bits|
  {
    bits[ByteOf(b) := WithoutBit(bits[ByteOf(b)], b % 8)]
  }

  lemma MarkOne(bits: seq<bv8>, b: nat, c: nat)
    requires ByteOf(b) < |bits| && ByteOf(c) < |bits|
    ensures Marked(Mark(bits, b), c) == (c == b || Marked(bits, c))
    ensures Marked(Unmark(bits, b), c) == (c != b && Marked(bits, c))
  {
    ByteOfExact(b);
    ByteOfExact(c);
    BitChange(bits[ByteOf(b)], b % 8, c % 8);
    hide ByteOf, Bit, WithBit, WithoutBit;
  }

  // ---------------------------------------------------------------- indirect blocks

  type Block = seq<int>

  /** The i-th little-endian 32-bit number in a block. */
  function Word(b: Block, i: nat): int
    requires 4 * i + 4 <= |b|
  {
    b[4 * i] + 0x100 * b[4 * i + 1] + 0x1_0000 * b[4 * i + 2] + 0x100_0000 * b[4 * i + 3]
  }

  function SetWord(b: Block, i: nat, w: nat): Block
    requires 4 * i + 4 <= |b|
  {
    b[4 * i := w % 0x100][4 * i + 1 := w / 0x100 % 0x100]
     [4 * i + 2 := w / 0x1_0000 % 0x100][4 * i + 3 := w / 0x100_0000 % 0x100]
  }

  lemma Digits(w: nat)
    requires w < 0x1_0000_0000
    ensures w % 0x100 + 0x100 * (w / 0x100 % 0x100) + 0x1_0000 * (w / 0x1_0000 % 0x100)
      + 0x100_0000 * (w / 0x100_0000 % 0x100) == w
  {
  }

  lemma WordSet(b: Block, i: nat, w: nat, j: nat)
    requires 4 * i + 4 <= |b| && 4 * j + 4 <= |b| && w < 0x1_0000_0000
    ensures Word(SetWord(b, i, w), j) == if j == i then w else Word(b, j)
  {
    var b' := SetWord(b, i, w);
    if j == i {
      Digits(w);
    } else {
      assert b'[4 * j] == b[4 * j] && b'[4 * j + 1] == b[4 * j + 1]
        && b'[4 * j + 2] == b[4 * j + 2] && b'[4 * j + 3] == b[4 * j + 3];
    }
  }

  function Zeros(n: nat): (b: Block)
    ensures |b| == n && forall i :: 0 <= i < n ==> b[i] == 0
  {
    seq(n, i => 0)
  }
}
