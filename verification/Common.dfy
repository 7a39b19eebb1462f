/** What several modules share. */
module Common {

  datatype Option<T> = None | Some(value: T)

  /** param.h: the most blocks one file system operation may log. */
  const MAXOPBLOCKS := 10

  const U32 := 0x1_0000_0000

  function Min(a: int, b: int): int { if a < b then a else b }

  function Max(a: int, b: int): int { if a < b then b else a }

  lemma SubsetCount<T>(a: set<T>, b: set<T>)
    requires a <= b
    ensures |a| <= |b|
  {
    assert b == a + (b - a);
  }

  predicate Between(lo: int, x: int, hi: int) { lo <= x < hi }

  function Interval(lo: int, hi: int): set<int> { set x: int | lo <= x < hi && Between(lo, x, hi) }

  lemma {:induction false} IntervalCount(lo: int, hi: int)
    requires lo <= hi
    ensures |Interval(lo, hi)| == hi - lo
    decreases hi - lo
  {
    if lo < hi {
      IntervalCount(lo, hi - 1);
      assert Interval(lo, hi) == Interval(lo, hi - 1) + {hi - 1};
    } else {
      assert Interval(lo, hi) == {};
    }
  }

  /** b with c from offset o on. */
  function Patch(b: seq<int>, o: nat, c: seq<int>): (r: seq<int>)
    requires o + |c| <= |b|
    ensures |r| == |b| && forall x :: 0 <= x < |b| ==> r[x] == if o <= x < o + |c| then c[x - o] else b[x]
  {
    b[..o] + c + b[o + |c|..]
  }
}
