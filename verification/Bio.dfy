/** The buffer list of bio.c: bget and brelse on the prev/next links. Buffers are numbers 0..NBUF-1 and HEAD is the
    list head. `stamp` orders the buffers by their last use; `top` is above all stamps. */
module Bio {

  const NBUF := 30
  const HEAD := 30

  datatype Ring = Ring(nxt: seq<int>, prv: seq<int>, stamp: seq<int>, top: int)

  predicate IsBuf(r: Ring, b: int) { 0 <= b < |r.stamp| }

  predicate OnRing(r: Ring, b: int) { IsBuf(r, b) || b == HEAD }

  /** The stamp of b as the upper end of a gap, and as the lower end: the head is both ends of the list. */
  function Hi(r: Ring, b: int): int { if IsBuf(r, b) then r.stamp[b] else r.top }

  function Lo(r: Ring, b: int): int { if IsBuf(r, b) then r.stamp[b] else -1 }

  /** c is next after a: less recently used, and no buffer is between them. */
  predicate Neighbours(r: Ring, a: int, c: int) {
    && OnRing(r, a) && OnRing(r, c) && Lo(r, c) < Hi(r, a)
    && forall x :: 0 <= x < |r.stamp| ==> !(Lo(r, c) < r.stamp[x] < Hi(r, a))
  }

  predicate LinkOk(r: Ring, b: int)
    requires |r.nxt| == |r.prv| == NBUF + 1 && |r.stamp| <= NBUF
  {
    OnRing(r, b) ==> Neighbours(r, b, r.nxt[b]) && Neighbours(r, r.prv[b], b)
  }

  predicate StampOk(r: Ring, a: int, b: int)
  {
    && (IsBuf(r, a) ==> 0 <= r.stamp[a] < r.top)
    && (IsBuf(r, a) && IsBuf(r, b) && a != b ==> r.stamp[a] != r.stamp[b])
  }

  /** The links make one ring through the head and all buffers, in order of use. */
  ghost predicate RingOk(r: Ring) {
    && |r.nxt| == |r.prv| == NBUF + 1 && |r.stamp| <= NBUF && 0 <= r.top
    && (forall b :: LinkOk(r, b))
    && (forall a, b :: StampOk(r, a, b))
  }

  /** Following prev undoes following next. */
  lemma LinksInverse(r: Ring, b: int)
    requires RingOk(r) && OnRing(r, b)
    ensures OnRing(r, r.nxt[b]) && r.prv[r.nxt[b]] == b && OnRing(r, r.prv[b]) && r.nxt[r.prv[b]] == b
  {
    assert LinkOk(r, b);
    var n, p := r.nxt[b], r.prv[b];
    assert LinkOk(r, n) && LinkOk(r, p);
    assert StampOk(r, b, r.prv[n]) && StampOk(r, r.prv[n], b) && StampOk(r, b, r.nxt[p]) && StampOk(r, r.nxt[p], b);
  }

  /** Takes b out and puts it behind the head, in the order of the source's assignments. */
  function MoveToFront(r: Ring, b: int): Ring
    requires |r.nxt| == |r.prv| == NBUF + 1 && |r.stamp| <= NBUF
    requires IsBuf(r, b) && OnRing(r, r.nxt[b]) && OnRing(r, r.prv[b])
    requires var n := r.nxt[r.prv[b] := r.nxt[b]]; OnRing(r, n[HEAD])
  {
    var prv := r.prv[r.nxt[b] := r.prv[b]];
    var nxt := r.nxt[r.prv[b] := r.nxt[b]];
    var first := nxt[HEAD];
    Ring(nxt[b := first][HEAD := b], prv[b := HEAD][first := b], r.stamp[b := r.top], r.top + 1)
  }

  lemma MoveDefined(r: Ring, b: int)
    requires RingOk(r) && IsBuf(r, b)
    ensures var n, p := r.nxt[b], r.prv[b];
            && OnRing(r, n) && OnRing(r, p) && n != b && p != b
            && var first := r.nxt[p := n][HEAD]; OnRing(r, first) && first != b
  {
    LinksInverse(r, b);
    LinksInverse(r, HEAD);
    assert LinkOk(r, b) && LinkOk(r, HEAD) && StampOk(r, b, b);
  }

  /** Two neighbours stay neighbours when b goes to the front, unless one of them is b or the head. */
  lemma GapAfter(r: Ring, b: int, a: int, c: int)
    requires RingOk(r) && IsBuf(r, b) && a != b && c != b && a != HEAD && Neighbours(r, a, c)
    ensures Neighbours(r.(stamp := r.stamp[b := r.top], top := r.top + 1), a, c)
  {
    assert StampOk(r, a, b) && StampOk(r, c, b);
  }

  /** Where b was, its neighbours meet. */
  lemma GapClosed(r: Ring, b: int)
    requires RingOk(r) && IsBuf(r, b) && OnRing(r, r.prv[b]) && r.prv[b] != HEAD && OnRing(r, r.nxt[b])
    ensures Neighbours(r.(stamp := r.stamp[b := r.top], top := r.top + 1), r.prv[b], r.nxt[b])
  {
    var p, n := r.prv[b], r.nxt[b];
    assert LinkOk(r, b) && StampOk(r, p, b) && StampOk(r, b, p);
    forall x | IsBuf(r, x) && x != b ensures !(Lo(r, n) < r.stamp[x] < Hi(r, p)) {
      assert StampOk(r, x, b) && !(Lo(r, n) < r.stamp[x] < Hi(r, b)) && !(Lo(r, b) < r.stamp[x] < Hi(r, p));
    }
  }

  predicate MoveDefinedAt(r: Ring, b: int) {
    && |r.nxt| == |r.prv| == NBUF + 1 && |r.stamp| <= NBUF && IsBuf(r, b) && OnRing(r, r.nxt[b]) && OnRing(r, r.prv[b])
    && OnRing(r, r.nxt[r.prv[b] := r.nxt[b]][HEAD])
  }

  /** The most recently used buffer other than b comes right after b. */
  lemma GapFront(r: Ring, b: int)
    requires RingOk(r) && IsBuf(r, b) && MoveDefinedAt(r, b)
    ensures var first := r.nxt[r.prv[b] := r.nxt[b]][HEAD];
            var r1 := r.(stamp := r.stamp[b := r.top], top := r.top + 1);
            Neighbours(r1, b, first) && Neighbours(r1, HEAD, b)
  {
    MoveDefined(r, b);
    var first := r.nxt[r.prv[b] := r.nxt[b]][HEAD];
    assert StampOk(r, b, b) && StampOk(r, first, b);
    forall x | IsBuf(r, x) && x != b ensures r.stamp[x] <= Lo(r, first) { BelowFirst(r, b, x); }
  }

  lemma BelowFirst(r: Ring, b: int, x: int)
    requires RingOk(r) && IsBuf(r, b) && MoveDefinedAt(r, b) && IsBuf(r, x) && x != b
    ensures r.stamp[x] <= Lo(r, r.nxt[r.prv[b] := r.nxt[b]][HEAD])
  {
    assert LinkOk(r, b) && LinkOk(r, HEAD) && StampOk(r, x, b);
  }

  lemma MoveNext(r: Ring, b: int, c: int)
    requires RingOk(r) && IsBuf(r, b) && OnRing(r, c) && MoveDefinedAt(r, b)
    ensures Neighbours(MoveToFront(r, b), c, MoveToFront(r, b).nxt[c])
  {
    MoveDefined(r, b);
    LinksInverse(r, b);
    LinksInverse(r, c);
    assert LinkOk(r, c);
    GapFront(r, b);
    if r.prv[b] != HEAD { GapClosed(r, b); }
    if c != b && c != HEAD && r.nxt[c] != b { GapAfter(r, b, c, r.nxt[c]); }
    MoveNextIs(r, b, c);
    hide Neighbours, MoveToFront, RingOk;
    SameGap(r, b, c, MoveToFront(r, b).nxt[c]);
  }

  /** Only the stamps and the top matter for being neighbours. */
  lemma SameGap(r: Ring, b: int, a: int, c: int)
    requires IsBuf(r, b) && MoveDefinedAt(r, b)
    ensures Neighbours(MoveToFront(r, b), a, c) == Neighbours(r.(stamp := r.stamp[b := r.top], top := r.top + 1), a, c)
  {
  }

  lemma MoveNextIs(r: Ring, b: int, c: int)
    requires RingOk(r) && IsBuf(r, b) && OnRing(r, c) && MoveDefinedAt(r, b)
    ensures MoveToFront(r, b).nxt[c] == if c == HEAD then b else if c == b then r.nxt[r.prv[b] := r.nxt[b]][HEAD]
                                        else if c == r.prv[b] then r.nxt[b] else r.nxt[c]
    ensures MoveToFront(r, b).prv[c] == if c == r.nxt[r.prv[b] := r.nxt[b]][HEAD] then b else if c == b then HEAD
                                        else if c == r.nxt[b] then r.prv[b] else r.prv[c]
  {
  }

  lemma MovePrev(r: Ring, b: int, c: int)
    requires RingOk(r) && IsBuf(r, b) && OnRing(r, c) && MoveDefinedAt(r, b)
    ensures Neighbours(MoveToFront(r, b), MoveToFront(r, b).prv[c], c)
  {
    MoveDefined(r, b);
    LinksInverse(r, b);
    LinksInverse(r, c);
    LinksInverse(r, HEAD);
    assert LinkOk(r, c);
    GapFront(r, b);
    if r.prv[b] != HEAD { GapClosed(r, b); }
    if c != b && r.prv[c] != b && r.prv[c] != HEAD { GapAfter(r, b, r.prv[c], c); }
    MoveNextIs(r, b, c);
    hide Neighbours, MoveToFront, RingOk;
    SameGap(r, b, MoveToFront(r, b).prv[c], c);
  }

  lemma MoveKeeps(r: Ring, b: int)
    requires RingOk(r) && IsBuf(r, b)
    ensures MoveDefinedAt(r, b) && RingOk(MoveToFront(r, b))
  {
    MoveDefined(r, b);
    var r' := MoveToFront(r, b);
    forall c ensures LinkOk(r', c) { if OnRing(r, c) { MoveNext(r, b, c); MovePrev(r, b, c); } }
    forall a, c ensures StampOk(r', a, c) { assert StampOk(r, a, c) && StampOk(r, c, a); }
  }

  /** binit links the next buffer in behind the head. */
  function Insert(r: Ring): Ring
    requires |r.nxt| == |r.prv| == NBUF + 1 && |r.stamp| < NBUF && OnRing(r, r.nxt[HEAD])
  {
    var b, first := |r.stamp|, r.nxt[HEAD];
    Ring(r.nxt[b := first][HEAD := b], r.prv[b := HEAD][first := b], r.stamp + [r.top], r.top + 1)
  }

  /** Old neighbours stay neighbours, and the new buffer stands between the head and the one that was first. */
  lemma InsertGap(r: Ring, a: int, c: int)
    requires RingOk(r) && |r.stamp| < NBUF && OnRing(r, r.nxt[HEAD])
    requires a != |r.stamp| && c != |r.stamp| && Neighbours(r, a, c)
    ensures if a == HEAD then Neighbours(Insert(r), |r.stamp|, c) else Neighbours(Insert(r), a, c)
  {
    var r', b := Insert(r), |r.stamp|;
    assert StampOk(r, a, c) && StampOk(r, c, a);
    var a' := if a == HEAD then b else a;
    assert Hi(r', a') == Hi(r, a) && Lo(r', c) == Lo(r, c);
    forall x | 0 <= x < |r'.stamp| ensures !(Lo(r', c) < r'.stamp[x] < Hi(r', a')) {
      assert x < b ==> r'.stamp[x] == r.stamp[x];
    }
  }

  lemma InsertKeeps(r: Ring)
    requires RingOk(r) && |r.stamp| < NBUF
    ensures OnRing(r, r.nxt[HEAD]) && RingOk(Insert(r))
  {
    LinksInverse(r, HEAD);
    var r', b, first := Insert(r), |r.stamp|, r.nxt[HEAD];
    forall a, c ensures StampOk(r', a, c) { assert StampOk(r, a, c) && StampOk(r, c, a); }
    assert LinkOk(r, HEAD);
    InsertGap(r, HEAD, first);
    assert Neighbours(r', HEAD, b);
    forall c ensures LinkOk(r', c) {
      if OnRing(r, c) {
        LinksInverse(r, c);
        assert LinkOk(r, c);
        InsertGap(r, c, r.nxt[c]);
        InsertGap(r, r.prv[c], c);
      }
      hide Neighbours, RingOk;
    }
  }

  /** k steps along next. */
  ghost function Walk(r: Ring, b: int, k: nat): int
    requires RingOk(r) && OnRing(r, b)
    decreases k
  {
    if k == 0 then b else LinksInverse(r, b); Walk(r, r.nxt[b], k - 1)
  }

  lemma {:induction false} WalkOn(r: Ring, b: int, k: nat)
    requires RingOk(r) && OnRing(r, b)
    ensures OnRing(r, Walk(r, b, k)) && Walk(r, b, k + 1) == r.nxt[Walk(r, b, k)]
    decreases k
  {
    LinksInverse(r, b);
    if k > 0 { WalkOn(r, r.nxt[b], k - 1); }
  }

  /** Every buffer is reached from the head: with LinksInverse, the ring is a permutation of all buffers. */
  lemma {:induction false} RingReachesAll(r: Ring, b: int) returns (k: nat)
    requires RingOk(r) && IsBuf(r, b)
    ensures Walk(r, HEAD, k) == b
    decreases r.top - r.stamp[b]
  {
    LinksInverse(r, b);
    assert LinkOk(r, b) && StampOk(r, b, b);
    if r.prv[b] == HEAD {
      k := 1;
      WalkOn(r, HEAD, 0);
    } else {
      assert StampOk(r, r.prv[b], b);
      var j := RingReachesAll(r, r.prv[b]);
      WalkOn(r, HEAD, j);
      k := j + 1;
    }
  }

  // ---------------------------------------------------------------- the cache

  /** At most one buffer holds a block of a real device. */
  predicate OneCopy(dev: seq<nat>, blockno: seq<nat>, i: int, j: int)
    requires |dev| == |blockno| == NBUF
  {
    0 <= i < j < NBUF && dev[i] != 0 && dev[i] == dev[j] ==> blockno[i] != blockno[j]
  }

  class BufCache {
    var nxt: seq<int>
    var prv: seq<int>
    var dev: seq<nat>
    var blockno: seq<nat>
    var valid: seq<bool>
    var refcnt: seq<nat>
    ghost var stamp: seq<int>
    ghost var top: int

    ghost function Links(): Ring
      reads this
    {
      Ring(nxt, prv, stamp, top)
    }

    ghost predicate Valid()
      reads this
    {
      && RingOk(Links()) && |stamp| == NBUF && |dev| == |blockno| == |valid| == |refcnt| == NBUF
      && forall i, j :: OneCopy(dev, blockno, i, j)
    }

    /** binit(). */
    constructor ()
      ensures Valid() && (forall b :: 0 <= b < NBUF ==> refcnt[b] == 0 && !valid[b])
    {
      nxt := seq(NBUF + 1, i => HEAD);
      prv := seq(NBUF + 1, i => HEAD);
      dev, blockno := seq(NBUF, i => 0), seq(NBUF, i => 0);
      valid, refcnt := seq(NBUF, i => false), seq(NBUF, i => 0);
      stamp, top := [], 0;
      new;
      var b := 0;
      while b < NBUF
        invariant 0 <= b <= NBUF && RingOk(Links()) && |stamp| == b && |dev| == |blockno| == |valid| == |refcnt| == NBUF
        invariant forall i :: 0 <= i < NBUF ==> dev[i] == 0 && refcnt[i] == 0 && !valid[i]
      {
        ghost var r := Links();
        InsertKeeps(r);
        hide RingOk;
        var first := nxt[HEAD];
        nxt := nxt[b := first];
        prv := prv[b := HEAD];
        prv := prv[first := b];
        nxt := nxt[HEAD := b];
        stamp, top := stamp + [top], top + 1;
        assert Links() == Insert(r);
        b := b + 1;
      }
    }

    /** The first loop of bget: the buffer that holds the block, or HEAD. */
    method Lookup(d: nat, n: nat) returns (b: int)
      requires Valid()
      ensures 0 <= b <= HEAD
      ensures b < HEAD ==> dev[b] == d && blockno[b] == n
      ensures b == HEAD ==> forall x :: 0 <= x < NBUF ==> !(dev[x] == d && blockno[x] == n)
    {
      ghost var r := Links();
      assert LinkOk(r, HEAD);
      b := nxt[HEAD];
      forall x | IsBuf(r, x) ensures r.stamp[x] <= Lo(r, b) { assert StampOk(r, x, x); }
      while b != HEAD
        invariant OnRing(r, b)
        invariant forall x :: 0 <= x < NBUF && Lo(r, b) < stamp[x] ==> !(dev[x] == d && blockno[x] == n)
        decreases Lo(r, b) + 1
      {
        assert LinkOk(r, b) && StampOk(r, b, b);
        if dev[b] == d && blockno[b] == n { return; }
        forall x | 0 <= x < NBUF && x != b ensures stamp[x] != stamp[b] { assert StampOk(r, x, b); }
        b := nxt[b];
      }
      forall x | IsBuf(r, x) ensures Lo(r, HEAD) < r.stamp[x] { assert StampOk(r, x, x); }
    }

    /** The second loop of bget: the least recently used buffer that nobody refers to, or HEAD. */
    method Victim() returns (b: int)
      requires Valid()
      ensures 0 <= b <= HEAD
      ensures b < HEAD ==> refcnt[b] == 0 && forall x :: 0 <= x < NBUF && refcnt[x] == 0 ==> stamp[b] <= stamp[x]
      ensures b == HEAD ==> forall x :: 0 <= x < NBUF ==> refcnt[x] > 0
    {
      ghost var r := Links();
      assert LinkOk(r, HEAD);
      b := prv[HEAD];
      forall x | IsBuf(r, x) ensures Hi(r, b) <= r.stamp[x] < r.top { assert StampOk(r, x, x); }
      while b != HEAD
        invariant OnRing(r, b)
        invariant forall x :: 0 <= x < NBUF && stamp[x] < Hi(r, b) ==> refcnt[x] > 0
        decreases r.top - Hi(r, b) + if b == HEAD then 0 else 1
      {
        assert LinkOk(r, b) && StampOk(r, b, b);
        if refcnt[b] == 0 { return; }
        forall x | 0 <= x < NBUF && x != b ensures stamp[x] != stamp[b] { assert StampOk(r, x, b); }
        b := prv[b];
      }
      forall x | IsBuf(r, x) ensures r.stamp[x] < Hi(r, HEAD) { assert StampOk(r, x, x); }
    }

    /** The section of bget under bcache.lock: the result is HEAD where the source panics. */
    method Get(d: nat, n: nat) returns (b: int)
      requires Valid()
      modifies `dev, `blockno, `valid, `refcnt
      ensures Valid() && 0 <= b <= HEAD
      ensures b == HEAD ==> dev == old(dev) && blockno == old(blockno) && valid == old(valid) && refcnt == old(refcnt)
      ensures b == HEAD <==> forall x :: 0 <= x < NBUF ==>
        old(refcnt)[x] > 0 && !(old(dev)[x] == d && old(blockno)[x] == n)
      ensures b < HEAD ==>
        dev == old(dev)[b := d] && blockno == old(blockno)[b := n] && refcnt == old(refcnt)[b := old(refcnt)[b] + 1]
      ensures b < HEAD ==> valid == old(valid)[b := old(valid)[b] && old(dev)[b] == d && old(blockno)[b] == n]
      ensures b < HEAD && !(old(dev)[b] == d && old(blockno)[b] == n) ==>
                && old(refcnt)[b] == 0 && (forall x :: 0 <= x < NBUF && old(refcnt)[x] == 0 ==> stamp[b] <= stamp[x])
                && forall x :: 0 <= x < NBUF ==> !(old(dev)[x] == d && old(blockno)[x] == n)
    {
      b := Lookup(d, n);
      if b != HEAD {
        refcnt := refcnt[b := refcnt[b] + 1];
        return;
      }
      b := Victim();
      if b != HEAD {
        var dev', blockno' := dev[b := d], blockno[b := n];
        forall i, j ensures OneCopy(dev', blockno', i, j) { assert OneCopy(dev, blockno, i, j); }
        dev, blockno := dev', blockno';
        valid := valid[b := false];
        refcnt := refcnt[b := 1];
      }
    }

    /** The section of brelse under bcache.lock. */
    method Put(b: int)
      requires Valid() && 0 <= b < NBUF && refcnt[b] > 0
      modifies `nxt, `prv, `stamp, `top, `refcnt
      ensures Valid() && refcnt == old(refcnt)[b := old(refcnt)[b] - 1]
      ensures if refcnt[b] == 0 then stamp == old(stamp)[b := old(top)]
        && top == old(top) + 1 else Links() == old(Links())
    {
      ghost var r := Links();
      refcnt := refcnt[b := refcnt[b] - 1];
      if refcnt[b] == 0 {
        MoveDefined(r, b);
        MoveKeeps(r, b);
        hide RingOk;
        prv := prv[nxt[b] := prv[b]];
        nxt := nxt[prv[b] := nxt[b]];
        nxt := nxt[b := nxt[HEAD]];
        prv := prv[b := HEAD];
        prv := prv[nxt[HEAD] := b];
        nxt := nxt[HEAD := b];
        stamp, top := stamp[b := top], top + 1;
        assert Links() == MoveToFront(r, b);
      }
    }
  }
}
