/** What the buffer cache is for its users, told by the steps of a run: a cache that nobody notices, counts and locks
    that are exact, and calls that go on. */
module BioTheorems {
  import opened BioProtocol

  // ---------------------------------------------------------------- a cache that nobody notices

  /** Block n of device d, as the pair of both. */
  type Key = (nat, nat)

  function KeyOf(buf: Buf): Key { (buf.dev, buf.blockno) }

  function Stored(disk: map<Key, Block>, k: Key): Block { if k in disk then disk[k] else [] }

  predicate Has(s: State, b: int, k: Key) { 0 <= b < |s.bufs| && s.bufs[b].valid && KeyOf(s.bufs[b]) == k }

  /** What a block holds as far as anybody who asks the cache can tell: its valid buffer, or else the disk. */
  ghost predicate Shows(s: State, k: Key, v: Block) {
    && (forall b :: Has(s, b, k) ==> s.bufs[b].data == v)
    && ((forall b :: !Has(s, b, k)) ==> Stored(s.disk, k) == v)
  }

  /** The step recycles buffer b. */
  predicate Recycles(s: State, s': State, st: Step, b: nat) {
    st.Get? && st.b == b < |s.bufs| && DoGetMiss(s, s', st.h, b, st.d, st.n)
  }

  /** What block k holds after a step, when it held v: what was put into it, and what is on the disk if a torn buffer
      is recycled. */
  ghost function After(s: State, s': State, st: Step, k: Key, v: Block): Block {
    if st.Modify? && st.b < |s.bufs| && KeyOf(s.bufs[st.b]) == k then st.v
    else if Recycles(s, s', st, st.b) && s.bufs[st.b].torn && s.bufs[st.b].valid && KeyOf(s.bufs[st.b]) == k
    then Stored(s.disk, k)
    else v
  }

  lemma GetShows(s: State, s': State, h: nat, b: nat, d: nat, n: nat, k: Key, v: Block)
    requires Inv(s) && GetNext(s, s', h, b, d, n) && k.0 != 0 && Shows(s, k, v)
    ensures Shows(s', k, After(s, s', Get(h, b, d, n), k, v))
  {
    Look(s, b, b);
    hide Inv, Refs, RefOk, HandleOk;
    if DoGetMiss(s, s', h, b, d, n) {
      MissShows(s, s', h, b, d, n, k, v);
    } else {
      forall x ensures Has(s', x, k) == Has(s, x, k) { }
    }
  }

  lemma MissShows(s: State, s': State, h: nat, b: nat, d: nat, n: nat, k: Key, v: Block)
    requires Inv(s) && DoGetMiss(s, s', h, b, d, n) && k.0 != 0 && Shows(s, k, v)
    ensures Shows(s', k, After(s, s', Get(h, b, d, n), k, v))
  {
    hide Inv;
    Look(s, b, b);
    Unheld(s, b);
    if Has(s, b, k) {
      forall x ensures !Has(s', x, k) {
        Look(s, x, b);
      }
    } else {
      forall x ensures Has(s', x, k) == Has(s, x, k) { }
    }
  }

  /** Nobody is changing a buffer that nobody refers to. */
  lemma Unheld(s: State, b: nat)
    requires Inv(s) && b < |s.bufs| && s.bufs[b].refcnt == 0
    ensures !BeingChanged(s, b) && s.bufs[b].pins == 0
  {
    assert RefOk(s, b);
    hide Inv, Refs;
    if BeingChanged(s, b) { RefsSome(s.handles, s.bufs[b].lock.who, b); }
  }

  lemma ReadShows(s: State, s': State, h: nat, b: nat, k: Key, v: Block)
    requires Inv(s) && ReadNext(s, s', h, b) && k.0 != 0 && Shows(s, k, v)
    ensures Shows(s', k, v)
  {
    Look(s, h, h);
    hide Inv, Refs, RefOk, Agrees;
    if DoValid(s, s', h, b) && KeyOf(s.bufs[b]) == k {
      ValidShows(s, s', h, b, k, v);
    } else {
      forall x ensures Has(s', x, k) == Has(s, x, k) { }
    }
  }

  lemma ValidShows(s: State, s': State, h: nat, b: nat, k: Key, v: Block)
    requires Inv(s) && DoValid(s, s', h, b) && k.0 != 0 && Shows(s, k, v) && KeyOf(s.bufs[b]) == k
    ensures Shows(s', k, v)
  {
    hide Inv;
    Look(s, h, h);
    forall x ensures Has(s', x, k) <==> x == b {
      Look(s, x, b);
    }
    assert Has(s', b, k);
    if Has(s, b, k) {
    } else {
      forall x ensures !Has(s, x, k) { assert Has(s', x, k) <==> x == b; }
    }
  }

  lemma ModifyShows(s: State, s': State, h: nat, b: nat, use: Use, w: Block, k: Key, v: Block)
    requires Inv(s) && DoModify(s, s', h, b, use, w) && k.0 != 0 && Shows(s, k, v)
    ensures Shows(s', k, After(s, s', Modify(h, b, use, w), k, v))
  {
    hide Inv;
    Look(s, h, h);
    forall x ensures Has(s', x, k) == Has(s, x, k) { }
    if KeyOf(s.bufs[b]) == k {
      assert Has(s', b, k);
      forall x | Has(s', x, k) ensures x == b { Look(s, x, b); }
    }
  }

  lemma WriteShows(s: State, s': State, h: nat, b: nat, use: Use, k: Key, v: Block)
    requires Inv(s) && DoWrite(s, s', h, b, use) && k.0 != 0 && Shows(s, k, v)
    ensures Shows(s', k, v)
  {
    hide Inv;
    Look(s, h, h);
    forall x ensures Has(s', x, k) == Has(s, x, k) { }
    if KeyOf(s.bufs[b]) == k { assert Has(s', b, k); }
  }

  lemma OtherShows(s: State, s': State, st: Step, k: Key, v: Block)
    requires Next(s, s', st) && (st.Pin? || st.Unpin? || st.Unlock? || st.Put?) && Shows(s, k, v)
    ensures Shows(s', k, v)
  {
    forall x ensures Has(s', x, k) == Has(s, x, k) { }
  }

  /** The cache is transparent: what a block holds changes by exactly what its holder puts into it, but for a torn
      buffer that is recycled. */
  lemma Transparent(s: State, s': State, st: Step, k: Key, v: Block)
    requires Inv(s) && Next(s, s', st) && k.0 != 0 && Shows(s, k, v)
    ensures Shows(s', k, After(s, s', st, k, v))
  {
    hide Inv, Shows, GetNext, ReadNext, DoModify, DoWrite, DoPin, DoUnpin, DoUnlock, DoPut;
    match st
    case Get(h, b, d, n) => GetShows(s, s', h, b, d, n, k, v);
    case Read(h, b) => ReadShows(s, s', h, b, k, v);
    case Modify(h, b, use, w) => ModifyShows(s, s', h, b, use, w, k, v);
    case Write(h, b, use) => WriteShows(s, s', h, b, use, k, v);
    case _ => OtherShows(s, s', st, k, v);
  }

  /** What block k holds after the first n steps of a run. */
  ghost function Content(run: seq<State>, steps: seq<Step>, n: nat, k: Key): Block
    requires |run| == |steps| + 1 && n < |run|
  {
    if n == 0 then Stored(run[0].disk, k) else After(run[n - 1], run[n], steps[n - 1], k, Content(run, steps, n - 1, k))
  }

  lemma NoneValid(s: State, k: Key)
    requires Init(s)
    ensures Shows(s, k, Stored(s.disk, k))
  {
  }

  lemma {:induction false} RunShows(run: seq<State>, steps: seq<Step>, n: nat, k: Key)
    requires IsRun(run, steps) && n < |run| && k.0 != 0
    ensures Shows(run[n], k, Content(run, steps, n, k))
  {
    hide Inv, Next, Init, Shows, After;
    if n == 0 {
      NoneValid(run[0], k);
    } else {
      RunShows(run, steps, n - 1, k);
      RunInv(run, steps, n - 1);
      Transparent(run[n - 1], run[n], steps[n - 1], k, Content(run, steps, n - 1, k));
    }
  }

  /** Whoever holds a block finds in it what was last put there, by anybody, or what the disk held at the start, torn
      buffers that were recycled aside. */
  lemma HolderSees(run: seq<State>, steps: seq<Step>, n: nat, h: nat)
    requires IsRun(run, steps) && n < |run| && h < |run[n].handles| && run[n].handles[h].Holding?
    ensures var b := run[n].handles[h].b;
            b < |run[n].bufs| && run[n].bufs[b].data == Content(run, steps, n, KeyOf(run[n].bufs[b]))
  {
    hide Inv, Next, Init, After;
    RunInv(run, steps, n);
    Look(run[n], h, h);
    var b := run[n].handles[h].b;
    RunShows(run, steps, n, KeyOf(run[n].bufs[b]));
    assert Has(run[n], b, KeyOf(run[n].bufs[b]));
  }

  lemma InUse(s: State, h: nat)
    requires Inv(s) && h < |s.handles| && !s.handles[h].Idle?
    ensures s.handles[h].b < |s.bufs| && s.bufs[s.handles[h].b].refcnt > 0
  {
    hide Inv, Refs;
    Look(s, h, h);
    Look(s, s.handles[h].b, h);
    RefsSome(s.handles, h, s.handles[h].b);
  }

  lemma KeyStep(s: State, s': State, st: Step, h: nat)
    requires Inv(s) && Next(s, s', st) && h < |s.handles| == |s'.handles|
    requires !s.handles[h].Idle? && !s'.handles[h].Idle?
    ensures var b := s.handles[h].b;
            s'.handles[h].b == b < |s.bufs| == |s'.bufs| && KeyOf(s'.bufs[b]) == KeyOf(s.bufs[b])
  {
    hide Inv, Refs;
    InUse(s, h);
  }

  lemma GotKey(s: State, s': State, h: nat, b: nat, d: nat, n: nat)
    requires Next(s, s', Get(h, b, d, n)) && At(s, h, Idle)
    ensures h < |s'.handles| && s'.handles[h] == Getting(b) && b < |s'.bufs| && KeyOf(s'.bufs[b]) == (d, n)
  {
  }

  /** A call has, from bget to the end of brelse, a buffer of the block that it asked for. */
  lemma {:induction false} HoldsWhatItAsked(run: seq<State>, steps: seq<Step>, i: nat, k: nat, h: nat, b: nat, d: nat,
                                            n: nat)
    requires IsRun(run, steps) && i < k < |run| && steps[i] == Get(h, b, d, n) && At(run[i], h, Idle)
    requires forall l :: i < l <= k ==> h < |run[l].handles| && !run[l].handles[h].Idle?
    ensures run[k].handles[h].b == b < |run[k].bufs| && KeyOf(run[k].bufs[b]) == (d, n)
    decreases k
  {
    hide Inv, Next, Init;
    if k == i + 1 {
      GotKey(run[i], run[k], h, b, d, n);
    } else {
      HoldsWhatItAsked(run, steps, i, k - 1, h, b, d, n);
      RunInv(run, steps, k - 1);
      TornStep(run[k - 1], run[k], steps[k - 1], b);
      KeyStep(run[k - 1], run[k], steps[k - 1], h);
    }
  }

  // ---------------------------------------------------------------- torn buffers and pins

  /** The step writes buffer b to the disk, or recycles it. */
  predicate Mends(s: State, s': State, st: Step, b: nat) { (st.Write? && st.b == b) || Recycles(s, s', st, b) }

  lemma TornStep(s: State, s': State, st: Step, b: nat)
    requires Next(s, s', st) && b < |s.bufs|
    ensures |s'.bufs| == |s.bufs| && |s'.handles| == |s.handles|
    ensures s'.bufs[b].torn <==> TearStep(s, st, b) || (s.bufs[b].torn && !Mends(s, s', st, b))
  {
  }

  predicate TornAt(run: seq<State>, steps: seq<Step>, k: nat, b: nat, i: int) {
    && 0 <= i < k <= |steps| && |run| == |steps| + 1 && TearStep(run[i], steps[i], b)
    && forall l :: i < l < k ==> !Mends(run[l], run[l + 1], steps[l], b)
  }

  lemma NoneTorn(s: State, b: nat)
    requires Init(s) && b < |s.bufs|
    ensures !s.bufs[b].torn && s.bufs[b].pins == 0
  {
  }

  /** A buffer is torn if and only if somebody gave it back changed, with neither a write nor a pin, and it has been
      neither written nor recycled since. */
  lemma {:induction false} TornExactly(run: seq<State>, steps: seq<Step>, k: nat, b: nat)
    requires IsRun(run, steps) && k < |run| && b < |run[0].bufs|
    ensures b < |run[k].bufs| && (run[k].bufs[b].torn <==> exists i :: TornAt(run, steps, k, b, i))
  {
    hide Inv, Next, Init, TearStep, Mends;
    if k == 0 {
      NoneTorn(run[0], b);
    } else {
      var s, s', st := run[k - 1], run[k], steps[k - 1];
      TornExactly(run, steps, k - 1, b);
      TornStep(s, s', st, b);
      if s'.bufs[b].torn {
        if TearStep(s, st, b) {
          assert TornAt(run, steps, k, b, k - 1);
        } else {
          var i :| TornAt(run, steps, k - 1, b, i);
          assert TornAt(run, steps, k, b, i);
        }
      }
      if i :| TornAt(run, steps, k, b, i) {
        if i < k - 1 { assert TornAt(run, steps, k - 1, b, i) && !Mends(run[k - 1], run[k - 1 + 1], st, b); }
      }
    }
  }

  /** bpin calls for buffer b among the first k steps, less bunpin calls. */
  function Pinned(steps: seq<Step>, k: nat, b: nat): int
    requires k <= |steps|
  {
    if k == 0 then 0 else
      var st := steps[k - 1];
      Pinned(steps, k - 1, b)
      + (if st.Pin? && st.b == b then 1 else 0) - (if st.Unpin? && st.b == b then 1 else 0)
  }

  lemma PinStep(s: State, s': State, st: Step, b: nat)
    requires Inv(s) && Next(s, s', st) && b < |s.bufs|
    ensures |s'.bufs| == |s.bufs|
    ensures s'.bufs[b].pins == s.bufs[b].pins
                               + (if st.Pin? && st.b == b then 1 else 0) - (if st.Unpin? && st.b == b then 1 else 0)
  {
    if s.bufs[b].refcnt == 0 { Unheld(s, b); }
    hide Inv;
  }

  /** A buffer has exactly the pins that log_write gave it and install_trans has not taken back; it is referred to by
      these and by the calls in progress. */
  lemma {:induction false} PinsExactly(run: seq<State>, steps: seq<Step>, k: nat, b: nat)
    requires IsRun(run, steps) && k < |run| && b < |run[0].bufs|
    ensures b < |run[k].bufs| && run[k].bufs[b].pins == Pinned(steps, k, b)
    ensures run[k].bufs[b].refcnt == Refs(run[k].handles, b) + Pinned(steps, k, b)
  {
    hide Inv, Next, Init, Refs;
    RunInv(run, steps, k);
    Look(run[k], b, b);
    if k == 0 {
      NoneTorn(run[0], b);
    } else {
      PinsExactly(run, steps, k - 1, b);
      RunInv(run, steps, k - 1);
      PinStep(run[k - 1], run[k], steps[k - 1], b);
    }
  }

  // ---------------------------------------------------------------- locks, and calls that go on

  /** A buffer's sleep-lock is held only by who is inside it. */
  predicate LockOk(s: State, b: nat) {
    b < |s.bufs| && s.bufs[b].lock.Held? ==>
      var h := s.bufs[b].lock.who;
      h < |s.handles| && InLock(s.handles[h]) && s.handles[h].b == b
  }

  lemma LockStep(s: State, s': State, st: Step, b: nat)
    requires Inv(s) && Next(s, s', st) && LockOk(s, b)
    ensures LockOk(s', b)
  {
    Look(s, st.h, st.h);
    hide Inv, Refs;
  }

  lemma {:induction false} RunLock(run: seq<State>, steps: seq<Step>, k: nat, b: nat)
    requires IsRun(run, steps) && k < |run|
    ensures LockOk(run[k], b)
  {
    if k > 0 {
      hide Inv, Next, Init, LockOk;
      RunLock(run, steps, k - 1, b);
      RunInv(run, steps, k - 1);
      LockStep(run[k - 1], run[k], steps[k - 1], b);
    }
  }

  /** A buffer's sleep-lock is held by exactly the call that is inside it. */
  lemma LockExact(run: seq<State>, steps: seq<Step>, k: nat, b: nat, h: nat)
    requires IsRun(run, steps) && k < |run| && b < |run[k].bufs| && h < |run[k].handles|
    ensures run[k].bufs[b].lock == Held(h) <==> InLock(run[k].handles[h]) && run[k].handles[h].b == b
  {
    hide Inv, Next, Init;
    RunLock(run, steps, k, b);
    RunInv(run, steps, k);
    Look(run[k], h, h);
  }

  /** How many more steps a call takes until bread returns, or brelse does. */
  function Left(v: Handle): nat {
    match v
    case Getting(b) => 3
    case Locked(b) => 2
    case Reading(b) => 1
    case Releasing(b) => 1
    case _ => 0
  }

  /** A call of bread or brelse whose next lock is free has a step to take, and one that brings it closer to
      returning. */
  lemma GoesOn(run: seq<State>, steps: seq<Step>, k: nat, h: nat) returns (s': State, st: Step)
    requires IsRun(run, steps) && k < |run| && h < |run[k].handles| && Left(run[k].handles[h]) > 0
    requires
      var v := run[k].handles[h];
      v.Getting? && v.b < |run[k].bufs| ==> run[k].bufs[v.b].lock.Free?
    ensures Next(run[k], s', st) && st.h == h
  {
    hide Inv, Init;
    RunInv(run, steps, k);
    var s := run[k];
    Look(s, h, h);
    match s.handles[h] {
      case Getting(b) => s', st := Go(s, h, Locked(b), b, s.bufs[b].(lock := Held(h))), Get(h, b, 0, 0);
      case Locked(b) =>
        st := Read(h, b);
        s' := if s.bufs[b].valid then s.(handles := s.handles[h := Holding(b, Clean)])
              else Go(s, h, Reading(b), b, s.bufs[b].(data := OnDisk(s, b)));
      case Reading(b) => s', st := Go(s, h, Holding(b, Clean), b, s.bufs[b].(valid := true)), Read(h, b);
      case Releasing(b) => s', st := Go(s, h, Idle, b, s.bufs[b].(refcnt := s.bufs[b].refcnt - 1)), Put(h, b);
    }
  }

  /** Every step of a call of bread or brelse brings it closer to returning, and nobody else moves it. */
  lemma Closer(run: seq<State>, steps: seq<Step>, k: nat, h: nat)
    requires IsRun(run, steps) && k < |steps| && h < |run[k].handles| && Left(run[k].handles[h]) > 0
    ensures h < |run[k + 1].handles|
    ensures if steps[k].h == h then Left(run[k + 1].handles[h]) < Left(run[k].handles[h])
            else run[k + 1].handles[h] == run[k].handles[h]
  {
    var s, s', st := run[k], run[k + 1], steps[k];
    assert Next(s, s', st);
    hide IsRun, Init;
  }
}
