/** Any number of concurrent uses of the buffer cache: each handle is one bread ... brelse of a block. A
    section under bcache.lock is one step; so are taking and giving back a buffer's sleep-lock, and each
    transfer to or from the disk. */
module BioProtocol {

  type Block = seq<int>

  datatype Lock = Free | Held(who: nat)

  /** What the holder has done to the contents since it got the buffer. */
  datatype Use = Clean | Dirty | Written

  datatype Handle =
    | Idle
    | Getting(b: nat)          // counted in refcnt, waiting for the sleep-lock
    | Locked(b: nat)
    | Reading(b: nat)          // the disk's contents are in, valid is not set yet
    | Holding(b: nat, use: Use)
    | Releasing(b: nat)        // the sleep-lock is free again, refcnt still counts this handle

  /** pins counts the log's references, those of bpin. torn: somebody changed the contents and gave the buffer back with
      neither a write nor a pin, and nobody has written it since. */
  datatype Buf = Buf(dev: nat, blockno: nat, valid: bool, refcnt: int, lock: Lock, data: Block, pins: nat, torn: bool)

  datatype State = State(bufs: seq<Buf>, disk: map<(nat, nat), Block>, handles: seq<Handle>)

  function OnDisk(s: State, b: nat): Block
    requires b < |s.bufs|
  {
    var k := (s.bufs[b].dev, s.bufs[b].blockno);
    if k in s.disk then s.disk[k] else []
  }

  predicate At(s: State, h: nat, v: Handle) { h < |s.handles| && s.handles[h] == v }

  function Go(s: State, h: nat, v: Handle, b: nat, buf: Buf): State
    requires h < |s.handles| && b < |s.bufs|
  {
    s.(handles := s.handles[h := v], bufs := s.bufs[b := buf])
  }

  // ---------------------------------------------------------------- bget and bread

  predicate DoGetHit(s: State, s': State, h: nat, b: nat, d: nat, n: nat) {
    && At(s, h, Idle) && b < |s.bufs| && d != 0 && s.bufs[b].dev == d && s.bufs[b].blockno == n
    && s' == Go(s, h, Getting(b), b, s.bufs[b].(refcnt := s.bufs[b].refcnt + 1))
  }

  predicate Cached(s: State, d: nat, n: nat) {
    exists x :: 0 <= x < |s.bufs| && s.bufs[x].dev == d && s.bufs[x].blockno == n
  }

  predicate DoGetMiss(s: State, s': State, h: nat, b: nat, d: nat, n: nat) {
    && At(s, h, Idle) && b < |s.bufs| && d != 0 && !Cached(s, d, n) && s.bufs[b].refcnt == 0
    && s' == Go(s, h, Getting(b), b, s.bufs[b].(dev := d, blockno := n, valid := false, refcnt := 1, torn := false))
  }

  predicate DoLock(s: State, s': State, h: nat, b: nat) {
    && At(s, h, Getting(b)) && b < |s.bufs| && s.bufs[b].lock.Free?
    && s' == Go(s, h, Locked(b), b, s.bufs[b].(lock := Held(h)))
  }

  predicate DoFound(s: State, s': State, h: nat, b: nat) {
    At(s, h, Locked(b)) && b < |s.bufs| && s.bufs[b].valid && s' == s.(handles := s.handles[h := Holding(b, Clean)])
  }

  predicate DoRead(s: State, s': State, h: nat, b: nat) {
    && At(s, h, Locked(b)) && b < |s.bufs| && !s.bufs[b].valid
    && s' == Go(s, h, Reading(b), b, s.bufs[b].(data := OnDisk(s, b)))
  }

  predicate DoValid(s: State, s': State, h: nat, b: nat) {
    At(s, h, Reading(b)) && b < |s.bufs| && s' == Go(s, h, Holding(b, Clean), b, s.bufs[b].(valid := true))
  }

  // ---------------------------------------------------------------- the holder

  predicate DoModify(s: State, s': State, h: nat, b: nat, use: Use, v: Block) {
    At(s, h, Holding(b, use)) && b < |s.bufs| && s' == Go(s, h, Holding(b, Dirty), b, s.bufs[b].(data := v))
  }

  /** bpin, from log_write. */
  predicate DoPin(s: State, s': State, h: nat, b: nat, use: Use) {
    && At(s, h, Holding(b, use)) && b < |s.bufs|
    && s' == s.(bufs := s.bufs[b := s.bufs[b].(refcnt := s.bufs[b].refcnt + 1, pins := s.bufs[b].pins + 1)])
  }

  predicate DoWrite(s: State, s': State, h: nat, b: nat, use: Use) {
    && At(s, h, Holding(b, use)) && b < |s.bufs|
    && s' == Go(s, h, Holding(b, Written), b, s.bufs[b].(torn := false)).(
       disk := s.disk[(s.bufs[b].dev, s.bufs[b].blockno) := s.bufs[b].data])
  }

  /** bunpin, from install_trans: right after it wrote the block home. */
  predicate DoUnpin(s: State, s': State, h: nat, b: nat) {
    && At(s, h, Holding(b, Written)) && b < |s.bufs| && s.bufs[b].pins > 0
    && s' == s.(bufs := s.bufs[b := s.bufs[b].(refcnt := s.bufs[b].refcnt - 1, pins := s.bufs[b].pins - 1)])
  }

  /** brelse gives the sleep-lock back. Whoever changed the contents has written or logged them, but for writei when a
      copy fails half way. */
  predicate DoUnlock(s: State, s': State, h: nat, b: nat, use: Use) {
    && At(s, h, Holding(b, use)) && b < |s.bufs|
    && s' == Go(s, h, Releasing(b), b, s.bufs[b].(lock := Free, torn := s.bufs[b].torn || Tears(s, b, use)))
  }

  predicate Tears(s: State, b: nat, use: Use)
    requires b < |s.bufs|
  {
    use == Dirty && s.bufs[b].pins == 0
  }

  predicate DoPut(s: State, s': State, h: nat, b: nat) {
    && At(s, h, Releasing(b)) && b < |s.bufs|
    && s' == Go(s, h, Idle, b, s.bufs[b].(refcnt := s.bufs[b].refcnt - 1))
  }

  predicate GetNext(s: State, s': State, h: nat, b: nat, d: nat, n: nat) {
    DoGetHit(s, s', h, b, d, n) || DoGetMiss(s, s', h, b, d, n) || DoLock(s, s', h, b)
  }

  predicate ReadNext(s: State, s': State, h: nat, b: nat) {
    DoFound(s, s', h, b) || DoRead(s, s', h, b) || DoValid(s, s', h, b)
  }

  predicate HoldNext(s: State, s': State, h: nat, b: nat, use: Use, v: Block) {
    DoModify(s, s', h, b, use, v) || DoPin(s, s', h, b, use) || DoWrite(s, s', h, b, use)
  }

  predicate LeaveNext(s: State, s': State, h: nat, b: nat, use: Use) {
    DoUnpin(s, s', h, b) || DoUnlock(s, s', h, b, use) || DoPut(s, s', h, b)
  }

  datatype Step =
    | Get(h: nat, b: nat, d: nat, n: nat) | Read(h: nat, b: nat)
    | Modify(h: nat, b: nat, use: Use, v: Block) | Pin(h: nat, b: nat, use: Use) | Write(h: nat, b: nat, use: Use)
    | Unpin(h: nat, b: nat) | Unlock(h: nat, b: nat, use: Use) | Put(h: nat, b: nat)

  predicate Next(s: State, s': State, st: Step) {
    match st
    case Get(h, b, d, n) => GetNext(s, s', h, b, d, n)
    case Read(h, b) => ReadNext(s, s', h, b)
    case Modify(h, b, use, v) => DoModify(s, s', h, b, use, v)
    case Pin(h, b, use) => DoPin(s, s', h, b, use)
    case Write(h, b, use) => DoWrite(s, s', h, b, use)
    case Unpin(h, b) => DoUnpin(s, s', h, b)
    case Unlock(h, b, use) => DoUnlock(s, s', h, b, use)
    case Put(h, b) => DoPut(s, s', h, b)
  }

  /** binit: no buffer holds a block of a real device, and nobody uses one. */
  predicate Init(s: State) {
    && (forall b :: 0 <= b < |s.bufs| ==> s.bufs[b] == Buf(0, 0, false, 0, Free, [], 0, false))
    && (forall h :: 0 <= h < |s.handles| ==> s.handles[h] == Idle)
  }

  // ---------------------------------------------------------------- what every reachable state satisfies

  predicate Refers(v: Handle, b: nat) { !v.Idle? && v.b == b }

  function Refs(hs: seq<Handle>, b: nat): nat {
    if |hs| == 0 then 0 else Refs(hs[..|hs| - 1], b) + if Refers(hs[|hs| - 1], b) then 1 else 0
  }

  predicate InLock(v: Handle) { v.Locked? || v.Reading? || v.Holding? }

  /** refcnt counts the handles and the pins of a buffer. */
  predicate RefOk(s: State, b: int) { 0 <= b < |s.bufs| ==> s.bufs[b].refcnt == Refs(s.handles, b) + s.bufs[b].pins }

  predicate HandleOk(s: State, h: int) {
    0 <= h < |s.handles| && !s.handles[h].Idle? ==>
      var v := s.handles[h];
      && v.b < |s.bufs| && s.bufs[v.b].dev != 0
      && (InLock(v) ==> s.bufs[v.b].lock == Held(h))
      && (v.Holding? ==> s.bufs[v.b].valid)
      && (v.Reading? || (v.Holding? && v.use == Written) ==> s.bufs[v.b].data == OnDisk(s, v.b))
  }

  predicate OneCopy(s: State, i: int, j: int) {
    0 <= i < |s.bufs| && 0 <= j < |s.bufs| && i != j && s.bufs[i].dev != 0 && s.bufs[i].dev == s.bufs[j].dev ==>
        s.bufs[i].blockno != s.bufs[j].blockno
  }

  /** Somebody has changed the contents and not yet written or logged them. */
  predicate BeingChanged(s: State, b: nat)
    requires b < |s.bufs|
  {
    s.bufs[b].lock.Held? && At(s, s.bufs[b].lock.who, Holding(b, Dirty))
  }

  predicate Agrees(s: State, b: int) {
    0 <= b < |s.bufs| ==>
      && (s.bufs[b].valid && s.bufs[b].pins == 0 && !s.bufs[b].torn && !BeingChanged(s, b) ==>
            s.bufs[b].data == OnDisk(s, b))
      && (s.bufs[b].pins > 0 ==> s.bufs[b].valid && s.bufs[b].dev != 0)
  }

  ghost predicate Inv(s: State) {
    && (forall b :: RefOk(s, b))
    && (forall h :: HandleOk(s, h))
    && (forall i, j :: OneCopy(s, i, j))
    && (forall b :: Agrees(s, b))
  }

  // ---------------------------------------------------------------- every step keeps it

  lemma {:induction false} RefsUpdate(hs: seq<Handle>, h: nat, v: Handle, b: nat)
    requires h < |hs|
    ensures Refs(hs[h := v], b) == Refs(hs, b) - (if Refers(hs[h], b) then 1 else 0) + (if Refers(v, b) then 1 else 0)
  {
    var hs' := hs[h := v];
    if h == |hs| - 1 {
      assert hs'[..|hs| - 1] == hs[..|hs| - 1];
    } else {
      assert hs'[..|hs| - 1] == hs[..|hs| - 1][h := v];
      RefsUpdate(hs[..|hs| - 1], h, v, b);
    }
  }

  lemma {:induction false} RefsSome(hs: seq<Handle>, h: nat, b: nat)
    requires h < |hs| && Refers(hs[h], b)
    ensures Refs(hs, b) > 0
  {
    if h < |hs| - 1 { RefsSome(hs[..|hs| - 1], h, b); }
  }

  /** The invariant at one handle and two buffers. */
  lemma Look(s: State, x: int, y: int)
    requires Inv(s)
    ensures RefOk(s, x) && HandleOk(s, x) && OneCopy(s, x, y) && Agrees(s, x)
  {
  }

  lemma GetRefs(s: State, s': State, h: nat, b: nat, d: nat, n: nat, x: int)
    requires Inv(s) && GetNext(s, s', h, b, d, n)
    ensures RefOk(s', x)
  {
    hide Inv, Refs;
    Look(s, h, b);
    Look(s, b, x);
    Look(s, x, b);
    if 0 <= x {
      RefsUpdate(s.handles, h, Getting(b), x);
      RefsUpdate(s.handles, h, Locked(b), x);
    }
  }

  lemma GetAt(s: State, s': State, h: nat, b: nat, d: nat, n: nat, x: int)
    requires Inv(s) && GetNext(s, s', h, b, d, n)
    ensures HandleOk(s', x) && Agrees(s', x)
  {
    hide Inv, Refs;
    Look(s, h, b);
    Look(s, b, x);
    Look(s, x, b);
    if DoGetMiss(s, s', h, b, d, n) && 0 <= x < |s.handles| && Refers(s.handles[x], b) { RefsSome(s.handles, x, b); }
  }

  lemma GetCopies(s: State, s': State, h: nat, b: nat, d: nat, n: nat, i: int, j: int)
    requires Inv(s) && GetNext(s, s', h, b, d, n)
    ensures OneCopy(s', i, j)
  {
    Look(s, i, j);
    hide Inv, Refs;
  }

  lemma GetKeeps(s: State, s': State, h: nat, b: nat, d: nat, n: nat)
    requires Inv(s) && GetNext(s, s', h, b, d, n)
    ensures Inv(s')
  {
    hide RefOk, HandleOk, Agrees, OneCopy;
    forall x ensures RefOk(s', x) { GetRefs(s, s', h, b, d, n, x); }
    forall x ensures HandleOk(s', x) && Agrees(s', x) { GetAt(s, s', h, b, d, n, x); }
    forall i, j ensures OneCopy(s', i, j) { GetCopies(s, s', h, b, d, n, i, j); }
  }

  lemma ReadKeeps(s: State, s': State, h: nat, b: nat)
    requires Inv(s) && ReadNext(s, s', h, b)
    ensures Inv(s')
  {
    assert HandleOk(s, h) && RefOk(s, b) && Agrees(s, b);
    forall x ensures RefOk(s', x) {
      assert RefOk(s, x);
      if 0 <= x { RefsUpdate(s.handles, h, Holding(b, Clean), x); RefsUpdate(s.handles, h, Reading(b), x); }
    }
    forall x ensures HandleOk(s', x) { assert HandleOk(s, x); }
    forall i, j ensures OneCopy(s', i, j) { assert OneCopy(s, i, j); }
    forall x ensures Agrees(s', x) { assert Agrees(s, x); }
  }

  lemma HoldRefs(s: State, s': State, h: nat, b: nat, use: Use, v: Block)
    requires Inv(s) && HoldNext(s, s', h, b, use, v)
    ensures forall x :: RefOk(s', x)
  {
    assert HandleOk(s, h) && RefOk(s, b);
    hide Refs;
    forall x ensures RefOk(s', x) {
      assert RefOk(s, x);
      if 0 <= x {
        RefsUpdate(s.handles, h, Holding(b, Dirty), x);
        RefsUpdate(s.handles, h, Holding(b, Written), x);
      }
    }
  }

  lemma HoldHandle(s: State, s': State, h: nat, b: nat, use: Use, v: Block, x: int)
    requires Inv(s) && HoldNext(s, s', h, b, use, v)
    ensures HandleOk(s', x)
  {
    hide Inv, RefOk, Agrees, OneCopy, HandleOk, DoModify, DoPin, DoWrite;
    Look(s, h, b);
    Look(s, x, b);
    if 0 <= x < |s.handles| && !s.handles[x].Idle? { Look(s, b, s.handles[x].b); }
    if DoModify(s, s', h, b, use, v) {
      ModifyHandle(s, s', h, b, use, v, x);
    } else if DoPin(s, s', h, b, use) {
      PinHandle(s, s', h, b, use, x);
    } else {
      WriteHandle(s, s', h, b, use, x);
    }
  }

  lemma ModifyHandle(s: State, s': State, h: nat, b: nat, use: Use, v: Block, x: int)
    requires HandleOk(s, x) && HandleOk(s, h) && DoModify(s, s', h, b, use, v)
    ensures HandleOk(s', x)
  {
  }

  lemma PinHandle(s: State, s': State, h: nat, b: nat, use: Use, x: int)
    requires HandleOk(s, x) && DoPin(s, s', h, b, use)
    ensures HandleOk(s', x)
  {
  }

  lemma WriteHandle(s: State, s': State, h: nat, b: nat, use: Use, x: int)
    requires HandleOk(s, x) && HandleOk(s, h) && DoWrite(s, s', h, b, use)
    requires 0 <= x < |s.handles| && !s.handles[x].Idle? ==> OneCopy(s, b, s.handles[x].b)
    ensures HandleOk(s', x)
  {
  }

  lemma HoldBuf(s: State, s': State, h: nat, b: nat, use: Use, v: Block, x: int)
    requires Inv(s) && HoldNext(s, s', h, b, use, v)
    ensures Agrees(s', x)
  {
    hide Inv, RefOk;
    Look(s, h, b);
    Look(s, b, x);
    Look(s, x, b);
  }

  lemma HoldKeeps(s: State, s': State, h: nat, b: nat, use: Use, v: Block)
    requires Inv(s) && HoldNext(s, s', h, b, use, v)
    ensures Inv(s')
  {
    HoldRefs(s, s', h, b, use, v);
    hide RefOk, HandleOk, Agrees;
    forall x ensures HandleOk(s', x) && Agrees(s', x) {
      HoldHandle(s, s', h, b, use, v, x);
      HoldBuf(s, s', h, b, use, v, x);
    }
    forall i, j ensures OneCopy(s', i, j) { Look(s, i, j); }
  }

  lemma LeaveRefs(s: State, s': State, h: nat, b: nat, use: Use)
    requires Inv(s) && LeaveNext(s, s', h, b, use)
    ensures forall x :: RefOk(s', x)
  {
    assert HandleOk(s, h) && RefOk(s, b);
    hide Refs;
    forall x ensures RefOk(s', x) {
      assert RefOk(s, x);
      if 0 <= x {
        RefsUpdate(s.handles, h, Idle, x);
        RefsUpdate(s.handles, h, Releasing(b), x);
      }
    }
  }

  lemma LeaveHandle(s: State, s': State, h: nat, b: nat, use: Use, x: int)
    requires Inv(s) && LeaveNext(s, s', h, b, use)
    ensures HandleOk(s', x)
  {
    hide Inv, RefOk, OneCopy, Agrees, DoUnpin, DoUnlock, DoPut;
    Look(s, x, b);
    Look(s, h, b);
    if DoUnlock(s, s', h, b, use) {
      UnlockHandle(s, s', h, b, use, x);
    } else {
      PutHandle(s, s', h, b, x);
    }
  }

  lemma UnlockHandle(s: State, s': State, h: nat, b: nat, use: Use, x: int)
    requires HandleOk(s, x) && HandleOk(s, h) && DoUnlock(s, s', h, b, use)
    ensures HandleOk(s', x)
  {
  }

  lemma PutHandle(s: State, s': State, h: nat, b: nat, x: int)
    requires HandleOk(s, x) && (DoUnpin(s, s', h, b) || DoPut(s, s', h, b))
    ensures HandleOk(s', x)
  {
  }

  lemma LeaveBuf(s: State, s': State, h: nat, b: nat, use: Use, x: int)
    requires Inv(s) && LeaveNext(s, s', h, b, use)
    ensures Agrees(s', x)
  {
    hide Inv, RefOk, OneCopy, HandleOk, Agrees, DoUnpin, DoUnlock, DoPut;
    Look(s, h, b);
    Look(s, x, b);
    if DoUnlock(s, s', h, b, use) {
      UnlockBuf(s, s', h, b, use, x);
    } else if DoUnpin(s, s', h, b) {
      UnpinBuf(s, s', h, b, x);
    } else {
      PutBuf(s, s', h, b, x);
    }
  }

  lemma UnlockBuf(s: State, s': State, h: nat, b: nat, use: Use, x: int)
    requires HandleOk(s, h) && Agrees(s, x) && DoUnlock(s, s', h, b, use)
    ensures Agrees(s', x)
  {
  }

  lemma UnpinBuf(s: State, s': State, h: nat, b: nat, x: int)
    requires HandleOk(s, h) && Agrees(s, x) && DoUnpin(s, s', h, b)
    ensures Agrees(s', x)
  {
  }

  lemma PutBuf(s: State, s': State, h: nat, b: nat, x: int)
    requires Agrees(s, x) && DoPut(s, s', h, b)
    ensures Agrees(s', x)
  {
  }

  lemma LeaveKeeps(s: State, s': State, h: nat, b: nat, use: Use)
    requires Inv(s) && LeaveNext(s, s', h, b, use)
    ensures Inv(s')
  {
    LeaveRefs(s, s', h, b, use);
    hide RefOk, HandleOk, Agrees;
    forall x ensures HandleOk(s', x) && Agrees(s', x) {
      LeaveHandle(s, s', h, b, use, x);
      LeaveBuf(s, s', h, b, use, x);
    }
    forall i, j ensures OneCopy(s', i, j) { Look(s, i, j); }
  }

  lemma StepKeeps(s: State, s': State, st: Step)
    requires Inv(s) && Next(s, s', st)
    ensures Inv(s')
  {
    match st {
      case Get(h, b, d, n) => GetKeeps(s, s', h, b, d, n);
      case Read(h, b) => ReadKeeps(s, s', h, b);
      case Modify(h, b, use, v) => HoldKeeps(s, s', h, b, use, v);
      case Pin(h, b, use) => HoldKeeps(s, s', h, b, use, []);
      case Write(h, b, use) => HoldKeeps(s, s', h, b, use, []);
      case Unpin(h, b) => LeaveKeeps(s, s', h, b, Clean);
      case Unlock(h, b, use) => LeaveKeeps(s, s', h, b, use);
      case Put(h, b) => LeaveKeeps(s, s', h, b, Clean);
    }
  }

  lemma {:induction false} NoRefs(hs: seq<Handle>, b: nat)
    requires forall h :: 0 <= h < |hs| ==> hs[h].Idle?
    ensures Refs(hs, b) == 0
  {
    if |hs| > 0 { NoRefs(hs[..|hs| - 1], b); }
  }

  // ---------------------------------------------------------------- every run

  predicate IsRun(run: seq<State>, steps: seq<Step>) {
    && |run| == |steps| + 1 && Init(run[0])
    && forall i :: 0 <= i < |steps| ==> Next(run[i], run[i + 1], steps[i])
  }

  lemma {:induction false} RunInv(run: seq<State>, steps: seq<Step>, i: nat)
    requires IsRun(run, steps) && i < |run|
    ensures Inv(run[i])
  {
    if i == 0 {
      forall b ensures RefOk(run[0], b) { if 0 <= b { NoRefs(run[0].handles, b); } }
    } else {
      hide Inv, Next, Init;
      RunInv(run, steps, i - 1);
      StepKeeps(run[i - 1], run[i], steps[i - 1]);
    }
  }

  /** At most one buffer holds any block; one that is valid, not pinned, not locked and not torn holds what the disk
      holds. */
  lemma CacheAgreesWithDisk(run: seq<State>, steps: seq<Step>, i: nat, b: nat, c: nat)
    requires IsRun(run, steps) && i < |run| && b < |run[i].bufs| && c < |run[i].bufs|
    ensures b != c && run[i].bufs[b].dev != 0 ==>
      (run[i].bufs[b].dev, run[i].bufs[b].blockno) != (run[i].bufs[c].dev, run[i].bufs[c].blockno)
    ensures run[i].bufs[b].valid && run[i].bufs[b].pins == 0 && run[i].bufs[b].lock.Free? && !run[i].bufs[b].torn ==>
      run[i].bufs[b].data == OnDisk(run[i], b)
  {
    RunInv(run, steps, i);
    assert OneCopy(run[i], b, c) && Agrees(run[i], b);
  }

  /** The step gives buffer b back changed, with neither a write nor a pin. */
  predicate TearStep(s: State, st: Step, b: nat) { st.Unlock? && st.b == b < |s.bufs| && Tears(s, b, st.use) }

  /** The k-th state of the run below: one buffer, one handle, and block 0 of device 1. */
  function Tearing(k: nat): State {
    var refcnt, lock := if 1 <= k <= 6 then 1 else 0, if 2 <= k <= 5 then Held(0) else Free;
    var data := if k < 3 then [] else if k < 5 then [0] else [1];
    var buf := Buf(if k == 0 then 0 else 1, 0, k >= 4, refcnt, lock, data, 0, k >= 6);
    var handle := match k
      case 1 => Getting(0)
      case 2 => Locked(0)
      case 3 => Reading(0)
      case 4 => Holding(0, Clean)
      case 5 => Holding(0, Dirty)
      case 6 => Releasing(0)
      case _ => Idle;
    State([buf], map[(1, 0) := [0]], [handle])
  }

  lemma TearingGets()
    ensures Init(Tearing(0)) && Next(Tearing(0), Tearing(1), Get(0, 0, 1, 0))
    ensures Next(Tearing(1), Tearing(2), Get(0, 0, 1, 0))
  {
    assert DoGetMiss(Tearing(0), Tearing(1), 0, 0, 1, 0) && DoLock(Tearing(1), Tearing(2), 0, 0);
  }

  lemma TearingReads()
    ensures Next(Tearing(2), Tearing(3), Read(0, 0)) && Next(Tearing(3), Tearing(4), Read(0, 0))
  {
    assert DoRead(Tearing(2), Tearing(3), 0, 0) && DoValid(Tearing(3), Tearing(4), 0, 0);
  }

  lemma TearingLeaves()
    ensures Next(Tearing(4), Tearing(5), Modify(0, 0, Clean, [1])) && Next(Tearing(5), Tearing(6), Unlock(0, 0, Dirty))
    ensures Next(Tearing(6), Tearing(7), Put(0, 0)) && TearStep(Tearing(5), Unlock(0, 0, Dirty), 0)
  {
    assert DoModify(Tearing(4), Tearing(5), 0, 0, Clean, [1]) && DoUnlock(Tearing(5), Tearing(6), 0, 0, Dirty);
    assert DoPut(Tearing(6), Tearing(7), 0, 0);
  }

  /** A run that ends with such a buffer: nobody uses it, and it does not hold what the disk holds. */
  lemma TornBuffer() returns (run: seq<State>, steps: seq<Step>)
    ensures IsRun(run, steps) && |run| == 8 && TearStep(run[5], steps[5], 0)
    ensures |run[7].bufs| == 1 && run[7].bufs[0].valid && run[7].bufs[0].refcnt == 0 && run[7].bufs[0].lock.Free?
    ensures run[7].bufs[0].pins == 0 && run[7].bufs[0].data != OnDisk(run[7], 0)
  {
    hide Next, TearStep, Init;
    TearingGets();
    TearingReads();
    TearingLeaves();
    run := [Tearing(0), Tearing(1), Tearing(2), Tearing(3), Tearing(4), Tearing(5), Tearing(6), Tearing(7)];
    var get, read := Get(0, 0, 1, 0), Read(0, 0);
    steps := [get, get, read, read, Modify(0, 0, Clean, [1]), Unlock(0, 0, Dirty), Put(0, 0)];
  }

  /** Two handles are never both inside the same block. */
  lemma OneHolder(run: seq<State>, steps: seq<Step>, i: nat, h: nat, g: nat)
    requires IsRun(run, steps) && i < |run| && h < |run[i].handles| && g < |run[i].handles| && h != g
    requires InLock(run[i].handles[h]) && InLock(run[i].handles[g])
    ensures var b, c := run[i].bufs, run[i].handles;
            && c[h].b < |b| && c[g].b < |b| && (b[c[h].b].dev, b[c[h].b].blockno) != (b[c[g].b].dev, b[c[g].b].blockno)
  {
    RunInv(run, steps, i);
    assert HandleOk(run[i], h) && HandleOk(run[i], g);
    assert OneCopy(run[i], run[i].handles[h].b, run[i].handles[g].b);
  }

  lemma PinnedValid(s: State, b: nat)
    requires Inv(s) && b < |s.bufs| && s.bufs[b].pins > 0
    ensures s.bufs[b].valid && s.bufs[b].refcnt > 0
  {
    assert Agrees(s, b) && RefOk(s, b);
  }

  lemma PinnedStep(s: State, s': State, st: Step, b: nat)
    requires Inv(s) && Next(s, s', st) && b < |s.bufs| && s.bufs[b].pins > 0 && b < |s'.bufs|
    ensures s'.bufs[b].dev == s.bufs[b].dev && s'.bufs[b].blockno == s.bufs[b].blockno
  {
    PinnedValid(s, b);
    hide Inv;
  }

  /** As long as a buffer is pinned it is not recycled: it keeps its block, and valid contents. */
  lemma {:induction false} PinnedStays(run: seq<State>, steps: seq<Step>, i: nat, j: nat, b: nat)
    requires IsRun(run, steps) && i <= j < |run|
    requires (forall k :: i <= k <= j ==> b < |run[k].bufs| && run[k].bufs[b].pins > 0)
    ensures run[j].bufs[b].dev == run[i].bufs[b].dev
    ensures run[j].bufs[b].blockno == run[i].bufs[b].blockno && run[j].bufs[b].valid
  {
    hide Next, Inv, Init;
    RunInv(run, steps, j);
    PinnedValid(run[j], b);
    if i < j {
      PinnedStays(run, steps, i, j - 1, b);
      RunInv(run, steps, j - 1);
      PinnedStep(run[j - 1], run[j], steps[j - 1], b);
    }
  }
}
