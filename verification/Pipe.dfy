/** pipewrite, piperead and pipeclose of pipe.c, for any number of readers, writers and closers. pi->lock is
    explicit, each byte is a step, and so is each process that a wakeup passes. sleep lets go of the lock and
    goes to sleep in one step: that no wakeup is lost in between is SleepProofs.NoLostWakeup, for any channel.
    */
module Pipe {
  import opened Common

  const PIPESIZE := 512

  datatype Lock = Free | Held(who: nat)

  /** WTell and WEnd are wakeup(&pi->nread) before the sleep and at the end of pipewrite, REnd is
      wakeup(&pi->nwrite) at the end of piperead, CEnd is the wakeup of pipeclose; j is the process it has
      come to. */
  datatype Agent =
    | Idle
    | WWant(src: seq<int>, i: nat)
    | WLoop(src: seq<int>, i: nat, from: nat)    // from: where it was when it got the lock
    | WTell(src: seq<int>, i: nat, j: nat) | WAsleep(src: seq<int>, i: nat)
    | WEnd(i: nat, j: nat)                       // i is what it will return
    | RWant(n: nat) | RWait(n: nat) | RAsleep(n: nat) | RCopy(n: nat, i: nat) | REnd(i: nat, j: nat)
    | CWant(writable: bool) | CEnd(writable: bool, j: nat)

  /** enq and deq are all the bytes that ever went in and came out. */
  datatype State = State(data: seq<int>, nread: nat, nwrite: nat, readopen: bool, writeopen: bool,
                         lock: Lock, agents: seq<Agent>, enq: seq<int>, deq: seq<int>)

  predicate At(s: State, a: nat, v: Agent) { a < |s.agents| && s.agents[a] == v }

  function Go(s: State, a: nat, v: Agent): State
    requires a < |s.agents|
  {
    s.(agents := s.agents[a := v])
  }

  function Empty(s: State): bool { s.nread == s.nwrite }

  function Full(s: State): bool { s.nwrite == (s.nread + PIPESIZE) % U32 }

  /** One round of wakeup(&pi->nread), or of wakeup(&pi->nwrite): process j is woken if it sleeps on that channel. */
  function Woken(s: State, readers: bool, j: nat): State
    requires j < |s.agents|
  {
    var v := s.agents[j];
    if readers && v.RAsleep? then Go(s, j, RWant(v.n))
    else if !readers && v.WAsleep? then Go(s, j, WWant(v.src, v.i))
    else s
  }

  // ---------------------------------------------------------------- pipewrite

  predicate DoWStart(s: State, s': State, a: nat, src: seq<int>) {
    At(s, a, Idle) && s.writeopen && s' == Go(s, a, WWant(src, 0))
  }

  predicate DoWAcquire(s: State, s': State, a: nat, src: seq<int>, i: nat) {
    At(s, a, WWant(src, i)) && s.lock.Free? && s' == Go(s, a, WLoop(src, i, i)).(lock := Held(a))
  }

  /** Writer a is in its loop, with i bytes of src written. */
  predicate Looping(s: State, a: nat, src: seq<int>, i: nat) {
    a < |s.agents| && s.agents[a].WLoop? && s.agents[a].src == src && s.agents[a].i == i
  }

  predicate DoWQuit(s: State, s': State, a: nat, src: seq<int>, i: nat, killed: bool) {
    Looping(s, a, src, i) && i < |src| && (!s.readopen || killed) && s' == Go(s, a, Idle).(lock := Free)
  }

  predicate DoWFull(s: State, s': State, a: nat, src: seq<int>, i: nat) {
    Looping(s, a, src, i) && i < |src| && s.readopen && Full(s) && s' == Go(s, a, WTell(src, i, 0))
  }

  predicate DoWTell(s: State, s': State, a: nat, src: seq<int>, i: nat, j: nat) {
    At(s, a, WTell(src, i, j)) && j < |s.agents| && s' == Go(Woken(s, true, j), a, WTell(src, i, j + 1))
  }

  predicate DoWSleep(s: State, s': State, a: nat, src: seq<int>, i: nat) {
    At(s, a, WTell(src, i, |s.agents|)) && s' == Go(s, a, WAsleep(src, i)).(lock := Free)
  }

  predicate DoWByte(s: State, s': State, a: nat, src: seq<int>, i: nat) {
    && Looping(s, a, src, i) && i < |src| && s.readopen && !Full(s) && |s.data| == PIPESIZE
    && s' == Go(s, a, WLoop(src, i + 1, s.agents[a].from)).(data := s.data[s.nwrite % PIPESIZE := src[i]],
       nwrite := (s.nwrite + 1) % U32, enq := s.enq + [src[i]])
  }

  /** All bytes are in, or copyin failed. */
  predicate DoWDone(s: State, s': State, a: nat, src: seq<int>, i: nat, fault: bool) {
    Looping(s, a, src, i) && (i >= |src| || (fault && s.readopen && !Full(s))) && s' == Go(s, a, WEnd(i, 0))
  }

  predicate DoWEnd(s: State, s': State, a: nat, i: nat, j: nat) {
    && At(s, a, WEnd(i, j))
    && s' == if j < |s.agents| then Go(Woken(s, true, j), a, WEnd(i, j + 1)) else Go(s, a, Idle).(lock := Free)
  }

  // ---------------------------------------------------------------- piperead

  predicate DoRStart(s: State, s': State, a: nat, n: nat) { At(s, a, Idle) && s.readopen && s' == Go(s, a, RWant(n)) }

  predicate DoRAcquire(s: State, s': State, a: nat, n: nat) {
    At(s, a, RWant(n)) && s.lock.Free? && s' == Go(s, a, RWait(n)).(lock := Held(a))
  }

  predicate DoRQuit(s: State, s': State, a: nat, n: nat, killed: bool) {
    At(s, a, RWait(n)) && Empty(s) && s.writeopen && killed && s' == Go(s, a, Idle).(lock := Free)
  }

  predicate DoRSleep(s: State, s': State, a: nat, n: nat) {
    At(s, a, RWait(n)) && Empty(s) && s.writeopen && s' == Go(s, a, RAsleep(n)).(lock := Free)
  }

  predicate DoRGo(s: State, s': State, a: nat, n: nat) {
    At(s, a, RWait(n)) && !(Empty(s) && s.writeopen) && s' == Go(s, a, RCopy(n, 0))
  }

  /** One byte comes out; if it cannot be copied to the user the loop ends. */
  predicate DoRByte(s: State, s': State, a: nat, n: nat, i: nat, fault: bool) {
    && At(s, a, RCopy(n, i)) && i < n && !Empty(s) && |s.data| == PIPESIZE
    && s' == Go(s, a, if fault then REnd(i, 0) else RCopy(n, i + 1))
             .(nread := (s.nread + 1) % U32, deq := s.deq + [s.data[s.nread % PIPESIZE]])
  }

  predicate DoRDone(s: State, s': State, a: nat, n: nat, i: nat) {
    At(s, a, RCopy(n, i)) && (i >= n || Empty(s)) && s' == Go(s, a, REnd(i, 0))
  }

  predicate DoREnd(s: State, s': State, a: nat, i: nat, j: nat) {
    && At(s, a, REnd(i, j))
    && s' == if j < |s.agents| then Go(Woken(s, false, j), a, REnd(i, j + 1)) else Go(s, a, Idle).(lock := Free)
  }

  // ---------------------------------------------------------------- pipeclose, kill

  predicate DoCStart(s: State, s': State, a: nat, writable: bool) { At(s, a, Idle) && s' == Go(s, a, CWant(writable)) }

  predicate DoClose(s: State, s': State, a: nat, writable: bool) {
    && At(s, a, CWant(writable)) && s.lock.Free?
    && var t := Go(s, a, CEnd(writable, 0)).(lock := Held(a));
       s' == if writable then t.(writeopen := false) else t.(readopen := false)
  }

  predicate DoCEnd(s: State, s': State, a: nat, writable: bool, j: nat) {
    && At(s, a, CEnd(writable, j))
    && s' == if j < |s.agents| then Go(Woken(s, writable, j), a, CEnd(writable, j + 1))
       else Go(s, a, Idle).(lock := Free)
  }

  predicate DoKill(s: State, s': State, a: nat) {
    && a < |s.agents|
    && match s.agents[a]
       case WAsleep(src, i) => s' == Go(s, a, WWant(src, i))
       case RAsleep(n) => s' == Go(s, a, RWant(n))
       case _ => s' == s
  }

  predicate WriteNext(s: State, s': State, a: nat, src: seq<int>, i: nat, flag: bool) {
    || DoWStart(s, s', a, src) || DoWAcquire(s, s', a, src, i)
       || DoWQuit(s, s', a, src, i, flag) || DoWFull(s, s', a, src, i)
    || DoWSleep(s, s', a, src, i) || DoWByte(s, s', a, src, i) || DoWDone(s, s', a, src, i, flag)
  }

  predicate ReadNext(s: State, s': State, a: nat, n: nat, i: nat, flag: bool) {
    || DoRStart(s, s', a, n) || DoRAcquire(s, s', a, n) || DoRQuit(s, s', a, n, flag)
       || DoRSleep(s, s', a, n) || DoRGo(s, s', a, n)
    || DoRByte(s, s', a, n, i, flag) || DoRDone(s, s', a, n, i)
  }

  /** A round of one of the wakeups. */
  predicate TellNext(s: State, s': State, a: nat, src: seq<int>, i: nat, j: nat, writable: bool) {
    DoWTell(s, s', a, src, i, j) || DoWEnd(s, s', a, i, j) || DoREnd(s, s', a, i, j) || DoCEnd(s, s', a, writable, j)
  }

  datatype Step =
    | Write(a: nat, src: seq<int>, i: nat, flag: bool) | Read(a: nat, n: nat, i: nat, flag: bool)
    | Tell(a: nat, src: seq<int>, i: nat, j: nat, writable: bool) | Close(a: nat, writable: bool) | Kill(a: nat)

  predicate Next(s: State, s': State, st: Step) {
    match st
    case Write(a, src, i, flag) => WriteNext(s, s', a, src, i, flag)
    case Read(a, n, i, flag) => ReadNext(s, s', a, n, i, flag)
    case Tell(a, src, i, j, writable) => TellNext(s, s', a, src, i, j, writable)
    case Close(a, writable) => DoCStart(s, s', a, writable) || DoClose(s, s', a, writable)
    case Kill(a) => DoKill(s, s', a)
  }

  predicate Init(s: State) {
    && |s.data| == PIPESIZE && s.nread == s.nwrite == 0 && s.readopen
    && s.writeopen && s.lock.Free? && s.enq == s.deq == []
    && forall a :: 0 <= a < |s.agents| ==> s.agents[a] == Idle
  }

  // ---------------------------------------------------------------- what every reachable state satisfies

  /** The k-th byte that went in is in its slot, if it has not come out yet, or it is the k-th that came out. */
  predicate ByteOk(s: State, k: int) {
    && (0 <= k < |s.deq| && k < |s.enq| ==> s.deq[k] == s.enq[k])
    && (|s.deq| <= k < |s.enq| && |s.data| == PIPESIZE ==> s.data[k % PIPESIZE] == s.enq[k])
  }

  ghost predicate FifoOk(s: State) {
    && |s.data| == PIPESIZE && |s.deq| <= |s.enq| <= |s.deq| + PIPESIZE
    && s.nread == |s.deq| % U32 && s.nwrite == |s.enq| % U32
    && forall k :: ByteOk(s, k)
  }

  predicate InLock(v: Agent) {
    v.WLoop? || v.WTell? || v.WEnd? || v.RWait? || v.RCopy? || v.REnd? || v.CEnd?
  }

  /** The holder of the lock will wake writer a, if it is asleep, before it lets go. */
  predicate WakeComing(s: State, a: int) {
    && s.lock.Held? && s.lock.who < |s.agents|
    && var v := s.agents[s.lock.who]; v.RCopy? || (v.REnd? && v.j <= a) || (v.CEnd? && !v.writable && v.j <= a)
  }

  predicate AgentOk(s: State, a: int) {
    0 <= a < |s.agents| ==>
      && (InLock(s.agents[a]) ==> s.lock == Held(a)) && (s.agents[a].WTell? ==> Full(s) && s.readopen)
      && (s.agents[a].WAsleep? ==> WakeComing(s, a) || (Full(s) && s.readopen))
  }

  ghost predicate Inv(s: State) { FifoOk(s) && forall a :: AgentOk(s, a) }

  /** The 32-bit counters tell empty and full apart, whether or not they have wrapped. */
  lemma CountersExact(s: State)
    requires FifoOk(s)
    ensures Empty(s) <==> |s.enq| == |s.deq|
    ensures Full(s) <==> |s.enq| == |s.deq| + PIPESIZE
    ensures s.nwrite % PIPESIZE == |s.enq| % PIPESIZE && s.nread % PIPESIZE == |s.deq| % PIPESIZE
  {
    hide ByteOk;
    WrapGap(|s.enq|, |s.deq|);
  }

  /** Two counts less than a wrap apart are told apart by what 32 bits keep of them. */
  lemma WrapGap(w: nat, r: nat)
    requires r <= w <= r + PIPESIZE
    ensures w % U32 == r % U32 <==> w == r
    ensures w % U32 == (r % U32 + PIPESIZE) % U32 <==> w == r + PIPESIZE
    ensures w % U32 % PIPESIZE == w % PIPESIZE && r % U32 % PIPESIZE == r % PIPESIZE
  {
  }

  lemma WrapNext(n: nat)
    ensures (n % U32 + 1) % U32 == (n + 1) % U32
  {
  }

  lemma FifoSame(s: State, s': State)
    requires FifoOk(s) && s'.data == s.data && s'.nread == s.nread
    requires s'.nwrite == s.nwrite && s'.enq == s.enq && s'.deq == s.deq
    ensures FifoOk(s')
  {
    forall k ensures ByteOk(s', k) { assert ByteOk(s, k); }
  }

  /** A byte goes into the slot after the last one, which is not in use. */
  lemma PushFifo(s: State, s': State, c: int)
    requires FifoOk(s) && !Full(s) && s'.data == s.data[s.nwrite % PIPESIZE := c] && s'.nread == s.nread
    requires s'.nwrite == (s.nwrite + 1) % U32 && s'.enq == s.enq + [c] && s'.deq == s.deq
    ensures FifoOk(s')
  {
    CountersExact(s);
    var w, r := |s.enq|, |s.deq|;
    WrapNext(w);
    forall k ensures ByteOk(s', k) {
      assert ByteOk(s, k);
      if r <= k < w { assert 0 < w - k < PIPESIZE; OtherSlot(k, w); }
    }
  }

  lemma OtherSlot(k: nat, w: nat)
    requires 0 < w - k < PIPESIZE
    ensures k % PIPESIZE != w % PIPESIZE
  {
  }

  lemma PopFifo(s: State, s': State)
    requires FifoOk(s) && !Empty(s) && s'.data == s.data && s'.nwrite == s.nwrite && s'.enq == s.enq
    requires s'.nread == (s.nread + 1) % U32 && s'.deq == s.deq + [s.data[s.nread % PIPESIZE]]
    ensures FifoOk(s')
  {
    CountersExact(s);
    assert ByteOk(s, |s.deq|);
    WrapNext(|s.deq|);
    forall k ensures ByteOk(s', k) {
      assert ByteOk(s, k);
      assert k < |s.deq| || k == |s.deq| || k > |s.deq|;
    }
  }

  lemma WriteAgent(s: State, s': State, a: nat, src: seq<int>, i: nat, flag: bool, x: int)
    requires AgentOk(s, a) && AgentOk(s, x) && WriteNext(s, s', a, src, i, flag)
    ensures AgentOk(s', x)
  {
  }

  lemma ReadAgent(s: State, s': State, a: nat, n: nat, i: nat, flag: bool, x: int)
    requires AgentOk(s, a) && AgentOk(s, x) && ReadNext(s, s', a, n, i, flag)
    ensures AgentOk(s', x)
  {
  }

  lemma TellReadersAgent(s: State, s': State, a: nat, src: seq<int>, i: nat, j: nat, x: int)
    requires AgentOk(s, a) && AgentOk(s, x) && (DoWTell(s, s', a, src, i, j) || DoWEnd(s, s', a, i, j))
    ensures AgentOk(s', x)
  {
  }

  lemma TellWritersAgent(s: State, s': State, a: nat, i: nat, j: nat, writable: bool, x: int)
    requires AgentOk(s, a) && AgentOk(s, x) && (DoREnd(s, s', a, i, j) || DoCEnd(s, s', a, writable, j))
    ensures AgentOk(s', x)
  {
  }

  lemma CloseAgent(s: State, s': State, a: nat, writable: bool, x: int)
    requires AgentOk(s, a) && AgentOk(s, x)
    requires (DoCStart(s, s', a, writable) || DoClose(s, s', a, writable) || DoKill(s, s', a))
    ensures AgentOk(s', x)
  {
  }

  lemma WriteKeeps(s: State, s': State, a: nat, src: seq<int>, i: nat, flag: bool)
    requires Inv(s) && WriteNext(s, s', a, src, i, flag)
    ensures Inv(s')
  {
    hide AgentOk;
    if DoWByte(s, s', a, src, i) { PushFifo(s, s', src[i]); } else { FifoSame(s, s'); }
    hide FifoOk, WriteNext;
    forall x ensures AgentOk(s', x) { WriteAgent(s, s', a, src, i, flag, x); }
  }

  lemma ReadKeeps(s: State, s': State, a: nat, n: nat, i: nat, flag: bool)
    requires Inv(s) && ReadNext(s, s', a, n, i, flag)
    ensures Inv(s')
  {
    hide AgentOk;
    if DoRByte(s, s', a, n, i, flag) { PopFifo(s, s'); } else { FifoSame(s, s'); }
    hide FifoOk, ReadNext;
    forall x ensures AgentOk(s', x) { ReadAgent(s, s', a, n, i, flag, x); }
  }

  lemma TellSame(s: State, s': State, a: nat, src: seq<int>, i: nat, j: nat, writable: bool)
    requires TellNext(s, s', a, src, i, j, writable)
    ensures s'.data == s.data && s'.nread == s.nread && s'.nwrite == s.nwrite && s'.enq == s.enq && s'.deq == s.deq
  {
  }

  lemma TellKeeps(s: State, s': State, a: nat, src: seq<int>, i: nat, j: nat, writable: bool)
    requires Inv(s) && TellNext(s, s', a, src, i, j, writable)
    ensures Inv(s')
  {
    hide AgentOk, FifoOk, DoWTell, DoWEnd, DoREnd, DoCEnd;
    TellSame(s, s', a, src, i, j, writable);
    FifoSame(s, s');
    forall x ensures AgentOk(s', x) {
      if DoWTell(s, s', a, src, i, j) || DoWEnd(s, s', a, i, j) {
        TellReadersAgent(s, s', a, src, i, j, x);
      } else {
        TellWritersAgent(s, s', a, i, j, writable, x);
      }
    }
  }

  lemma OtherKeeps(s: State, s': State, st: Step)
    requires Inv(s) && Next(s, s', st) && (st.Close? || st.Kill?)
    ensures Inv(s')
  {
    hide AgentOk;
    FifoSame(s, s');
    hide FifoOk, DoCStart, DoClose, DoKill;
    forall x ensures AgentOk(s', x) { CloseAgent(s, s', st.a, st.Close? && st.writable, x); }
  }

  // ---------------------------------------------------------------- every run

  predicate IsRun(run: seq<State>, steps: seq<Step>) {
    && |run| == |steps| + 1 && Init(run[0])
    && forall i :: 0 <= i < |steps| ==> Next(run[i], run[i + 1], steps[i])
  }

  lemma {:induction false} RunInv(run: seq<State>, steps: seq<Step>, i: nat)
    requires IsRun(run, steps) && i < |run|
    ensures Inv(run[i])
  {
    if i > 0 {
      RunInv(run, steps, i - 1);
      var s, s' := run[i - 1], run[i];
      assert Next(s, s', steps[i - 1]);
      match steps[i - 1] {
        case Write(a, src, j, flag) => WriteKeeps(s, s', a, src, j, flag);
        case Read(a, n, j, flag) => ReadKeeps(s, s', a, n, j, flag);
        case Tell(a, src, i, j, writable) => TellKeeps(s, s', a, src, i, j, writable);
        case _ => OtherKeeps(s, s', steps[i - 1]);
      }
    }
  }

  /** The bytes in the ring, oldest first. */
  ghost function Buffered(s: State): seq<int>
    requires |s.data| == PIPESIZE && |s.deq| <= |s.enq|
  {
    seq(|s.enq| - |s.deq|, k => s.data[(|s.deq| + k) % PIPESIZE])
  }

  /** What came out, followed by what is buffered, is what went in; at most PIPESIZE bytes are buffered. */
  lemma FifoAlways(run: seq<State>, steps: seq<Step>, i: nat)
    requires IsRun(run, steps) && i < |run|
    ensures |run[i].data| == PIPESIZE && |run[i].deq| <= |run[i].enq| && |Buffered(run[i])| <= PIPESIZE
    ensures run[i].deq + Buffered(run[i]) == run[i].enq
  {
    RunInv(run, steps, i);
    var s := run[i];
    forall k | 0 <= k < |s.enq| ensures (s.deq + Buffered(s))[k] == s.enq[k] { assert ByteOk(s, k); }
  }

  /** When nobody holds the lock, a writer that sleeps in pipewrite has reason to. */
  lemma WriterAsleepMeansFull(run: seq<State>, steps: seq<Step>, i: nat, a: nat)
    requires IsRun(run, steps) && i < |run| && run[i].lock.Free? && a < |run[i].agents| && run[i].agents[a].WAsleep?
    ensures |run[i].enq| == |run[i].deq| + PIPESIZE && run[i].readopen
  {
    RunInv(run, steps, i);
    CountersExact(run[i]);
    assert AgentOk(run[i], a);
  }
}
