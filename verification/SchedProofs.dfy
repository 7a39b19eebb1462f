/** Every step keeps the scheduling invariant: a thread step touches its own process, at most one other, and
    what it holds; the context switches and the scheduler loop hand the process lock over. */
module SchedProofs {
  import opened Common
  import opened Sched

  /** What happens to a lock when CPU c's claim to it changes from `had` to `has`. */
  predicate Took(a: Spin, b: Spin, had: bool, has: bool, c: nat) {
    b == (if has then By(c) else if had then Free else a) && (has && !had ==> a.Free?)
  }

  predicate OwnMove(s: State, s': State, c: nat, p: nat)
    requires p < |s.procs| == |s'.procs|
  {
    var a, b := s.procs[p], s'.procs[p];
    && b.cpu == a.cpu && !Out(b.pc) && StateOk(b) && PcOk(s', p, b.pc)
    && Took(a.lock, b.lock, Holds(p, a.pc, p), Holds(p, b.pc, p), c)
  }

  /** A process that is over, or has not begun. */
  predicate NoThread(pc: Pc) { pc.Dead? || pc.ExitOut? || pc == YieldOut(User) }

  /** What a step of p may do to another process q: nothing but its lock, unless it holds that lock already. */
  predicate OtherMove(s: State, s': State, c: nat, p: nat, q: nat)
    requires p < |s.procs| == |s'.procs| && q < |s.procs|
  {
    var a, b, pc, pc' := s.procs[q], s'.procs[q], s.procs[p].pc, s'.procs[p].pc;
    && b.cpu == a.cpu && StateOk(b) && Took(a.lock, b.lock, Holds(p, pc, q), Holds(p, pc', q), c)
    && (b.pc == a.pc || (NoThread(a.pc) && NoThread(b.pc)))
    && ((b.state == a.state && b.pc == a.pc) || Target(pc) == Some(q))
    && (a.state == Used ==> (b.state == Used && b.pc == a.pc) || Child(pc) == Some(q))
  }

  predicate LkMove(s: State, s': State, c: nat, p: nat, k: nat)
    requires p < |s.procs| == |s'.procs| && |s.lk| == |s'.lk|
  {
    k < |s.lk| ==>
      Took(s.lk[k], s'.lk[k], Inner(s.guard, s.procs[p].pc) == Some(k), Inner(s.guard, s'.procs[p].pc) == Some(k), c)
  }

  /** A new entry was unused before, and stays as it is until its maker makes it runnable. */
  predicate ChildMove(s: State, s': State, p: nat, q: nat)
    requires p < |s.procs| == |s'.procs| && q < |s.procs|
  {
    var was, now := Child(s.procs[p].pc), Child(s'.procs[p].pc);
    && (now.Some? && now != was ==> now == Some(q) && q != p && s.procs[q].state == Unused)
    && (now == Some(q) ==> s'.procs[q].state == Used && s'.procs[q].pc == YieldOut(User))
  }

  /** A step of process p on CPU c that switches no stack and touches at most p and q. */
  ghost predicate ThreadStep(s: State, s': State, c: nat, p: nat, q: nat) {
    && On(s, c, p) && q < |s.procs| == |s'.procs| && s'.cpus == s.cpus && s'.guard == s.guard
    && |s'.lk| == |s.lk| && |s'.val| == |s.val|
    && (forall x :: 0 <= x < |s.procs| && x != p && x != q ==> s'.procs[x] == s.procs[x])
    && OwnMove(s, s', c, p) && (q != p ==> OtherMove(s, s', c, p, q)) && ChildMove(s, s', p, q)
    && (Target(s.procs[p].pc).None? || Target(s.procs[p].pc) == Some(q))
    && (Target(s'.procs[p].pc).None? || Target(s'.procs[p].pc) == Some(q))
    && forall k: nat :: LkMove(s, s', c, p, k)
  }

  // ---------------------------------------------------------------- what a thread step keeps

  lemma Here(s: State, d: nat, x: nat)
    requires SchedInv(s)
    ensures CpuOk(s, d) && RunOk(s, x) && LockOk(s, d, x) && ForkOk(s, x)
  {
  }

  lemma GuardHere(s: State, d: nat, k: nat)
    requires SchedInv(s)
    ensures GuardOk(s, d, k)
  {
  }

  /** The thread on CPU c is p, and no other CPU runs p. */
  lemma Alone(s: State, c: nat, d: nat, p: nat)
    requires SchedInv(s) && On(s, c, p) && On(s, d, p)
    ensures c == d
  {
    assert CpuOk(s, c) && CpuOk(s, d);
  }

  lemma OverOrNew(s: State, x: nat, pc: Pc)
    ensures NoThread(pc) ==>
      Out(pc) && Child(pc).None? && Inner(s.guard, pc).None? && Target(pc).None? && !Own(pc) && PcOk(s, x, pc)
  {
  }

  lemma ThreadCpu(s: State, s': State, c: nat, p: nat, q: nat, d: nat)
    requires SchedInv(s) && ThreadStep(s, s', c, p, q)
    ensures CpuOk(s', d)
  {
    Here(s, c, p);
    Here(s, d, q);
    Here(s, c, q);
    Here(s, d, p);
    OverOrNew(s, q, s.procs[q].pc);
    OverOrNew(s', q, s'.procs[q].pc);
    hide SchedInv, StateOk, PcOk, NoThread;
  }

  lemma ThreadRun(s: State, s': State, c: nat, p: nat, q: nat, x: nat)
    requires SchedInv(s) && ThreadStep(s, s', c, p, q)
    ensures RunOk(s', x)
  {
    Here(s, c, p);
    Here(s, c, x);
    OverOrNew(s, q, s.procs[q].pc);
    OverOrNew(s', q, s'.procs[q].pc);
    hide SchedInv, StateOk, LkMove, NoThread, Took;
  }

  /** What another CPU claims is not changed by the step. */
  lemma OthersClaim(s: State, s': State, c: nat, p: nat, q: nat, d: nat, x: nat)
    requires SchedInv(s) && ThreadStep(s, s', c, p, q) && d != c
    ensures Claims(s', d, x) == Claims(s, d, x) && ClaimsLk(s', d, x) == ClaimsLk(s, d, x)
  {
    Here(s, c, p);
    Here(s, d, x);
    OverOrNew(s, q, s.procs[q].pc);
    OverOrNew(s', q, s'.procs[q].pc);
    hide SchedInv, StateOk, PcOk, LkMove, Took, Target, Own, Child, NoThread;
  }

  lemma ThreadLock(s: State, s': State, c: nat, p: nat, q: nat, d: nat, x: nat)
    requires SchedInv(s) && ThreadStep(s, s', c, p, q)
    ensures LockOk(s', d, x)
  {
    Here(s, c, x);
    Here(s, d, x);
    if d != c { OthersClaim(s, s', c, p, q, d, x); }
    hide SchedInv, StateOk, PcOk, LkMove, Target, Own, Child, CpuOk;
  }

  lemma ThreadGuard(s: State, s': State, c: nat, p: nat, q: nat, d: nat, k: nat)
    requires SchedInv(s) && ThreadStep(s, s', c, p, q)
    ensures GuardOk(s', d, k)
  {
    assert GuardOk(s, c, k) && GuardOk(s, d, k) && LkMove(s, s', c, p, k);
    if d != c { OthersClaim(s, s', c, p, q, d, k); }
    hide SchedInv, StateOk, PcOk, Target, Own, Child, CpuOk, Inner, Holds;
  }

  lemma ThreadFork(s: State, s': State, c: nat, p: nat, q: nat, x: nat, y: nat)
    requires SchedInv(s) && ThreadStep(s, s', c, p, q)
    ensures ForkOk(s', x) && Lone(s', x, y)
  {
    Here(s, c, p);
    Here(s, c, x);
    Here(s, c, y);
    assert Lone(s, x, y) && Lone(s, x, p);
    OverOrNew(s, q, s.procs[q].pc);
    OverOrNew(s', q, s'.procs[q].pc);
    hide SchedInv, PcOk, LkMove, Took, Own, Target, Inner, NoThread;
  }

  lemma ThreadStepKeeps(s: State, s': State, c: nat, p: nat, q: nat)
    requires SchedInv(s) && ThreadStep(s, s', c, p, q)
    ensures SchedInv(s')
  {
    assert |s'.lk| == |s'.val|;
    forall d ensures CpuOk(s', d) { ThreadCpu(s, s', c, p, q, d); }
    forall x ensures RunOk(s', x) { ThreadRun(s, s', c, p, q, x); }
    forall d, x ensures LockOk(s', d, x) { ThreadLock(s, s', c, p, q, d, x); }
    forall d, k ensures GuardOk(s', d, k) { ThreadGuard(s, s', c, p, q, d, k); }
    forall x ensures ForkOk(s', x) { ThreadFork(s, s', c, p, q, x, x); }
    forall x, y ensures Lone(s', x, y) { ThreadFork(s, s', c, p, q, x, y); }
  }

  // ---------------------------------------------------------------- which steps are thread steps

  /** What p's thread on CPU c knows of its own process, of the locks it holds and of the process q. */
  lemma Mine(s: State, c: nat, p: nat, q: nat)
    requires SchedInv(s) && On(s, c, p) && q < |s.procs|
    ensures |s.lk| == |s.val|
    ensures var pc := s.procs[p].pc;
            && !Out(pc) && StateOk(s.procs[p]) && PcOk(s, p, pc) && StateOk(s.procs[q])
            && (Holds(p, pc, p) <==> s.procs[p].lock == By(c)) && (Holds(p, pc, q) <==> s.procs[q].lock == By(c))
            && (Holds(p, pc, q) && q != p ==> !Own(s.procs[q].pc))
            && (Inner(s.guard, pc).Some? ==> s.lk[Inner(s.guard, pc).value] == By(c))
            && (Child(pc) == Some(q) ==> s.procs[q].state == Used && s.procs[q].pc == YieldOut(User))
  {
    Here(s, c, p);
    Here(s, c, q);
    Here(s, s.procs[q].cpu, q);
    if Inner(s.guard, s.procs[p].pc).Some? { assert GuardOk(s, c, Inner(s.guard, s.procs[p].pc).value); }
    hide SchedInv, StateOk, Own, Target, Inner, Child;
  }

  lemma AcquireMoves(s: State, s': State, c: nat, p: nat, k: nat)
    requires SchedInv(s) && DoAcquire(s, s', c, p, k)
    ensures ThreadStep(s, s', c, p, p)
  {
    hide SchedInv;
    Mine(s, c, p, p);
  }

  lemma WriteMoves(s: State, s': State, c: nat, p: nat, k: nat, v: int)
    requires SchedInv(s) && DoWrite(s, s', c, p, k, v)
    ensures ThreadStep(s, s', c, p, p)
  {
    hide SchedInv;
    Mine(s, c, p, p);
  }

  lemma UnlockMoves(s: State, s': State, c: nat, p: nat, k: nat)
    requires SchedInv(s) && DoUnlock(s, s', c, p, k)
    ensures ThreadStep(s, s', c, p, p)
  {
    hide SchedInv;
    Mine(s, c, p, p);
  }

  lemma SleepCallMoves(s: State, s': State, c: nat, p: nat, ch: nat)
    requires SchedInv(s) && DoSleepCall(s, s', c, p, ch)
    ensures ThreadStep(s, s', c, p, p)
  {
    hide SchedInv;
    Mine(s, c, p, p);
  }

  lemma SleepLockMoves(s: State, s': State, c: nat, p: nat, ch: nat)
    requires SchedInv(s) && DoSleepLock(s, s', c, p, ch)
    ensures ThreadStep(s, s', c, p, p)
  {
    hide SchedInv;
    Mine(s, c, p, p);
  }

  lemma SleepReleaseMoves(s: State, s': State, c: nat, p: nat, ch: nat)
    requires SchedInv(s) && DoSleepRelease(s, s', c, p, ch)
    ensures ThreadStep(s, s', c, p, p)
  {
    hide SchedInv;
    Mine(s, c, p, p);
  }

  lemma SleepChanMoves(s: State, s': State, c: nat, p: nat, ch: nat)
    requires SchedInv(s) && DoSleepChan(s, s', c, p, ch)
    ensures ThreadStep(s, s', c, p, p)
  {
    hide SchedInv;
    Mine(s, c, p, p);
  }

  lemma SleepStateMoves(s: State, s': State, c: nat, p: nat, ch: nat)
    requires SchedInv(s) && DoSleepState(s, s', c, p, ch)
    ensures ThreadStep(s, s', c, p, p)
  {
    hide SchedInv;
    Mine(s, c, p, p);
  }

  lemma SleepBackMoves(s: State, s': State, c: nat, p: nat, ch: nat)
    requires SchedInv(s) && DoSleepBack(s, s', c, p, ch)
    ensures ThreadStep(s, s', c, p, p)
  {
    hide SchedInv;
    Mine(s, c, p, p);
  }

  lemma SleepDoneMoves(s: State, s': State, c: nat, p: nat, ch: nat)
    requires SchedInv(s) && DoSleepDone(s, s', c, p, ch)
    ensures ThreadStep(s, s', c, p, p)
  {
    hide SchedInv;
    Mine(s, c, p, p);
  }

  lemma RetakeMoves(s: State, s': State, c: nat, p: nat, ch: nat)
    requires SchedInv(s) && DoRetake(s, s', c, p, ch)
    ensures ThreadStep(s, s', c, p, p)
  {
    hide SchedInv;
    Mine(s, c, p, p);
  }

  lemma WakeCallMoves(s: State, s': State, c: nat, p: nat, ch: nat)
    requires SchedInv(s) && DoWakeCall(s, s', c, p, ch)
    ensures ThreadStep(s, s', c, p, p)
  {
    hide SchedInv;
    Mine(s, c, p, p);
  }

  lemma WakeSkipMoves(s: State, s': State, c: nat, p: nat, ch: nat)
    requires SchedInv(s) && DoWakeSkip(s, s', c, p, ch)
    ensures ThreadStep(s, s', c, p, p)
  {
    hide SchedInv;
    Mine(s, c, p, p);
  }

  lemma WakeLockMoves(s: State, s': State, c: nat, p: nat, ch: nat, j: nat)
    requires SchedInv(s) && DoWakeLock(s, s', c, p, ch, j)
    ensures ThreadStep(s, s', c, p, j)
  {
    hide SchedInv;
    Mine(s, c, p, j);
  }

  lemma WakeTestMoves(s: State, s': State, c: nat, p: nat, ch: nat, j: nat)
    requires SchedInv(s) && DoWakeTest(s, s', c, p, ch, j)
    ensures ThreadStep(s, s', c, p, j)
  {
    hide SchedInv;
    Mine(s, c, p, j);
  }

  lemma WakeUnlockMoves(s: State, s': State, c: nat, p: nat, ch: nat, j: nat)
    requires SchedInv(s) && DoWakeUnlock(s, s', c, p, ch, j)
    ensures ThreadStep(s, s', c, p, j)
  {
    hide SchedInv;
    Mine(s, c, p, j);
  }

  lemma WakeEndMoves(s: State, s': State, c: nat, p: nat, ch: nat)
    requires SchedInv(s) && DoWakeEnd(s, s', c, p, ch)
    ensures ThreadStep(s, s', c, p, p)
  {
    hide SchedInv;
    Mine(s, c, p, p);
  }

  lemma YieldLockMoves(s: State, s': State, c: nat, p: nat, r: Rest)
    requires SchedInv(s) && DoYieldLock(s, s', c, p, r)
    ensures ThreadStep(s, s', c, p, p)
  {
    hide SchedInv;
    Mine(s, c, p, p);
  }

  lemma YieldStateMoves(s: State, s': State, c: nat, p: nat, r: Rest)
    requires SchedInv(s) && DoYieldState(s, s', c, p, r)
    ensures ThreadStep(s, s', c, p, p)
  {
    hide SchedInv;
    Mine(s, c, p, p);
  }

  lemma YieldBackMoves(s: State, s': State, c: nat, p: nat, r: Rest)
    requires SchedInv(s) && DoYieldBack(s, s', c, p, r)
    ensures ThreadStep(s, s', c, p, p)
  {
    hide SchedInv;
    Mine(s, c, p, p);
  }

  lemma KillLockMoves(s: State, s': State, c: nat, p: nat, q: nat)
    requires SchedInv(s) && DoKillLock(s, s', c, p, q)
    ensures ThreadStep(s, s', c, p, q)
  {
    hide SchedInv;
    Mine(s, c, p, q);
  }

  lemma KillSetMoves(s: State, s': State, c: nat, p: nat, q: nat)
    requires SchedInv(s) && DoKillSet(s, s', c, p, q)
    ensures ThreadStep(s, s', c, p, q)
  {
    hide SchedInv;
    Mine(s, c, p, q);
  }

  lemma KillUnlockMoves(s: State, s': State, c: nat, p: nat, q: nat)
    requires SchedInv(s) && DoKillUnlock(s, s', c, p, q)
    ensures ThreadStep(s, s', c, p, q)
  {
    hide SchedInv;
    Mine(s, c, p, q);
  }

  lemma ForkLockMoves(s: State, s': State, c: nat, p: nat, n: nat)
    requires SchedInv(s) && DoForkLock(s, s', c, p, n)
    ensures ThreadStep(s, s', c, p, n)
  {
    hide SchedInv;
    Mine(s, c, p, n);
  }

  lemma ForkTakeMoves(s: State, s': State, c: nat, p: nat, n: nat)
    requires SchedInv(s) && DoForkTake(s, s', c, p, n)
    ensures ThreadStep(s, s', c, p, n)
  {
    hide SchedInv;
    Mine(s, c, p, n);
  }

  lemma ForkSkipMoves(s: State, s': State, c: nat, p: nat, n: nat)
    requires SchedInv(s) && DoForkSkip(s, s', c, p, n)
    ensures ThreadStep(s, s', c, p, n)
  {
    hide SchedInv;
    Mine(s, c, p, n);
  }

  lemma ForkKeepMoves(s: State, s': State, c: nat, p: nat, n: nat)
    requires SchedInv(s) && DoForkKeep(s, s', c, p, n)
    ensures ThreadStep(s, s', c, p, n)
  {
    hide SchedInv;
    Mine(s, c, p, n);
  }

  lemma ForkFailMoves(s: State, s': State, c: nat, p: nat, n: nat)
    requires SchedInv(s) && DoForkFail(s, s', c, p, n)
    ensures ThreadStep(s, s', c, p, n)
  {
    hide SchedInv;
    Mine(s, c, p, n);
  }

  lemma ForkRelockMoves(s: State, s': State, c: nat, p: nat, n: nat)
    requires SchedInv(s) && DoForkRelock(s, s', c, p, n)
    ensures ThreadStep(s, s', c, p, n)
  {
    hide SchedInv;
    Mine(s, c, p, n);
  }

  lemma ForkReadyMoves(s: State, s': State, c: nat, p: nat, n: nat)
    requires SchedInv(s) && DoForkReady(s, s', c, p, n)
    ensures ThreadStep(s, s', c, p, n)
  {
    hide SchedInv;
    Mine(s, c, p, n);
  }

  lemma ForkUnlockMoves(s: State, s': State, c: nat, p: nat, n: nat)
    requires SchedInv(s) && DoForkUnlock(s, s', c, p, n)
    ensures ThreadStep(s, s', c, p, n)
  {
    hide SchedInv;
    Mine(s, c, p, n);
  }

  lemma ExitLockMoves(s: State, s': State, c: nat, p: nat, k: nat)
    requires SchedInv(s) && DoExitLock(s, s', c, p, k)
    ensures ThreadStep(s, s', c, p, p)
  {
    hide SchedInv;
    Mine(s, c, p, p);
  }

  lemma ExitStateMoves(s: State, s': State, c: nat, p: nat, k: nat)
    requires SchedInv(s) && DoExitState(s, s', c, p, k)
    ensures ThreadStep(s, s', c, p, p)
  {
    hide SchedInv;
    Mine(s, c, p, p);
  }

  lemma ExitReleaseMoves(s: State, s': State, c: nat, p: nat, k: nat)
    requires SchedInv(s) && DoExitRelease(s, s', c, p, k)
    ensures ThreadStep(s, s', c, p, p)
  {
    hide SchedInv;
    Mine(s, c, p, p);
  }

  lemma ReapLockMoves(s: State, s': State, c: nat, p: nat, k: nat, q: nat)
    requires SchedInv(s) && DoReapLock(s, s', c, p, k, q)
    ensures ThreadStep(s, s', c, p, q)
  {
    hide SchedInv;
    Mine(s, c, p, q);
  }

  lemma ReapTestMoves(s: State, s': State, c: nat, p: nat, k: nat, q: nat, ok: bool)
    requires SchedInv(s) && DoReapTest(s, s', c, p, k, q, ok)
    ensures ThreadStep(s, s', c, p, q)
  {
    hide SchedInv;
    Mine(s, c, p, q);
  }

  lemma ReapUnlockMoves(s: State, s': State, c: nat, p: nat, k: nat, q: nat)
    requires SchedInv(s) && DoReapUnlock(s, s', c, p, k, q)
    ensures ThreadStep(s, s', c, p, q)
  {
    hide SchedInv;
    Mine(s, c, p, q);
  }

  lemma SleepIsThreadStep(s: State, s': State, c: nat, p: nat, ch: nat)
    requires SchedInv(s) && SleepNext(s, s', c, p, ch)
    ensures ThreadStep(s, s', c, p, p)
  {
    hide SchedInv, ThreadStep, DoSleepLock, DoSleepRelease, DoSleepChan, DoSleepState;
    if DoSleepLock(s, s', c, p, ch) {
      SleepLockMoves(s, s', c, p, ch);
    } else if DoSleepRelease(s, s', c, p, ch) {
      SleepReleaseMoves(s, s', c, p, ch);
    } else if DoSleepChan(s, s', c, p, ch) {
      SleepChanMoves(s, s', c, p, ch);
    } else {
      SleepStateMoves(s, s', c, p, ch);
    }
  }

  lemma WokenIsThreadStep(s: State, s': State, c: nat, p: nat, ch: nat)
    requires SchedInv(s) && WokenNext(s, s', c, p, ch)
    ensures ThreadStep(s, s', c, p, p)
  {
    hide SchedInv, ThreadStep, DoSleepBack, DoSleepDone, DoRetake;
    if DoSleepBack(s, s', c, p, ch) {
      SleepBackMoves(s, s', c, p, ch);
    } else if DoSleepDone(s, s', c, p, ch) {
      SleepDoneMoves(s, s', c, p, ch);
    } else {
      RetakeMoves(s, s', c, p, ch);
    }
  }

  lemma WakingIsThreadStep(s: State, s': State, c: nat, p: nat, ch: nat, j: nat)
    requires SchedInv(s) && WakingNext(s, s', c, p, ch, j)
    ensures ThreadStep(s, s', c, p, if DoWakeSkip(s, s', c, p, ch) then p else j)
  {
    hide SchedInv, ThreadStep, DoWakeSkip, DoWakeLock, DoWakeTest, DoWakeUnlock;
    if DoWakeSkip(s, s', c, p, ch) {
      WakeSkipMoves(s, s', c, p, ch);
    } else if DoWakeLock(s, s', c, p, ch, j) {
      WakeLockMoves(s, s', c, p, ch, j);
    } else if DoWakeTest(s, s', c, p, ch, j) {
      WakeTestMoves(s, s', c, p, ch, j);
    } else {
      WakeUnlockMoves(s, s', c, p, ch, j);
    }
  }

  lemma YieldIsThreadStep(s: State, s': State, c: nat, p: nat, r: Rest)
    requires SchedInv(s) && YieldNext(s, s', c, p, r)
    ensures ThreadStep(s, s', c, p, p)
  {
    hide SchedInv, ThreadStep, DoYieldLock, DoYieldState, DoYieldBack;
    if DoYieldLock(s, s', c, p, r) {
      YieldLockMoves(s, s', c, p, r);
    } else if DoYieldState(s, s', c, p, r) {
      YieldStateMoves(s, s', c, p, r);
    } else {
      YieldBackMoves(s, s', c, p, r);
    }
  }

  lemma KillIsThreadStep(s: State, s': State, c: nat, p: nat, q: nat)
    requires SchedInv(s) && KillNext(s, s', c, p, q)
    ensures ThreadStep(s, s', c, p, q)
  {
    hide SchedInv, ThreadStep, DoKillLock, DoKillSet, DoKillUnlock;
    if DoKillLock(s, s', c, p, q) {
      KillLockMoves(s, s', c, p, q);
    } else if DoKillSet(s, s', c, p, q) {
      KillSetMoves(s, s', c, p, q);
    } else {
      KillUnlockMoves(s, s', c, p, q);
    }
  }

  lemma ForkIsThreadStep(s: State, s': State, c: nat, p: nat, n: nat)
    requires SchedInv(s) && ForkNext(s, s', c, p, n)
    ensures ThreadStep(s, s', c, p, n)
  {
    hide SchedInv, ThreadStep, DoForkLock, DoForkTake, DoForkSkip, DoForkKeep, DoForkFail;
    if DoForkLock(s, s', c, p, n) {
      ForkLockMoves(s, s', c, p, n);
    } else if DoForkTake(s, s', c, p, n) {
      ForkTakeMoves(s, s', c, p, n);
    } else if DoForkSkip(s, s', c, p, n) {
      ForkSkipMoves(s, s', c, p, n);
    } else if DoForkKeep(s, s', c, p, n) {
      ForkKeepMoves(s, s', c, p, n);
    } else {
      ForkFailMoves(s, s', c, p, n);
    }
  }

  lemma StartIsThreadStep(s: State, s': State, c: nat, p: nat, n: nat)
    requires SchedInv(s) && StartNext(s, s', c, p, n)
    ensures ThreadStep(s, s', c, p, n)
  {
    hide SchedInv, ThreadStep, DoForkRelock, DoForkReady, DoForkUnlock;
    if DoForkRelock(s, s', c, p, n) {
      ForkRelockMoves(s, s', c, p, n);
    } else if DoForkReady(s, s', c, p, n) {
      ForkReadyMoves(s, s', c, p, n);
    } else {
      ForkUnlockMoves(s, s', c, p, n);
    }
  }

  lemma ExitIsThreadStep(s: State, s': State, c: nat, p: nat, k: nat)
    requires SchedInv(s) && ExitNext(s, s', c, p, k)
    ensures ThreadStep(s, s', c, p, p)
  {
    hide SchedInv, ThreadStep, DoExitLock, DoExitState, DoExitRelease;
    if DoExitLock(s, s', c, p, k) {
      ExitLockMoves(s, s', c, p, k);
    } else if DoExitState(s, s', c, p, k) {
      ExitStateMoves(s, s', c, p, k);
    } else {
      ExitReleaseMoves(s, s', c, p, k);
    }
  }

  lemma ReapIsThreadStep(s: State, s': State, c: nat, p: nat, k: nat, q: nat, ok: bool)
    requires SchedInv(s) && ReapNext(s, s', c, p, k, q, ok)
    ensures ThreadStep(s, s', c, p, q)
  {
    hide SchedInv, ThreadStep, DoReapLock, DoReapTest, DoReapUnlock;
    if DoReapLock(s, s', c, p, k, q) {
      ReapLockMoves(s, s', c, p, k, q);
    } else if DoReapTest(s, s', c, p, k, q, ok) {
      ReapTestMoves(s, s', c, p, k, q, ok);
    } else {
      ReapUnlockMoves(s, s', c, p, k, q);
    }
  }

  lemma IsThreadStep(s: State, s': State, c: nat, p: nat, a: Act) returns (q: nat)
    requires SchedInv(s) && ProcNext(s, s', c, p, a) && !a.SwitchOut?
    ensures ThreadStep(s, s', c, p, q)
  {
    hide SchedInv, ThreadStep;
    q := p;
    match a
    case Acquire(k) => AcquireMoves(s, s', c, p, k);
    case Write(k, v) => WriteMoves(s, s', c, p, k, v);
    case Unlock(k) => UnlockMoves(s, s', c, p, k);
    case SleepCall(ch) => SleepCallMoves(s, s', c, p, ch);
    case Sleep(ch) => SleepIsThreadStep(s, s', c, p, ch);
    case Woken(ch) => WokenIsThreadStep(s, s', c, p, ch);
    case WakeCall(ch) => WakeCallMoves(s, s', c, p, ch);
    case Waking(ch, j) =>
      WakingIsThreadStep(s, s', c, p, ch, j);
      q := if DoWakeSkip(s, s', c, p, ch) then p else j;
    case WakeEnd(ch) => WakeEndMoves(s, s', c, p, ch);
    case Yield(r) => YieldIsThreadStep(s, s', c, p, r);
    case Kill(x) =>
      KillIsThreadStep(s, s', c, p, x);
      q := x;
    case Fork(n) =>
      ForkIsThreadStep(s, s', c, p, n);
      q := n;
    case Start(n) =>
      StartIsThreadStep(s, s', c, p, n);
      q := n;
    case Exit(k) => ExitIsThreadStep(s, s', c, p, k);
    case Reap(k, x, ok) =>
      ReapIsThreadStep(s, s', c, p, k, x, ok);
      q := x;
  }

  // ---------------------------------------------------------------- context switches and the scheduler loop

  /** What such a step of CPU c may do to the process i it is about: nothing but its lock, unless it holds
      that lock already. */
  ghost predicate LoopMove(s: State, s': State, c: nat, i: nat)
    requires i < |s.procs| == |s'.procs|
  {
    var a, b := s.procs[i], s'.procs[i];
    && Took(a.lock, b.lock, Claims(s, c, i), Claims(s', c, i), c) && Child(b.pc) == Child(a.pc)
    && ((b.pc == a.pc && b.state == a.state && b.cpu == a.cpu) || Claims(s, c, i))
    && (a.state == Used ==> b.state == Used && b.pc == a.pc)
    && (forall d: nat :: d != c && On(s, d, i) ==> b.pc == a.pc && b.cpu == a.cpu)
  }

  ghost predicate LoopStep(s: State, s': State, c: nat, i: nat) {
    && c < |s.cpus| == |s'.cpus| && i < |s.procs| == |s'.procs|
    && s'.lk == s.lk && s'.val == s.val && s'.guard == s.guard
    && (forall d :: 0 <= d < |s.cpus| && d != c ==> s'.cpus[d] == s.cpus[d])
    && (forall x :: 0 <= x < |s.procs| && x != i ==> s'.procs[x] == s.procs[x])
    && LoopMove(s, s', c, i) && CpuOk(s', c) && RunOk(s', i)
    && (forall x: nat :: x != i ==> !Claims(s, c, x) && !Claims(s', c, x) && !On(s, c, x) && !On(s', c, x))
    && forall k: nat :: !ClaimsLk(s, c, k) && !ClaimsLk(s', c, k)
  }

  lemma LoopCpu(s: State, s': State, c: nat, i: nat, d: nat)
    requires SchedInv(s) && LoopStep(s, s', c, i)
    ensures CpuOk(s', d)
  {
    Here(s, d, i);
    Here(s, c, i);
    hide SchedInv, RunOk, Child;
  }

  lemma LoopRun(s: State, s': State, c: nat, i: nat, x: nat)
    requires SchedInv(s) && LoopStep(s, s', c, i)
    ensures RunOk(s', x)
  {
    Here(s, c, x);
    if x < |s.procs| { Here(s, s.procs[x].cpu, x); }
    hide SchedInv, CpuOk, StateOk, Claims, ClaimsLk;
  }

  lemma LoopClaim(s: State, s': State, c: nat, i: nat, d: nat, x: nat)
    requires SchedInv(s) && LoopStep(s, s', c, i) && d != c
    ensures Claims(s', d, x) == Claims(s, d, x) && ClaimsLk(s', d, x) == ClaimsLk(s, d, x)
  {
    Here(s, d, x);
    if d < |s.cpus| && s.cpus[d].on.Some? { assert On(s, d, s.cpus[d].on.value); }
    hide SchedInv, RunOk, Took, Own, Target, Inner, Child;
  }

  lemma LoopLock(s: State, s': State, c: nat, i: nat, d: nat, x: nat)
    requires SchedInv(s) && LoopStep(s, s', c, i)
    ensures LockOk(s', d, x) && GuardOk(s', d, x)
  {
    Here(s, c, x);
    Here(s, d, x);
    assert GuardOk(s, d, x);
    if d != c { LoopClaim(s, s', c, i, d, x); }
    hide SchedInv, RunOk, CpuOk, Claims, ClaimsLk;
  }

  lemma LoopFork(s: State, s': State, c: nat, i: nat, x: nat, y: nat)
    requires SchedInv(s) && LoopStep(s, s', c, i)
    ensures ForkOk(s', x) && Lone(s', x, y)
  {
    Here(s, c, x);
    assert Lone(s, x, y);
    hide SchedInv, RunOk, CpuOk, Claims, ClaimsLk, Child;
  }

  lemma LoopStepKeeps(s: State, s': State, c: nat, i: nat)
    requires SchedInv(s) && LoopStep(s, s', c, i)
    ensures SchedInv(s')
  {
    assert |s'.lk| == |s'.val|;
    forall d ensures CpuOk(s', d) { LoopCpu(s, s', c, i, d); }
    forall x ensures RunOk(s', x) { LoopRun(s, s', c, i, x); }
    forall d, x ensures LockOk(s', d, x) { LoopLock(s, s', c, i, d, x); }
    forall d, k ensures GuardOk(s', d, k) { LoopLock(s, s', c, i, d, k); }
    forall x ensures ForkOk(s', x) { LoopFork(s, s', c, i, x, x); }
    forall x, y ensures Lone(s', x, y) { LoopFork(s, s', c, i, x, y); }
  }

  /** What the scheduler loop on CPU c knows of the process i it is looking at: it is on no stack if its lock
      is held here. */
  lemma Looking(s: State, c: nat, i: nat)
    requires SchedInv(s) && c < |s.cpus| && i < |s.procs| && s.cpus[c].on.None?
    ensures |s.lk| == |s.val| && CpuOk(s, c) && LockOk(s, c, i) && StateOk(s.procs[i]) && PcOk(s, i, s.procs[i].pc)
    ensures !Out(s.procs[i].pc) ==> On(s, s.procs[i].cpu, i)
    ensures Claims(s, c, i) ==> !Own(s.procs[i].pc)
    ensures forall d: nat :: On(s, d, i) ==> d == s.procs[i].cpu && !Out(s.procs[i].pc)
  {
    Here(s, c, i);
    Here(s, s.procs[i].cpu, i);
    forall d: nat | On(s, d, i) ensures d == s.procs[i].cpu && !Out(s.procs[i].pc) { Here(s, d, i); }
    hide SchedInv, StateOk, PcOk, Own, Target;
  }

  /** Around its swtch the CPU holds no lock but that of the thread it leaves. */
  lemma LeavesNothing(s: State, s': State, c: nat, p: nat)
    requires SchedInv(s) && DoSwitchOut(s, s', c, p)
    ensures forall x: nat :: x != p ==> !Claims(s, c, x) && !Claims(s', c, x) && !On(s, c, x) && !On(s', c, x)
    ensures forall k: nat :: !ClaimsLk(s, c, k) && !ClaimsLk(s', c, k)
    ensures Claims(s, c, p) && Claims(s', c, p)
  {
    Here(s, c, p);
    hide SchedInv, StateOk, PcOk, RunOk, LockOk, ForkOk;
  }

  /** sched(): the CPU leaves p's stack for the scheduler context that switched to p, and keeps p's lock. */
  lemma SwitchOutIs(s: State, s': State, c: nat, p: nat)
    requires SchedInv(s) && DoSwitchOut(s, s', c, p)
    ensures LoopStep(s, s', c, p)
  {
    hide SchedInv;
    Mine(s, c, p, p);
    Here(s, c, p);
    forall d: nat | On(s, d, p) ensures d == c { Alone(s, c, d, p); }
    LeavesNothing(s, s', c, p);
    hide Claims, ClaimsLk;
  }

  /** The scheduler's swtch: nobody else can be on the stack it enters. */
  lemma SwitchInIs(s: State, s': State, c: nat, i: nat)
    requires SchedInv(s) && DoSwitchIn(s, s', c, i)
    ensures LoopStep(s, s', c, i)
  {
    hide SchedInv;
    Looking(s, c, i);
  }

  /** The scheduler loop around the switch touches process i only while holding its lock. */
  lemma LoopIs(s: State, s': State, c: nat, i: nat)
    requires SchedInv(s) && LoopNext(s, s', c, i)
    ensures LoopStep(s, s', c, i)
  {
    hide SchedInv, LoopStep, DoTest, DoDispatch, DoScan, DoBack, DoRelease;
    if DoTest(s, s', c, i) || DoDispatch(s, s', c, i) { PickIs(s, s', c, i); } else { RoundIs(s, s', c, i); }
  }

  lemma PickIs(s: State, s': State, c: nat, i: nat)
    requires SchedInv(s) && (DoTest(s, s', c, i) || DoDispatch(s, s', c, i))
    ensures LoopStep(s, s', c, i)
  {
    hide SchedInv;
    Looking(s, c, i);
  }

  lemma RoundIs(s: State, s': State, c: nat, i: nat)
    requires SchedInv(s) && (DoScan(s, s', c, i) || DoBack(s, s', c, i) || DoRelease(s, s', c, i))
    ensures LoopStep(s, s', c, i)
  {
    hide SchedInv;
    Looking(s, c, i);
  }

  lemma SchedInvKept(s: State, s': State, st: Step)
    requires SchedInv(s) && Next(s, s', st)
    ensures SchedInv(s')
  {
    hide SchedInv, LoopStep, ThreadStep;
    match st
    case SchedStep(c, i) =>
      if DoSwitchIn(s, s', c, i) { SwitchInIs(s, s', c, i); } else { LoopIs(s, s', c, i); }
      LoopStepKeeps(s, s', c, i);
    case ProcStep(c, p, a) =>
      if a.SwitchOut? {
        SwitchOutIs(s, s', c, p);
        LoopStepKeeps(s, s', c, p);
      } else {
        var q := IsThreadStep(s, s', c, p, a);
        ThreadStepKeeps(s, s', c, p, q);
      }
  }

  lemma InitInv(s: State)
    requires Init(s)
    ensures SchedInv(s)
  {
    forall d ensures CpuOk(s, d) { }
    forall x ensures RunOk(s, x) && ForkOk(s, x) { }
  }

  lemma {:induction false} RunSchedInv(run: seq<State>, steps: seq<Step>, i: nat)
    requires IsRun(run, steps) && i < |run|
    ensures SchedInv(run[i])
  {
    hide SchedInv, Next;
    if i == 0 {
      InitInv(run[0]);
    } else {
      RunSchedInv(run, steps, i - 1);
      assert Next(run[i - 1], run[i - 1 + 1], steps[i - 1]);
      SchedInvKept(run[i - 1], run[i], steps[i - 1]);
    }
  }

  // ---------------------------------------------------------------- one CPU per kernel stack

  /** A CPU on p's kernel stack sees p running or holds p's lock, and no other CPU is on that stack; over
      whole runs, in which processes exit, are freed and have their table entries and stacks taken again. */
  lemma OneCpuPerStack(run: seq<State>, steps: seq<Step>, i: nat, c: nat, p: nat)
    requires IsRun(run, steps) && i < |run| && On(run[i], c, p)
    ensures var s := run[i];
            && (s.procs[p].state == Running || s.procs[p].lock == By(c))
            && s.cpus[c].proc == Some(p) && forall d: nat :: On(s, d, p) ==> d == c
  {
    RunSchedInv(run, steps, i);
    hide SchedInv;
    Mine(run[i], c, p, p);
    Here(run[i], c, p);
    forall d: nat | On(run[i], d, p) ensures d == c { Alone(run[i], c, d, p); }
  }

  /** When wait is about to free the zombie q, no CPU is on q's kernel stack or about to enter it; and
      allocproc takes only entries whose stack nobody is on. */
  lemma FreedOffStack(run: seq<State>, steps: seq<Step>, i: nat, c: nat, p: nat, q: nat)
    requires IsRun(run, steps) && i < |run| && On(run[i], c, p) && q < |run[i].procs|
    requires var s := run[i];
             || (s.procs[p].pc.ReapLocked? && s.procs[p].pc.q == q && s.procs[q].state == Zombie)
             || (s.procs[p].pc == ForkTest(q) && s.procs[q].state == Unused)
    ensures var s := run[i];
            && s.procs[q].lock == By(c) && Out(s.procs[q].pc)
            && (forall d: nat :: !On(s, d, q))
            && forall d :: 0 <= d < |s.cpus| && s.cpus[d].on.None? && LoopHolds(s.cpus[d].spc) ==> s.cpus[d].spc.i != q
  {
    var s := run[i];
    RunSchedInv(run, steps, i);
    hide SchedInv;
    Mine(s, c, p, q);
    Here(s, c, q);
    forall d: nat
      ensures !On(s, d, q) && (d < |s.cpus| && s.cpus[d].on.None? && LoopHolds(s.cpus[d].spc) ==> s.cpus[d].spc.i != q)
    {
      Here(s, d, q);
    }
  }

  /** None of sched()'s panics can happen: p->lock is held here and no other spin-lock is, and p is not RUNNING. */
  lemma SchedNeverPanics(run: seq<State>, steps: seq<Step>, i: nat, c: nat, p: nat)
    requires IsRun(run, steps) && i < |run| && On(run[i], c, p) && Leaving(run[i].procs[p].pc)
    ensures var s := run[i];
            && s.procs[p].lock == By(c) && s.procs[p].state != Running && s.cpus[c].spc == Away(p)
            && (forall q :: 0 <= q < |s.procs| && s.procs[q].lock == By(c) ==> q == p)
            && forall k :: 0 <= k < |s.lk| ==> s.lk[k] != By(c)
  {
    hide SchedInv, Next, Init;
    var s := run[i];
    RunSchedInv(run, steps, i);
    Mine(s, c, p, p);
    Here(s, c, p);
    forall q | 0 <= q < |s.procs| && s.procs[q].lock == By(c) ensures q == p { Here(s, c, q); }
    forall k | 0 <= k < |s.lk| ensures s.lk[k] != By(c) { GuardHere(s, c, k); }
    hide PcOk, RunOk, ForkOk;
  }
}
