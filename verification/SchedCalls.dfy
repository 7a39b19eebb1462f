/** What kill, sleep, wakeup, fork and the scheduler do for their callers, told by the states and steps of a run
    alone. */
module SchedCalls {
  import opened Common
  import opened Sched
  import opened SchedProofs

  // ---------------------------------------------------------------- one step

  /** The process that the step is one of, or that the scheduler is looking at. */
  function Mover(st: Step): nat { if st.ProcStep? then st.p else st.i }

  /** The step is kill's, on entry x, whose lock it holds. */
  predicate Hits(s: State, st: Step, x: nat) { st.ProcStep? && st.p < |s.procs| && s.procs[st.p].pc == KillLocked(x) }

  /** The step is that of a wakeup on x's channel that holds x's lock. */
  predicate Wakes(s: State, st: Step, x: nat) {
    && st.ProcStep? && st.p < |s.procs| && x < |s.procs| && s.procs[x].chan.Some?
    && s.procs[st.p].pc == WakeLocked(s.procs[x].chan.value, x)
  }

  predicate Frees(s: State, s': State, x: nat) {
    x < |s.procs| && x < |s'.procs| && s.procs[x].state != Unused && s'.procs[x].state == Unused
  }

  /** The step is wait's, on the zombie x, whose lock it holds, and the copy of the status has not failed. */
  predicate Reaps(s: State, st: Step, x: nat) {
    && st.ProcStep? && st.p < |s.procs| && x < |s.procs| && s.procs[st.p].pc.ReapLocked? && s.procs[st.p].pc.q == x
    && s.procs[x].state == Zombie && st.a.Reap? && st.a.ok
  }

  /** The step is fork's, on the entry x that it has taken: it may find no memory. */
  predicate Making(s: State, st: Step, x: nat) { st.ProcStep? && st.p < |s.procs| && s.procs[st.p].pc == ForkUsed(x) }

  /** Only a thread in sleep, from where it sets its channel to where it clears it, has one. */
  predicate ChannelOk(pr: Proc) {
    var pc := pr.pc;
    pr.chan == if pc.SleepState? || pc.SleepSwitch? || pc.SleepOut? || pc.SleepBack? then Some(pc.ch) else None
  }

  lemma Fine(s: State, p: nat, x: nat)
    requires SchedInv(s) && x < |s.procs|
    ensures StateOk(s.procs[x]) && Known(s, p)
  {
    assert RunOk(s, x) && RunOk(s, p) && ForkOk(s, p);
  }

  /** What p's thread knows of its own process, and of the one it is making. */
  predicate Known(s: State, p: nat) {
    p < |s.procs| ==> StateOk(s.procs[p]) && PcOk(s, p, s.procs[p].pc) && ForkOk(s, p)
  }

  /** What a step does to the entry x. */
  predicate CallStep(s: State, s': State, st: Step, x: nat) {
    && x < |s.procs| == |s'.procs| && Mover(st) < |s.procs|
    && var a, b := s.procs[x], s'.procs[x];
    && (Reaps(s, st, x) ==> Frees(s, s', x)) && (Frees(s, s', x) ==> Reaps(s, st, x) || Making(s, st, x))
    && b.killed == (!Frees(s, s', x) && (a.killed || Hits(s, st, x)))
    && (a.state == Sleeping ==> b.state == if Wakes(s, st, x) || Hits(s, st, x) then Runnable else Sleeping)
    && (ChannelOk(a) ==> ChannelOk(b))
    && (x != Mover(st) ==> Child(b.pc) == Child(a.pc))
    && (b.state == Used ==>
          || Child(s'.procs[Mover(st)].pc) == Some(x)
          || (a.state == Used && Child(s.procs[Mover(st)].pc) != Some(x)))
  }

  lemma AcquireCalls(s: State, s': State, c: nat, p: nat, a: Act, k: nat, x: nat)
    requires DoAcquire(s, s', c, p, k) && x < |s.procs| && StateOk(s.procs[x]) && Known(s, p)
    ensures CallStep(s, s', ProcStep(c, p, a), x)
  {
  }

  lemma WriteCalls(s: State, s': State, c: nat, p: nat, a: Act, k: nat, v: int, x: nat)
    requires DoWrite(s, s', c, p, k, v) && x < |s.procs| && StateOk(s.procs[x]) && Known(s, p)
    ensures CallStep(s, s', ProcStep(c, p, a), x)
  {
  }

  lemma UnlockCalls(s: State, s': State, c: nat, p: nat, a: Act, k: nat, x: nat)
    requires DoUnlock(s, s', c, p, k) && x < |s.procs| && StateOk(s.procs[x]) && Known(s, p)
    ensures CallStep(s, s', ProcStep(c, p, a), x)
  {
  }

  lemma SleepCallCalls(s: State, s': State, c: nat, p: nat, a: Act, ch: nat, x: nat)
    requires DoSleepCall(s, s', c, p, ch) && x < |s.procs| && StateOk(s.procs[x]) && Known(s, p)
    ensures CallStep(s, s', ProcStep(c, p, a), x)
  {
  }

  lemma WakeCallCalls(s: State, s': State, c: nat, p: nat, a: Act, ch: nat, x: nat)
    requires DoWakeCall(s, s', c, p, ch) && x < |s.procs| && StateOk(s.procs[x]) && Known(s, p)
    ensures CallStep(s, s', ProcStep(c, p, a), x)
  {
  }

  lemma WakeEndCalls(s: State, s': State, c: nat, p: nat, a: Act, ch: nat, x: nat)
    requires DoWakeEnd(s, s', c, p, ch) && x < |s.procs| && StateOk(s.procs[x]) && Known(s, p)
    ensures CallStep(s, s', ProcStep(c, p, a), x)
  {
  }

  lemma SleepLockCalls(s: State, s': State, c: nat, p: nat, a: Act, ch: nat, x: nat)
    requires DoSleepLock(s, s', c, p, ch) && x < |s.procs| && StateOk(s.procs[x]) && Known(s, p)
    ensures CallStep(s, s', ProcStep(c, p, a), x)
  {
  }

  lemma SleepReleaseCalls(s: State, s': State, c: nat, p: nat, a: Act, ch: nat, x: nat)
    requires DoSleepRelease(s, s', c, p, ch) && x < |s.procs| && StateOk(s.procs[x]) && Known(s, p)
    ensures CallStep(s, s', ProcStep(c, p, a), x)
  {
  }

  lemma SleepChanCalls(s: State, s': State, c: nat, p: nat, a: Act, ch: nat, x: nat)
    requires DoSleepChan(s, s', c, p, ch) && x < |s.procs| && StateOk(s.procs[x]) && Known(s, p)
    ensures CallStep(s, s', ProcStep(c, p, a), x)
  {
  }

  lemma SleepStateCalls(s: State, s': State, c: nat, p: nat, a: Act, ch: nat, x: nat)
    requires DoSleepState(s, s', c, p, ch) && x < |s.procs| && StateOk(s.procs[x]) && Known(s, p)
    ensures CallStep(s, s', ProcStep(c, p, a), x)
  {
  }

  lemma SleepBackCalls(s: State, s': State, c: nat, p: nat, a: Act, ch: nat, x: nat)
    requires DoSleepBack(s, s', c, p, ch) && x < |s.procs| && StateOk(s.procs[x]) && Known(s, p)
    ensures CallStep(s, s', ProcStep(c, p, a), x)
  {
  }

  lemma SleepDoneCalls(s: State, s': State, c: nat, p: nat, a: Act, ch: nat, x: nat)
    requires DoSleepDone(s, s', c, p, ch) && x < |s.procs| && StateOk(s.procs[x]) && Known(s, p)
    ensures CallStep(s, s', ProcStep(c, p, a), x)
  {
  }

  lemma RetakeCalls(s: State, s': State, c: nat, p: nat, a: Act, ch: nat, x: nat)
    requires DoRetake(s, s', c, p, ch) && x < |s.procs| && StateOk(s.procs[x]) && Known(s, p)
    ensures CallStep(s, s', ProcStep(c, p, a), x)
  {
  }

  lemma WakeSkipCalls(s: State, s': State, c: nat, p: nat, a: Act, ch: nat, x: nat)
    requires DoWakeSkip(s, s', c, p, ch) && x < |s.procs| && StateOk(s.procs[x]) && Known(s, p)
    ensures CallStep(s, s', ProcStep(c, p, a), x)
  {
  }

  lemma WakeLockCalls(s: State, s': State, c: nat, p: nat, a: Act, ch: nat, j: nat, x: nat)
    requires DoWakeLock(s, s', c, p, ch, j) && x < |s.procs| && StateOk(s.procs[x]) && Known(s, p)
    ensures CallStep(s, s', ProcStep(c, p, a), x)
  {
  }

  lemma WakeTestCalls(s: State, s': State, c: nat, p: nat, a: Act, ch: nat, j: nat, x: nat)
    requires DoWakeTest(s, s', c, p, ch, j) && x < |s.procs| && StateOk(s.procs[x]) && Known(s, p)
    ensures CallStep(s, s', ProcStep(c, p, a), x)
  {
  }

  lemma WakeUnlockCalls(s: State, s': State, c: nat, p: nat, a: Act, ch: nat, j: nat, x: nat)
    requires DoWakeUnlock(s, s', c, p, ch, j) && x < |s.procs| && StateOk(s.procs[x]) && Known(s, p)
    ensures CallStep(s, s', ProcStep(c, p, a), x)
  {
  }

  lemma YieldLockCalls(s: State, s': State, c: nat, p: nat, a: Act, r: Rest, x: nat)
    requires DoYieldLock(s, s', c, p, r) && x < |s.procs| && StateOk(s.procs[x]) && Known(s, p)
    ensures CallStep(s, s', ProcStep(c, p, a), x)
  {
  }

  lemma YieldStateCalls(s: State, s': State, c: nat, p: nat, a: Act, r: Rest, x: nat)
    requires DoYieldState(s, s', c, p, r) && x < |s.procs| && StateOk(s.procs[x]) && Known(s, p)
    ensures CallStep(s, s', ProcStep(c, p, a), x)
  {
  }

  lemma YieldBackCalls(s: State, s': State, c: nat, p: nat, a: Act, r: Rest, x: nat)
    requires DoYieldBack(s, s', c, p, r) && x < |s.procs| && StateOk(s.procs[x]) && Known(s, p)
    ensures CallStep(s, s', ProcStep(c, p, a), x)
  {
  }

  lemma KillLockCalls(s: State, s': State, c: nat, p: nat, a: Act, q: nat, x: nat)
    requires DoKillLock(s, s', c, p, q) && x < |s.procs| && StateOk(s.procs[x]) && Known(s, p)
    ensures CallStep(s, s', ProcStep(c, p, a), x)
  {
  }

  lemma KillSetCalls(s: State, s': State, c: nat, p: nat, a: Act, q: nat, x: nat)
    requires DoKillSet(s, s', c, p, q) && x < |s.procs| && StateOk(s.procs[x]) && Known(s, p)
    ensures CallStep(s, s', ProcStep(c, p, a), x)
  {
  }

  lemma KillUnlockCalls(s: State, s': State, c: nat, p: nat, a: Act, q: nat, x: nat)
    requires DoKillUnlock(s, s', c, p, q) && x < |s.procs| && StateOk(s.procs[x]) && Known(s, p)
    ensures CallStep(s, s', ProcStep(c, p, a), x)
  {
  }

  lemma ForkLockCalls(s: State, s': State, c: nat, p: nat, a: Act, n: nat, x: nat)
    requires DoForkLock(s, s', c, p, n) && x < |s.procs| && StateOk(s.procs[x]) && Known(s, p)
    ensures CallStep(s, s', ProcStep(c, p, a), x)
  {
  }

  lemma ForkTakeCalls(s: State, s': State, c: nat, p: nat, a: Act, n: nat, x: nat)
    requires DoForkTake(s, s', c, p, n) && x < |s.procs| && StateOk(s.procs[x]) && Known(s, p)
    ensures CallStep(s, s', ProcStep(c, p, a), x)
  {
  }

  lemma ForkSkipCalls(s: State, s': State, c: nat, p: nat, a: Act, n: nat, x: nat)
    requires DoForkSkip(s, s', c, p, n) && x < |s.procs| && StateOk(s.procs[x]) && Known(s, p)
    ensures CallStep(s, s', ProcStep(c, p, a), x)
  {
  }

  lemma ForkKeepCalls(s: State, s': State, c: nat, p: nat, a: Act, n: nat, x: nat)
    requires DoForkKeep(s, s', c, p, n) && x < |s.procs| && StateOk(s.procs[x]) && Known(s, p)
    ensures CallStep(s, s', ProcStep(c, p, a), x)
  {
  }

  lemma ForkFailCalls(s: State, s': State, c: nat, p: nat, a: Act, n: nat, x: nat)
    requires DoForkFail(s, s', c, p, n) && x < |s.procs| && StateOk(s.procs[x]) && Known(s, p)
    ensures CallStep(s, s', ProcStep(c, p, a), x)
  {
  }

  lemma ForkRelockCalls(s: State, s': State, c: nat, p: nat, a: Act, n: nat, x: nat)
    requires DoForkRelock(s, s', c, p, n) && x < |s.procs| && StateOk(s.procs[x]) && Known(s, p)
    ensures CallStep(s, s', ProcStep(c, p, a), x)
  {
  }

  lemma ForkReadyCalls(s: State, s': State, c: nat, p: nat, a: Act, n: nat, x: nat)
    requires DoForkReady(s, s', c, p, n) && x < |s.procs| && StateOk(s.procs[x]) && Known(s, p)
    ensures CallStep(s, s', ProcStep(c, p, a), x)
  {
  }

  lemma ForkUnlockCalls(s: State, s': State, c: nat, p: nat, a: Act, n: nat, x: nat)
    requires DoForkUnlock(s, s', c, p, n) && x < |s.procs| && StateOk(s.procs[x]) && Known(s, p)
    ensures CallStep(s, s', ProcStep(c, p, a), x)
  {
  }

  lemma ExitLockCalls(s: State, s': State, c: nat, p: nat, a: Act, k: nat, x: nat)
    requires DoExitLock(s, s', c, p, k) && x < |s.procs| && StateOk(s.procs[x]) && Known(s, p)
    ensures CallStep(s, s', ProcStep(c, p, a), x)
  {
  }

  lemma ExitStateCalls(s: State, s': State, c: nat, p: nat, a: Act, k: nat, x: nat)
    requires DoExitState(s, s', c, p, k) && x < |s.procs| && StateOk(s.procs[x]) && Known(s, p)
    ensures CallStep(s, s', ProcStep(c, p, a), x)
  {
  }

  lemma ExitReleaseCalls(s: State, s': State, c: nat, p: nat, a: Act, k: nat, x: nat)
    requires DoExitRelease(s, s', c, p, k) && x < |s.procs| && StateOk(s.procs[x]) && Known(s, p)
    ensures CallStep(s, s', ProcStep(c, p, a), x)
  {
  }

  lemma ReapLockCalls(s: State, s': State, c: nat, p: nat, a: Act, k: nat, q: nat, x: nat)
    requires DoReapLock(s, s', c, p, k, q) && x < |s.procs| && StateOk(s.procs[x]) && Known(s, p)
    ensures CallStep(s, s', ProcStep(c, p, a), x)
  {
  }

  lemma ReapTestCalls(s: State, s': State, c: nat, p: nat, a: Act, k: nat, q: nat, ok: bool, x: nat)
    requires DoReapTest(s, s', c, p, k, q, ok) && x < |s.procs| && StateOk(s.procs[x]) && Known(s, p)
    requires a == Reap(k, q, ok)
    ensures CallStep(s, s', ProcStep(c, p, a), x)
  {
  }

  lemma ReapUnlockCalls(s: State, s': State, c: nat, p: nat, a: Act, k: nat, q: nat, x: nat)
    requires DoReapUnlock(s, s', c, p, k, q) && x < |s.procs| && StateOk(s.procs[x]) && Known(s, p)
    ensures CallStep(s, s', ProcStep(c, p, a), x)
  {
  }

  lemma SwitchOutCalls(s: State, s': State, c: nat, p: nat, a: Act, x: nat)
    requires DoSwitchOut(s, s', c, p) && x < |s.procs| && StateOk(s.procs[x]) && Known(s, p)
    ensures CallStep(s, s', ProcStep(c, p, a), x)
  {
  }

  lemma LoopCalls(s: State, s': State, c: nat, i: nat, x: nat)
    requires SchedInv(s) && (LoopNext(s, s', c, i) || DoSwitchIn(s, s', c, i)) && x < |s.procs|
    ensures CallStep(s, s', SchedStep(c, i), x)
  {
    hide SchedInv;
    Fine(s, i, x);
  }

  lemma Calls(s: State, s': State, st: Step, x: nat)
    requires SchedInv(s) && Next(s, s', st) && x < |s.procs|
    ensures CallStep(s, s', st, x)
  {
    hide SchedInv, ProcNext, LoopNext, DoSwitchIn, CallStep;
    match st
    case SchedStep(c, i) => LoopCalls(s, s', c, i, x);
    case ProcStep(c, p, a) => ThreadCalls(s, s', c, p, a, x);
  }

  lemma SleepGroup(s: State, s': State, c: nat, p: nat, a: Act, x: nat)
    requires SchedInv(s) && ProcNext(s, s', c, p, a) && a.Sleep? && x < |s.procs|
    ensures CallStep(s, s', ProcStep(c, p, a), x)
  {
    hide SchedInv, CallStep, StateOk, Known, DoSleepLock, DoSleepRelease, DoSleepChan, DoSleepState;
    Fine(s, p, x);
    if DoSleepLock(s, s', c, p, a.ch) {
      SleepLockCalls(s, s', c, p, a, a.ch, x);
    } else if DoSleepRelease(s, s', c, p, a.ch) {
      SleepReleaseCalls(s, s', c, p, a, a.ch, x);
    } else if DoSleepChan(s, s', c, p, a.ch) {
      SleepChanCalls(s, s', c, p, a, a.ch, x);
    } else {
      SleepStateCalls(s, s', c, p, a, a.ch, x);
    }
  }

  lemma WokenGroup(s: State, s': State, c: nat, p: nat, a: Act, x: nat)
    requires SchedInv(s) && ProcNext(s, s', c, p, a) && a.Woken? && x < |s.procs|
    ensures CallStep(s, s', ProcStep(c, p, a), x)
  {
    hide SchedInv, CallStep, StateOk, Known, DoSleepBack, DoSleepDone, DoRetake;
    Fine(s, p, x);
    if DoSleepBack(s, s', c, p, a.ch) {
      SleepBackCalls(s, s', c, p, a, a.ch, x);
    } else if DoSleepDone(s, s', c, p, a.ch) {
      SleepDoneCalls(s, s', c, p, a, a.ch, x);
    } else {
      RetakeCalls(s, s', c, p, a, a.ch, x);
    }
  }

  lemma WakingGroup(s: State, s': State, c: nat, p: nat, a: Act, x: nat)
    requires SchedInv(s) && ProcNext(s, s', c, p, a) && a.Waking? && x < |s.procs|
    ensures CallStep(s, s', ProcStep(c, p, a), x)
  {
    hide SchedInv, CallStep, StateOk, Known, DoWakeSkip, DoWakeLock, DoWakeTest, DoWakeUnlock;
    Fine(s, p, x);
    if DoWakeSkip(s, s', c, p, a.ch) {
      WakeSkipCalls(s, s', c, p, a, a.ch, x);
    } else if DoWakeLock(s, s', c, p, a.ch, a.j) {
      WakeLockCalls(s, s', c, p, a, a.ch, a.j, x);
    } else if DoWakeTest(s, s', c, p, a.ch, a.j) {
      WakeTestCalls(s, s', c, p, a, a.ch, a.j, x);
    } else {
      WakeUnlockCalls(s, s', c, p, a, a.ch, a.j, x);
    }
  }

  lemma YieldGroup(s: State, s': State, c: nat, p: nat, a: Act, x: nat)
    requires SchedInv(s) && ProcNext(s, s', c, p, a) && a.Yield? && x < |s.procs|
    ensures CallStep(s, s', ProcStep(c, p, a), x)
  {
    hide SchedInv, CallStep, StateOk, Known, DoYieldLock, DoYieldState, DoYieldBack;
    Fine(s, p, x);
    if DoYieldLock(s, s', c, p, a.r) {
      YieldLockCalls(s, s', c, p, a, a.r, x);
    } else if DoYieldState(s, s', c, p, a.r) {
      YieldStateCalls(s, s', c, p, a, a.r, x);
    } else {
      YieldBackCalls(s, s', c, p, a, a.r, x);
    }
  }

  lemma KillGroup(s: State, s': State, c: nat, p: nat, a: Act, x: nat)
    requires SchedInv(s) && ProcNext(s, s', c, p, a) && a.Kill? && x < |s.procs|
    ensures CallStep(s, s', ProcStep(c, p, a), x)
  {
    hide SchedInv, CallStep, StateOk, Known, DoKillLock, DoKillSet, DoKillUnlock;
    Fine(s, p, x);
    if DoKillLock(s, s', c, p, a.q) {
      KillLockCalls(s, s', c, p, a, a.q, x);
    } else if DoKillSet(s, s', c, p, a.q) {
      KillSetCalls(s, s', c, p, a, a.q, x);
    } else {
      KillUnlockCalls(s, s', c, p, a, a.q, x);
    }
  }

  lemma ForkGroup(s: State, s': State, c: nat, p: nat, a: Act, x: nat)
    requires SchedInv(s) && ProcNext(s, s', c, p, a) && a.Fork? && x < |s.procs|
    ensures CallStep(s, s', ProcStep(c, p, a), x)
  {
    hide SchedInv, CallStep, StateOk, Known, DoForkLock, DoForkTake, DoForkSkip, DoForkKeep, DoForkFail;
    Fine(s, p, x);
    if DoForkLock(s, s', c, p, a.n) {
      ForkLockCalls(s, s', c, p, a, a.n, x);
    } else if DoForkTake(s, s', c, p, a.n) {
      ForkTakeCalls(s, s', c, p, a, a.n, x);
    } else if DoForkSkip(s, s', c, p, a.n) {
      ForkSkipCalls(s, s', c, p, a, a.n, x);
    } else if DoForkKeep(s, s', c, p, a.n) {
      ForkKeepCalls(s, s', c, p, a, a.n, x);
    } else {
      ForkFailCalls(s, s', c, p, a, a.n, x);
    }
  }

  lemma StartGroup(s: State, s': State, c: nat, p: nat, a: Act, x: nat)
    requires SchedInv(s) && ProcNext(s, s', c, p, a) && a.Start? && x < |s.procs|
    ensures CallStep(s, s', ProcStep(c, p, a), x)
  {
    hide SchedInv, CallStep, StateOk, Known, DoForkRelock, DoForkReady, DoForkUnlock;
    Fine(s, p, x);
    if DoForkRelock(s, s', c, p, a.n) {
      ForkRelockCalls(s, s', c, p, a, a.n, x);
    } else if DoForkReady(s, s', c, p, a.n) {
      ForkReadyCalls(s, s', c, p, a, a.n, x);
    } else {
      ForkUnlockCalls(s, s', c, p, a, a.n, x);
    }
  }

  lemma ExitGroup(s: State, s': State, c: nat, p: nat, a: Act, x: nat)
    requires SchedInv(s) && ProcNext(s, s', c, p, a) && a.Exit? && x < |s.procs|
    ensures CallStep(s, s', ProcStep(c, p, a), x)
  {
    hide SchedInv, CallStep, StateOk, Known, DoExitLock, DoExitState, DoExitRelease;
    Fine(s, p, x);
    if DoExitLock(s, s', c, p, a.k) {
      ExitLockCalls(s, s', c, p, a, a.k, x);
    } else if DoExitState(s, s', c, p, a.k) {
      ExitStateCalls(s, s', c, p, a, a.k, x);
    } else {
      ExitReleaseCalls(s, s', c, p, a, a.k, x);
    }
  }

  lemma ReapGroup(s: State, s': State, c: nat, p: nat, a: Act, x: nat)
    requires SchedInv(s) && ProcNext(s, s', c, p, a) && a.Reap? && x < |s.procs|
    ensures CallStep(s, s', ProcStep(c, p, a), x)
  {
    hide SchedInv, CallStep, StateOk, Known, DoReapLock, DoReapTest, DoReapUnlock;
    Fine(s, p, x);
    if DoReapLock(s, s', c, p, a.k, a.q) {
      ReapLockCalls(s, s', c, p, a, a.k, a.q, x);
    } else if DoReapTest(s, s', c, p, a.k, a.q, a.ok) {
      ReapTestCalls(s, s', c, p, a, a.k, a.q, a.ok, x);
    } else {
      ReapUnlockCalls(s, s', c, p, a, a.k, a.q, x);
    }
  }

  lemma ThreadCalls(s: State, s': State, c: nat, p: nat, a: Act, x: nat)
    requires SchedInv(s) && ProcNext(s, s', c, p, a) && x < |s.procs|
    ensures CallStep(s, s', ProcStep(c, p, a), x)
  {
    hide SchedInv, CallStep, StateOk, Known, DoAcquire, DoWrite, DoUnlock, DoSleepCall, DoWakeCall, DoWakeEnd,
      DoSwitchOut, SleepNext, WokenNext, WakingNext, YieldNext, KillNext, ForkNext, StartNext, ExitNext, ReapNext;
    Fine(s, p, x);
    match a
    case Acquire(k) => AcquireCalls(s, s', c, p, a, k, x);
    case Write(k, v) => WriteCalls(s, s', c, p, a, k, v, x);
    case Unlock(k) => UnlockCalls(s, s', c, p, a, k, x);
    case SleepCall(ch) => SleepCallCalls(s, s', c, p, a, ch, x);
    case WakeCall(ch) => WakeCallCalls(s, s', c, p, a, ch, x);
    case WakeEnd(ch) => WakeEndCalls(s, s', c, p, a, ch, x);
    case Sleep(_) => SleepGroup(s, s', c, p, a, x);
    case Woken(_) => WokenGroup(s, s', c, p, a, x);
    case Waking(_, _) => WakingGroup(s, s', c, p, a, x);
    case Yield(_) => YieldGroup(s, s', c, p, a, x);
    case Kill(_) => KillGroup(s, s', c, p, a, x);
    case Fork(_) => ForkGroup(s, s', c, p, a, x);
    case Start(_) => StartGroup(s, s', c, p, a, x);
    case Exit(_) => ExitGroup(s, s', c, p, a, x);
    case Reap(_, _, _) => ReapGroup(s, s', c, p, a, x);
    case SwitchOut => SwitchOutCalls(s, s', c, p, a, x);
  }

  // ---------------------------------------------------------------- kill

  predicate HitAt(run: seq<State>, steps: seq<Step>, k: nat, x: nat, i: int) {
    && 0 <= i < k <= |steps| && |run| == |steps| + 1 && Hits(run[i], steps[i], x)
    && forall l :: i < l < k ==> !Frees(run[l], run[l + 1], x)
  }

  /** An entry is marked killed if and only if kill has hit it and it has not been freed since. */
  lemma {:induction false} KilledExactly(run: seq<State>, steps: seq<Step>, k: nat, x: nat)
    requires IsRun(run, steps) && k < |run| && x < |run[k].procs|
    ensures run[k].procs[x].killed <==> exists i :: HitAt(run, steps, k, x, i)
  {
    hide SchedInv, Next, Frees, Hits, Wakes, ChannelOk;
    if k == 0 {
      assert !run[0].procs[x].killed;
    } else {
      var s, s', st := run[k - 1], run[k], steps[k - 1];
      SameSize(run, steps, k - 1);
      RunSchedInv(run, steps, k - 1);
      Calls(s, s', st, x);
      KilledExactly(run, steps, k - 1, x);
      if Hits(s, st, x) { HitKeeps(s, s', st, x); }
      if s'.procs[x].killed {
        if Hits(s, st, x) {
          assert HitAt(run, steps, k, x, k - 1);
        } else {
          var i :| HitAt(run, steps, k - 1, x, i);
          assert HitAt(run, steps, k, x, i);
        }
      }
      if i :| HitAt(run, steps, k, x, i) {
        if i < k - 1 { assert HitAt(run, steps, k - 1, x, i) && !Frees(run[k - 1], run[k - 1 + 1], x); }
      }
    }
  }

  /** An entry is freed when wait has found it a zombie, and only then, or when fork finds no memory for it. */
  lemma FreesExactly(run: seq<State>, steps: seq<Step>, k: nat, x: nat)
    requires IsRun(run, steps) && k < |steps| && x < |run[k].procs|
    ensures Reaps(run[k], steps[k], x) ==> Frees(run[k], run[k + 1], x)
    ensures Frees(run[k], run[k + 1], x) ==> Reaps(run[k], steps[k], x) || Making(run[k], steps[k], x)
  {
    hide SchedInv, Next, Init, Frees, Reaps, Making, Hits, Wakes, ChannelOk;
    RunSchedInv(run, steps, k);
    Calls(run[k], run[k + 1], steps[k], x);
  }

  lemma HitKeeps(s: State, s': State, st: Step, x: nat)
    requires SchedInv(s) && Next(s, s', st) && Hits(s, st, x)
    ensures !Frees(s, s', x)
  {
    Here(s, st.c, st.p);
    hide SchedInv;
  }

  lemma SameSize(run: seq<State>, steps: seq<Step>, k: nat)
    requires IsRun(run, steps) && k < |steps|
    ensures |run[k + 1].procs| == |run[k].procs| > 0
  {
    RunSchedInv(run, steps, k);
    Sizes(run, steps, k);
    Calls(run[k], run[k + 1], steps[k], 0);
    hide SchedInv, Next, Init;
  }

  lemma {:induction false} Sizes(run: seq<State>, steps: seq<Step>, k: nat)
    requires IsRun(run, steps) && k < |run|
    ensures |run[k].procs| > 0
  {
    if k > 0 {
      hide SchedInv, Next, Init;
      Sizes(run, steps, k - 1);
      RunSchedInv(run, steps, k - 1);
      Calls(run[k - 1], run[k], steps[k - 1], 0);
    }
  }

  // ---------------------------------------------------------------- sleep and wakeup

  /** A sleep ends when a wakeup on its channel comes to the sleeper, or kill does, and for no other reason. */
  lemma SleepEndsExactly(run: seq<State>, steps: seq<Step>, k: nat, x: nat)
    requires IsRun(run, steps) && k < |steps| && x < |run[k].procs| && run[k].procs[x].state == Sleeping
    ensures x < |run[k + 1].procs|
    ensures run[k + 1].procs[x].state ==
            if Wakes(run[k], steps[k], x) || Hits(run[k], steps[k], x) then Runnable else Sleeping
  {
    hide SchedInv, Next, Init, Wakes, Hits;
    RunSchedInv(run, steps, k);
    Calls(run[k], run[k + 1], steps[k], x);
  }

  /** A process has a channel if and only if it is in sleep, between setting and clearing it: that of the call. */
  lemma {:induction false} ChannelsExact(run: seq<State>, steps: seq<Step>, k: nat, x: nat)
    requires IsRun(run, steps) && k < |run| && x < |run[k].procs|
    ensures ChannelOk(run[k].procs[x])
  {
    hide SchedInv, Next, ChannelOk;
    if k == 0 {
      NoChannels(run[0], x);
    } else {
      SameSize(run, steps, k - 1);
      ChannelsExact(run, steps, k - 1, x);
      RunSchedInv(run, steps, k - 1);
      Calls(run[k - 1], run[k], steps[k - 1], x);
    }
  }

  lemma NoChannels(s: State, x: nat)
    requires Init(s) && x < |s.procs|
    ensures ChannelOk(s.procs[x]) && s.procs[x].state != Used
  {
  }

  // ---------------------------------------------------------------- fork

  predicate MakerOf(s: State, n: nat, x: nat) { x < |s.procs| && Child(s.procs[x].pc) == Some(n) }

  /** An entry that has been taken and not yet started has a process in fork that will start it or free it. */
  lemma {:induction false} NewHasMaker(run: seq<State>, steps: seq<Step>, k: nat, n: nat) returns (x: nat)
    requires IsRun(run, steps) && k < |run| && n < |run[k].procs| && run[k].procs[n].state == Used
    ensures MakerOf(run[k], n, x) && forall y :: MakerOf(run[k], n, y) ==> y == x
  {
    hide SchedInv, Next, Child, Init;
    RunSchedInv(run, steps, k);
    if k == 0 {
      NoChannels(run[0], n);
      assert false;
    }
    var s, s', p := run[k - 1], run[k], Mover(steps[k - 1]);
    SameSize(run, steps, k - 1);
    RunSchedInv(run, steps, k - 1);
    Calls(s, s', steps[k - 1], n);
    if Child(s'.procs[p].pc) == Some(n) {
      x := p;
    } else {
      x := NewHasMaker(run, steps, k - 1, n);
      Calls(s, s', steps[k - 1], x);
    }
    forall y | MakerOf(s', n, y) ensures y == x { LoneMaker(s', n, x, y); }
  }

  lemma LoneMaker(s: State, n: nat, x: nat, y: nat)
    requires SchedInv(s) && MakerOf(s, n, x) && MakerOf(s, n, y)
    ensures y == x
  {
    assert Lone(s, x, y);
  }

  // ---------------------------------------------------------------- the scheduler

  /** A CPU's proc field names the process it is running, or switching to or from. */
  predicate ProcOk(cpu: Cpu) {
    cpu.proc == if cpu.spc.Switch? || cpu.spc.Away? || cpu.spc.Back? then Some(cpu.spc.i) else None
  }

  /** The scheduler loop goes round the process table, one entry after the other. */
  predicate TurnOk(a: Cpu, b: Cpu, n: nat) {
    b.spc.i == a.spc.i || (n > 0 && a.spc.Release? && b.spc == Scan((a.spc.i + 1) % n))
  }

  lemma CpuStep(s: State, s': State, st: Step, d: nat)
    requires SchedInv(s) && Next(s, s', st) && d < |s.cpus|
    ensures d < |s'.cpus| && (ProcOk(s.cpus[d]) ==> ProcOk(s'.cpus[d])) && TurnOk(s.cpus[d], s'.cpus[d], |s.procs|)
  {
    hide SchedInv, ProcNext, LoopNext, DoSwitchIn, ProcOk;
    match st
    case SchedStep(c, i) => LoopCpus(s, s', c, i, d);
    case ProcStep(c, p, a) =>
      if a.SwitchOut? {
        OutCpus(s, s', c, p, d);
      } else {
        var q := IsThreadStep(s, s', c, p, a);
        assert s'.cpus == s.cpus;
      }
  }

  lemma OutCpus(s: State, s': State, c: nat, p: nat, d: nat)
    requires SchedInv(s) && ProcNext(s, s', c, p, SwitchOut) && d < |s.cpus|
    ensures d < |s'.cpus| && (ProcOk(s.cpus[d]) ==> ProcOk(s'.cpus[d])) && TurnOk(s.cpus[d], s'.cpus[d], |s.procs|)
  {
  }

  lemma LoopCpus(s: State, s': State, c: nat, i: nat, d: nat)
    requires SchedInv(s) && (LoopNext(s, s', c, i) || DoSwitchIn(s, s', c, i)) && d < |s.cpus|
    ensures d < |s'.cpus| && (ProcOk(s.cpus[d]) ==> ProcOk(s'.cpus[d])) && TurnOk(s.cpus[d], s'.cpus[d], |s.procs|)
  {
    hide SchedInv;
  }

  lemma {:induction false} ProcExact(run: seq<State>, steps: seq<Step>, k: nat, d: nat)
    requires IsRun(run, steps) && k < |run| && d < |run[k].cpus|
    ensures ProcOk(run[k].cpus[d]) && (k > 0 ==> d < |run[k - 1].cpus|)
    ensures k > 0 ==> TurnOk(run[k - 1].cpus[d], run[k].cpus[d], |run[k - 1].procs|)
  {
    hide SchedInv, Next, ProcOk, TurnOk;
    if k == 0 {
      NoProc(run[0], d);
    } else {
      RunSchedInv(run, steps, k - 1);
      SameCpus(run[k - 1], run[k], steps[k - 1]);
      ProcExact(run, steps, k - 1, d);
      CpuStep(run[k - 1], run[k], steps[k - 1], d);
    }
  }

  lemma NoProc(s: State, d: nat)
    requires Init(s) && d < |s.cpus|
    ensures ProcOk(s.cpus[d])
  {
  }

  lemma SameCpus(s: State, s': State, st: Step)
    requires SchedInv(s) && Next(s, s', st)
    ensures |s'.cpus| == |s.cpus|
  {
    hide SchedInv, ProcNext;
    if st.ProcStep? && !st.a.SwitchOut? { var q := IsThreadStep(s, s', st.c, st.p, st.a); }
    if st.ProcStep? && st.a.SwitchOut? { OutSize(s, s', st.c, st.p); }
  }

  lemma OutSize(s: State, s': State, c: nat, p: nat)
    requires ProcNext(s, s', c, p, SwitchOut)
    ensures |s'.cpus| == |s.cpus|
  {
  }
}
