/** Sleep and wakeup on any channel under its lock: no wakeup is lost, and clients that signal what they
    change never leave a process asleep without reason. */
module SleepProofs {
  import opened Common
  import opened Sched
  import opened SchedProofs

  /** The channel on which a process is asleep, or about to be since it has let go of the channel's lock in sleep. */
  function DownOn(pr: Proc): Option<nat> {
    if pr.pc.SleepChan? || pr.pc.SleepState? || (pr.state == Sleeping && (pr.pc.SleepSwitch? || pr.pc.SleepOut?))
    then Some(pr.pc.ch) else None
  }

  predicate Down(pr: Proc, ch: nat) { DownOn(pr) == Some(ch) }

  /** In sleep, with the channel's lock still held. */
  predicate Entering(pc: Pc) { pc.SleepEnter? || pc.SleepLocked? }

  /** In wakeup's loop over the process table, and how many processes it has passed. */
  predicate Scans(pc: Pc) { pc.Wake? || pc.WakeLocked? || pc.WakeUnlock? }

  function Reach(pc: Pc): nat
    requires Scans(pc)
  {
    if pc.WakeUnlock? then pc.j + 1 else pc.j
  }

  /** Process w holds ch's lock and has, in this section, woken ch or passed x in the course of that. */
  predicate Passed(s: State, w: nat, ch: nat, x: nat) {
    && w < |s.procs| && ch < |s.guard| && Inner(s.guard, s.procs[w].pc) == Some(s.guard[ch])
    && var pc := s.procs[w].pc; ch in s.procs[w].clear || (Scans(pc) && pc.ch == ch && x < Reach(pc))
  }

  predicate CoverOk(s: State, w: nat, ch: nat, x: nat) {
    x < |s.procs| && Passed(s, w, ch, x) ==> !Down(s.procs[x], ch)
  }

  ghost predicate WakeInv(s: State) { forall w: nat, ch: nat, x: nat :: CoverOk(s, w, ch, x) }

  ghost predicate Inv(s: State) { SchedInv(s) && WakeInv(s) }

  /** A lock has one holder. */
  lemma OneHolder(s: State, w: nat, p: nat)
    requires SchedInv(s) && w < |s.procs| && p < |s.procs|
    requires Inner(s.guard, s.procs[w].pc).Some? && Inner(s.guard, s.procs[w].pc) == Inner(s.guard, s.procs[p].pc)
    ensures w == p && Inner(s.guard, s.procs[p].pc).value < |s.lk|
    ensures s.lk[Inner(s.guard, s.procs[p].pc).value] == By(s.procs[p].cpu)
  {
    var k := Inner(s.guard, s.procs[w].pc).value;
    Here(s, s.procs[w].cpu, w);
    Here(s, s.procs[p].cpu, p);
    assert GuardOk(s, s.procs[w].cpu, k) && GuardOk(s, s.procs[p].cpu, k);
    hide SchedInv, StateOk, Target, Child;
  }

  // ---------------------------------------------------------------- what a step does to sleepers and wakers

  /** How the section that p's thread is in goes on. */
  predicate SectionMove(s: State, s': State, p: nat)
    requires p < |s.procs| == |s'.procs|
  {
    var a, b := s.procs[p], s'.procs[p];
    && b.was == a.was
    && (|| (&& b.clear == a.clear
            && (|| !Scans(b.pc) || Reach(b.pc) == 0
                || (&& Scans(a.pc) && a.pc.ch == b.pc.ch
                    && (|| Reach(b.pc) <= Reach(a.pc)
                        || (&& Reach(b.pc) == Reach(a.pc) + 1
                            && (Reach(a.pc) < |s'.procs| ==> !Down(s'.procs[Reach(a.pc)], b.pc.ch)))))))
        || (Scans(a.pc) && !Scans(b.pc) && Reach(a.pc) >= |s.procs| && b.clear == a.clear + {a.pc.ch}))
  }

  /** What the process that takes the step does. */
  predicate MeMove(s: State, s': State, p: nat)
    requires p < |s.procs| == |s'.procs| && |s.val| == |s.lk|
  {
    var a, b, g := s.procs[p], s'.procs[p], s.guard;
    && (|| DownOn(b).None? || DownOn(b) == DownOn(a)
        || (&& Entering(a.pc) && DownOn(b).value < |g|
           && Inner(g, a.pc) == Some(g[DownOn(b).value]) && Inner(g, b.pc).None?
            && b.calls == a.calls && DownOn(b).value == a.pc.ch))
    && (Inner(g, b.pc).Some? ==>
          if Inner(g, b.pc) == Inner(g, a.pc) then SectionMove(s, s', p)
          else && !Scans(b.pc) && b.clear == {} && Inner(g, b.pc).value < |s.lk| && Inner(g, a.pc).None?
               && s.lk[Inner(g, b.pc).value].Free? && b.was == s.val[Inner(g, b.pc).value] && s'.val == s.val)
    && (Inner(g, a.pc).Some? && Inner(g, b.pc).None? ==> Entering(a.pc) || a.pc.ExitZombie? || b.pc == At(User))
    && b.calls >= a.calls && (b.calls == a.calls && Entering(b.pc) ==> Entering(a.pc))
    && (s'.val == s.val
        || (&& Inner(g, b.pc) == Inner(g, a.pc) && Inner(g, a.pc).Some? && Inner(g, a.pc).value < |s.val| == |s'.val|
            && s'.val == s.val[Inner(g, a.pc).value := s'.val[Inner(g, a.pc).value]]))
  }

  /** What it may do to another. */
  predicate Quiet(a: Proc, b: Proc) {
    && (b.pc == a.pc || (NoThread(a.pc) && NoThread(b.pc))) && (b.state == Sleeping ==> a.state == Sleeping)
    && b.clear == a.clear && b.was == a.was && b.calls == a.calls
  }

  /** What that means for the other's section and sleep. */
  predicate Steady(g: seq<nat>, a: Proc, b: Proc) {
    && Inner(g, b.pc) == Inner(g, a.pc)
    && (Inner(g, a.pc).Some? ==> b.pc == a.pc && b.clear == a.clear && b.was == a.was)
    && b.calls == a.calls && (DownOn(b).None? || DownOn(b) == DownOn(a)) && (Entering(b.pc) ==> Entering(a.pc))
  }

  ghost predicate WakeStep(s: State, s': State, p: nat, q: nat) {
    && p < |s.procs| == |s'.procs| && q < |s.procs| && s'.guard == s.guard && |s.val| == |s.lk| == |s'.lk|
    && (forall x :: 0 <= x < |s.procs| && x != p && x != q ==> s'.procs[x] == s.procs[x])
    && MeMove(s, s', p) && (q != p ==> Quiet(s.procs[q], s'.procs[q]))
  }

  lemma StepQuiet(s: State, s': State, p: nat, q: nat, x: nat)
    requires WakeStep(s, s', p, q) && x < |s.procs| && x != p
    ensures Quiet(s.procs[x], s'.procs[x]) && Steady(s.guard, s.procs[x], s'.procs[x])
  {
  }

  lemma WakeStepKeeps(s: State, s': State, p: nat, q: nat)
    requires Inv(s) && WakeStep(s, s', p, q)
    ensures WakeInv(s')
  {
    forall w: nat, ch: nat, x: nat ensures CoverOk(s', w, ch, x) {
      assert CoverOk(s, w, ch, x);
      if w < |s.procs| && w != p { StepQuiet(s, s', p, q, w); }
      if x < |s.procs| && x != p { StepQuiet(s, s', p, q, x); }
      if w != p && x == p && Passed(s', w, ch, x) && Inner(s.guard, s.procs[p].pc) == Some(s.guard[ch]) {
        OneHolder(s, w, p);
      }
      hide Inv, SchedInv, Inner, DownOn, Entering, Quiet;
    }
  }

  // ---------------------------------------------------------------- every step

  lemma Sizes(s: State)
    requires SchedInv(s)
    ensures |s.lk| == |s.val|
  {
  }

  lemma SectionWakes(s: State, s': State, c: nat, p: nat, k: nat, v: int)
    requires SchedInv(s) && (DoAcquire(s, s', c, p, k) || DoWrite(s, s', c, p, k, v) || DoUnlock(s, s', c, p, k))
    ensures WakeStep(s, s', p, p)
  {
    hide SchedInv;
    Sizes(s);
  }

  lemma SleepCallWakes(s: State, s': State, c: nat, p: nat, ch: nat)
    requires SchedInv(s) && (DoSleepCall(s, s', c, p, ch) || DoSleepLock(s, s', c, p, ch))
    ensures WakeStep(s, s', p, p)
  {
    hide SchedInv;
    Sizes(s);
  }

  lemma SleepReleaseWakes(s: State, s': State, c: nat, p: nat, ch: nat)
    requires SchedInv(s) && DoSleepRelease(s, s', c, p, ch)
    ensures WakeStep(s, s', p, p)
  {
    hide SchedInv;
    Sizes(s);
  }

  lemma SleepStateWakes(s: State, s': State, c: nat, p: nat, ch: nat)
    requires SchedInv(s) && (DoSleepChan(s, s', c, p, ch) || DoSleepState(s, s', c, p, ch))
    ensures WakeStep(s, s', p, p)
  {
    hide SchedInv;
    Sizes(s);
  }

  lemma SleepWakes(s: State, s': State, c: nat, p: nat, ch: nat)
    requires SchedInv(s) && (DoSleepCall(s, s', c, p, ch) || SleepNext(s, s', c, p, ch))
    ensures WakeStep(s, s', p, p)
  {
    hide SchedInv, WakeStep, DoSleepCall, DoSleepLock, DoSleepRelease, DoSleepChan, DoSleepState;
    if DoSleepCall(s, s', c, p, ch) || DoSleepLock(s, s', c, p, ch) {
      SleepCallWakes(s, s', c, p, ch);
    } else if DoSleepRelease(s, s', c, p, ch) {
      SleepReleaseWakes(s, s', c, p, ch);
    } else {
      SleepStateWakes(s, s', c, p, ch);
    }
  }

  lemma RetakeWakes(s: State, s': State, c: nat, p: nat, ch: nat)
    requires SchedInv(s) && DoRetake(s, s', c, p, ch)
    ensures WakeStep(s, s', p, p)
  {
    hide SchedInv;
    Sizes(s);
  }

  lemma BackWakes(s: State, s': State, c: nat, p: nat, ch: nat)
    requires SchedInv(s) && (DoSleepBack(s, s', c, p, ch) || DoSleepDone(s, s', c, p, ch))
    ensures WakeStep(s, s', p, p)
  {
    hide SchedInv;
    Sizes(s);
  }

  lemma WokenWakes(s: State, s': State, c: nat, p: nat, ch: nat)
    requires SchedInv(s) && WokenNext(s, s', c, p, ch)
    ensures WakeStep(s, s', p, p)
  {
    hide SchedInv, WakeStep, DoRetake, DoSleepBack, DoSleepDone;
    if DoRetake(s, s', c, p, ch) { RetakeWakes(s, s', c, p, ch); } else { BackWakes(s, s', c, p, ch); }
  }

  lemma WakeCallWakes(s: State, s': State, c: nat, p: nat, ch: nat)
    requires SchedInv(s) && (DoWakeCall(s, s', c, p, ch) || DoWakeSkip(s, s', c, p, ch) || DoWakeEnd(s, s', c, p, ch))
    ensures WakeStep(s, s', p, p)
  {
    hide SchedInv;
    Sizes(s);
  }

  lemma WakeLockWakes(s: State, s': State, c: nat, p: nat, ch: nat, j: nat)
    requires SchedInv(s) && DoWakeLock(s, s', c, p, ch, j)
    ensures WakeStep(s, s', p, j)
  {
    hide SchedInv;
    Sizes(s);
  }

  lemma WakeUnlockWakes(s: State, s': State, c: nat, p: nat, ch: nat, j: nat)
    requires SchedInv(s) && DoWakeUnlock(s, s', c, p, ch, j)
    ensures WakeStep(s, s', p, j)
  {
    hide SchedInv;
    Sizes(s);
  }

  lemma WakeTestWakes(s: State, s': State, c: nat, p: nat, ch: nat, j: nat)
    requires SchedInv(s) && DoWakeTest(s, s', c, p, ch, j)
    ensures WakeStep(s, s', p, j)
  {
    hide SchedInv;
    Mine(s, c, p, j);
  }

  lemma YieldLockWakes(s: State, s': State, c: nat, p: nat, r: Rest)
    requires SchedInv(s) && DoYieldLock(s, s', c, p, r)
    ensures WakeStep(s, s', p, p)
  {
    hide SchedInv;
    Sizes(s);
  }

  lemma YieldStateWakes(s: State, s': State, c: nat, p: nat, r: Rest)
    requires SchedInv(s) && DoYieldState(s, s', c, p, r)
    ensures WakeStep(s, s', p, p)
  {
    hide SchedInv;
    Sizes(s);
  }

  lemma YieldBackWakes(s: State, s': State, c: nat, p: nat, r: Rest)
    requires SchedInv(s) && DoYieldBack(s, s', c, p, r)
    ensures WakeStep(s, s', p, p)
  {
    hide SchedInv;
    Sizes(s);
  }

  lemma KillLockWakes(s: State, s': State, c: nat, p: nat, q: nat)
    requires SchedInv(s) && DoKillLock(s, s', c, p, q)
    ensures WakeStep(s, s', p, q)
  {
    hide SchedInv;
    Sizes(s);
  }

  lemma KillSetWakes(s: State, s': State, c: nat, p: nat, q: nat)
    requires SchedInv(s) && DoKillSet(s, s', c, p, q)
    ensures WakeStep(s, s', p, q)
  {
    hide SchedInv;
    Sizes(s);
  }

  lemma KillUnlockWakes(s: State, s': State, c: nat, p: nat, q: nat)
    requires SchedInv(s) && DoKillUnlock(s, s', c, p, q)
    ensures WakeStep(s, s', p, q)
  {
    hide SchedInv;
    Sizes(s);
  }

  lemma ForkLockWakes(s: State, s': State, c: nat, p: nat, n: nat)
    requires SchedInv(s) && DoForkLock(s, s', c, p, n)
    ensures WakeStep(s, s', p, n)
  {
    hide SchedInv;
    Sizes(s);
  }

  lemma ForkSkipWakes(s: State, s': State, c: nat, p: nat, n: nat)
    requires SchedInv(s) && DoForkSkip(s, s', c, p, n)
    ensures WakeStep(s, s', p, n)
  {
    hide SchedInv;
    Sizes(s);
  }

  lemma ForkKeepWakes(s: State, s': State, c: nat, p: nat, n: nat)
    requires SchedInv(s) && DoForkKeep(s, s', c, p, n)
    ensures WakeStep(s, s', p, n)
  {
    hide SchedInv;
    Sizes(s);
  }

  lemma ForkTakeWakes(s: State, s': State, c: nat, p: nat, n: nat)
    requires SchedInv(s) && DoForkTake(s, s', c, p, n)
    ensures WakeStep(s, s', p, n)
  {
    hide SchedInv;
    Mine(s, c, p, n);
  }

  lemma ForkFailWakes(s: State, s': State, c: nat, p: nat, n: nat)
    requires SchedInv(s) && DoForkFail(s, s', c, p, n)
    ensures WakeStep(s, s', p, n)
  {
    hide SchedInv;
    Mine(s, c, p, n);
  }

  lemma ForkRelockWakes(s: State, s': State, c: nat, p: nat, n: nat)
    requires SchedInv(s) && DoForkRelock(s, s', c, p, n)
    ensures WakeStep(s, s', p, n)
  {
    hide SchedInv;
    Sizes(s);
  }

  lemma ForkReadyWakes(s: State, s': State, c: nat, p: nat, n: nat)
    requires SchedInv(s) && DoForkReady(s, s', c, p, n)
    ensures WakeStep(s, s', p, n)
  {
    hide SchedInv;
    Sizes(s);
  }

  lemma ForkUnlockWakes(s: State, s': State, c: nat, p: nat, n: nat)
    requires SchedInv(s) && DoForkUnlock(s, s', c, p, n)
    ensures WakeStep(s, s', p, n)
  {
    hide SchedInv;
    Sizes(s);
  }

  lemma ExitWakes(s: State, s': State, c: nat, p: nat, k: nat)
    requires SchedInv(s) && ExitNext(s, s', c, p, k)
    ensures WakeStep(s, s', p, p)
  {
    hide SchedInv;
    Sizes(s);
  }

  lemma ReapLockWakes(s: State, s': State, c: nat, p: nat, k: nat, q: nat)
    requires SchedInv(s) && (DoReapLock(s, s', c, p, k, q) || DoReapUnlock(s, s', c, p, k, q))
    ensures WakeStep(s, s', p, q)
  {
    hide SchedInv;
    Sizes(s);
  }

  lemma ReapTestWakes(s: State, s': State, c: nat, p: nat, k: nat, q: nat, ok: bool)
    requires SchedInv(s) && DoReapTest(s, s', c, p, k, q, ok)
    ensures WakeStep(s, s', p, q)
  {
    hide SchedInv;
    Mine(s, c, p, q);
  }

  lemma SwitchOutWakes(s: State, s': State, c: nat, p: nat)
    requires SchedInv(s) && DoSwitchOut(s, s', c, p)
    ensures WakeStep(s, s', p, p)
  {
    hide SchedInv;
    Sizes(s);
  }

  lemma LoopWakes(s: State, s': State, c: nat, i: nat)
    requires SchedInv(s) && (LoopNext(s, s', c, i) || DoSwitchIn(s, s', c, i))
    ensures WakeStep(s, s', i, i)
  {
    hide SchedInv;
    Looking(s, c, i);
  }

  lemma ThreadWakes(s: State, s': State, c: nat, p: nat, a: Act) returns (q: nat)
    requires SchedInv(s) && ProcNext(s, s', c, p, a) && !a.Fork? && !a.Start? && !a.Kill? && !a.Reap?
    ensures WakeStep(s, s', p, q)
  {
    hide SchedInv, WakeStep;
    q := p;
    match a
    case Acquire(k) => SectionWakes(s, s', c, p, k, 0);
    case Write(k, v) => SectionWakes(s, s', c, p, k, v);
    case Unlock(k) => SectionWakes(s, s', c, p, k, 0);
    case SleepCall(ch) => SleepWakes(s, s', c, p, ch);
    case Sleep(ch) => SleepWakes(s, s', c, p, ch);
    case Woken(ch) => WokenWakes(s, s', c, p, ch);
    case WakeCall(ch) => WakeCallWakes(s, s', c, p, ch);
    case WakeEnd(ch) => WakeCallWakes(s, s', c, p, ch);
    case Waking(ch, j) =>
      if DoWakeSkip(s, s', c, p, ch) {
        WakeCallWakes(s, s', c, p, ch);
      } else {
        q := j;
        if DoWakeLock(s, s', c, p, ch, j) {
          WakeLockWakes(s, s', c, p, ch, j);
        } else if DoWakeTest(s, s', c, p, ch, j) {
          WakeTestWakes(s, s', c, p, ch, j);
        } else {
          WakeUnlockWakes(s, s', c, p, ch, j);
        }
      }
    case Yield(r) =>
      if DoYieldLock(s, s', c, p, r) {
        YieldLockWakes(s, s', c, p, r);
      } else if DoYieldState(s, s', c, p, r) {
        YieldStateWakes(s, s', c, p, r);
      } else {
        YieldBackWakes(s, s', c, p, r);
      }
    case Exit(k) => ExitWakes(s, s', c, p, k);
    case SwitchOut => SwitchOutWakes(s, s', c, p);
  }

  lemma LifeWakes(s: State, s': State, c: nat, p: nat, a: Act) returns (q: nat)
    requires SchedInv(s) && ProcNext(s, s', c, p, a) && (a.Fork? || a.Start? || a.Kill? || a.Reap?)
    ensures WakeStep(s, s', p, q)
  {
    hide SchedInv, WakeStep;
    match a
    case Kill(x) =>
      q := x;
      if DoKillLock(s, s', c, p, x) {
        KillLockWakes(s, s', c, p, x);
      } else if DoKillSet(s, s', c, p, x) {
        KillSetWakes(s, s', c, p, x);
      } else {
        KillUnlockWakes(s, s', c, p, x);
      }
    case Fork(n) =>
      q := n;
      if DoForkLock(s, s', c, p, n) {
        ForkLockWakes(s, s', c, p, n);
      } else if DoForkTake(s, s', c, p, n) {
        ForkTakeWakes(s, s', c, p, n);
      } else if DoForkSkip(s, s', c, p, n) {
        ForkSkipWakes(s, s', c, p, n);
      } else if DoForkKeep(s, s', c, p, n) {
        ForkKeepWakes(s, s', c, p, n);
      } else {
        ForkFailWakes(s, s', c, p, n);
      }
    case Start(n) =>
      q := n;
      if DoForkRelock(s, s', c, p, n) {
        ForkRelockWakes(s, s', c, p, n);
      } else if DoForkReady(s, s', c, p, n) {
        ForkReadyWakes(s, s', c, p, n);
      } else {
        ForkUnlockWakes(s, s', c, p, n);
      }
    case Reap(k, x, ok) =>
      q := x;
      if DoReapTest(s, s', c, p, k, x, ok) {
        ReapTestWakes(s, s', c, p, k, x, ok);
      } else {
        ReapLockWakes(s, s', c, p, k, x);
      }
  }

  lemma IsWakeStep(s: State, s': State, st: Step) returns (p: nat, q: nat)
    requires SchedInv(s) && Next(s, s', st)
    ensures WakeStep(s, s', p, q)
    ensures p == if st.ProcStep? then st.p else st.i
  {
    hide SchedInv, WakeStep, ProcNext;
    match st
    case SchedStep(c, i) =>
      LoopWakes(s, s', c, i);
      p, q := i, i;
    case ProcStep(c, x, a) =>
      p := x;
      if a.Fork? || a.Start? || a.Kill? || a.Reap? {
        q := LifeWakes(s, s', c, x, a);
      } else {
        q := ThreadWakes(s, s', c, x, a);
      }
  }

  lemma InvKept(s: State, s': State, st: Step)
    requires Inv(s) && Next(s, s', st)
    ensures Inv(s') && |s'.procs| == |s.procs| && s'.guard == s.guard
  {
    assert SchedInv(s);
    hide Inv, SchedInv, Next, WakeInv;
    SchedInvKept(s, s', st);
    var p, q := IsWakeStep(s, s', st);
    WakeStepKeeps(s, s', p, q);
    Both(s');
  }

  lemma Both(s: State)
    requires SchedInv(s) && WakeInv(s)
    ensures Inv(s)
  {
  }

  lemma InitInv(s: State)
    requires Init(s)
    ensures Inv(s)
  {
    SchedProofs.InitInv(s);
    hide SchedInv;
  }

  lemma {:induction false} RunInv(run: seq<State>, steps: seq<Step>, i: nat)
    requires IsRun(run, steps) && i < |run|
    ensures Inv(run[i]) && |run[i].procs| == |run[0].procs| && run[i].guard == run[0].guard
  {
    hide Inv, Next, Init;
    if i == 0 {
      InitInv(run[0]);
    } else {
      RunInv(run, steps, i - 1);
      assert Next(run[i - 1], run[i - 1 + 1], steps[i - 1]);
      InvKept(run[i - 1], run[i], steps[i - 1]);
    }
  }

  // ---------------------------------------------------------------- no lost wakeup

  /** The process has let go of ch's lock in its n-th call of sleep, which is on ch, or has made later calls. */
  predicate Late(pr: Proc, ch: nat, n: nat) {
    pr.calls > n || (pr.calls == n && !Entering(pr.pc) && (DownOn(pr).None? || DownOn(pr) == Some(ch)))
  }

  /** The process is not, and will not be, asleep from its n-th call of sleep. */
  predicate Up(pr: Proc, n: nat) { pr.calls > n || (pr.calls == n && !Entering(pr.pc) && DownOn(pr).None?) }

  lemma CallsGoOn(s: State, s': State, st: Step, x: nat, ch: nat, n: nat)
    requires Inv(s) && Next(s, s', st) && x < |s.procs|
    ensures |s'.procs| == |s.procs|
    ensures (Late(s.procs[x], ch, n) ==> Late(s'.procs[x], ch, n)) && (Up(s.procs[x], n) ==> Up(s'.procs[x], n))
  {
    assert SchedInv(s);
    hide Inv, SchedInv, Next;
    var p, q := IsWakeStep(s, s', st);
    hide Inner, DownOn, Entering, SectionMove, Quiet;
    if x != p { StepQuiet(s, s', p, q, x); }
  }

  lemma {:induction false} StaysLate(run: seq<State>, steps: seq<Step>, i: nat, m: nat, x: nat, ch: nat, n: nat)
    requires IsRun(run, steps) && i <= m < |run| && x < |run[i].procs|
    ensures x < |run[m].procs|
    ensures Late(run[i].procs[x], ch, n) ==> Late(run[m].procs[x], ch, n)
    ensures Up(run[i].procs[x], n) ==> Up(run[m].procs[x], n)
    decreases m
  {
    hide Inv, Next, Init, Late, Up;
    RunInv(run, steps, i);
    RunInv(run, steps, m);
    if i < m {
      StaysLate(run, steps, i, m - 1, x, ch, n);
      RunInv(run, steps, m - 1);
      assert Next(run[m - 1], run[m - 1 + 1], steps[m - 1]);
      CallsGoOn(run[m - 1], run[m], steps[m - 1], x, ch, n);
    }
  }

  /** At the end of wakeup(ch) nobody is asleep on ch or about to be. */
  lemma WakeEndClears(s: State, s': State, c: nat, w: nat, ch: nat, x: nat)
    requires Inv(s) && DoWakeEnd(s, s', c, w, ch) && x < |s.procs|
    ensures !Down(s.procs[x], ch)
  {
    assert CoverOk(s, w, ch, x);
    hide Inv;
  }

  /** No lost wakeup, on any channel: if q has let go of ch's lock in its n-th call of sleep, on ch, then once
      a wakeup(ch) that ends later has ended, q is never asleep from that call; so not either when the waker
      has released the lock. */
  lemma NoLostWakeup(run: seq<State>, steps: seq<Step>, i: nat, b: nat, m: nat, c: nat, w: nat, q: nat, ch: nat, n: nat)
    requires IsRun(run, steps) && i <= b < m < |run| && q < |run[i].procs|
    requires Down(run[i].procs[q], ch) && run[i].procs[q].calls == n
    requires steps[b] == ProcStep(c, w, WakeEnd(ch))
    ensures q < |run[m].procs| && Up(run[m].procs[q], n)
  {
    StaysLate(run, steps, i, b, q, ch, n);
    RunInv(run, steps, b);
    assert Next(run[b], run[b + 1], steps[b]);
    WakeEndClears(run[b], run[b + 1], c, w, ch, q);
    StaysLate(run, steps, b, m, q, ch, n);
    hide Inv, Next, Init;
  }

  /** Once it has been woken, however that came about, a call of sleep does not go back to sleep. */
  lemma WokenStaysUp(run: seq<State>, steps: seq<Step>, i: nat, m: nat, q: nat, n: nat)
    requires IsRun(run, steps) && i <= m < |run| && q < |run[i].procs| && Up(run[i].procs[q], n)
    ensures q < |run[m].procs| && (run[m].procs[q].calls == n ==> DownOn(run[m].procs[q]).None?)
  {
    hide IsRun;
    StaysLate(run, steps, i, m, q, 0, n);
  }

  // ---------------------------------------------------------------- sleeping for a reason

  /** Clients' discipline. waits[ch] are the values of the guarded data for which a process may sleep on ch. A
      thread that lets go of ch's lock leaves such a value there, or has woken ch in this section, or found it
      without sleepers when it began. */
  predicate Disciplined(s: State, s': State, waits: seq<iset<int>>, p: nat, ch: nat) {
    && p < |s.procs| && p < |s'.procs| && ch < |waits| && Channel(s, ch)
    && Inner(s.guard, s.procs[p].pc) == Some(s.guard[ch]) && Inner(s.guard, s'.procs[p].pc).None? ==>
      || s.val[s.guard[ch]] in waits[ch]
      || (!Down(s'.procs[p], ch) && (ch in s.procs[p].clear || s.procs[p].was !in waits[ch]))
  }

  /** While the lock is free, sleepers on ch have reason to sleep; while it is held, they had when the section began. */
  predicate ReasonOk(s: State, waits: seq<iset<int>>, w: nat, x: nat, ch: nat) {
    x < |s.procs| && ch < |waits| && Channel(s, ch) && Down(s.procs[x], ch) ==>
      && (s.lk[s.guard[ch]].Free? ==> s.val[s.guard[ch]] in waits[ch])
      && (w < |s.procs| && Inner(s.guard, s.procs[w].pc) == Some(s.guard[ch]) ==> s.procs[w].was in waits[ch])
  }

  ghost predicate ReasonInv(s: State, waits: seq<iset<int>>) {
    forall w: nat, x: nat, ch: nat :: ReasonOk(s, waits, w, x, ch)
  }

  /** A lock is held by the process that is in its section. */
  lemma Holder(s: State, k: nat) returns (w: nat)
    requires SchedInv(s) && k < |s.lk| && s.lk[k].By?
    ensures w < |s.procs| && Inner(s.guard, s.procs[w].pc) == Some(k)
  {
    assert GuardOk(s, s.lk[k].cpu, k);
    hide SchedInv, Inner;
    w := s.cpus[s.lk[k].cpu].on.value;
  }

  lemma InSection(s: State, w: nat)
    requires SchedInv(s) && w < |s.procs| && Inner(s.guard, s.procs[w].pc).Some?
    ensures Inner(s.guard, s.procs[w].pc).value < |s.lk| && s.lk[Inner(s.guard, s.procs[w].pc).value].By?
  {
    OneHolder(s, w, w);
  }

  /** What a step may do to the data a free lock guards, and to its sleepers: nothing, if the lock was free. */
  lemma FreeStays(s: State, s': State, p: nat, q: nat, x: nat, ch: nat)
    requires Inv(s) && WakeStep(s, s', p, q) && Channel(s, ch)
    requires s.lk[s.guard[ch]].Free? && x < |s.procs| && Down(s'.procs[x], ch)
    ensures Down(s.procs[x], ch) && |s'.val| == |s.val| && s'.val[s.guard[ch]] == s.val[s.guard[ch]]
  {
    assert SchedInv(s);
    if Inner(s.guard, s.procs[p].pc).Some? { InSection(s, p); }
    if x != p { StepQuiet(s, s', p, q, x); }
    hide Inv, SchedInv, Inner, DownOn, Entering, SectionMove, Quiet;
  }

  /** If the step freed the lock, p was in its section and left it. */
  lemma WhoLetGo(s: State, s': State, p: nat, q: nat, k: nat)
    requires Inv(s) && SchedInv(s') && WakeStep(s, s', p, q) && k < |s.lk| && s.lk[k].By? && s'.lk[k].Free?
    ensures Inner(s.guard, s.procs[p].pc) == Some(k) && Inner(s.guard, s'.procs[p].pc).None? && s'.val == s.val
  {
    assert SchedInv(s);
    var w := Holder(s, k);
    if w != p {
      StepQuiet(s, s', p, q, w);
      InSection(s', w);
    }
    if Inner(s.guard, s'.procs[p].pc).Some? { InSection(s', p); }
    hide Inv, SchedInv, Inner, DownOn, Entering, SectionMove, Quiet;
  }

  lemma ReasonKept(s: State, s': State, waits: seq<iset<int>>, p: nat, q: nat, w: nat, x: nat, ch: nat)
    requires Inv(s) && SchedInv(s') && ReasonInv(s, waits) && WakeStep(s, s', p, q) && Disciplined(s, s', waits, p, ch)
    ensures ReasonOk(s', waits, w, x, ch)
  {
    if x < |s'.procs| && ch < |waits| && Channel(s', ch) && Down(s'.procs[x], ch) {
      var k := s.guard[ch];
      assert SchedInv(s);
      assert ReasonOk(s, waits, w, x, ch) && ReasonOk(s, waits, p, x, ch) && CoverOk(s, p, ch, x);
      hide ReasonInv;
      if s.lk[k].Free? {
        FreeStays(s, s', p, q, x, ch);
        if w < |s.procs| && w != p { StepQuiet(s, s', p, q, w); }
        if w < |s.procs| && Inner(s.guard, s.procs[w].pc) == Some(k) { InSection(s, w); }
        hide Inv, SchedInv, Inner, DownOn, Entering, SectionMove, Quiet;
      } else if s'.lk[k].Free? {
        WhoLetGo(s, s', p, q, k);
        if w < |s.procs| && Inner(s.guard, s'.procs[w].pc) == Some(k) { InSection(s', w); }
        if x != p { StepQuiet(s, s', p, q, x); }
        hide Inv, SchedInv, Inner, DownOn, Entering, SectionMove, Quiet;
      } else if w < |s.procs| && Inner(s.guard, s'.procs[w].pc) == Some(k) {
        if x != p { StepQuiet(s, s', p, q, x); }
        if w != p { StepQuiet(s, s', p, q, w); }
        if Inner(s.guard, s.procs[p].pc) == Some(k) && w != p { OneHolder(s, w, p); }
        hide Inv, SchedInv, Inner, DownOn, Entering;
      }
    }
  }

  lemma ReasonInvKept(s: State, s': State, st: Step, waits: seq<iset<int>>)
    requires Inv(s) && Next(s, s', st) && ReasonInv(s, waits) && DisciplinedStep(s, s', waits)
    ensures ReasonInv(s', waits)
  {
    assert SchedInv(s);
    InvKept(s, s', st);
    assert SchedInv(s');
    hide Inv, SchedInv, Next, WakeStep;
    var p, q := IsWakeStep(s, s', st);
    forall w: nat, x: nat, ch: nat ensures ReasonOk(s', waits, w, x, ch) {
      assert Disciplined(s, s', waits, p, ch);
      hide ReasonInv, ReasonOk, Disciplined;
      ReasonKept(s, s', waits, p, q, w, x, ch);
    }
  }

  ghost predicate DisciplinedStep(s: State, s': State, waits: seq<iset<int>>) {
    forall p: nat, ch: nat :: Disciplined(s, s', waits, p, ch)
  }

  ghost predicate DisciplinedRun(run: seq<State>, waits: seq<iset<int>>) {
    forall i :: 0 <= i < |run| - 1 ==> DisciplinedStep(run[i], run[i + 1], waits)
  }

  lemma {:induction false} RunReason(run: seq<State>, steps: seq<Step>, waits: seq<iset<int>>, i: nat)
    requires IsRun(run, steps) && DisciplinedRun(run, waits) && i < |run|
    ensures ReasonInv(run[i], waits)
  {
    if i == 0 {
      forall w: nat, x: nat, ch: nat ensures ReasonOk(run[0], waits, w, x, ch) { }
    } else {
      RunReason(run, steps, waits, i - 1);
      RunInv(run, steps, i - 1);
      var j := i - 1;
      assert Next(run[j], run[j + 1], steps[j]);
      assert DisciplinedStep(run[j], run[j + 1], waits);
      hide Inv, ReasonInv, Next, DisciplinedStep, Init;
      ReasonInvKept(run[j], run[j + 1], steps[j], waits);
    }
  }

  /** Nobody sleeps without reason: in every run of disciplined clients, while ch's lock is free, a process
      that is asleep on ch or about to be finds the guarded data as it must be for that. */
  lemma SleepersHaveReason(run: seq<State>, steps: seq<Step>, waits: seq<iset<int>>, i: nat, x: nat, ch: nat)
    requires IsRun(run, steps) && DisciplinedRun(run, waits) && i < |run| && x < |run[i].procs|
    requires ch < |waits| && Channel(run[i], ch) && Down(run[i].procs[x], ch) && run[i].lk[run[i].guard[ch]].Free?
    ensures run[i].val[run[i].guard[ch]] in waits[ch]
  {
    RunReason(run, steps, waits, i);
    assert ReasonOk(run[i], waits, 0, x, ch);
  }
}
