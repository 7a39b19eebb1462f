/** How threads and CPUs get on: what a call of sleep is, that every call ends, and that the CPUs never wait for each
    other's spin-locks in a circle. */
module SchedProgress {
  import opened Common
  import opened Sched
  import opened SchedProofs
  import opened SchedCalls

  // ---------------------------------------------------------------- one step

  /** Inside sleep on ch: from the call to where it takes the channel's lock again. */
  predicate Inside(pc: Pc, ch: nat) {
    match pc
    case SleepEnter(x) => x == ch
    case SleepLocked(x) => x == ch
    case SleepChan(x) => x == ch
    case SleepState(x) => x == ch
    case SleepSwitch(x) => x == ch
    case SleepOut(x) => x == ch
    case SleepBack(x) => x == ch
    case SleepDone(x) => x == ch
    case At(r) => r == Retake(ch)
    case YieldLocked(r) => r == Retake(ch)
    case YieldSwitch(r) => r == Retake(ch)
    case YieldOut(r) => r == Retake(ch)
    case YieldBack(r) => r == Retake(ch)
    case _ => false
  }

  /** The step ends p's call of sleep on ch: the channel's lock is taken again. */
  predicate Returns(s: State, st: Step, p: nat, ch: nat) {
    st.ProcStep? && st.p == p < |s.procs| && st.a.Woken? && s.procs[p].pc == At(Retake(ch))
  }

  predicate Begins(st: Step, p: nat, ch: nat) { st.ProcStep? && st.p == p && st.a == SleepCall(ch) }

  /** How many more steps a thread takes, at most, before its call is over or it is switched out. */
  function Rank(pc: Pc, n: nat): int {
    match pc
    case SleepEnter(_) => 5
    case SleepLocked(_) => 4
    case SleepChan(_) => 3
    case SleepState(_) => 2
    case SleepSwitch(_) => 1
    case SleepBack(_) => 2
    case SleepDone(_) => 1
    case Wake(_, j) => 3 * (n - j) + 1
    case WakeLocked(_, j) => 3 * (n - j)
    case WakeUnlock(_, j) => 3 * (n - j) - 1
    case YieldLocked(_) => 2
    case YieldSwitch(_) => 1
    case YieldBack(_) => 1
    case KillLocked(_) => 2
    case KillUnlock(_) => 1
    case ForkTest(_) => 3
    case ForkUsed(_) => 2
    case ForkReady(_) => 2
    case ForkUnlock(_) => 1
    case ExitLocked(_) => 3
    case ExitZombie(_) => 2
    case ExitSwitch => 1
    case ReapLocked(_, _) => 2
    case ReapUnlock(_, _) => 1
    case _ => 0
  }

  /** What a step of p's thread does to where p is. */
  predicate OwnStep(s: State, s': State, c: nat, p: nat, a: Act, ch: nat) {
    && p < |s.procs| == |s'.procs| && s'.guard == s.guard && |s'.lk| == |s.lk| && |s'.val| == |s.val|
    && var pc, pc', n := s.procs[p].pc, s'.procs[p].pc, |s.procs|;
    && (Rank(pc, n) > 0 ==> Rank(pc', n) < Rank(pc, n))
    && (Inside(pc', ch) <==>
          (Inside(pc, ch) && !Returns(s, ProcStep(c, p, a), p, ch)) || (a == SleepCall(ch) && Channel(s, ch)))
    && (a == SleepCall(ch) ==> Channel(s, ch))
  }

  lemma PlainOwn(s: State, s': State, c: nat, p: nat, a: Act, ch: nat)
    requires ProcNext(s, s', c, p, a)
    requires a.Acquire? || a.Write? || a.Unlock? || a.SleepCall? || a.WakeCall? || a.WakeEnd?
    ensures OwnStep(s, s', c, p, a, ch)
  {
  }

  lemma SleepOwn(s: State, s': State, c: nat, p: nat, a: Act, ch: nat)
    requires ProcNext(s, s', c, p, a) && (a.Sleep? || a.Woken?)
    ensures OwnStep(s, s', c, p, a, ch)
  {
  }

  lemma WakingOwn(s: State, s': State, c: nat, p: nat, a: Act, ch: nat)
    requires ProcNext(s, s', c, p, a) && a.Waking? && Known(s, p)
    ensures OwnStep(s, s', c, p, a, ch)
  {
  }

  lemma YieldOwn(s: State, s': State, c: nat, p: nat, a: Act, ch: nat)
    requires ProcNext(s, s', c, p, a) && (a.Yield? || a.SwitchOut?)
    ensures OwnStep(s, s', c, p, a, ch)
  {
  }

  lemma KillOwn(s: State, s': State, c: nat, p: nat, a: Act, ch: nat)
    requires ProcNext(s, s', c, p, a) && a.Kill?
    ensures OwnStep(s, s', c, p, a, ch)
  {
  }

  lemma ExitOwn(s: State, s': State, c: nat, p: nat, a: Act, ch: nat)
    requires ProcNext(s, s', c, p, a) && a.Exit?
    ensures OwnStep(s, s', c, p, a, ch)
  {
  }

  lemma ForkOwn(s: State, s': State, c: nat, p: nat, a: Act, ch: nat)
    requires ProcNext(s, s', c, p, a) && a.Fork?
    ensures OwnStep(s, s', c, p, a, ch)
  {
  }

  lemma StartOwn(s: State, s': State, c: nat, p: nat, a: Act, ch: nat)
    requires ProcNext(s, s', c, p, a) && a.Start?
    ensures OwnStep(s, s', c, p, a, ch)
  {
  }

  lemma ReapOwn(s: State, s': State, c: nat, p: nat, a: Act, ch: nat)
    requires ProcNext(s, s', c, p, a) && a.Reap?
    ensures OwnStep(s, s', c, p, a, ch)
  {
  }

  lemma ThreadOwn(s: State, s': State, c: nat, p: nat, a: Act, ch: nat)
    requires SchedInv(s) && ProcNext(s, s', c, p, a) && p < |s.procs|
    ensures OwnStep(s, s', c, p, a, ch)
  {
    hide SchedInv, ProcNext, OwnStep, Known, StateOk;
    Fine(s, p, p);
    match a
    case Sleep(_) => SleepOwn(s, s', c, p, a, ch);
    case Woken(_) => SleepOwn(s, s', c, p, a, ch);
    case Waking(_, _) => WakingOwn(s, s', c, p, a, ch);
    case Yield(_) => YieldOwn(s, s', c, p, a, ch);
    case SwitchOut => YieldOwn(s, s', c, p, a, ch);
    case Kill(_) => KillOwn(s, s', c, p, a, ch);
    case Exit(_) => ExitOwn(s, s', c, p, a, ch);
    case Fork(_) => ForkOwn(s, s', c, p, a, ch);
    case Start(_) => StartOwn(s, s', c, p, a, ch);
    case Reap(_, _, _) => ReapOwn(s, s', c, p, a, ch);
    case _ => PlainOwn(s, s', c, p, a, ch);
  }

  lemma NoThreadOut(pc: Pc, n: nat, ch: nat)
    requires NoThread(pc)
    ensures Rank(pc, n) == 0 && !Inside(pc, ch)
  {
  }

  /** What a step does to where x's thread is. */
  predicate PcStep(s: State, s': State, st: Step, x: nat, ch: nat) {
    && x < |s.procs| == |s'.procs| && s'.guard == s.guard && |s'.lk| == |s.lk| && |s'.val| == |s.val|
    && var pc, pc', n := s.procs[x].pc, s'.procs[x].pc, |s.procs|;
    && (Rank(pc, n) > 0 ==> if st.ProcStep? && st.p == x then Rank(pc', n) < Rank(pc, n) else pc' == pc)
    && (Inside(pc', ch) <==> (Inside(pc, ch) && !Returns(s, st, x, ch)) || Begins(st, x, ch))
    && (Begins(st, x, ch) ==> Channel(s, ch))
  }

  lemma OtherPc(s: State, s': State, c: nat, p: nat, a: Act, x: nat, ch: nat)
    requires SchedInv(s) && ProcNext(s, s', c, p, a) && x < |s.procs| && x != p
    ensures PcStep(s, s', ProcStep(c, p, a), x, ch)
  {
    hide SchedInv, ProcNext, Rank, Inside, ThreadStep;
    if a.SwitchOut? {
      OutPc(s, s', c, p, x);
    } else {
      var q := IsThreadStep(s, s', c, p, a);
      SidePc(s, s', c, p, q, x);
      if NoThread(s.procs[x].pc) { NoThreadOut(s.procs[x].pc, |s.procs|, ch); }
      if NoThread(s'.procs[x].pc) { NoThreadOut(s'.procs[x].pc, |s.procs|, ch); }
    }
  }

  lemma OutPc(s: State, s': State, c: nat, p: nat, x: nat)
    requires ProcNext(s, s', c, p, SwitchOut) && x < |s.procs| && x != p
    ensures |s'.procs| == |s.procs| && s'.guard == s.guard && s'.lk == s.lk && s'.val == s.val
    ensures s'.procs[x].pc == s.procs[x].pc
  {
  }

  lemma SidePc(s: State, s': State, c: nat, p: nat, q: nat, x: nat)
    requires ThreadStep(s, s', c, p, q) && x < |s.procs| && x != p
    ensures |s'.procs| == |s.procs| && s'.guard == s.guard && |s'.lk| == |s.lk| && |s'.val| == |s.val|
    ensures s'.procs[x].pc == s.procs[x].pc || (NoThread(s.procs[x].pc) && NoThread(s'.procs[x].pc))
  {
    hide OwnMove, ChildMove, LkMove, StateOk, Took, Target, Child, NoThread;
  }

  lemma LoopPc(s: State, s': State, c: nat, i: nat, x: nat, ch: nat)
    requires SchedInv(s) && (LoopNext(s, s', c, i) || DoSwitchIn(s, s', c, i)) && x < |s.procs|
    ensures PcStep(s, s', SchedStep(c, i), x, ch)
  {
    hide SchedInv;
    Here(s, c, x);
  }

  lemma PcMoves(s: State, s': State, st: Step, x: nat, ch: nat)
    requires SchedInv(s) && Next(s, s', st) && x < |s.procs|
    ensures PcStep(s, s', st, x, ch)
  {
    hide SchedInv, ProcNext, LoopNext, DoSwitchIn, Rank, Inside;
    match st
    case SchedStep(c, i) => LoopPc(s, s', c, i, x, ch);
    case ProcStep(c, p, a) => if x == p { ThreadOwn(s, s', c, p, a, ch); } else { OtherPc(s, s', c, p, a, x, ch); }
  }

  // ---------------------------------------------------------------- sleep, from call to return

  predicate CalledAt(run: seq<State>, steps: seq<Step>, k: nat, p: nat, ch: nat, i: int) {
    && 0 <= i < k <= |steps| && |run| == |steps| + 1 && Begins(steps[i], p, ch)
    && forall l :: i < l < k ==> !Returns(run[l], steps[l], p, ch)
  }

  lemma NoneInside(s: State, p: nat, ch: nat)
    requires Init(s) && p < |s.procs|
    ensures !Inside(s.procs[p].pc, ch)
  {
  }

  lemma NotBoth(s: State, st: Step, p: nat, ch: nat)
    requires Begins(st, p, ch)
    ensures !Returns(s, st, p, ch)
  {
  }

  /** A thread is inside sleep on ch if and only if it has called it and has not yet taken the channel's lock again. */
  lemma {:induction false} InsideExactly(run: seq<State>, steps: seq<Step>, k: nat, p: nat, ch: nat)
    requires IsRun(run, steps) && k < |run| && p < |run[k].procs|
    ensures Inside(run[k].procs[p].pc, ch) <==> exists i :: CalledAt(run, steps, k, p, ch, i)
  {
    hide SchedInv, Next, Init, Inside, Returns, Begins, Rank;
    if k == 0 {
      NoneInside(run[0], p, ch);
    } else {
      var s, s', st := run[k - 1], run[k], steps[k - 1];
      SameSize(run, steps, k - 1);
      RunSchedInv(run, steps, k - 1);
      PcMoves(s, s', st, p, ch);
      InsideExactly(run, steps, k - 1, p, ch);
      if Inside(s'.procs[p].pc, ch) {
        if Begins(st, p, ch) {
          assert CalledAt(run, steps, k, p, ch, k - 1);
        } else {
          var i :| CalledAt(run, steps, k - 1, p, ch, i);
          assert CalledAt(run, steps, k, p, ch, i);
        }
      }
      if i :| CalledAt(run, steps, k, p, ch, i) {
        if i < k - 1 { assert CalledAt(run, steps, k - 1, p, ch, i); }
      }
    }
  }

  /** Who is inside sleep is so on a channel that there is. */
  lemma {:induction false} RunChannel(run: seq<State>, steps: seq<Step>, k: nat, p: nat, ch: nat)
    requires IsRun(run, steps) && k < |run| && p < |run[k].procs| && Inside(run[k].procs[p].pc, ch)
    ensures Channel(run[k], ch)
  {
    hide SchedInv, Next, Init, Inside, Returns, Begins, Rank;
    if k == 0 {
      NoneInside(run[0], p, ch);
      assert false;
    }
    SameSize(run, steps, k - 1);
    RunSchedInv(run, steps, k - 1);
    PcMoves(run[k - 1], run[k], steps[k - 1], p, ch);
    if Inside(run[k - 1].procs[p].pc, ch) { RunChannel(run, steps, k - 1, p, ch); }
  }

  // ---------------------------------------------------------------- allocproc

  /** allocproc takes the entry it looks at if and only if the entry is unused. */
  lemma TakesExactly(run: seq<State>, steps: seq<Step>, k: nat, p: nat, n: nat)
    requires IsRun(run, steps) && k < |steps| && steps[k].ProcStep? && steps[k].p == p < |run[k].procs|
    requires run[k].procs[p].pc == ForkTest(n)
    ensures p < |run[k + 1].procs| && n < |run[k].procs| && n < |run[k + 1].procs|
    ensures run[k + 1].procs[p].pc == ForkUsed(n) <==> run[k].procs[n].state == Unused
    ensures run[k].procs[n].state == Unused ==> run[k + 1].procs[n].state == Used
  {
    RunSchedInv(run, steps, k);
    Here(run[k], steps[k].c, p);
    assert Next(run[k], run[k + 1], steps[k]);
    hide SchedInv, Init, IsRun;
  }

  // ---------------------------------------------------------------- calls end

  /** How many of the steps from m on, before step k, are those of p's thread. */
  function Count(steps: seq<Step>, p: nat, m: nat, k: nat): nat
    requires m <= k <= |steps|
  {
    if k == m then 0 else Count(steps, p, m, k - 1) + if steps[k - 1].ProcStep? && steps[k - 1].p == p then 1 else 0
  }

  lemma RankBounds(s: State, p: nat)
    requires SchedInv(s) && p < |s.procs|
    ensures 0 <= Rank(s.procs[p].pc, |s.procs|) <= 3 * |s.procs| + 5
  {
    hide SchedInv;
    Fine(s, p, p);
  }

  /** A thread in the middle of sleep before it switches out or after it is back, or of wakeup, yield, kill, or a
      section of a process lock in fork, exit or wait, gets out of there in at most as many steps of its own as its
      rank says, whatever the others do: at most three for each process that wakeup looks at. */
  lemma {:induction false} CallsEnd(run: seq<State>, steps: seq<Step>, m: nat, k: nat, p: nat)
    requires IsRun(run, steps) && m <= k < |run| && p < |run[m].procs|
    requires forall l :: m <= l < k ==> p < |run[l].procs| && Rank(run[l].procs[p].pc, |run[l].procs|) > 0
    ensures |run[k].procs| == |run[m].procs|
    ensures Count(steps, p, m, k) + Rank(run[k].procs[p].pc, |run[k].procs|) <= Rank(run[m].procs[p].pc, |run[m].procs|)
    ensures 0 <= Rank(run[k].procs[p].pc, |run[k].procs|)
    ensures Rank(run[m].procs[p].pc, |run[m].procs|) <= 3 * |run[m].procs| + 5
    decreases k
  {
    hide SchedInv, Next, Init, Inside, Returns, Begins, Rank;
    RunSchedInv(run, steps, m);
    RankBounds(run[m], p);
    if k > m {
      CallsEnd(run, steps, m, k - 1, p);
      RunSchedInv(run, steps, k - 1);
      RunSchedInv(run, steps, k);
      PcMoves(run[k - 1], run[k], steps[k - 1], p, 0);
      RankBounds(run[k], p);
    }
  }

  // ---------------------------------------------------------------- no deadlock

  /** The spin-lock that the next step of a CPU takes. */
  datatype Want = ProcLock(i: nat) | Lk(k: nat) | Nothing

  function Wants(s: State, c: nat): Want
    requires c < |s.cpus|
  {
    match s.cpus[c].on
    case None => if s.cpus[c].spc.Scan? then ProcLock(s.cpus[c].spc.i) else Nothing
    case Some(p) =>
      if p >= |s.procs| then Nothing else
        match s.procs[p].pc
        case SleepEnter(_) => ProcLock(p)
        case At(r) => (
          match r
          case Retake(ch) => if ch < |s.guard| then Lk(s.guard[ch]) else Nothing
          case Forking(n) => ProcLock(n)
          case User => Nothing
        )
        case Wake(_, j) => if j < |s.procs| && j != p then ProcLock(j) else Nothing
        case _ => Nothing
  }

  /** CPU d holds the spin-lock that the next step of CPU c takes. */
  predicate Blocks(s: State, c: nat, d: nat) {
    && c < |s.cpus|
    && match Wants(s, c)
       case ProcLock(i) => i < |s.procs| && s.procs[i].lock == By(d)
       case Lk(k) => k < |s.lk| && s.lk[k] == By(d)
       case Nothing => false
  }

  /** CPU c is in its scheduler, or in the kernel where it holds a lock or is about to take one. */
  predicate Busy(s: State, c: nat) {
    && c < |s.cpus|
    && match s.cpus[c].on
       case None => true
       case Some(p) => p < |s.procs| && s.procs[p].pc != At(User)
  }

  predicate Blocked(s: State, c: nat)
    requires c < |s.cpus|
  {
    match Wants(s, c)
    case ProcLock(i) => i < |s.procs| && !s.procs[i].lock.Free?
    case Lk(k) => k < |s.lk| && !s.lk[k].Free?
    case Nothing => false
  }

  /** A round of the scheduler loop. */
  lemma LoopGoes(s: State, c: nat) returns (s': State, i: nat)
    requires c < |s.cpus| && CpuOk(s, c) && s.cpus[c].on.None? && !Blocked(s, c)
    ensures Next(s, s', SchedStep(c, i))
  {
    i := s.cpus[c].spc.i;
    match s.cpus[c].spc {
      case Scan(_) => s' := Turn(Lock(s, i, By(c)), c, Test(i));
      case Test(_) =>
        s' := if s.procs[i].state == Runnable then Turn(Set(s, i, s.procs[i].(state := Running)), c, Dispatch(i))
              else Turn(s, c, Release(i));
      case Dispatch(_) => s' := s.(cpus := s.cpus[c := s.cpus[c].(proc := Some(i), spc := Switch(i))]);
      case Switch(_) =>
        s' := Set(s, i, s.procs[i].(pc := Entered(s.procs[i].pc), cpu := c))
              .(cpus := s.cpus[c := s.cpus[c].(on := Some(i), spc := Away(i))]);
        assert DoSwitchIn(s, s', c, i);
      case Back(_) => s' := s.(cpus := s.cpus[c := s.cpus[c].(proc := None, spc := Release(i))]);
      case Release(_) => s' := Turn(Lock(s, i, Free), c, Scan(if i + 1 < |s.procs| then i + 1 else 0));
    }
  }

  lemma SleepGoes(s: State, c: nat, p: nat, ch: nat) returns (s': State, a: Act)
    requires On(s, c, p) && Inside(s.procs[p].pc, ch) && !Out(s.procs[p].pc) && Channel(s, ch) && !Blocked(s, c)
    requires !Leaving(s.procs[p].pc) && !s.procs[p].pc.YieldLocked? && !s.procs[p].pc.YieldBack?
    ensures ProcNext(s, s', c, p, a)
  {
    a := Sleep(ch);
    match s.procs[p].pc {
      case SleepEnter(_) => s' := Go(Lock(s, p, By(c)), p, SleepLocked(ch));
      case SleepLocked(_) => s' := Go(s, p, SleepChan(ch)).(lk := s.lk[s.guard[ch] := Free]);
      case SleepChan(_) => s' := Set(s, p, s.procs[p].(chan := Some(ch), pc := SleepState(ch)));
      case SleepState(_) => s' := Set(s, p, s.procs[p].(state := Sleeping, pc := SleepSwitch(ch)));
      case SleepBack(_) => s', a := Set(s, p, s.procs[p].(chan := None, pc := SleepDone(ch))), Woken(ch);
      case SleepDone(_) => s', a := Go(Lock(s, p, Free), p, At(Retake(ch))), Woken(ch);
      case At(_) =>
        a := Woken(ch);
        s' := Set(s, p, s.procs[p].(pc := In(s.guard[ch]), clear := {}, was := s.val[s.guard[ch]]))
              .(lk := s.lk[s.guard[ch] := By(c)]);
        assert DoRetake(s, s', c, p, ch);
    }
  }

  lemma WakeGoes(s: State, c: nat, p: nat) returns (s': State, a: Act)
    requires On(s, c, p) && s.procs[p].pc.Wake? && PcOk(s, p, s.procs[p].pc) && !Blocked(s, c)
    ensures ProcNext(s, s', c, p, a)
  {
    hide SleepNext, WokenNext, YieldNext, KillNext, ForkNext, StartNext, ExitNext, ReapNext;
    var ch, j := s.procs[p].pc.ch, s.procs[p].pc.j;
    if j == p {
      s', a := Go(s, p, Wake(ch, p + 1)), Waking(ch, j);
    } else if j < |s.procs| {
      s', a := Go(Lock(s, j, By(c)), p, WakeLocked(ch, j)), Waking(ch, j);
    } else {
      a := WakeEnd(ch);
      s' := Set(s, p, s.procs[p].(pc := In(s.guard[ch]), clear := s.procs[p].clear + {ch}));
    }
  }

  /** wakeup with the lock of a process. */
  lemma WakingGoes(s: State, c: nat, p: nat) returns (s': State, a: Act)
    requires On(s, c, p) && (s.procs[p].pc.WakeLocked? || s.procs[p].pc.WakeUnlock?) && PcOk(s, p, s.procs[p].pc)
    ensures ProcNext(s, s', c, p, a)
  {
    hide SleepNext, WokenNext, YieldNext, KillNext, ForkNext, StartNext, ExitNext, ReapNext;
    var ch, j := s.procs[p].pc.ch, s.procs[p].pc.j;
    a := Waking(ch, j);
    if s.procs[p].pc.WakeUnlock? {
      s' := Go(Lock(s, j, Free), p, Wake(ch, j + 1));
    } else {
      var q := s.procs[j];
      var r := if q.state == Sleeping && q.chan == Some(ch) then q.(state := Runnable) else q;
      s' := Go(Set(s, j, r), p, WakeUnlock(ch, j));
    }
  }

  lemma YieldGoes(s: State, c: nat, p: nat) returns (s': State, a: Act)
    requires On(s, c, p) && CpuOk(s, c)
    requires Leaving(s.procs[p].pc) || s.procs[p].pc.YieldLocked? || s.procs[p].pc.YieldBack?
    ensures ProcNext(s, s', c, p, a)
  {
    if Leaving(s.procs[p].pc) {
      a := SwitchOut;
      s' := Go(s, p, Left(s.procs[p].pc)).(cpus := s.cpus[c := s.cpus[c].(on := None, spc := Back(s.cpus[c].spc.i))]);
    } else if s.procs[p].pc.YieldLocked? {
      var r := s.procs[p].pc.r;
      s', a := Set(s, p, s.procs[p].(state := Runnable, pc := YieldSwitch(r))), Yield(r);
    } else {
      var r := s.procs[p].pc.r;
      s', a := Go(Lock(s, p, Free), p, At(r)), Yield(r);
    }
  }

  lemma KillGoes(s: State, c: nat, p: nat) returns (s': State, a: Act)
    requires On(s, c, p) && PcOk(s, p, s.procs[p].pc) && (s.procs[p].pc.KillLocked? || s.procs[p].pc.KillUnlock?)
    ensures ProcNext(s, s', c, p, a)
  {
    var q := s.procs[p].pc.q;
    a := Kill(q);
    if s.procs[p].pc.KillLocked? {
      var v := s.procs[q].(killed := true);
      s' := Go(Set(s, q, if v.state == Sleeping then v.(state := Runnable) else v), p, KillUnlock(q));
    } else {
      s' := Go(Lock(s, q, Free), p, At(User));
    }
  }

  lemma ForkGoes(s: State, c: nat, p: nat) returns (s': State, a: Act)
    requires On(s, c, p) && PcOk(s, p, s.procs[p].pc) && (s.procs[p].pc.ForkTest? || s.procs[p].pc.ForkUsed?)
    ensures ProcNext(s, s', c, p, a)
  {
    var n := s.procs[p].pc.n;
    a := Fork(n);
    if s.procs[p].pc.ForkUsed? {
      s' := Go(Lock(s, n, Free), p, At(Forking(n)));
    } else if s.procs[n].state == Unused {
      s' := Go(Set(s, n, s.procs[n].(state := Used, pc := YieldOut(User))), p, ForkUsed(n));
    } else {
      s' := Go(s, p, ForkUnlock(n));
    }
  }

  lemma StartGoes(s: State, c: nat, p: nat) returns (s': State, a: Act)
    requires On(s, c, p) && PcOk(s, p, s.procs[p].pc) && ForkOk(s, p) && !Blocked(s, c)
    requires var pc := s.procs[p].pc; pc.ForkReady? || pc.ForkUnlock? || (pc.At? && pc.r.Forking?)
    ensures ProcNext(s, s', c, p, a)
  {
    hide SleepNext, WokenNext, WakingNext, YieldNext, KillNext, ForkNext, ExitNext, ReapNext;
    match s.procs[p].pc {
      case ForkReady(n) => s', a := Go(Set(s, n, s.procs[n].(state := Runnable)), p, ForkUnlock(n)), Start(n);
      case ForkUnlock(n) => s', a := Go(Lock(s, n, Free), p, At(User)), Start(n);
      case At(r) => s', a := Go(Lock(s, r.n, By(c)), p, ForkReady(r.n)), Start(r.n);
    }
  }

  lemma SectionGoes(s: State, c: nat, p: nat) returns (s': State, a: Act)
    requires On(s, c, p) && PcOk(s, p, s.procs[p].pc)
    requires
      var pc := s.procs[p].pc;
      pc.In? || pc.ExitLocked? || pc.ExitZombie? || pc.ReapLocked? || pc.ReapUnlock?
    ensures ProcNext(s, s', c, p, a)
  {
    match s.procs[p].pc {
      case In(k) => s', a := Go(s, p, At(User)).(lk := s.lk[k := Free]), Unlock(k);
      case ExitLocked(k) => s', a := Set(s, p, s.procs[p].(state := Zombie, pc := ExitZombie(k))), Exit(k);
      case ExitZombie(k) => s', a := Go(s, p, ExitSwitch).(lk := s.lk[k := Free]), Exit(k);
      case ReapLocked(k, q) => s', a := Go(Set(s, q, s.procs[q]), p, ReapUnlock(k, q)), Reap(k, q, false);
      case ReapUnlock(k, q) => s', a := Go(Lock(s, q, Free), p, In(k)), Reap(k, q, false);
    }
  }

  /** A thread that is not blocked has a step to take. */
  lemma ThreadGoes(s: State, c: nat, p: nat) returns (s': State, a: Act)
    requires SchedInv(s) && On(s, c, p) && s.procs[p].pc != At(User) && !Blocked(s, c)
    requires forall ch :: Inside(s.procs[p].pc, ch) ==> Channel(s, ch)
    ensures ProcNext(s, s', c, p, a)
  {
    hide SchedInv, ProcNext, Blocked, Channel;
    Here(s, c, p);
    var pc := s.procs[p].pc;
    if Leaving(pc) || pc.YieldLocked? || pc.YieldBack? {
      s', a := YieldGoes(s, c, p);
    } else if pc.SleepEnter? || pc.SleepLocked? || pc.SleepChan? || pc.SleepState? || pc.SleepBack? || pc.SleepDone? {
      s', a := SleepGoes(s, c, p, pc.ch);
    } else if pc.At? && pc.r.Retake? {
      s', a := SleepGoes(s, c, p, pc.r.ch);
    } else if pc.Wake? {
      s', a := WakeGoes(s, c, p);
    } else if pc.WakeLocked? || pc.WakeUnlock? {
      s', a := WakingGoes(s, c, p);
    } else if pc.KillLocked? || pc.KillUnlock? {
      s', a := KillGoes(s, c, p);
    } else if pc.In? || pc.ExitLocked? || pc.ExitZombie? || pc.ReapLocked? || pc.ReapUnlock? {
      s', a := SectionGoes(s, c, p);
    } else if pc.ForkTest? || pc.ForkUsed? {
      s', a := ForkGoes(s, c, p);
    } else {
      s', a := StartGoes(s, c, p);
    }
  }

  /** A CPU that is not blocked has a step to take. */
  lemma CpuGoes(run: seq<State>, steps: seq<Step>, k: nat, c: nat) returns (s': State, st: Step)
    requires IsRun(run, steps) && k < |run| && Busy(run[k], c) && !Blocked(run[k], c)
    ensures Next(run[k], s', st) && st.c == c
  {
    hide SchedInv, Init, Blocked, Inside, ProcNext, LoopNext, DoSwitchIn;
    var s := run[k];
    RunSchedInv(run, steps, k);
    Here(s, c, 0);
    match s.cpus[c].on {
      case None =>
        var i;
        s', i := LoopGoes(s, c);
        st := SchedStep(c, i);
      case Some(p) =>
        forall ch: nat | Inside(s.procs[p].pc, ch) ensures Channel(s, ch) { RunChannel(run, steps, k, p, ch); }
        var a;
        s', a := ThreadGoes(s, c, p);
        st := ProcStep(c, p, a);
    }
  }

  /** Who holds the lock of a process waits for no spin-lock. */
  lemma HolderRuns(s: State, i: nat, d: nat)
    requires SchedInv(s) && i < |s.procs| && s.procs[i].lock == By(d)
    ensures Busy(s, d) && Wants(s, d) == Nothing
  {
    hide SchedInv;
    Here(s, d, i);
  }

  /** Who holds another spin-lock waits for the lock of a process at most. */
  lemma SectionRuns(s: State, k: nat, d: nat)
    requires SchedInv(s) && k < |s.lk| && s.lk[k] == By(d)
    ensures Busy(s, d) && !Wants(s, d).Lk?
  {
    hide SchedInv;
    GuardHere(s, d, k);
  }

  /** Locks of processes are taken last, so the CPUs never wait for each other in a circle: a CPU that is in its
      scheduler, or in the middle of sleep, wakeup, yield, kill, fork, exit or wait, or the one that holds the lock it
      needs, or the one that holds the lock that one needs, has a step to take. */
  lemma NoDeadlock(run: seq<State>, steps: seq<Step>, k: nat, c: nat) returns (d: nat, e: nat, s': State, st: Step)
    requires IsRun(run, steps) && k < |run| && Busy(run[k], c)
    ensures d == c || Blocks(run[k], c, d)
    ensures e == d || Blocks(run[k], d, e)
    ensures Next(run[k], s', st) && st.c == e
  {
    hide SchedInv, Next, Init, Busy, Wants;
    var s := run[k];
    RunSchedInv(run, steps, k);
    InRange(s, c);
    d := c;
    if Wants(s, c).Lk? && Blocked(s, c) {
      d := s.lk[Wants(s, c).k].cpu;
      SectionRuns(s, Wants(s, c).k, d);
      InRange(s, d);
    }
    e := d;
    if Wants(s, d).ProcLock? && Blocked(s, d) {
      e := s.procs[Wants(s, d).i].lock.cpu;
      HolderRuns(s, Wants(s, d).i, e);
      InRange(s, e);
    }
    s', st := CpuGoes(run, steps, k, e);
  }

  lemma InRange(s: State, c: nat)
    requires Busy(s, c)
    ensures c < |s.cpus|
  {
  }
}
