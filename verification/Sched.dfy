/** proc.c's scheduler, sleep, wakeup, yield and kill, and the life of a process table entry in fork, exit and
    wait: any number of CPUs, processes, spin-locks and sleep channels; one lock operation, field write or
    context switch per step. */
module Sched {
  import opened Common

  /** A spin-lock: free, or held by a CPU (struct spinlock's cpu field). */
  datatype Spin = Free | By(cpu: nat)

  datatype PState = Unused | Used | Sleeping | Runnable | Running | Zombie

  /** Where a thread may be interrupted, since it holds no spin-lock: anywhere else in the kernel or in user
      code, at the end of sleep(ch, lk) before it takes lk again, or in fork between allocproc's release and
      making the child n runnable. */
  datatype Rest = User | Retake(ch: nat) | Forking(n: nat)

  /** Where a process's kernel thread is. */
  datatype Pc =
    | Dead                                   // an unused table slot
    | At(r: Rest)
    | In(k: nat)                             // inside a section of spin-lock k
    | SleepEnter(ch: nat) | SleepLocked(ch: nat) | SleepChan(ch: nat) | SleepState(ch: nat) | SleepSwitch(ch: nat)
    | SleepOut(ch: nat)                      // switched out inside sleep
    | SleepBack(ch: nat) | SleepDone(ch: nat)
    | Wake(ch: nat, j: nat) | WakeLocked(ch: nat, j: nat) | WakeUnlock(ch: nat, j: nat)
    | YieldLocked(r: Rest) | YieldSwitch(r: Rest)
    | YieldOut(r: Rest)                      // switched out inside yield, or about to start in forkret
    | YieldBack(r: Rest)
    | KillLocked(q: nat) | KillUnlock(q: nat)
    | ForkTest(n: nat) | ForkUsed(n: nat) | ForkReady(n: nat) | ForkUnlock(n: nat)
    | ExitLocked(k: nat) | ExitZombie(k: nat) | ExitSwitch
    | ExitOut                                // switched out for good
    | ReapLocked(k: nat, q: nat) | ReapUnlock(k: nat, q: nat)

  /** Where a CPU's scheduler loop is; `Away(i)`: its context is saved while process i runs. */
  datatype SPc = Scan(i: nat) | Test(i: nat) | Dispatch(i: nat) | Switch(i: nat)
      | Away(i: nat) | Back(i: nat) | Release(i: nat)

  /** The last four fields are bookkeeping: the CPU the thread runs on, how often it has called sleep, the
      channels it has woken in its present section, and the value that its lock guarded when the section
      began. */
  datatype Proc = Proc(state: PState, chan: Option<nat>, killed: bool, lock: Spin, pc: Pc,
                       cpu: nat, calls: nat, clear: set<nat>, was: int)

  /** `on`: the process on whose kernel stack the CPU executes, if any. */
  datatype Cpu = Cpu(proc: Option<nat>, spc: SPc, on: Option<nat>)

  /** lk are the spin-locks other than those of processes, val is what each of them guards, and guard[ch] is
      the lock that callers of sleep and wakeup on channel ch hold. */
  datatype State = State(cpus: seq<Cpu>, procs: seq<Proc>, lk: seq<Spin>, val: seq<int>, guard: seq<nat>)

  // ---------------------------------------------------------------- steps of a process on CPU c

  predicate On(s: State, c: nat, p: nat) { c < |s.cpus| && s.cpus[c].on == Some(p) && p < |s.procs| }

  predicate Ex(s: State, c: nat, p: nat, pc: Pc) { On(s, c, p) && s.procs[p].pc == pc }

  predicate Channel(s: State, ch: nat) { ch < |s.guard| && s.guard[ch] < |s.lk| == |s.val| }

  function Set(s: State, p: nat, pr: Proc): State
    requires p < |s.procs|
  {
    s.(procs := s.procs[p := pr])
  }

  function Go(s: State, p: nat, pc: Pc): State
    requires p < |s.procs|
  {
    Set(s, p, s.procs[p].(pc := pc))
  }

  function Lock(s: State, q: nat, l: Spin): State
    requires q < |s.procs|
  {
    Set(s, q, s.procs[q].(lock := l))
  }

  // sections of the other spin-locks

  predicate DoAcquire(s: State, s': State, c: nat, p: nat, k: nat) {
    && Ex(s, c, p, At(User)) && k < |s.lk| == |s.val| && s.lk[k].Free?
    && s' == Set(s, p, s.procs[p].(pc := In(k), clear := {}, was := s.val[k])).(lk := s.lk[k := By(c)])
  }

  predicate DoWrite(s: State, s': State, c: nat, p: nat, k: nat, v: int) {
    Ex(s, c, p, In(k)) && k < |s.val| && s' == s.(val := s.val[k := v])
  }

  predicate DoUnlock(s: State, s': State, c: nat, p: nat, k: nat) {
    Ex(s, c, p, In(k)) && k < |s.lk| && s' == Go(s, p, At(User)).(lk := s.lk[k := Free])
  }

  // sleep(ch, lk), called with lk held

  predicate DoSleepCall(s: State, s': State, c: nat, p: nat, ch: nat) {
    && Channel(s, ch) && Ex(s, c, p, In(s.guard[ch]))
    && s' == Set(s, p, s.procs[p].(pc := SleepEnter(ch), calls := s.procs[p].calls + 1))
  }

  predicate DoSleepLock(s: State, s': State, c: nat, p: nat, ch: nat) {
    Ex(s, c, p, SleepEnter(ch)) && s.procs[p].lock.Free? && s' == Go(Lock(s, p, By(c)), p, SleepLocked(ch))
  }

  predicate DoSleepRelease(s: State, s': State, c: nat, p: nat, ch: nat) {
    Ex(s, c, p, SleepLocked(ch)) && Channel(s, ch) && s' == Go(s, p, SleepChan(ch)).(lk := s.lk[s.guard[ch] := Free])
  }

  predicate DoSleepChan(s: State, s': State, c: nat, p: nat, ch: nat) {
    Ex(s, c, p, SleepChan(ch)) && s' == Set(s, p, s.procs[p].(chan := Some(ch), pc := SleepState(ch)))
  }

  predicate DoSleepState(s: State, s': State, c: nat, p: nat, ch: nat) {
    Ex(s, c, p, SleepState(ch)) && s' == Set(s, p, s.procs[p].(state := Sleeping, pc := SleepSwitch(ch)))
  }

  predicate DoSleepBack(s: State, s': State, c: nat, p: nat, ch: nat) {
    Ex(s, c, p, SleepBack(ch)) && s' == Set(s, p, s.procs[p].(chan := None, pc := SleepDone(ch)))
  }

  predicate DoSleepDone(s: State, s': State, c: nat, p: nat, ch: nat) {
    Ex(s, c, p, SleepDone(ch)) && s' == Go(Lock(s, p, Free), p, At(Retake(ch)))
  }

  predicate DoRetake(s: State, s': State, c: nat, p: nat, ch: nat) {
    && Ex(s, c, p, At(Retake(ch))) && Channel(s, ch) && s.lk[s.guard[ch]].Free?
    && s' == Set(s, p, s.procs[p].(pc := In(s.guard[ch]), clear := {}, was := s.val[s.guard[ch]]))
             .(lk := s.lk[s.guard[ch] := By(c)])
  }

  // wakeup(ch), called with the channel's lock held

  predicate DoWakeCall(s: State, s': State, c: nat, p: nat, ch: nat) {
    Channel(s, ch) && Ex(s, c, p, In(s.guard[ch])) && s' == Go(s, p, Wake(ch, 0))
  }

  /** The caller passes over itself. */
  predicate DoWakeSkip(s: State, s': State, c: nat, p: nat, ch: nat) {
    Ex(s, c, p, Wake(ch, p)) && s' == Go(s, p, Wake(ch, p + 1))
  }

  predicate DoWakeLock(s: State, s': State, c: nat, p: nat, ch: nat, j: nat) {
    && Ex(s, c, p, Wake(ch, j)) && j < |s.procs| && j != p && s.procs[j].lock.Free?
    && s' == Go(Lock(s, j, By(c)), p, WakeLocked(ch, j))
  }

  predicate DoWakeTest(s: State, s': State, c: nat, p: nat, ch: nat, j: nat) {
    && Ex(s, c, p, WakeLocked(ch, j)) && j < |s.procs|
    && var q := s.procs[j];
       var r := if q.state == Sleeping && q.chan == Some(ch) then q.(state := Runnable) else q;
       s' == Go(Set(s, j, r), p, WakeUnlock(ch, j))
  }

  predicate DoWakeUnlock(s: State, s': State, c: nat, p: nat, ch: nat, j: nat) {
    Ex(s, c, p, WakeUnlock(ch, j)) && j < |s.procs| && s' == Go(Lock(s, j, Free), p, Wake(ch, j + 1))
  }

  predicate DoWakeEnd(s: State, s': State, c: nat, p: nat, ch: nat) {
    && Ex(s, c, p, Wake(ch, |s.procs|)) && Channel(s, ch)
    && s' == Set(s, p, s.procs[p].(pc := In(s.guard[ch]), clear := s.procs[p].clear + {ch}))
  }

  // yield and kill

  predicate DoYieldLock(s: State, s': State, c: nat, p: nat, r: Rest) {
    Ex(s, c, p, At(r)) && s.procs[p].lock.Free? && s' == Go(Lock(s, p, By(c)), p, YieldLocked(r))
  }

  predicate DoYieldState(s: State, s': State, c: nat, p: nat, r: Rest) {
    Ex(s, c, p, YieldLocked(r)) && s' == Set(s, p, s.procs[p].(state := Runnable, pc := YieldSwitch(r)))
  }

  /** The end of yield, or forkret. */
  predicate DoYieldBack(s: State, s': State, c: nat, p: nat, r: Rest) {
    Ex(s, c, p, YieldBack(r)) && s' == Go(Lock(s, p, Free), p, At(r))
  }

  predicate DoKillLock(s: State, s': State, c: nat, p: nat, q: nat) {
    Ex(s, c, p, At(User)) && q < |s.procs| && s.procs[q].lock.Free? && s' == Go(Lock(s, q, By(c)), p, KillLocked(q))
  }

  predicate DoKillSet(s: State, s': State, c: nat, p: nat, q: nat) {
    && Ex(s, c, p, KillLocked(q)) && q < |s.procs|
    && var v := s.procs[q].(killed := true);
       s' == Go(Set(s, q, if v.state == Sleeping then v.(state := Runnable) else v), p, KillUnlock(q))
  }

  predicate DoKillUnlock(s: State, s': State, c: nat, p: nat, q: nat) {
    Ex(s, c, p, KillUnlock(q)) && q < |s.procs| && s' == Go(Lock(s, q, Free), p, At(User))
  }

  // fork: allocproc looks at entry n

  predicate DoForkLock(s: State, s': State, c: nat, p: nat, n: nat) {
    Ex(s, c, p, At(User)) && n < |s.procs| && s.procs[n].lock.Free? && s' == Go(Lock(s, n, By(c)), p, ForkTest(n))
  }

  /** An unused entry is taken, and its context set so that it will start in forkret. */
  predicate DoForkTake(s: State, s': State, c: nat, p: nat, n: nat) {
    && Ex(s, c, p, ForkTest(n)) && n < |s.procs| && s.procs[n].state == Unused
    && s' == Go(Set(s, n, s.procs[n].(state := Used, pc := YieldOut(User))), p, ForkUsed(n))
  }

  predicate DoForkSkip(s: State, s': State, c: nat, p: nat, n: nat) {
    Ex(s, c, p, ForkTest(n)) && n < |s.procs| && s.procs[n].state != Unused && s' == Go(s, p, ForkUnlock(n))
  }

  predicate DoForkKeep(s: State, s': State, c: nat, p: nat, n: nat) {
    Ex(s, c, p, ForkUsed(n)) && n < |s.procs| && s' == Go(Lock(s, n, Free), p, At(Forking(n)))
  }

  /** Memory ran out: freeproc. */
  predicate DoForkFail(s: State, s': State, c: nat, p: nat, n: nat) {
    Ex(s, c, p, ForkUsed(n)) && n < |s.procs| && s' == Go(Set(s, n, Freed(s.procs[n])), p, ForkUnlock(n))
  }

  predicate DoForkRelock(s: State, s': State, c: nat, p: nat, n: nat) {
    && Ex(s, c, p, At(Forking(n))) && n < |s.procs| && s.procs[n].lock.Free?
    && s' == Go(Lock(s, n, By(c)), p, ForkReady(n))
  }

  predicate DoForkReady(s: State, s': State, c: nat, p: nat, n: nat) {
    && Ex(s, c, p, ForkReady(n)) && n < |s.procs|
    && s' == Go(Set(s, n, s.procs[n].(state := Runnable)), p, ForkUnlock(n))
  }

  predicate DoForkUnlock(s: State, s': State, c: nat, p: nat, n: nat) {
    Ex(s, c, p, ForkUnlock(n)) && n < |s.procs| && s' == Go(Lock(s, n, Free), p, At(User))
  }

  /** freeproc(): the entry may be taken again, kernel stack included. */
  function Freed(pr: Proc): Proc { pr.(state := Unused, chan := None, killed := false, pc := Dead) }

  // exit, from its section of wait_lock on: k is that lock

  predicate DoExitLock(s: State, s': State, c: nat, p: nat, k: nat) {
    Ex(s, c, p, In(k)) && s.procs[p].lock.Free? && s' == Go(Lock(s, p, By(c)), p, ExitLocked(k))
  }

  predicate DoExitState(s: State, s': State, c: nat, p: nat, k: nat) {
    Ex(s, c, p, ExitLocked(k)) && s' == Set(s, p, s.procs[p].(state := Zombie, pc := ExitZombie(k)))
  }

  predicate DoExitRelease(s: State, s': State, c: nat, p: nat, k: nat) {
    Ex(s, c, p, ExitZombie(k)) && k < |s.lk| && s' == Go(s, p, ExitSwitch).(lk := s.lk[k := Free])
  }

  // wait, in its section of wait_lock: k is that lock, q a child

  predicate DoReapLock(s: State, s': State, c: nat, p: nat, k: nat, q: nat) {
    && Ex(s, c, p, In(k)) && q < |s.procs| && q != p && s.procs[q].lock.Free?
    && s' == Go(Lock(s, q, By(c)), p, ReapLocked(k, q))
  }

  /** A zombie is freed, unless the copy of its status fails. */
  predicate DoReapTest(s: State, s': State, c: nat, p: nat, k: nat, q: nat, ok: bool) {
    && Ex(s, c, p, ReapLocked(k, q)) && q < |s.procs|
    && var z := s.procs[q];
       s' == Go(Set(s, q, if z.state == Zombie && ok then Freed(z) else z), p, ReapUnlock(k, q))
  }

  predicate DoReapUnlock(s: State, s': State, c: nat, p: nat, k: nat, q: nat) {
    Ex(s, c, p, ReapUnlock(k, q)) && q < |s.procs| && s' == Go(Lock(s, q, Free), p, In(k))
  }

  /** sched(): swtch to this CPU's scheduler context. */
  predicate DoSwitchOut(s: State, s': State, c: nat, p: nat) {
    && On(s, c, p) && s.cpus[c].spc.Away? && Leaving(s.procs[p].pc)
    && s' == Go(s, p, Left(s.procs[p].pc)).(cpus := s.cpus[c := s.cpus[c].(on := None, spc := Back(s.cpus[c].spc.i))])
  }

  predicate Leaving(pc: Pc) { pc.SleepSwitch? || pc.YieldSwitch? || pc.ExitSwitch? }

  function Left(pc: Pc): Pc
    requires Leaving(pc)
  {
    if pc.SleepSwitch? then SleepOut(pc.ch) else if pc.YieldSwitch? then YieldOut(pc.r) else ExitOut
  }

  // ---------------------------------------------------------------- steps of the scheduler on CPU c

  predicate Loop(s: State, c: nat, spc: SPc) {
    c < |s.cpus| && s.cpus[c].on.None? && s.cpus[c].spc == spc && spc.i < |s.procs|
  }

  function Turn(s: State, c: nat, spc: SPc): State
    requires c < |s.cpus|
  {
    s.(cpus := s.cpus[c := s.cpus[c].(spc := spc)])
  }

  predicate DoScan(s: State, s': State, c: nat, i: nat) {
    Loop(s, c, Scan(i)) && s.procs[i].lock.Free? && s' == Turn(Lock(s, i, By(c)), c, Test(i))
  }

  predicate DoTest(s: State, s': State, c: nat, i: nat) {
    && Loop(s, c, Test(i))
    && s' == if s.procs[i].state == Runnable then Turn(Set(s, i, s.procs[i].(state := Running)), c, Dispatch(i))
             else Turn(s, c, Release(i))
  }

  predicate DoDispatch(s: State, s': State, c: nat, i: nat) {
    Loop(s, c, Dispatch(i)) && s' == s.(cpus := s.cpus[c := s.cpus[c].(proc := Some(i), spc := Switch(i))])
  }

  /** swtch to the saved context of process i. */
  predicate DoSwitchIn(s: State, s': State, c: nat, i: nat) {
    && Loop(s, c, Switch(i))
    && s' == Set(s, i, s.procs[i].(pc := Entered(s.procs[i].pc), cpu := c))
             .(cpus := s.cpus[c := s.cpus[c].(on := Some(i), spc := Away(i))])
  }

  function Entered(pc: Pc): Pc {
    if pc.SleepOut? then SleepBack(pc.ch) else if pc.YieldOut? then YieldBack(pc.r) else pc
  }

  predicate DoBack(s: State, s': State, c: nat, i: nat) {
    Loop(s, c, Back(i)) && s' == s.(cpus := s.cpus[c := s.cpus[c].(proc := None, spc := Release(i))])
  }

  predicate DoRelease(s: State, s': State, c: nat, i: nat) {
    && Loop(s, c, Release(i))
    && s' == Turn(Lock(s, i, Free), c, Scan(if i + 1 < |s.procs| then i + 1 else 0))
  }

  // ---------------------------------------------------------------- the whole system

  datatype Act =
    | Acquire(k: nat) | Write(k: nat, v: int) | Unlock(k: nat) | SleepCall(ch: nat) | Sleep(ch: nat) | Woken(ch: nat)
    | WakeCall(ch: nat) | Waking(ch: nat, j: nat) | WakeEnd(ch: nat) | Yield(r: Rest) | Kill(q: nat)
    | Fork(n: nat) | Start(n: nat) | Exit(k: nat) | Reap(k: nat, q: nat, ok: bool) | SwitchOut

  predicate SleepNext(s: State, s': State, c: nat, p: nat, ch: nat) {
    || DoSleepLock(s, s', c, p, ch) || DoSleepRelease(s, s', c, p, ch)
    || DoSleepChan(s, s', c, p, ch) || DoSleepState(s, s', c, p, ch)
  }

  predicate WokenNext(s: State, s': State, c: nat, p: nat, ch: nat) {
    DoSleepBack(s, s', c, p, ch) || DoSleepDone(s, s', c, p, ch) || DoRetake(s, s', c, p, ch)
  }

  predicate WakingNext(s: State, s': State, c: nat, p: nat, ch: nat, j: nat) {
    || DoWakeSkip(s, s', c, p, ch) || DoWakeLock(s, s', c, p, ch, j)
    || DoWakeTest(s, s', c, p, ch, j) || DoWakeUnlock(s, s', c, p, ch, j)
  }

  predicate YieldNext(s: State, s': State, c: nat, p: nat, r: Rest) {
    DoYieldLock(s, s', c, p, r) || DoYieldState(s, s', c, p, r) || DoYieldBack(s, s', c, p, r)
  }

  predicate KillNext(s: State, s': State, c: nat, p: nat, q: nat) {
    DoKillLock(s, s', c, p, q) || DoKillSet(s, s', c, p, q) || DoKillUnlock(s, s', c, p, q)
  }

  predicate ForkNext(s: State, s': State, c: nat, p: nat, n: nat) {
    || DoForkLock(s, s', c, p, n) || DoForkTake(s, s', c, p, n) || DoForkSkip(s, s', c, p, n)
    || DoForkKeep(s, s', c, p, n) || DoForkFail(s, s', c, p, n)
  }

  predicate StartNext(s: State, s': State, c: nat, p: nat, n: nat) {
    DoForkRelock(s, s', c, p, n) || DoForkReady(s, s', c, p, n) || DoForkUnlock(s, s', c, p, n)
  }

  predicate ExitNext(s: State, s': State, c: nat, p: nat, k: nat) {
    DoExitLock(s, s', c, p, k) || DoExitState(s, s', c, p, k) || DoExitRelease(s, s', c, p, k)
  }

  predicate ReapNext(s: State, s': State, c: nat, p: nat, k: nat, q: nat, ok: bool) {
    DoReapLock(s, s', c, p, k, q) || DoReapTest(s, s', c, p, k, q, ok) || DoReapUnlock(s, s', c, p, k, q)
  }

  /** Process p, on CPU c, takes one step. */
  predicate ProcNext(s: State, s': State, c: nat, p: nat, a: Act) {
    match a
    case Acquire(k) => DoAcquire(s, s', c, p, k)
    case Write(k, v) => DoWrite(s, s', c, p, k, v)
    case Unlock(k) => DoUnlock(s, s', c, p, k)
    case SleepCall(ch) => DoSleepCall(s, s', c, p, ch)
    case Sleep(ch) => SleepNext(s, s', c, p, ch)
    case Woken(ch) => WokenNext(s, s', c, p, ch)
    case WakeCall(ch) => DoWakeCall(s, s', c, p, ch)
    case Waking(ch, j) => WakingNext(s, s', c, p, ch, j)
    case WakeEnd(ch) => DoWakeEnd(s, s', c, p, ch)
    case Yield(r) => YieldNext(s, s', c, p, r)
    case Kill(q) => KillNext(s, s', c, p, q)
    case Fork(n) => ForkNext(s, s', c, p, n)
    case Start(n) => StartNext(s, s', c, p, n)
    case Exit(k) => ExitNext(s, s', c, p, k)
    case Reap(k, q, ok) => ReapNext(s, s', c, p, k, q, ok)
    case SwitchOut => DoSwitchOut(s, s', c, p)
  }

  predicate LoopNext(s: State, s': State, c: nat, i: nat) {
    DoScan(s, s', c, i) || DoTest(s, s', c, i) || DoDispatch(s, s', c, i)
        || DoBack(s, s', c, i) || DoRelease(s, s', c, i)
  }

  datatype Step = ProcStep(c: nat, p: nat, a: Act) | SchedStep(c: nat, i: nat)

  predicate Next(s: State, s': State, st: Step) {
    match st
    case ProcStep(c, p, a) => ProcNext(s, s', c, p, a)
    case SchedStep(c, i) => LoopNext(s, s', c, i) || DoSwitchIn(s, s', c, i)
  }

  /** At boot every CPU enters its scheduler loop, all locks are free, and every used process waits
      to be switched to for the first time. */
  predicate Init(s: State) {
    && |s.procs| > 0 && |s.lk| == |s.val|
    && (forall c :: 0 <= c < |s.cpus| ==> s.cpus[c] == Cpu(None, Scan(0), None))
    && (forall p :: 0 <= p < |s.procs| ==>
          || s.procs[p] == Proc(Runnable, None, false, Free, YieldOut(User), 0, 0, {}, 0)
          || s.procs[p] == Proc(Unused, None, false, Free, Dead, 0, 0, {}, 0))
    && (forall k :: 0 <= k < |s.lk| ==> s.lk[k].Free?)
    && forall ch :: 0 <= ch < |s.guard| ==> s.guard[ch] < |s.lk|
  }

  ghost predicate IsRun(run: seq<State>, steps: seq<Step>) {
    && |run| == |steps| + 1 && Init(run[0])
    && forall i :: 0 <= i < |steps| ==> Next(run[i], run[i + 1], steps[i])
  }

  // ---------------------------------------------------------------- what every reachable state satisfies

  /** The thread is switched out, or there is none. */
  predicate Out(pc: Pc) { pc.Dead? || pc.SleepOut? || pc.YieldOut? || pc.ExitOut? }

  /** The thread holds its own p->lock. */
  predicate Own(pc: Pc) {
    || pc.SleepLocked? || pc.SleepChan? || pc.SleepState? || pc.SleepSwitch? || pc.SleepBack? || pc.SleepDone?
    || pc.YieldLocked? || pc.YieldSwitch? || pc.YieldBack? || pc.ExitLocked? || pc.ExitZombie? || pc.ExitSwitch?
  }

  /** The process whose lock the thread holds as a waker, killer, parent-to-be or parent. */
  function Target(pc: Pc): Option<nat> {
    if pc.WakeLocked? || pc.WakeUnlock? then Some(pc.j)
    else if pc.KillLocked? || pc.KillUnlock? || pc.ReapLocked? || pc.ReapUnlock? then Some(pc.q)
    else if pc.ForkTest? || pc.ForkUsed? || pc.ForkReady? || pc.ForkUnlock? then Some(pc.n)
    else None
  }

  /** The other spin-lock that the thread holds. */
  function Inner(guard: seq<nat>, pc: Pc): Option<nat> {
    if pc.In? || pc.ExitLocked? || pc.ExitZombie? || pc.ReapLocked? || pc.ReapUnlock? then Some(pc.k)
    else if (pc.SleepEnter? || pc.SleepLocked? || pc.Wake? || pc.WakeLocked? || pc.WakeUnlock?) && pc.ch < |guard|
    then Some(guard[pc.ch])
    else None
  }

  /** The entry that the thread has taken in fork and not yet made runnable. */
  function Child(pc: Pc): Option<nat> {
    if pc.ForkUsed? || pc.ForkReady? then Some(pc.n)
    else if pc.At? || pc.YieldLocked? || pc.YieldSwitch? || pc.YieldOut? || pc.YieldBack? then
      if pc.r.Forking? then Some(pc.r.n) else None
    else None
  }

  /** The scheduler loop holds the lock of the process it is looking at. */
  predicate LoopHolds(spc: SPc) { !spc.Scan? && !spc.Away? }

  /** Process p's thread, at `pc`, holds q's lock. */
  predicate Holds(p: nat, pc: Pc, q: nat) { (p == q && Own(pc)) || Target(pc) == Some(q) }

  /** CPU d holds q's lock, by what it is executing. */
  predicate Claims(s: State, d: nat, q: nat) {
    && d < |s.cpus|
    && match s.cpus[d].on
       case None => LoopHolds(s.cpus[d].spc) && s.cpus[d].spc.i == q
       case Some(p) => p < |s.procs| && Holds(p, s.procs[p].pc, q)
  }

  /** CPU d holds spin-lock k, by what it is executing. */
  predicate ClaimsLk(s: State, d: nat, k: nat) {
    && d < |s.cpus| && s.cpus[d].on.Some? && s.cpus[d].on.value < |s.procs|
    && Inner(s.guard, s.procs[s.cpus[d].on.value].pc) == Some(k)
  }

  predicate CpuOk(s: State, d: nat) {
    d < |s.cpus| ==>
      var cpu := s.cpus[d];
      match cpu.on
      case Some(p) =>
        && p < |s.procs| && cpu.spc == Away(p) && cpu.proc == Some(p)
        && s.procs[p].cpu == d && !Out(s.procs[p].pc)
      case None =>
        && !cpu.spc.Away? && cpu.spc.i < |s.procs|
        && (cpu.spc.Dispatch? || cpu.spc.Switch? ==>
              s.procs[cpu.spc.i].state == Running
                  && (s.procs[cpu.spc.i].pc.SleepOut? || s.procs[cpu.spc.i].pc.YieldOut?))
        && (cpu.spc.Back? ==> Out(s.procs[cpu.spc.i].pc))
        && (cpu.spc.Switch? ==> cpu.proc == Some(cpu.spc.i))
  }

  /** What a process's state and channel say, given where its thread is. */
  predicate StateOk(pr: Proc) {
    && (match pr.pc
        case Dead => pr.state == Unused
        case SleepOut(_) => pr.state == Sleeping || pr.state == Runnable || pr.state == Running
        case YieldOut(_) => pr.state == Used || pr.state == Runnable || pr.state == Running
        case SleepSwitch(_) => pr.state == Sleeping
        case YieldSwitch(_) => pr.state == Runnable
        case ExitZombie(_) => pr.state == Zombie
        case ExitSwitch => pr.state == Zombie
        case ExitOut => pr.state == Zombie
        case _ => pr.state == Running)
    && (pr.pc.SleepState? || (pr.state == Sleeping && (pr.pc.SleepSwitch? || pr.pc.SleepOut?)) ==>
       pr.chan == Some(pr.pc.ch))
  }

  /** The numbers a thread at `pc` works with name locks, channels and processes. */
  predicate PcOk(s: State, p: nat, pc: Pc) {
    && (pc.SleepEnter? || pc.SleepLocked? || pc.Wake? || pc.WakeLocked? || pc.WakeUnlock? ==> Channel(s, pc.ch))
    && (Inner(s.guard, pc).Some? ==> Inner(s.guard, pc).value < |s.lk|)
    && (Target(pc).Some? ==> Target(pc).value < |s.procs|)
    && (pc.Wake? ==> pc.j <= |s.procs|)
    && (pc.WakeLocked? || pc.WakeUnlock? ==> pc.j != p)
    && (pc.ReapLocked? || pc.ReapUnlock? ==> pc.q != p)
  }

  /** A thread that is not switched out is on the CPU it says. */
  predicate RunOk(s: State, x: nat) {
    x < |s.procs| ==>
      && (!Out(s.procs[x].pc) ==> On(s, s.procs[x].cpu, x))
      && StateOk(s.procs[x]) && PcOk(s, x, s.procs[x].pc)
  }

  /** A process lock is held by the CPU that claims it, and by no other. */
  predicate LockOk(s: State, d: nat, x: nat) {
    x < |s.procs| ==> (Claims(s, d, x) <==> s.procs[x].lock == By(d))
  }

  predicate GuardOk(s: State, d: nat, k: nat) { k < |s.lk| ==> (ClaimsLk(s, d, k) <==> s.lk[k] == By(d)) }

  predicate ForkOk(s: State, x: nat) {
    x < |s.procs| && Child(s.procs[x].pc).Some? ==>
      var n := Child(s.procs[x].pc).value;
      n < |s.procs| && s.procs[n].state == Used && s.procs[n].pc == YieldOut(User)
  }

  predicate Lone(s: State, x: nat, y: nat) {
    x < |s.procs| && y < |s.procs| && x != y && Child(s.procs[x].pc).Some? ==>
        Child(s.procs[x].pc) != Child(s.procs[y].pc)
  }

  /** Locks are held by exactly the CPUs that claim them, each thread is on one CPU, and each new entry has
      one maker. */
  ghost predicate SchedInv(s: State) {
    && |s.lk| == |s.val|
    && (forall d :: CpuOk(s, d))
    && (forall x :: RunOk(s, x))
    && (forall d, x :: LockOk(s, d, x))
    && (forall d, k :: GuardOk(s, d, k))
    && (forall x :: ForkOk(s, x))
    && (forall x, y :: Lone(s, x, y))
  }
}
