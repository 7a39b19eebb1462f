/** fork, exit, reparent, wait and kill of proc.c, for any number of processes. wait_lock is held over many
    steps, and so is p->lock where another lock is taken, memory is copied or the stack is left while it is
    held; a section of a lock that does none of these is one step, taken while that lock is free. */
module ExitWait {
  import opened Common

  datatype Spin = Free | Held(who: nat)

  /** RUNNABLE and RUNNING are one state here: the scheduler is not part of this model. */
  datatype PState = Unused | Used | Sleeping | Ready | Zombie

  datatype Pc =
    | Gone                                              // no thread: an unused, new or switched-out zombie process
    | Idle                                              // user code
    | ForkSetup(n: nat) | ForkLink(n: nat) | ForkReady(n: nat)
    | ExitScan(j: nat) | ExitWakeInit(j: nat, k: nat) | ExitWakeParent(k: nat) | ExitLock | ExitState | ExitSwitch
    | ExitOut                                           // off its stack, its lock not yet released by the scheduler
    | WaitScan(j: nat, kids: bool) | WaitReap(j: nat) | WaitAgain
    | SleepLock | SleepUnlock | SleepSwitch | SleepOut

  datatype Proc = Proc(state: PState, chan: Option<nat>, parent: Option<nat>, xstate: int, pid: nat, killed: bool,
                       lock: Spin, pc: Pc, status: int)

  /** `exited` and `reaped` record, per pid, the status passed to exit and the status wait returned. */
  datatype State = State(procs: seq<Proc>, waitLock: Spin, nextpid: nat, exited: map<nat, int>, reaped: seq<(nat, int)>)

  const INIT := 0

  predicate At(s: State, p: nat, pc: Pc) { p < |s.procs| && s.procs[p].pc == pc }

  function Set(s: State, p: nat, pr: Proc): State
    requires p < |s.procs|
  {
    s.(procs := s.procs[p := pr])
  }

  function Go(s: State, p: nat, pc: Pc): State
    requires p < |s.procs|
  {
    Set(s, p, s.procs[p].(pc := pc))
  }

  /** freeproc(): the table entry goes back to its initial values. */
  function Freed(pr: Proc): Proc {
    pr.(state := Unused, chan := None, parent := None, xstate := 0, pid := 0, killed := false)
  }

  // ---------------------------------------------------------------- fork

  predicate DoAlloc(s: State, s': State, p: nat, n: nat) {
    && At(s, p, Idle) && n < |s.procs| && n != p && s.procs[n].lock.Free? && s.procs[n].state == Unused
    && s' == Go(Set(s, n, s.procs[n].(state := Used, pid := s.nextpid, lock := Held(p))), p, ForkSetup(n))
             .(nextpid := s.nextpid + 1)
  }

  /** Memory may run out, and then the new process is freed again. */
  predicate DoForkSetup(s: State, s': State, p: nat, n: nat, ok: bool) {
    && At(s, p, ForkSetup(n)) && n < |s.procs|
    && s' == if ok then Go(Set(s, n, s.procs[n].(lock := Free)), p, ForkLink(n))
             else Go(Set(s, n, Freed(s.procs[n]).(lock := Free)), p, Idle)
  }

  predicate DoForkLink(s: State, s': State, p: nat, n: nat) {
    && At(s, p, ForkLink(n)) && n < |s.procs| && s.waitLock.Free?
    && s' == Go(Set(s, n, s.procs[n].(parent := Some(p))), p, ForkReady(n))
  }

  predicate DoForkReady(s: State, s': State, p: nat, n: nat) {
    && At(s, p, ForkReady(n)) && n < |s.procs| && s.procs[n].lock.Free?
    && s' == Go(Set(s, n, s.procs[n].(state := Ready, pc := Idle)), p, Idle)
  }

  // ---------------------------------------------------------------- exit

  predicate DoExit(s: State, s': State, p: nat, status: int) {
    && At(s, p, Idle) && p != INIT && s.waitLock.Free?
    && s' == Set(s, p, s.procs[p].(pc := ExitScan(0), status := status)).(waitLock := Held(p))
  }

  /** One round of reparent's loop, up to its call of wakeup. */
  predicate DoReparent(s: State, s': State, p: nat, j: nat) {
    && At(s, p, ExitScan(j)) && j < |s.procs|
    && s' == if s.procs[j].parent == Some(p)
             then Go(Set(s, j, s.procs[j].(parent := Some(INIT))), p, ExitWakeInit(j, 0))
             else Go(s, p, ExitScan(j + 1))
  }

  /** What one round of wakeup(chan)'s loop makes of a process. */
  function Wake(pr: Proc, chan: nat): Proc {
    if pr.state == Sleeping && pr.chan == Some(chan) then pr.(state := Ready) else pr
  }

  /** One round of wakeup(chan)'s loop: the caller skips itself. */
  predicate DoWakeup(s: State, s': State, p: nat, k: nat, chan: nat, next: Pc) {
    && p < |s.procs| && k < |s.procs|
    && if k == p then s' == Go(s, p, next)
       else s.procs[k].lock.Free? && s' == Go(Set(s, k, Wake(s.procs[k], chan)), p, next)
  }

  predicate DoWakeInit(s: State, s': State, p: nat, j: nat, k: nat) {
    At(s, p, ExitWakeInit(j, k)) && DoWakeup(s, s', p, k, INIT, ExitWakeInit(j, k + 1))
  }

  predicate DoWokenInit(s: State, s': State, p: nat, j: nat) {
    At(s, p, ExitWakeInit(j, |s.procs|)) && s' == Go(s, p, ExitScan(j + 1))
  }

  predicate DoReparented(s: State, s': State, p: nat) {
    At(s, p, ExitScan(|s.procs|)) && s' == Go(s, p, ExitWakeParent(0))
  }

  predicate DoWakeParent(s: State, s': State, p: nat, k: nat) {
    && At(s, p, ExitWakeParent(k)) && s.procs[p].parent.Some?
    && DoWakeup(s, s', p, k, s.procs[p].parent.value, ExitWakeParent(k + 1))
  }

  predicate DoWokenParent(s: State, s': State, p: nat) {
    At(s, p, ExitWakeParent(|s.procs|)) && s' == Go(s, p, ExitLock)
  }

  predicate DoExitLock(s: State, s': State, p: nat) {
    && At(s, p, ExitLock) && s.procs[p].lock.Free?
    && s' == Set(s, p, s.procs[p].(lock := Held(p), pc := ExitState))
  }

  predicate DoExitState(s: State, s': State, p: nat) {
    && At(s, p, ExitState)
    && s' == Set(s, p, s.procs[p].(xstate := s.procs[p].status, state := Zombie, pc := ExitSwitch))
             .(waitLock := Free, exited := s.exited[s.procs[p].pid := s.procs[p].status])
  }

  /** sched(): p leaves its stack for good, with its lock held. */
  predicate DoExitSwitch(s: State, s': State, p: nat) { At(s, p, ExitSwitch) && s' == Go(s, p, ExitOut) }

  /** The scheduler that p switched to releases p->lock. */
  predicate DoExitRelease(s: State, s': State, p: nat) {
    At(s, p, ExitOut) && s' == Set(s, p, s.procs[p].(lock := Free, pc := Gone))
  }

  // ---------------------------------------------------------------- wait

  predicate DoWait(s: State, s': State, p: nat) {
    (At(s, p, Idle) || At(s, p, WaitAgain)) && s.waitLock.Free?
        && s' == Go(s, p, WaitScan(0, false)).(waitLock := Held(p))
  }

  /** One round of wait's loop that finds another's child, or a child that has not exited. */
  predicate DoWaitScan(s: State, s': State, p: nat, j: nat, kids: bool) {
    && At(s, p, WaitScan(j, kids)) && j < |s.procs|
    && (s.procs[j].parent == Some(p) ==> s.procs[j].lock.Free? && s.procs[j].state != Zombie)
    && s' == Go(s, p, WaitScan(j + 1, kids || s.procs[j].parent == Some(p)))
  }

  predicate DoWaitFound(s: State, s': State, p: nat, j: nat, kids: bool) {
    && At(s, p, WaitScan(j, kids)) && j < |s.procs|
    && s.procs[j].parent == Some(p) && s.procs[j].lock.Free? && s.procs[j].state == Zombie
    && s' == Go(Set(s, j, s.procs[j].(lock := Held(p))), p, WaitReap(j))
  }

  /** copyout of the status may fail, and then the child stays a zombie. */
  predicate DoWaitReap(s: State, s': State, p: nat, j: nat, ok: bool) {
    && At(s, p, WaitReap(j)) && j < |s.procs|
    && s' == if ok
             then Go(Set(s, j, Freed(s.procs[j]).(lock := Free)), p, Idle)
                  .(waitLock := Free, reaped := s.reaped + [(s.procs[j].pid, s.procs[j].xstate)])
             else Go(Set(s, j, s.procs[j].(lock := Free)), p, Idle).(waitLock := Free)
  }

  predicate DoWaitEnd(s: State, s': State, p: nat, kids: bool) {
    && At(s, p, WaitScan(|s.procs|, kids))
    && s' == if !kids || s.procs[p].killed then Go(s, p, Idle).(waitLock := Free) else Go(s, p, SleepLock)
  }

  // ---------------------------------------------------------------- sleep(p, &wait_lock) and kill

  predicate DoSleepLock(s: State, s': State, p: nat) {
    At(s, p, SleepLock) && s.procs[p].lock.Free? && s' == Set(s, p, s.procs[p].(lock := Held(p), pc := SleepUnlock))
  }

  predicate DoSleepUnlock(s: State, s': State, p: nat) {
    At(s, p, SleepUnlock) && s' == Go(s, p, SleepSwitch).(waitLock := Free)
  }

  predicate DoSleepSwitch(s: State, s': State, p: nat) {
    && At(s, p, SleepSwitch)
    && s' == Set(s, p, s.procs[p].(chan := Some(p), state := Sleeping, lock := Free, pc := SleepOut))
  }

  /** The scheduler switches back to a process that was woken. */
  predicate DoSleepReturn(s: State, s': State, p: nat) {
    && At(s, p, SleepOut) && s.procs[p].state == Ready && s.procs[p].lock.Free?
    && s' == Set(s, p, s.procs[p].(chan := None, pc := WaitAgain))
  }

  predicate DoKill(s: State, s': State, p: nat, q: nat) {
    && At(s, p, Idle) && q < |s.procs| && s.procs[q].lock.Free?
    && s' == Set(s, q,
       s.procs[q].(killed := true, state := if s.procs[q].state == Sleeping then Ready else s.procs[q].state))
  }

  // ---------------------------------------------------------------- the whole system

  datatype Step =
    | OnAlloc(n: nat) | OnForkSetup(n: nat, ok: bool) | OnForkLink(n: nat) | OnForkReady(n: nat)
    | OnExit(status: int) | OnReparent(j: nat) | OnWakeInit(j: nat, k: nat) | OnWokenInit(j: nat) | OnReparented
    | OnWakeParent(k: nat) | OnWokenParent | OnExitLock | OnExitState | OnExitSwitch | OnExitRelease
    | OnWait | OnWaitScan(j: nat, kids: bool) | OnWaitFound(j: nat, kids: bool)
        | OnWaitReap(j: nat, ok: bool) | OnWaitEnd(kids: bool)
    | OnSleepLock | OnSleepUnlock | OnSleepSwitch | OnSleepReturn | OnKill(q: nat)

  predicate ForkNext(s: State, s': State, p: nat, st: Step) {
    match st
    case OnAlloc(n) => DoAlloc(s, s', p, n)
    case OnForkSetup(n, ok) => DoForkSetup(s, s', p, n, ok)
    case OnForkLink(n) => DoForkLink(s, s', p, n)
    case OnForkReady(n) => DoForkReady(s, s', p, n)
    case OnKill(q) => DoKill(s, s', p, q)
    case _ => false
  }

  predicate ExitNext(s: State, s': State, p: nat, st: Step) {
    match st
    case OnExit(status) => DoExit(s, s', p, status)
    case OnReparent(j) => DoReparent(s, s', p, j)
    case OnWakeInit(j, k) => DoWakeInit(s, s', p, j, k)
    case OnWokenInit(j) => DoWokenInit(s, s', p, j)
    case OnReparented => DoReparented(s, s', p)
    case OnWakeParent(k) => DoWakeParent(s, s', p, k)
    case OnWokenParent => DoWokenParent(s, s', p)
    case OnExitLock => DoExitLock(s, s', p)
    case OnExitState => DoExitState(s, s', p)
    case OnExitSwitch => DoExitSwitch(s, s', p)
    case OnExitRelease => DoExitRelease(s, s', p)
    case _ => false
  }

  predicate WaitNext(s: State, s': State, p: nat, st: Step) {
    match st
    case OnWait => DoWait(s, s', p)
    case OnWaitScan(j, kids) => DoWaitScan(s, s', p, j, kids)
    case OnWaitFound(j, kids) => DoWaitFound(s, s', p, j, kids)
    case OnWaitReap(j, ok) => DoWaitReap(s, s', p, j, ok)
    case OnWaitEnd(kids) => DoWaitEnd(s, s', p, kids)
    case OnSleepLock => DoSleepLock(s, s', p)
    case OnSleepUnlock => DoSleepUnlock(s, s', p)
    case OnSleepSwitch => DoSleepSwitch(s, s', p)
    case OnSleepReturn => DoSleepReturn(s, s', p)
    case _ => false
  }

  /** Process p takes one step. */
  predicate Next(s: State, s': State, p: nat, st: Step) {
    ForkNext(s, s', p, st) || ExitNext(s, s', p, st) || WaitNext(s, s', p, st)
  }

  /** At the start only init exists. */
  predicate Init(s: State) {
    && |s.procs| > 0 && s.waitLock.Free? && s.nextpid == 2 && s.exited == map[] && s.reaped == []
    && s.procs[INIT] == Proc(Ready, None, None, 0, 1, false, Free, Idle, 0)
    && forall p :: 0 < p < |s.procs| ==> s.procs[p] == Proc(Unused, None, None, 0, 0, false, Free, Gone, 0)
  }

  // ---------------------------------------------------------------- what every reachable state satisfies

  predicate Alive(pr: Proc) { pr.state == Ready || pr.state == Sleeping }

  predicate HoldsWait(pc: Pc) {
    || pc.ExitScan? || pc.ExitWakeInit? || pc.ExitWakeParent? || pc.ExitLock? || pc.ExitState?
    || pc.WaitScan? || pc.WaitReap? || pc.SleepLock? || pc.SleepUnlock?
  }

  /** The process whose lock p's thread holds. */
  function LockOf(p: nat, pc: Pc): Option<nat> {
    match pc
    case ForkSetup(n) => Some(n)
    case WaitReap(j) => Some(j)
    case ExitState => Some(p)
    case ExitSwitch => Some(p)
    case ExitOut => Some(p)
    case SleepUnlock => Some(p)
    case SleepSwitch => Some(p)
    case _ => None
  }

  predicate LockOk(s: State, p: nat)
    requires p < |s.procs|
  {
    && (HoldsWait(s.procs[p].pc) ==> s.waitLock == Held(p))
    && (LockOf(p, s.procs[p].pc).Some? ==>
          var q := LockOf(p, s.procs[p].pc).value;
          q < |s.procs| && s.procs[q].lock == Held(p))
  }

  /** Where a process may be in the code, given its state. */
  predicate StateOk(pr: Proc, p: nat) {
    && (match pr.pc
        case Gone => !Alive(pr)
        case ExitSwitch => pr.state == Zombie
        case ExitOut => pr.state == Zombie
        case SleepOut => Alive(pr) && pr.chan == Some(p)
        case _ => pr.state == Ready)
    && ((pr.pc.ExitScan? || pr.pc.ExitWakeInit? || pr.pc.ExitWakeParent? || pr.pc.ExitLock? || pr.pc.ExitState?) ==>
          p != INIT && pr.parent.Some?)
  }

  /** The process p is creating, as long as it is USED. */
  function Child(pc: Pc): Option<nat> {
    match pc
    case ForkSetup(n) => Some(n)
    case ForkLink(n) => Some(n)
    case ForkReady(n) => Some(n)
    case _ => None
  }

  predicate ForkOk(s: State, p: nat)
    requires p < |s.procs|
  {
    var pc := s.procs[p].pc;
    Child(pc).Some? ==>
      var n := Child(pc).value;
      && n < |s.procs| && n != p && s.procs[n].state == Used && s.procs[p].pid < s.procs[n].pid
      && s.procs[n].parent == if pc.ForkReady? then Some(p) else None
  }

  predicate Apart(s: State, p: nat, q: nat)
    requires p < |s.procs| && q < |s.procs|
  {
    p != q && Child(s.procs[p].pc).Some? ==> Child(s.procs[p].pc) != Child(s.procs[q].pc)
  }

  /** A child that is about to be freed is a zombie that has left its stack. */
  predicate ReapOk(s: State, p: nat)
    requires p < |s.procs|
  {
    s.procs[p].pc.WaitReap? ==>
      var j := s.procs[p].pc.j;
      j < |s.procs| && j != p && s.procs[j].state == Zombie && s.procs[j].parent == Some(p) && s.procs[j].pc.Gone?
  }

  /** A new process that already has a parent is one its parent is about to start. */
  predicate UsedOk(s: State, x: nat)
    requires x < |s.procs|
  {
    s.procs[x].state == Used && s.procs[x].parent.Some? ==> At(s, s.procs[x].parent.value, ForkReady(x))
  }

  predicate ThreadInv(s: State) {
    && INIT < |s.procs|
    && (forall p :: 0 <= p < |s.procs| ==> LockOk(s, p))
    && (forall p :: 0 <= p < |s.procs| ==> StateOk(s.procs[p], p))
    && (forall p :: 0 <= p < |s.procs| ==> ForkOk(s, p))
    && (forall p :: 0 <= p < |s.procs| ==> ReapOk(s, p))
    && (forall p :: 0 <= p < |s.procs| ==> UsedOk(s, p))
    && (forall p, q :: 0 <= p < |s.procs| && 0 <= q < |s.procs| ==> Apart(s, p, q))
  }

  /** The family tree: a process has a live parent with a smaller pid, unless it is init, unused or still
      being created. */
  predicate ParentOk(s: State, x: nat)
    requires x < |s.procs|
  {
    && (s.procs[x].state == Unused ==> s.procs[x].parent.None? && s.procs[x].pid == 0)
    && (s.procs[x].state != Unused ==> 0 < s.procs[x].pid < s.nextpid)
    && (s.procs[x].parent.None? ==> x == INIT || s.procs[x].state == Unused || s.procs[x].state == Used)
    && (s.procs[x].parent.Some? ==>
          var y := s.procs[x].parent.value;
          y < |s.procs| && Alive(s.procs[y]) && s.procs[y].pid < s.procs[x].pid)
    && (x != INIT && s.procs[x].state != Unused ==> 1 < s.procs[x].pid)
  }

  predicate OwnPid(s: State, x: nat, y: nat)
    requires x < |s.procs| && y < |s.procs|
  {
    x != y && s.procs[x].pid > 0 ==> s.procs[x].pid != s.procs[y].pid
  }

  /** What reparent's loop, or wait's, in p has established about the process x. */
  predicate Disowned(s: State, p: nat, x: nat)
    requires p < |s.procs| && x < |s.procs|
  {
    match s.procs[p].pc
    case ExitScan(j) => x < j ==> s.procs[x].parent != Some(p)
    case ExitWakeInit(j, k) => x <= j ==> s.procs[x].parent != Some(p)
    case ExitWakeParent(k) => s.procs[x].parent != Some(p)
    case ExitLock => s.procs[x].parent != Some(p)
    case ExitState => s.procs[x].parent != Some(p)
    case WaitScan(j, kids) => !kids && x < j ==> s.procs[x].parent != Some(p)
    case _ => true
  }

  predicate FamilyInv(s: State) {
    && INIT < |s.procs| && Alive(s.procs[INIT]) && s.procs[INIT].parent.None? && s.procs[INIT].pid == 1
    && (forall x :: 0 <= x < |s.procs| ==> ParentOk(s, x))
    && (forall x, y :: 0 <= x < |s.procs| && 0 <= y < |s.procs| ==> OwnPid(s, x, y))
    && (forall p, x :: 0 <= p < |s.procs| && 0 <= x < |s.procs| ==> Disowned(s, p, x))
  }

  /** q is on its way to sleep in wait, or asleep there. */
  predicate Down(pr: Proc) {
    pr.pc.SleepLock? || pr.pc.SleepUnlock? || pr.pc.SleepSwitch? || (pr.pc.SleepOut? && pr.state == Sleeping)
  }

  /** An exiting process has given init a child and has not yet come round to waking it. */
  predicate WakeComing(s: State, q: nat) {
    && q == INIT && s.waitLock.Held? && s.waitLock.who < |s.procs|
    && s.procs[s.waitLock.who].pc.ExitWakeInit? && s.procs[s.waitLock.who].pc.k <= q
  }

  /** A parent that is asleep, or has looked at z and found it running, has no zombie z. */
  predicate Noticed(s: State, q: nat, z: nat)
    requires q < |s.procs| && z < |s.procs|
  {
    s.procs[z].state == Zombie && s.procs[z].parent == Some(q) ==>
      && (Down(s.procs[q]) ==> WakeComing(s, q))
      && (s.procs[q].pc.WaitScan? ==> s.procs[q].pc.j <= z)
  }

  /** The exiting process z has woken its parent by the time it has passed it in wakeup's loop. */
  predicate Announced(s: State, z: nat)
    requires z < |s.procs|
  {
    var pr := s.procs[z];
    pr.parent.Some? && pr.parent.value < |s.procs| ==>
      && (pr.pc.ExitWakeParent? && pr.parent.value < pr.pc.k ==> !Down(s.procs[pr.parent.value]))
      && (pr.pc.ExitLock? || pr.pc.ExitState? ==> !Down(s.procs[pr.parent.value]))
  }

  predicate WaitInv(s: State) {
    && (forall q, z :: 0 <= q < |s.procs| && 0 <= z < |s.procs| ==> Noticed(s, q, z))
    && (forall z :: 0 <= z < |s.procs| ==> Announced(s, z))
  }

  /** What the history says of the process in entry x. */
  predicate Recorded(s: State, x: nat)
    requires x < |s.procs|
  {
    var pr := s.procs[x];
    && (pr.state == Zombie ==> pr.pid in s.exited && s.exited[pr.pid] == pr.xstate)
    && (Alive(pr) || pr.state == Used ==> pr.pid !in s.exited)
  }

  /** What the history says of the i-th status that a wait returned. */
  predicate Reaped(s: State, i: nat)
    requires i < |s.reaped|
  {
    && s.reaped[i].0 in s.exited && s.exited[s.reaped[i].0] == s.reaped[i].1
    && 0 < s.reaped[i].0
    && (forall x :: 0 <= x < |s.procs| ==> s.procs[x].pid != s.reaped[i].0)
    && (forall j :: i < j < |s.reaped| ==> s.reaped[j].0 != s.reaped[i].0)
  }

  predicate HistoryInv(s: State) {
    && (forall pid :: pid in s.exited ==> pid < s.nextpid)
    && (forall x :: 0 <= x < |s.procs| ==> Recorded(s, x))
    && (forall i :: 0 <= i < |s.reaped| ==> Reaped(s, i))
  }

  predicate Inv(s: State) { ThreadInv(s) && FamilyInv(s) && WaitInv(s) && HistoryInv(s) }
}
