/** The locks of fork, exit and wait: who holds them, that their sections end, and that nobody waits for ever in a
    circle; who is asleep in wait; and that no exit status is lost. */
module ExitWaitProgress {
  import opened Common
  import opened ExitWait
  import opened ExitWaitProofs
  import opened ExitWaitTheorems
  import opened ExitWaitCalls

  lemma Facts(s: State, p: nat)
    requires Inv(s) && p < |s.procs|
    ensures LockOk(s, p) && StateOk(s.procs[p], p) && ForkOk(s, p) && ReapOk(s, p)
    ensures ParentOk(s, p)
  {
    hide LockOk, StateOk, ForkOk, ReapOk, ParentOk, WaitInv, HistoryInv, UsedOk, Apart, OwnPid, Disowned;
  }

  // ---------------------------------------------------------------- who holds the locks

  /** How far the loops of exit and wait may be in a table of n entries. */
  predicate Within(pc: Pc, n: nat) {
    match pc
    case ExitScan(j) => j <= n
    case ExitWakeInit(j, k) => j < n && k <= n
    case ExitWakeParent(k) => k <= n
    case WaitScan(j, kids) => j <= n
    case _ => true
  }

  /** Only a zombie has an exit status. */
  predicate SpotOk(s: State, x: nat) {
    x < |s.procs| ==>
      Within(s.procs[x].pc, |s.procs|) && (s.procs[x].state != Zombie ==> s.procs[x].xstate == 0)
  }

  /** An entry's lock is held only by a process that is in its section. */
  predicate HolderOk(s: State, x: nat) {
    x < |s.procs| && s.procs[x].lock.Held? ==>
      var h := s.procs[x].lock.who;
      h < |s.procs| && LockOf(h, s.procs[h].pc) == Some(x)
  }

  predicate EntryOk(s: State, x: nat) { SpotOk(s, x) && HolderOk(s, x) }

  predicate WaitLockOk(s: State) {
    s.waitLock.Held? ==> s.waitLock.who < |s.procs| && HoldsWait(s.procs[s.waitLock.who].pc)
  }

  lemma ForkSpot(s: State, s': State, p: nat, st: Step, x: nat)
    requires Inv(s) && ForkNext(s, s', p, st) && SpotOk(s, x) && |s'.procs| == |s.procs|
    ensures SpotOk(s', x)
  {
    hide Inv;
    if p < |s.procs| {
      Facts(s, p);
      var n := Child(s.procs[p].pc);
      if n.Some? { Facts(s, n.value); }
    }
    if x < |s.procs| { Facts(s, x); }
  }

  lemma AllocHolder(s: State, s': State, p: nat, n: nat, x: nat)
    requires DoAlloc(s, s', p, n) && HolderOk(s, x)
    ensures HolderOk(s', x)
  {
  }

  lemma SetupHolder(s: State, s': State, p: nat, n: nat, ok: bool, x: nat)
    requires DoForkSetup(s, s', p, n, ok) && HolderOk(s, x)
    ensures HolderOk(s', x)
  {
  }

  lemma LinkHolder(s: State, s': State, p: nat, n: nat, x: nat)
    requires DoForkLink(s, s', p, n) && HolderOk(s, x)
    ensures HolderOk(s', x)
  {
  }

  lemma ReadyHolder(s: State, s': State, p: nat, n: nat, x: nat)
    requires DoForkReady(s, s', p, n) && HolderOk(s, x) && LockOf(n, s.procs[n].pc).None?
    ensures HolderOk(s', x)
  {
  }

  lemma KillHolder(s: State, s': State, p: nat, q: nat, x: nat)
    requires DoKill(s, s', p, q) && HolderOk(s, x)
    ensures HolderOk(s', x)
  {
  }

  lemma ForkHolder(s: State, s': State, p: nat, st: Step, x: nat)
    requires Inv(s) && ForkNext(s, s', p, st) && HolderOk(s, x) && |s'.procs| == |s.procs|
    ensures HolderOk(s', x)
  {
    hide Inv, DoAlloc, DoForkSetup, DoForkLink, DoKill, HolderOk;
    match st
    case OnAlloc(n) => AllocHolder(s, s', p, n, x);
    case OnForkSetup(n, ok) => SetupHolder(s, s', p, n, ok, x);
    case OnForkLink(n) => LinkHolder(s, s', p, n, x);
    case OnForkReady(n) =>
      Facts(s, p);
      Facts(s, n);
      ReadyHolder(s, s', p, n, x);
    case OnKill(q) => KillHolder(s, s', p, q, x);
  }

  lemma ForkWaitLock(s: State, s': State, p: nat, st: Step)
    requires Inv(s) && ForkNext(s, s', p, st) && WaitLockOk(s) && |s'.procs| == |s.procs|
    ensures WaitLockOk(s')
  {
    hide Inv;
    if p < |s.procs| {
      Facts(s, p);
      var n := Child(s.procs[p].pc);
      if n.Some? { Facts(s, n.value); }
    }
  }

  lemma ExitSpot(s: State, s': State, p: nat, st: Step, x: nat)
    requires Inv(s) && ExitNext(s, s', p, st) && SpotOk(s, x) && |s'.procs| == |s.procs|
    ensures SpotOk(s', x)
  {
    hide Inv;
    if p < |s.procs| { Facts(s, p); }
  }

  lemma ReparentHolder(s: State, s': State, p: nat, j: nat, status: int, x: nat)
    requires HolderOk(s, x)
    requires
      || DoExit(s, s', p, status) || DoReparent(s, s', p, j) || DoWokenInit(s, s', p, j) || DoReparented(s, s', p)
      || DoWokenParent(s, s', p)
    ensures HolderOk(s', x)
  {
  }

  lemma WakeupHolder(s: State, s': State, p: nat, k: nat, chan: nat, next: Pc, x: nat)
    requires DoWakeup(s, s', p, k, chan, next) && LockOf(p, s.procs[p].pc).None? && HolderOk(s, x)
    ensures HolderOk(s', x)
  {
  }

  lemma LeaveHolder(s: State, s': State, p: nat, x: nat)
    requires HolderOk(s, x)
    requires DoExitLock(s, s', p) || DoExitState(s, s', p) || DoExitSwitch(s, s', p) || DoExitRelease(s, s', p)
    ensures HolderOk(s', x)
  {
  }

  lemma ExitHolder(s: State, s': State, p: nat, st: Step, x: nat)
    requires ExitNext(s, s', p, st) && HolderOk(s, x)
    ensures HolderOk(s', x)
  {
    hide DoExit, DoReparent, DoWakeup, DoWokenInit, DoReparented, DoWokenParent, HolderOk;
    hide DoExitLock, DoExitState, DoExitSwitch, DoExitRelease;
    match st
    case OnExit(status) => ReparentHolder(s, s', p, 0, status, x);
    case OnReparent(j) => ReparentHolder(s, s', p, j, 0, x);
    case OnWakeInit(j, k) => WakeupHolder(s, s', p, k, INIT, ExitWakeInit(j, k + 1), x);
    case OnWokenInit(j) => ReparentHolder(s, s', p, j, 0, x);
    case OnReparented => ReparentHolder(s, s', p, 0, 0, x);
    case OnWakeParent(k) => WakeupHolder(s, s', p, k, s.procs[p].parent.value, ExitWakeParent(k + 1), x);
    case OnWokenParent => ReparentHolder(s, s', p, 0, 0, x);
    case _ => LeaveHolder(s, s', p, x);
  }

  lemma ExitWaitLock(s: State, s': State, p: nat, st: Step)
    requires Inv(s) && ExitNext(s, s', p, st) && WaitLockOk(s) && |s'.procs| == |s.procs|
    ensures WaitLockOk(s')
  {
    hide Inv;
    if p < |s.procs| { Facts(s, p); }
  }

  lemma WaitSpot(s: State, s': State, p: nat, st: Step, x: nat)
    requires Inv(s) && WaitNext(s, s', p, st) && SpotOk(s, x) && |s'.procs| == |s.procs|
    ensures SpotOk(s', x)
  {
    hide Inv;
    if p < |s.procs| { Facts(s, p); }
  }

  lemma ScanHolder(s: State, s': State, p: nat, j: nat, kids: bool, x: nat)
    requires HolderOk(s, x)
    requires DoWait(s, s', p) || DoWaitScan(s, s', p, j, kids) || DoWaitEnd(s, s', p, kids)
    ensures HolderOk(s', x)
  {
  }

  lemma FoundHolder(s: State, s': State, p: nat, j: nat, kids: bool, x: nat)
    requires DoWaitFound(s, s', p, j, kids) && HolderOk(s, x)
    ensures HolderOk(s', x)
  {
  }

  lemma ReapHolder(s: State, s': State, p: nat, j: nat, ok: bool, x: nat)
    requires DoWaitReap(s, s', p, j, ok) && HolderOk(s, x)
    ensures HolderOk(s', x)
  {
  }

  lemma SleepHolder(s: State, s': State, p: nat, x: nat)
    requires HolderOk(s, x)
    requires DoSleepLock(s, s', p) || DoSleepUnlock(s, s', p) || DoSleepSwitch(s, s', p) || DoSleepReturn(s, s', p)
    ensures HolderOk(s', x)
  {
  }

  lemma WaitHolder(s: State, s': State, p: nat, st: Step, x: nat)
    requires WaitNext(s, s', p, st) && HolderOk(s, x)
    ensures HolderOk(s', x)
  {
    hide DoWait, DoWaitScan, DoWaitFound, DoWaitReap, DoWaitEnd, HolderOk;
    hide DoSleepLock, DoSleepUnlock, DoSleepSwitch, DoSleepReturn;
    match st
    case OnWait => ScanHolder(s, s', p, 0, false, x);
    case OnWaitScan(j, kids) => ScanHolder(s, s', p, j, kids, x);
    case OnWaitFound(j, kids) => FoundHolder(s, s', p, j, kids, x);
    case OnWaitReap(j, ok) => ReapHolder(s, s', p, j, ok, x);
    case OnWaitEnd(kids) => ScanHolder(s, s', p, 0, kids, x);
    case _ => SleepHolder(s, s', p, x);
  }

  lemma WaitWaitLock(s: State, s': State, p: nat, st: Step)
    requires Inv(s) && WaitNext(s, s', p, st) && WaitLockOk(s) && |s'.procs| == |s.procs|
    ensures WaitLockOk(s')
  {
    hide Inv;
    if p < |s.procs| { Facts(s, p); }
  }

  lemma StepEntry(s: State, s': State, p: nat, st: Step, x: nat)
    requires Inv(s) && Next(s, s', p, st) && EntryOk(s, x) && WaitLockOk(s) && |s'.procs| == |s.procs|
    ensures EntryOk(s', x) && WaitLockOk(s')
  {
    hide Inv, ForkNext, ExitNext, WaitNext, SpotOk, HolderOk, WaitLockOk;
    if ForkNext(s, s', p, st) {
      ForkSpot(s, s', p, st, x);
      ForkHolder(s, s', p, st, x);
      ForkWaitLock(s, s', p, st);
    } else if ExitNext(s, s', p, st) {
      ExitSpot(s, s', p, st, x);
      ExitHolder(s, s', p, st, x);
      ExitWaitLock(s, s', p, st);
    } else {
      WaitSpot(s, s', p, st, x);
      WaitHolder(s, s', p, st, x);
      WaitWaitLock(s, s', p, st);
    }
  }

  lemma InitEntry(s: State, x: nat)
    requires Init(s)
    ensures EntryOk(s, x) && WaitLockOk(s)
  {
  }

  lemma {:induction false} RunEntry(run: seq<State>, moves: seq<(nat, Step)>, k: nat, x: nat)
    requires IsRun(run, moves) && k < |run|
    ensures EntryOk(run[k], x) && WaitLockOk(run[k])
  {
    hide Inv, Next, Init, EntryOk, WaitLockOk;
    if k == 0 {
      InitEntry(run[0], x);
    } else {
      RunEntry(run, moves, k - 1, x);
      RunInv(run, moves, k - 1);
      StepKeeps(run[k - 1], run[k], moves[k - 1].0, moves[k - 1].1);
      StepEntry(run[k - 1], run[k], moves[k - 1].0, moves[k - 1].1, x);
    }
  }

  /** wait_lock and every p->lock are held by exactly the process that is in a section of theirs. */
  lemma LocksExact(run: seq<State>, moves: seq<(nat, Step)>, k: nat, p: nat, q: nat)
    requires IsRun(run, moves) && k < |run| && p < |run[k].procs| && q < |run[k].procs|
    ensures run[k].waitLock == Held(p) <==> HoldsWait(run[k].procs[p].pc)
    ensures run[k].procs[q].lock == Held(p) <==> LockOf(p, run[k].procs[p].pc) == Some(q)
  {
    hide Inv, Next, Init;
    RunEntry(run, moves, k, q);
    RunInv(run, moves, k);
    Facts(run[k], p);
  }

  /** A process that has not exited has exit status 0 in its entry: freeproc leaves nothing behind for the next one. */
  lemma FreshStatus(run: seq<State>, moves: seq<(nat, Step)>, k: nat, x: nat)
    requires IsRun(run, moves) && k < |run| && x < |run[k].procs| && run[k].procs[x].state != Zombie
    ensures run[k].procs[x].xstate == 0
  {
    hide Inv, Next, Init;
    RunEntry(run, moves, k, x);
  }

  // ---------------------------------------------------------------- no deadlock

  /** In the middle of fork, exit or wait, and not asleep. */
  predicate Busy(pr: Proc) { !pr.pc.Gone? && !pr.pc.Idle? && !(pr.pc.SleepOut? && pr.state == Sleeping) }

  predicate NeedsWait(pc: Pc) { pc.ForkLink? || pc.WaitAgain? }

  /** The entry whose lock the next step of p takes. */
  function Needs(s: State, p: nat): Option<nat>
    requires p < |s.procs|
  {
    match s.procs[p].pc
    case ForkReady(n) => Some(n)
    case ExitWakeInit(j, k) => if k < |s.procs| && k != p then Some(k) else None
    case ExitWakeParent(k) => if k < |s.procs| && k != p then Some(k) else None
    case ExitLock => Some(p)
    case WaitScan(j, kids) => if j < |s.procs| && s.procs[j].parent == Some(p) then Some(j) else None
    case SleepLock => Some(p)
    case SleepOut => Some(p)
    case _ => None
  }

  /** Process h holds a lock that the next step of p takes. */
  predicate Blocks(s: State, p: nat, h: nat) {
    && p < |s.procs|
    && ((NeedsWait(s.procs[p].pc) && s.waitLock == Held(h))
        || (Needs(s, p).Some? && Needs(s, p).value < |s.procs| && s.procs[Needs(s, p).value].lock == Held(h)))
  }

  predicate Blocked(s: State, p: nat)
    requires p < |s.procs|
  {
    || (NeedsWait(s.procs[p].pc) && s.waitLock.Held?)
    || (Needs(s, p).Some? && Needs(s, p).value < |s.procs| && s.procs[Needs(s, p).value].lock.Held?)
  }

  /** A process that is not blocked has a step to take. */
  lemma OwnStep(s: State, p: nat) returns (s': State, st: Step)
    requires Inv(s) && p < |s.procs| && EntryOk(s, p) && Busy(s.procs[p]) && !Blocked(s, p)
    ensures Next(s, s', p, st)
  {
    hide Inv;
    Facts(s, p);
    match s.procs[p].pc {
      case ForkSetup(n) => s', st := ForkStep(s, p);
      case ForkLink(n) => s', st := ForkStep(s, p);
      case ForkReady(n) => s', st := ForkStep(s, p);
      case WaitScan(j, kids) => s', st := WaitStep(s, p);
      case WaitReap(j) => s', st := WaitStep(s, p);
      case WaitAgain => s', st := WaitStep(s, p);
      case SleepLock => s', st := SleepStep(s, p);
      case SleepUnlock => s', st := SleepStep(s, p);
      case SleepSwitch => s', st := SleepStep(s, p);
      case SleepOut => s', st := SleepStep(s, p);
      case ExitScan(j) => s', st := ScanStep(s, p);
      case ExitWakeInit(j, k) => s', st := ScanStep(s, p);
      case _ => s', st := ExitStep(s, p);
    }
  }

  lemma ForkStep(s: State, p: nat) returns (s': State, st: Step)
    requires p < |s.procs| && ForkOk(s, p) && Child(s.procs[p].pc).Some? && !Blocked(s, p)
    ensures Next(s, s', p, st)
  {
    match s.procs[p].pc {
      case ForkSetup(n) => s', st := Go(Set(s, n, s.procs[n].(lock := Free)), p, ForkLink(n)), OnForkSetup(n, true);
      case ForkLink(n) => s', st := Go(Set(s, n, s.procs[n].(parent := Some(p))), p, ForkReady(n)), OnForkLink(n);
      case ForkReady(n) => s', st := Go(Set(s, n, s.procs[n].(state := Ready, pc := Idle)), p, Idle), OnForkReady(n);
    }
  }

  /** A round of the loop of reparent, or of the wakeup in it. */
  lemma ScanStep(s: State, p: nat) returns (s': State, st: Step)
    requires p < |s.procs| && EntryOk(s, p) && !Blocked(s, p)
    requires s.procs[p].pc.ExitScan? || s.procs[p].pc.ExitWakeInit?
    ensures Next(s, s', p, st)
  {
    var n := |s.procs|;
    match s.procs[p].pc {
      case ExitScan(j) =>
        if j == n {
          s', st := Go(s, p, ExitWakeParent(0)), OnReparented;
        } else if s.procs[j].parent == Some(p) {
          s', st := Go(Set(s, j, s.procs[j].(parent := Some(INIT))), p, ExitWakeInit(j, 0)), OnReparent(j);
        } else {
          s', st := Go(s, p, ExitScan(j + 1)), OnReparent(j);
        }
      case ExitWakeInit(j, k) =>
        if k == n {
          s', st := Go(s, p, ExitScan(j + 1)), OnWokenInit(j);
        } else {
          s', st := WokeOne(s, p, k, INIT, ExitWakeInit(j, k + 1)), OnWakeInit(j, k);
        }
    }
  }

  function WokeOne(s: State, p: nat, k: nat, chan: nat, next: Pc): (s': State)
    requires p < |s.procs| && k < |s.procs| && (k != p ==> s.procs[k].lock.Free?)
    ensures DoWakeup(s, s', p, k, chan, next)
  {
    if k == p then Go(s, p, next) else Go(Set(s, k, Wake(s.procs[k], chan)), p, next)
  }

  lemma ExitStep(s: State, p: nat) returns (s': State, st: Step)
    requires p < |s.procs| && EntryOk(s, p) && StateOk(s.procs[p], p) && !Blocked(s, p)
    requires
      var pc := s.procs[p].pc;
      pc.ExitWakeParent? || pc.ExitLock? || pc.ExitState? || pc.ExitSwitch? || pc.ExitOut?
    ensures Next(s, s', p, st)
  {
    var pr := s.procs[p];
    match pr.pc {
      case ExitWakeParent(k) =>
        if k == |s.procs| {
          s', st := Go(s, p, ExitLock), OnWokenParent;
        } else {
          s', st := WokeOne(s, p, k, pr.parent.value, ExitWakeParent(k + 1)), OnWakeParent(k);
        }
      case ExitLock => s', st := Set(s, p, pr.(lock := Held(p), pc := ExitState)), OnExitLock;
      case ExitState =>
        s' := Set(s, p, pr.(xstate := pr.status, state := Zombie, pc := ExitSwitch))
              .(waitLock := Free, exited := s.exited[pr.pid := pr.status]);
        st := OnExitState;
      case ExitSwitch => s', st := Go(s, p, ExitOut), OnExitSwitch;
      case ExitOut => s', st := Set(s, p, pr.(lock := Free, pc := Gone)), OnExitRelease;
    }
  }

  lemma WaitStep(s: State, p: nat) returns (s': State, st: Step)
    requires p < |s.procs| && EntryOk(s, p) && ReapOk(s, p) && !Blocked(s, p)
    requires s.procs[p].pc.WaitScan? || s.procs[p].pc.WaitReap? || s.procs[p].pc.WaitAgain?
    ensures Next(s, s', p, st)
  {
    match s.procs[p].pc {
      case WaitScan(j, kids) =>
        if j == |s.procs| {
          st := OnWaitEnd(kids);
          s' := if !kids || s.procs[p].killed then Go(s, p, Idle).(waitLock := Free) else Go(s, p, SleepLock);
        } else if s.procs[j].parent == Some(p) && s.procs[j].state == Zombie {
          s', st := Go(Set(s, j, s.procs[j].(lock := Held(p))), p, WaitReap(j)), OnWaitFound(j, kids);
        } else {
          s', st := Go(s, p, WaitScan(j + 1, kids || s.procs[j].parent == Some(p))), OnWaitScan(j, kids);
        }
      case WaitReap(j) =>
        s', st := Go(Set(s, j, s.procs[j].(lock := Free)), p, Idle).(waitLock := Free), OnWaitReap(j, false);
      case WaitAgain => s', st := Go(s, p, WaitScan(0, false)).(waitLock := Held(p)), OnWait;
    }
  }

  lemma SleepStep(s: State, p: nat) returns (s': State, st: Step)
    requires p < |s.procs| && Busy(s.procs[p]) && StateOk(s.procs[p], p) && !Blocked(s, p)
    requires
      var pc := s.procs[p].pc;
      pc.SleepLock? || pc.SleepUnlock? || pc.SleepSwitch? || pc.SleepOut?
    ensures Next(s, s', p, st)
  {
    var pr := s.procs[p];
    match pr.pc {
      case SleepLock => s', st := Set(s, p, pr.(lock := Held(p), pc := SleepUnlock)), OnSleepLock;
      case SleepUnlock => s', st := Go(s, p, SleepSwitch).(waitLock := Free), OnSleepUnlock;
      case SleepSwitch =>
        s', st := Set(s, p, pr.(chan := Some(p), state := Sleeping, lock := Free, pc := SleepOut)), OnSleepSwitch;
      case SleepOut => s', st := Set(s, p, pr.(chan := None, pc := WaitAgain)), OnSleepReturn;
    }
  }

  /** Who holds the lock of an entry waits for no lock. */
  lemma HolderRuns(s: State, q: nat, h: nat)
    requires Inv(s) && q < |s.procs| && s.procs[q].lock == Held(h) && EntryOk(s, q)
    ensures h < |s.procs| && Busy(s.procs[h]) && !Blocked(s, h)
  {
    hide Inv;
  }

  /** wait_lock is taken before any p->lock, so nobody waits in a circle: when p is in the middle of fork, exit or wait
      and not asleep, then p, or who holds a lock it needs, or who holds a lock that one needs, has a step to take. */
  lemma NoDeadlock(run: seq<State>, moves: seq<(nat, Step)>, k: nat, p: nat)
    returns (h: nat, q: nat, s': State, st: Step)
    requires IsRun(run, moves) && k < |run| && p < |run[k].procs| && Busy(run[k].procs[p])
    ensures h == p || Blocks(run[k], p, h)
    ensures q == h || Blocks(run[k], h, q)
    ensures q < |run[k].procs| && Busy(run[k].procs[q]) && Next(run[k], s', q, st)
  {
    hide Inv, Next, Init, EntryOk, IsRun;
    RunInv(run, moves, k);
    var s := run[k];
    h := p;
    if NeedsWait(s.procs[p].pc) && s.waitLock.Held? {
      h := s.waitLock.who;
      HolderAwake(run, moves, k);
    }
    q := h;
    if Needs(s, h).Some? && Needs(s, h).value < |s.procs| && s.procs[Needs(s, h).value].lock.Held? {
      var x := Needs(s, h).value;
      q := s.procs[x].lock.who;
      RunEntry(run, moves, k, x);
      HolderRuns(s, x, q);
    }
    RunEntry(run, moves, k, q);
    s', st := OwnStep(s, q);
  }

  lemma HolderAwake(run: seq<State>, moves: seq<(nat, Step)>, k: nat)
    requires IsRun(run, moves) && k < |run| && run[k].waitLock.Held?
    ensures var h := run[k].waitLock.who; h < |run[k].procs| && Busy(run[k].procs[h]) && !NeedsWait(run[k].procs[h].pc)
  {
    hide Inv, Next, Init, EntryOk;
    RunEntry(run, moves, k, 0);
  }

  // ---------------------------------------------------------------- sections of wait_lock end

  /** How many more steps a process may take before it lets go of wait_lock. */
  function Rank(pc: Pc, n: nat): nat
    requires Within(pc, n)
  {
    match pc
    case ExitScan(j) => (n - j) * (n + 2) + n + 6
    case ExitWakeInit(j, k) => (n - j - 1) * (n + 2) + n - k + 1 + n + 6
    case ExitWakeParent(k) => n - k + 5
    case ExitLock => 4
    case ExitState => 3
    case WaitScan(j, kids) => n - j + 5
    case WaitReap(j) => 3
    case SleepLock => 4
    case SleepUnlock => 3
    case _ => 0
  }

  lemma RoundOf(n: nat, j: nat)
    requires j < n
    ensures (n - j) * (n + 2) == (n - j - 1) * (n + 2) + n + 2
  {
  }

  /** Each step of the holder brings it closer to letting go, and nobody else moves it. */
  lemma Closer(s: State, s': State, p: nat, st: Step, h: nat)
    requires Inv(s) && Next(s, s', p, st) && h < |s.procs| == |s'.procs| && HoldsWait(s.procs[h].pc)
    requires EntryOk(s, h) && EntryOk(s', h)
    ensures Rank(s'.procs[h].pc, |s.procs|) + (if p == h then 1 else 0) <= Rank(s.procs[h].pc, |s.procs|)
  {
    hide Inv, ForkNext, ExitNext, WaitNext, Rank;
    if ForkNext(s, s', p, st) {
      ForkCloser(s, s', p, st, h);
    } else if ExitNext(s, s', p, st) {
      ExitCloser(s, s', p, st, h);
    } else {
      WaitCloser(s, s', p, st, h);
    }
  }

  lemma ForkCloser(s: State, s': State, p: nat, st: Step, h: nat)
    requires Inv(s) && ForkNext(s, s', p, st) && h < |s.procs| == |s'.procs| && HoldsWait(s.procs[h].pc)
    ensures p != h && s'.procs[h].pc == s.procs[h].pc
  {
    hide Inv;
    if p < |s.procs| { Facts(s, p); }
    Facts(s, h);
  }

  lemma ExitCloser(s: State, s': State, p: nat, st: Step, h: nat)
    requires ExitNext(s, s', p, st) && h < |s.procs| == |s'.procs| && HoldsWait(s.procs[h].pc)
    requires Within(s.procs[h].pc, |s.procs|) && Within(s'.procs[h].pc, |s.procs|)
    ensures Rank(s'.procs[h].pc, |s.procs|) + (if p == h then 1 else 0) <= Rank(s.procs[h].pc, |s.procs|)
  {
    hide Rank;
    if p != h {
      ExitOthers(s, s', p, st, h);
    } else {
      ExitMoves(s, s', p, st);
      Lower(s.procs[p].pc, s'.procs[p].pc, |s.procs|);
    }
  }

  lemma ExitOthers(s: State, s': State, p: nat, st: Step, h: nat)
    requires ExitNext(s, s', p, st) && h < |s.procs| == |s'.procs| && p != h
    ensures s'.procs[h].pc == s.procs[h].pc
  {
  }

  /** Where exit goes next, up to where it lets go of wait_lock. */
  predicate Follows(pc: Pc, next: Pc, n: nat) {
    match pc
    case ExitScan(j) =>
      if j < n then next == ExitScan(j + 1) || next == ExitWakeInit(j, 0) else next == ExitWakeParent(0)
    case ExitWakeInit(j, k) => next == if k < n then ExitWakeInit(j, k + 1) else ExitScan(j + 1)
    case ExitWakeParent(k) => next == if k < n then ExitWakeParent(k + 1) else ExitLock
    case ExitLock => next == ExitState
    case ExitState => next == ExitSwitch
    case _ => false
  }

  lemma ExitMoves(s: State, s': State, p: nat, st: Step)
    requires ExitNext(s, s', p, st) && p < |s.procs| == |s'.procs| && HoldsWait(s.procs[p].pc)
    requires Within(s.procs[p].pc, |s.procs|)
    ensures Follows(s.procs[p].pc, s'.procs[p].pc, |s.procs|)
  {
  }

  lemma Lower(pc: Pc, next: Pc, n: nat)
    requires Follows(pc, next, n) && Within(pc, n) && Within(next, n)
    ensures Rank(next, n) + 1 <= Rank(pc, n)
  {
    if (pc.ExitScan? || pc.ExitWakeInit?) && pc.j < n { RoundOf(n, pc.j); }
  }

  lemma WaitCloser(s: State, s': State, p: nat, st: Step, h: nat)
    requires WaitNext(s, s', p, st) && h < |s.procs| == |s'.procs| && HoldsWait(s.procs[h].pc)
    requires Within(s.procs[h].pc, |s.procs|) && Within(s'.procs[h].pc, |s.procs|)
    ensures Rank(s'.procs[h].pc, |s.procs|) + (if p == h then 1 else 0) <= Rank(s.procs[h].pc, |s.procs|)
  {
  }

  /** How many of the steps from m on, before step k, are those of p. */
  function Count(moves: seq<(nat, Step)>, p: nat, m: nat, k: nat): nat
    requires m <= k <= |moves|
  {
    if k == m then 0 else Count(moves, p, m, k - 1) + if moves[k - 1].0 == p then 1 else 0
  }

  /** A process that keeps wait_lock takes at most as many steps meanwhile as its rank says, whatever the others do: a
      section of wait_lock is bounded by the size of the process table. */
  lemma {:induction false} SectionsEnd(run: seq<State>, moves: seq<(nat, Step)>, m: nat, k: nat, h: nat)
    requires IsRun(run, moves) && m <= k < |run| && forall l :: m <= l <= k ==> run[l].waitLock == Held(h)
    ensures h < |run[m].procs| == |run[k].procs|
    ensures Within(run[m].procs[h].pc, |run[m].procs|) && Within(run[k].procs[h].pc, |run[k].procs|)
    ensures Count(moves, h, m, k) + Rank(run[k].procs[h].pc, |run[k].procs|) <= Rank(run[m].procs[h].pc, |run[m].procs|)
    decreases k
  {
    hide Inv, Next, Init, Rank;
    RunEntry(run, moves, m, h);
    if k > m {
      var s, s', p, st := run[k - 1], run[k], moves[k - 1].0, moves[k - 1].1;
      SectionsEnd(run, moves, m, k - 1, h);
      RunEntry(run, moves, k - 1, h);
      RunEntry(run, moves, k, h);
      RunInv(run, moves, k - 1);
      StepKeeps(s, s', p, st);
      Closer(s, s', p, st, h);
    }
  }

  // ---------------------------------------------------------------- who is asleep in wait

  /** The step wakes q: a kill, or the wakeup of a child that exits, or that of one that leaves children to init. */
  predicate Rouses(s: State, p: nat, st: Step, q: nat) {
    match st
    case OnKill(x) => x == q
    case OnWakeInit(j, k) => k == q && q == INIT
    case OnWakeParent(k) => k == q && p < |s.procs| && s.procs[p].parent == Some(q)
    case _ => false
  }

  predicate Slumber(s: State, s': State, p: nat, st: Step, q: nat) {
    && q < |s.procs| == |s'.procs|
    && (s'.procs[q].state == Sleeping <==>
          (s.procs[q].state == Sleeping && !Rouses(s, p, st, q)) || (p == q && st == OnSleepSwitch))
  }

  lemma ForkSlumber(s: State, s': State, p: nat, st: Step, q: nat)
    requires Inv(s) && ForkNext(s, s', p, st) && q < |s.procs|
    ensures Slumber(s, s', p, st, q)
  {
    hide Inv;
    if p < |s.procs| { Facts(s, p); }
  }

  lemma ExitSlumber(s: State, s': State, p: nat, st: Step, q: nat)
    requires Inv(s) && ExitNext(s, s', p, st) && q < |s.procs| && ChannelOk(s, q)
    ensures Slumber(s, s', p, st, q)
  {
    hide Inv;
    Facts(s, q);
    if p < |s.procs| { Facts(s, p); }
  }

  lemma WaitSlumber(s: State, s': State, p: nat, st: Step, q: nat)
    requires Inv(s) && WaitNext(s, s', p, st) && q < |s.procs|
    ensures Slumber(s, s', p, st, q)
  {
    hide Inv;
    if p < |s.procs| { Facts(s, p); }
  }

  lemma Slumbers(s: State, s': State, p: nat, st: Step, q: nat)
    requires Inv(s) && Next(s, s', p, st) && q < |s.procs| && ChannelOk(s, q)
    ensures Slumber(s, s', p, st, q)
  {
    hide Inv, ForkNext, ExitNext, WaitNext, Slumber, ChannelOk;
    if ForkNext(s, s', p, st) {
      ForkSlumber(s, s', p, st, q);
    } else if ExitNext(s, s', p, st) {
      ExitSlumber(s, s', p, st, q);
    } else {
      WaitSlumber(s, s', p, st, q);
    }
  }

  predicate SleptAt(run: seq<State>, moves: seq<(nat, Step)>, k: nat, q: nat, i: int) {
    && 0 <= i < k <= |moves| && |run| == |moves| + 1 && moves[i] == (q, OnSleepSwitch)
    && forall l :: i < l < k ==> !Rouses(run[l], moves[l].0, moves[l].1, q)
  }

  lemma NobodySleeps(s: State, q: nat)
    requires Init(s) && q < |s.procs|
    ensures s.procs[q].state != Sleeping
  {
  }

  /** A process is asleep if and only if it has gone to sleep in wait, and since then it has not been killed, no child
      of its has come round to waking it in exit and, if it is init, nobody has after leaving it a child. */
  lemma {:induction false} SleepsExactly(run: seq<State>, moves: seq<(nat, Step)>, k: nat, q: nat)
    requires IsRun(run, moves) && k < |run| && q < |run[k].procs|
    ensures run[k].procs[q].state == Sleeping <==> exists i :: SleptAt(run, moves, k, q, i)
  {
    hide Inv, Next, Init, Rouses;
    if k == 0 {
      NobodySleeps(run[0], q);
    } else {
      var s, s', p, st := run[k - 1], run[k], moves[k - 1].0, moves[k - 1].1;
      RunInv(run, moves, k - 1);
      StepKeeps(s, s', p, st);
      SleepsExactly(run, moves, k - 1, q);
      ChannelsExact(run, moves, k - 1, q);
      Slumbers(s, s', p, st, q);
      if s'.procs[q].state == Sleeping {
        if (p, st) == (q, OnSleepSwitch) {
          assert SleptAt(run, moves, k, q, k - 1);
        } else {
          var i :| SleptAt(run, moves, k - 1, q, i);
          assert SleptAt(run, moves, k, q, i);
        }
      }
      if i :| SleptAt(run, moves, k, q, i) {
        if i < k - 1 { assert SleptAt(run, moves, k - 1, q, i); }
      }
    }
  }

  // ---------------------------------------------------------------- no status is lost

  /** The entry still has the status that the process with this pid passed to exit. */
  predicate Keeps(pr: Proc, pid: nat, status: int) {
    pr.pid == pid > 0 && ((Exiting(pr.pc) && pr.status == status) || (pr.state == Zombie && pr.xstate == status))
  }

  predicate Safe(s: State, x: nat, pid: nat, status: int) {
    x < |s.procs| && (Keeps(s.procs[x], pid, status) || (pid, status) in s.reaped)
  }

  /** fork and kill leave a process that exits, or has, as it is. */
  lemma ForkLeaves(s: State, s': State, p: nat, st: Step, x: nat)
    requires ForkNext(s, s', p, st) && x < |s.procs| && StateOk(s.procs[x], x) && (p < |s.procs| ==> ForkOk(s, p))
    ensures |s'.procs| == |s.procs| && s'.reaped == s.reaped
    ensures
      var a, b := s.procs[x], s'.procs[x];
      (a.state == Ready && Exiting(a.pc)) || a.state == Zombie ==> b == a.(killed := b.killed, lock := b.lock)
  {
  }

  lemma ForkSafe(s: State, s': State, p: nat, st: Step, x: nat, pid: nat, status: int)
    requires Inv(s) && ForkNext(s, s', p, st) && Safe(s, x, pid, status)
    ensures Safe(s', x, pid, status)
  {
    hide Inv, ForkNext, ForkOk;
    Facts(s, x);
    if p < |s.procs| { Facts(s, p); }
    ForkLeaves(s, s', p, st, x);
  }

  lemma ExitSafe(s: State, s': State, p: nat, st: Step, x: nat, pid: nat, status: int)
    requires Inv(s) && ExitNext(s, s', p, st) && Safe(s, x, pid, status)
    ensures Safe(s', x, pid, status)
  {
    hide Inv;
    Facts(s, x);
  }

  lemma WaitSafe(s: State, s': State, p: nat, st: Step, x: nat, pid: nat, status: int)
    requires Inv(s) && WaitNext(s, s', p, st) && Safe(s, x, pid, status)
    ensures Safe(s', x, pid, status)
  {
    hide Inv;
    if p < |s.procs| { Facts(s, p); }
    Facts(s, x);
    if s'.reaped != s.reaped { assert s'.reaped[|s.reaped|] in s'.reaped; }
  }

  lemma StepSafe(s: State, s': State, p: nat, st: Step, x: nat, pid: nat, status: int)
    requires Inv(s) && Next(s, s', p, st) && Safe(s, x, pid, status)
    ensures Safe(s', x, pid, status)
  {
    hide Inv, ForkNext, ExitNext, WaitNext, Safe;
    if ForkNext(s, s', p, st) {
      ForkSafe(s, s', p, st, x, pid, status);
    } else if ExitNext(s, s', p, st) {
      ExitSafe(s, s', p, st, x, pid, status);
    } else {
      WaitSafe(s, s', p, st, x, pid, status);
    }
  }

  lemma ExitSaves(s: State, s': State, p: nat, status: int)
    requires Inv(s) && Next(s, s', p, OnExit(status))
    ensures p < |s.procs| && Safe(s', p, s.procs[p].pid, status)
  {
    hide Inv;
    Facts(s, p);
  }

  /** No status is lost: what a process passes to exit is in its entry, under its pid, until a wait has returned it. */
  lemma {:induction false} NoStatusLost(run: seq<State>, moves: seq<(nat, Step)>, i: nat, k: nat, status: int)
    requires IsRun(run, moves) && i < k < |run| && moves[i].1 == OnExit(status)
    ensures moves[i].0 < |run[i].procs| && Safe(run[k], moves[i].0, run[i].procs[moves[i].0].pid, status)
    decreases k
  {
    hide Inv, Next, Init, Safe;
    RunInv(run, moves, k - 1);
    if k == i + 1 {
      ExitSaves(run[i], run[k], moves[i].0, status);
    } else {
      NoStatusLost(run, moves, i, k - 1, status);
      StepSafe(run[k - 1], run[k], moves[k - 1].0, moves[k - 1].1, moves[i].0, run[i].procs[moves[i].0].pid, status);
    }
  }
}
