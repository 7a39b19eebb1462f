/** The sleep-locks of sleeplock.c as clients of sleep and wakeup. Sleep-lock l has spin-lock l as its inner
    lock and l as its channel; what the inner lock guards is 0 while the sleep-lock is free, and p + 1 while
    its word is set and its pid is that of process p. Beside the n sleep-locks there may be any other locks
    and channels, used in any way. */
module SleepLocks {
  import opened Common
  import opened Sched
  import opened SchedProofs
  import opened SleepProofs

  /** Where a process is in acquiresleep (Testing, Taken) or releasesleep (Dropping, Dropped, Signal). */
  datatype Prog = Idle | Testing(l: nat) | Taken(l: nat) | Dropping(l: nat) | Dropped(l: nat) | Signal(l: nat)

  /** held[p] are the sleep-locks for which p has returned from acquiresleep and not called releasesleep. */
  datatype System = System(s: State, prog: seq<Prog>, held: seq<set<nat>>, n: nat)

  datatype Call = AcqEnter(l: nat) | AcqSleep(l: nat) | AcqTake(l: nat) | AcqLeave(l: nat)
                | RelEnter(l: nat) | RelClear(l: nat) | RelWake(l: nat) | RelLeave(l: nat)

  predicate Doing(m: System, p: nat, g: Prog) { p < |m.prog| && p < |m.held| && m.prog[p] == g }

  function Now(m: System, s': State, p: nat, g: Prog): System
    requires p < |m.prog|
  {
    m.(s := s', prog := m.prog[p := g])
  }

  // ---------------------------------------------------------------- acquiresleep and releasesleep

  /** The step of the machine below, and what it makes of the caller's program. */
  predicate CallNext(m: System, m': System, c: nat, p: nat, call: Call) {
    var l := call.l;
    && l < m.n && l < |m.s.val|
    && match call
       case AcqEnter(_) => Doing(m, p, Idle) && DoAcquire(m.s, m'.s, c, p, l) && m' == Now(m, m'.s, p, Testing(l))
       case AcqSleep(_) =>
         Doing(m, p, Testing(l)) && m.s.val[l] != 0 && DoSleepCall(m.s, m'.s, c, p, l)
             && m' == Now(m, m'.s, p, Testing(l))
       case AcqTake(_) =>
         Doing(m, p, Testing(l)) && m.s.val[l] == 0 && DoWrite(m.s, m'.s, c, p, l, p + 1)
             && m' == Now(m, m'.s, p, Taken(l))
       case AcqLeave(_) =>
         && Doing(m, p, Taken(l)) && DoUnlock(m.s, m'.s, c, p, l)
         && m' == Now(m, m'.s, p, Idle).(held := m.held[p := m.held[p] + {l}])
       case RelEnter(_) =>
         Doing(m, p, Idle) && l in m.held[p] && DoAcquire(m.s, m'.s, c, p, l) && m' == Now(m, m'.s, p, Dropping(l))
       case RelClear(_) =>
         && Doing(m, p, Dropping(l)) && DoWrite(m.s, m'.s, c, p, l, 0)
         && m' == Now(m, m'.s, p, Dropped(l)).(held := m.held[p := m.held[p] - {l}])
       case RelWake(_) => Doing(m, p, Dropped(l)) && DoWakeCall(m.s, m'.s, c, p, l) && m' == Now(m, m'.s, p, Signal(l))
       case RelLeave(_) => Doing(m, p, Signal(l)) && DoUnlock(m.s, m'.s, c, p, l) && m' == Now(m, m'.s, p, Idle)
  }

  /** What goes on without these two functions: inside sleep and wakeup, in the rest of the kernel, and with
      other locks. */
  predicate Elsewhere(n: nat, a: Act) {
    match a
    case Acquire(k) => k >= n
    case Write(k, _) => k >= n
    case Unlock(k) => k >= n
    case SleepCall(ch) => ch >= n
    case WakeCall(ch) => ch >= n
    case Exit(k) => k >= n
    case Reap(k, _, _) => k >= n
    case _ => true
  }

  predicate OtherNext(m: System, m': System, st: Step) {
    Next(m.s, m'.s, st) && (st.ProcStep? ==> Elsewhere(m.n, st.a)) && m' == m.(s := m'.s)
  }

  datatype Move = Calls(c: nat, p: nat, call: Call) | Other(st: Step)

  predicate MoveNext(m: System, m': System, mv: Move) {
    match mv
    case Calls(c, p, call) => CallNext(m, m', c, p, call)
    case Other(st) => OtherNext(m, m', st)
  }

  predicate Start(m: System) {
    && Init(m.s) && m.n <= |m.s.lk| && m.n <= |m.s.guard|
    && (forall ch :: 0 <= ch < |m.s.guard| ==> (if ch < m.n then m.s.guard[ch] == ch else m.s.guard[ch] >= m.n))
    && (forall l :: 0 <= l < m.n ==> m.s.val[l] == 0)
    && m.prog == seq(|m.s.procs|, _ => Idle) && m.held == seq(|m.s.procs|, _ => {})
  }

  ghost predicate IsCourse(ms: seq<System>, moves: seq<Move>) {
    && |ms| == |moves| + 1 && Start(ms[0])
    && forall i :: 0 <= i < |moves| ==> MoveNext(ms[i], ms[i + 1], moves[i])
  }

  /** A process may sleep on a sleep-lock's channel while the lock is taken. */
  predicate IsTaken(v: int) { v != 0 }

  ghost function Waits(n: nat): seq<iset<int>> { seq(n, _ => iset v: int | IsTaken(v)) }

  // ---------------------------------------------------------------- what every reachable state satisfies

  /** The lock or channel that a thread is concerned with. */
  function Topic(pc: Pc): Option<nat> {
    match pc
    case In(k) => Some(k)
    case ExitLocked(k) => Some(k)
    case ExitZombie(k) => Some(k)
    case ReapLocked(k, _) => Some(k)
    case ReapUnlock(k, _) => Some(k)
    case SleepEnter(ch) => Some(ch)
    case SleepLocked(ch) => Some(ch)
    case SleepChan(ch) => Some(ch)
    case SleepState(ch) => Some(ch)
    case SleepSwitch(ch) => Some(ch)
    case SleepOut(ch) => Some(ch)
    case SleepBack(ch) => Some(ch)
    case SleepDone(ch) => Some(ch)
    case Wake(ch, _) => Some(ch)
    case WakeLocked(ch, _) => Some(ch)
    case WakeUnlock(ch, _) => Some(ch)
    case At(r) => if r.Retake? then Some(r.ch) else None
    case YieldLocked(r) => if r.Retake? then Some(r.ch) else None
    case YieldSwitch(r) => if r.Retake? then Some(r.ch) else None
    case YieldOut(r) => if r.Retake? then Some(r.ch) else None
    case YieldBack(r) => if r.Retake? then Some(r.ch) else None
    case _ => None
  }

  /** In a section with nothing else going on, or somewhere in sleep. */
  predicate InOrAsleep(pc: Pc) {
    !pc.ExitLocked? && !pc.ExitZombie? && !pc.ReapLocked? && !pc.ReapUnlock? && !Scans(pc)
  }

  /** What the program says of the thread and of the lock. */
  predicate ProgOk(m: System, p: nat) {
    p < |m.s.procs| && p < |m.prog| ==>
      var pc, g := m.s.procs[p].pc, m.prog[p];
      if g.Idle? then Topic(pc).None? || Topic(pc).value >= m.n
      else
        && g.l < m.n && g.l < |m.s.val| && Topic(pc) == Some(g.l)
        && match g
           case Testing(l) => InOrAsleep(pc) && (Entering(pc) ==> m.s.val[l] != 0)
           case Taken(l) => pc.In? && m.s.val[l] == p + 1
           case Dropping(l) => pc.In? && m.s.val[l] == p + 1
           case Dropped(l) => pc.In? && m.s.val[l] == 0
           case Signal(l) => m.s.val[l] == 0 && (Scans(pc) || (pc.In? && l in m.s.procs[p].clear))
  }

  predicate HeldOk(m: System, p: nat, l: nat) {
    p < |m.held| && l in m.held[p] ==> l < m.n && l < |m.s.val| && m.s.val[l] == p + 1
  }

  ghost predicate Shape(m: System) {
    && |m.prog| == |m.held| == |m.s.procs| && m.n <= |m.s.lk| && m.n <= |m.s.guard|
    && forall ch :: 0 <= ch < |m.s.guard| ==> (if ch < m.n then m.s.guard[ch] == ch else m.s.guard[ch] >= m.n)
  }

  ghost predicate LockInv(m: System) {
    && Inv(m.s) && ReasonInv(m.s, Waits(m.n)) && Shape(m)
    && (forall p: nat :: ProgOk(m, p))
    && forall p: nat, l: nat :: HeldOk(m, p, l)
  }

  // ---------------------------------------------------------------- what a step below does to the others

  /** Process x is in a section of spin-lock l. */
  predicate Within(s: State, l: nat, x: nat) {
    l < |s.val| && x < |s.procs| && Inner(s.guard, s.procs[x].pc) == Some(l)
  }

  lemma BaseStep(s: State, s': State, st: Step) returns (p: nat)
    requires Inv(s) && Next(s, s', st)
    ensures p == (if st.ProcStep? then st.p else st.i) && p < |s.procs| == |s'.procs|
    ensures s'.guard == s.guard && |s'.lk| == |s.lk| && |s'.val| == |s.val|
    ensures forall x :: 0 <= x < |s.procs| && x != p ==> Quiet(s.procs[x], s'.procs[x])
    ensures forall l: nat, x: nat :: Within(s, l, x) && x != p ==> s'.val[l] == s.val[l]
    ensures var a, b := s.procs[p].pc, s'.procs[p].pc;
            Inner(s.guard, a).Some? && Inner(s.guard, b).None? ==> Entering(a) || a.ExitZombie? || b == At(User)
  {
    assert SchedInv(s);
    hide Inv, SchedInv, Next;
    var q;
    p, q := IsWakeStep(s, s', st);
    hide Inner, Quiet, SectionMove, DownOn, Entering;
    forall x | 0 <= x < |s.procs| && x != p ensures Quiet(s.procs[x], s'.procs[x]) { StepQuiet(s, s', p, q, x); }
    forall l: nat, x: nat | Within(s, l, x) && x != p ensures s'.val[l] == s.val[l] {
      if s'.val[l] != s.val[l] { OneHolder(s, x, p); }
    }
  }

  lemma Facts(m: System, p: nat, l: nat)
    requires LockInv(m)
    ensures Inv(m.s) && ReasonInv(m.s, Waits(m.n)) && Shape(m) && ProgOk(m, p) && HeldOk(m, p, l)
  {
  }

  /** The program of a process that does not move still says what it said. */
  lemma StandsBy(m: System, m': System, st: Step, p: nat, x: nat)
    requires LockInv(m) && Next(m.s, m'.s, st) && p == (if st.ProcStep? then st.p else st.i)
    requires x != p && m'.n == m.n && |m'.prog| == |m.prog| && (x < |m.prog| ==> m'.prog[x] == m.prog[x])
    ensures ProgOk(m', x)
  {
    hide LockInv, Inv, Next;
    Facts(m, x, 0);
    var r := BaseStep(m.s, m'.s, st);
    if x < |m.s.procs| && x < |m.prog| && !m.prog[x].Idle? {
      var l := m.prog[x].l;
      assert Quiet(m.s.procs[x], m'.s.procs[x]);
      assert Inner(m.s.guard, m.s.procs[x].pc) == Some(l) ==> Within(m.s, l, x);
      assert !m.prog[x].Testing? || Entering(m.s.procs[x].pc) ==> Inner(m.s.guard, m.s.procs[x].pc) == Some(l);
    }
  }

  /** Only a write changes what the locks guard. */
  lemma SameVal(s: State, s': State, st: Step)
    requires Next(s, s', st) && !(st.ProcStep? && st.a.Write?)
    ensures s'.val == s.val
  {
  }

  // ---------------------------------------------------------------- acquiresleep and releasesleep

  /** The step of the machine below that a call takes. */
  function Below(c: nat, p: nat, call: Call): Step {
    match call
    case AcqEnter(l) => ProcStep(c, p, Acquire(l))
    case AcqSleep(l) => ProcStep(c, p, SleepCall(l))
    case AcqTake(l) => ProcStep(c, p, Write(l, p + 1))
    case AcqLeave(l) => ProcStep(c, p, Unlock(l))
    case RelEnter(l) => ProcStep(c, p, Acquire(l))
    case RelClear(l) => ProcStep(c, p, Write(l, 0))
    case RelWake(l) => ProcStep(c, p, WakeCall(l))
    case RelLeave(l) => ProcStep(c, p, Unlock(l))
  }

  lemma IsBelow(m: System, m': System, c: nat, p: nat, call: Call)
    requires CallNext(m, m', c, p, call)
    ensures Next(m.s, m'.s, Below(c, p, call)) && m'.n == m.n && |m'.prog| == |m.prog| && |m'.held| == |m.held|
    ensures forall x :: 0 <= x < |m.prog| && x != p ==> m'.prog[x] == m.prog[x]
  {
  }

  lemma CallerOk(m: System, m': System, c: nat, p: nat, call: Call)
    requires LockInv(m) && CallNext(m, m', c, p, call)
    ensures ProgOk(m', p)
  {
    hide LockInv, Inv, ReasonInv;
    Facts(m, p, call.l);
  }

  lemma CallHeld(m: System, m': System, c: nat, p: nat, call: Call, x: nat, l: nat)
    requires LockInv(m) && CallNext(m, m', c, p, call)
    ensures HeldOk(m', x, l)
  {
    hide LockInv, Topic;
    Facts(m, p, l);
    Facts(m, x, l);
  }

  lemma CallDisciplined(m: System, m': System, c: nat, p: nat, call: Call, x: nat, ch: nat)
    requires LockInv(m) && CallNext(m, m', c, p, call)
    ensures Disciplined(m.s, m'.s, Waits(m.n), x, ch)
  {
    hide LockInv, Inv;
    Facts(m, p, 0);
    IsBelow(m, m', c, p, call);
    var r := BaseStep(m.s, m'.s, Below(c, p, call));
    hide Next;
    if x < |m.s.procs| && x != p {
      assert Quiet(m.s.procs[x], m'.s.procs[x]);
    }
  }

  // ---------------------------------------------------------------- everything else

  /** Inside sleep a thread stays with its channel. */
  lemma SleeperOk(m: System, m': System, c: nat, p: nat, a: Act)
    requires LockInv(m) && OtherNext(m, m', ProcStep(c, p, a)) && a.Sleep?
    ensures ProgOk(m', p)
  {
    hide LockInv, Inv, ReasonInv, HeldOk, Waits;
    Facts(m, p, 0);
    hide Shape;
  }

  lemma WokeOk(m: System, m': System, c: nat, p: nat, a: Act)
    requires LockInv(m) && OtherNext(m, m', ProcStep(c, p, a)) && a.Woken?
    ensures ProgOk(m', p)
  {
    hide LockInv, Inv, ReasonInv, HeldOk, Waits;
    Facts(m, p, 0);
    hide Shape;
  }

  /** Inside wakeup it does, too. */
  lemma WakerOk(m: System, m': System, c: nat, p: nat, a: Act)
    requires LockInv(m) && OtherNext(m, m', ProcStep(c, p, a)) && (a.Waking? || a.WakeEnd?)
    ensures ProgOk(m', p)
  {
    hide LockInv, Inv, ReasonInv, HeldOk, Waits;
    Facts(m, p, 0);
    hide Shape;
  }

  /** Being switched out changes nothing. */
  lemma YielderOk(m: System, m': System, c: nat, p: nat, a: Act)
    requires LockInv(m) && OtherNext(m, m', ProcStep(c, p, a)) && a.Yield?
    ensures ProgOk(m', p)
  {
    hide LockInv, Inv, ReasonInv, HeldOk, Waits;
    Facts(m, p, 0);
    hide Shape;
  }

  lemma SwitcherOk(m: System, m': System, c: nat, p: nat, a: Act)
    requires LockInv(m) && OtherNext(m, m', ProcStep(c, p, a)) && a.SwitchOut?
    ensures ProgOk(m', p)
  {
    hide LockInv, Inv, ReasonInv, HeldOk, Waits;
    Facts(m, p, 0);
    hide Shape;
  }

  /** Sections of other locks have nothing to do with a sleep-lock. */
  lemma OutsiderOk(m: System, m': System, c: nat, p: nat, a: Act)
    requires LockInv(m) && OtherNext(m, m', ProcStep(c, p, a))
    requires (a.Acquire? || a.Write? || a.Unlock? || a.SleepCall? || a.WakeCall?)
    ensures ProgOk(m', p)
  {
    hide LockInv, Inv, ReasonInv, HeldOk, Waits;
    Facts(m, p, 0);
    hide Shape;
  }

  /** Process p's thread is not concerned with one of the first n locks, before and after the step. */
  predicate Afar(s: State, s': State, p: nat, n: nat) {
    && p < |s.procs| == |s'.procs|
    && (Topic(s.procs[p].pc).None? || Topic(s.procs[p].pc).value >= n)
    && (Topic(s'.procs[p].pc).None? || Topic(s'.procs[p].pc).value >= n)
  }

  lemma AfarOk(m: System, m': System, p: nat)
    requires LockInv(m) && m'.prog == m.prog && m'.n == m.n && Afar(m.s, m'.s, p, m.n)
    ensures ProgOk(m', p)
  {
    Facts(m, p, 0);
    hide LockInv, Shape;
  }

  lemma KillAfar(s: State, s': State, c: nat, p: nat, q: nat, n: nat)
    requires KillNext(s, s', c, p, q)
    ensures Afar(s, s', p, n)
  {
  }

  lemma ForkAfar(s: State, s': State, c: nat, p: nat, k: nat, n: nat)
    requires ForkNext(s, s', c, p, k)
    ensures Afar(s, s', p, n)
  {
  }

  lemma StartAfar(s: State, s': State, c: nat, p: nat, k: nat, n: nat)
    requires StartNext(s, s', c, p, k)
    ensures Afar(s, s', p, n)
  {
  }

  lemma ExitAfar(s: State, s': State, c: nat, p: nat, k: nat, n: nat)
    requires ExitNext(s, s', c, p, k) && k >= n
    ensures Afar(s, s', p, n)
  {
  }

  lemma ReapAfar(s: State, s': State, c: nat, p: nat, k: nat, q: nat, ok: bool, n: nat)
    requires ReapNext(s, s', c, p, k, q, ok) && k >= n
    ensures Afar(s, s', p, n)
  {
  }

  /** Processes that kill, fork, exit or wait have nothing to do with a sleep-lock at that time. */
  lemma LiverOk(m: System, m': System, c: nat, p: nat, a: Act)
    requires LockInv(m) && OtherNext(m, m', ProcStep(c, p, a))
    requires a.Kill? || a.Fork? || a.Start? || a.Exit? || a.Reap?
    ensures ProgOk(m', p)
  {
    hide LockInv, KillNext, ForkNext, StartNext, ExitNext, ReapNext, ProgOk, Afar;
    match a {
      case Kill(q) => KillAfar(m.s, m'.s, c, p, q, m.n);
      case Fork(n) => ForkAfar(m.s, m'.s, c, p, n, m.n);
      case Start(n) => StartAfar(m.s, m'.s, c, p, n, m.n);
      case Exit(k) => ExitAfar(m.s, m'.s, c, p, k, m.n);
      case Reap(k, q, ok) => ReapAfar(m.s, m'.s, c, p, k, q, ok, m.n);
    }
    AfarOk(m, m', p);
  }

  lemma MoverOk(m: System, m': System, c: nat, p: nat, a: Act)
    requires LockInv(m) && OtherNext(m, m', ProcStep(c, p, a))
    ensures ProgOk(m', p)
  {
    hide LockInv, OtherNext, ProgOk;
    match a
    case Acquire(_) => OutsiderOk(m, m', c, p, a);
    case Write(_, _) => OutsiderOk(m, m', c, p, a);
    case Unlock(_) => OutsiderOk(m, m', c, p, a);
    case SleepCall(_) => OutsiderOk(m, m', c, p, a);
    case WakeCall(_) => OutsiderOk(m, m', c, p, a);
    case Sleep(_) => SleeperOk(m, m', c, p, a);
    case Woken(_) => WokeOk(m, m', c, p, a);
    case Waking(_, _) => WakerOk(m, m', c, p, a);
    case WakeEnd(_) => WakerOk(m, m', c, p, a);
    case Yield(_) => YielderOk(m, m', c, p, a);
    case SwitchOut => SwitcherOk(m, m', c, p, a);
    case Kill(_) => LiverOk(m, m', c, p, a);
    case Fork(_) => LiverOk(m, m', c, p, a);
    case Start(_) => LiverOk(m, m', c, p, a);
    case Exit(_) => LiverOk(m, m', c, p, a);
    case Reap(_, _, _) => LiverOk(m, m', c, p, a);
  }

  lemma LoopOk(m: System, m': System, c: nat, i: nat)
    requires LockInv(m) && OtherNext(m, m', SchedStep(c, i))
    ensures ProgOk(m', i)
  {
    hide LockInv, Inv, ReasonInv;
    Facts(m, i, 0);
    SameVal(m.s, m'.s, SchedStep(c, i));
  }

  lemma OtherHeld(m: System, m': System, st: Step, x: nat, l: nat)
    requires LockInv(m) && OtherNext(m, m', st)
    ensures HeldOk(m', x, l)
  {
    hide LockInv, Inv, ReasonInv;
    Facts(m, x, l);
    if !(st.ProcStep? && st.a.Write?) { SameVal(m.s, m'.s, st); }
    hide SleepNext, WokenNext, WakingNext, YieldNext, KillNext, ForkNext, StartNext, ExitNext, ReapNext, LoopNext;
  }

  lemma OtherOk(m: System, m': System, st: Step)
    requires LockInv(m) && OtherNext(m, m', st)
    ensures ProgOk(m', if st.ProcStep? then st.p else st.i)
  {
    hide LockInv, OtherNext, ProgOk;
    match st
    case ProcStep(c, p, a) => MoverOk(m, m', c, p, a);
    case SchedStep(c, i) => LoopOk(m, m', c, i);
  }

  lemma OtherDisciplined(m: System, m': System, st: Step, x: nat, ch: nat)
    requires LockInv(m) && OtherNext(m, m', st)
    ensures Disciplined(m.s, m'.s, Waits(m.n), x, ch)
  {
    hide LockInv, Inv, Next, HeldOk, ReasonInv;
    var p := if st.ProcStep? then st.p else st.i;
    Facts(m, p, 0);
    OtherOk(m, m', st);
    var r := BaseStep(m.s, m'.s, st);
    if x < |m.s.procs| && x != p { assert Quiet(m.s.procs[x], m'.s.procs[x]); }
  }

  // ---------------------------------------------------------------- the invariant over whole courses

  lemma SleepLocksKept(m: System, m': System, mv: Move)
    requires LockInv(m) && MoveNext(m, m', mv)
    ensures LockInv(m')
  {
    hide LockInv, Inv, ReasonInv, Next, ProgOk, HeldOk, Disciplined, Waits;
    Facts(m, 0, 0);
    var st;
    match mv {
      case Calls(c, p, call) =>
        st := Below(c, p, call);
        IsBelow(m, m', c, p, call);
        CallerOk(m, m', c, p, call);
        forall x: nat ensures ProgOk(m', x) { if x != p { StandsBy(m, m', st, p, x); } }
        forall x: nat, l: nat ensures HeldOk(m', x, l) { CallHeld(m, m', c, p, call, x, l); }
        forall x: nat, ch: nat ensures Disciplined(m.s, m'.s, Waits(m.n), x, ch) {
          CallDisciplined(m, m', c, p, call, x, ch);
        }
      case Other(o) =>
        st := o;
        var p := if st.ProcStep? then st.p else st.i;
        OtherOk(m, m', st);
        forall x: nat ensures ProgOk(m', x) { if x != p { StandsBy(m, m', st, p, x); } }
        forall x: nat, l: nat ensures HeldOk(m', x, l) { OtherHeld(m, m', st, x, l); }
        forall x: nat, ch: nat ensures Disciplined(m.s, m'.s, Waits(m.n), x, ch) { OtherDisciplined(m, m', st, x, ch); }
    }
    InvKept(m.s, m'.s, st);
    ReasonInvKept(m.s, m'.s, st, Waits(m.n));
    var r := BaseStep(m.s, m'.s, st);
    Rejoin(m');
  }

  lemma Rejoin(m: System)
    requires Inv(m.s) && ReasonInv(m.s, Waits(m.n)) && Shape(m)
    requires (forall p: nat :: ProgOk(m, p)) && forall p: nat, l: nat :: HeldOk(m, p, l)
    ensures LockInv(m)
  {
  }

  lemma StartInv(m: System)
    requires Start(m)
    ensures LockInv(m)
  {
    SleepProofs.InitInv(m.s);
    hide Inv;
    forall p: nat ensures ProgOk(m, p) { }
    forall w: nat, x: nat, ch: nat ensures ReasonOk(m.s, Waits(m.n), w, x, ch) { }
  }

  lemma {:induction false} CourseInv(ms: seq<System>, moves: seq<Move>, i: nat)
    requires IsCourse(ms, moves) && i < |ms|
    ensures LockInv(ms[i])
  {
    hide LockInv, MoveNext, Start;
    if i == 0 {
      StartInv(ms[0]);
    } else {
      CourseInv(ms, moves, i - 1);
      var j := i - 1;
      assert MoveNext(ms[j], ms[j + 1], moves[j]);
      SleepLocksKept(ms[j], ms[j + 1], moves[j]);
    }
  }

  /** A sleep-lock never has two holders, and its word and pid name the one it has. */
  lemma MutualExclusion(ms: seq<System>, moves: seq<Move>, i: nat, p: nat, q: nat, l: nat)
    requires IsCourse(ms, moves) && i < |ms| && p < |ms[i].held|
    requires q < |ms[i].held| && l in ms[i].held[p] && l in ms[i].held[q]
    ensures p == q && l < |ms[i].s.val| && ms[i].s.val[l] == p + 1
  {
    CourseInv(ms, moves, i);
    Facts(ms[i], p, l);
    Facts(ms[i], q, l);
  }

  /** Nobody sleeps on a free sleep-lock whose inner lock is free. */
  lemma NoSleeperOnFreeLock(ms: seq<System>, moves: seq<Move>, i: nat, x: nat, l: nat)
    requires IsCourse(ms, moves) && i < |ms| && l < ms[i].n && l < |ms[i].s.lk| == |ms[i].s.val| && x < |ms[i].s.procs|
    requires Down(ms[i].s.procs[x], l) && ms[i].s.lk[l].Free?
    ensures ms[i].s.val[l] != 0
  {
    CourseInv(ms, moves, i);
    Facts(ms[i], x, l);
    assert ReasonOk(ms[i].s, Waits(ms[i].n), x, x, l);
  }
}
