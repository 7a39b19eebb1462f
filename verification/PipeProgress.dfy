/** The sections of pi->lock end: whoever holds it can always go on, and lets go of it after a bounded number of its
    own steps, whatever the others do meanwhile. */
module PipeProgress {
  import opened Common
  import opened Pipe
  import opened PipeCalls

  /** Where an agent of a pipe with n agents may be: who tells the readers or sleeps has bytes left to write. */
  predicate Fine(v: Agent, n: nat) {
    match v
    case WWant(src, i) => i <= |src|
    case WLoop(src, i, from) => from <= i <= |src|
    case WTell(src, i, j) => i < |src| && j <= n
    case WAsleep(src, i) => i < |src|
    case WEnd(i, j) => j <= n
    case RCopy(count, i) => i <= count
    case REnd(i, j) => j <= n
    case CEnd(writable, j) => j <= n
    case _ => true
  }

  predicate FineAt(s: State, x: int) { 0 <= x < |s.agents| ==> Fine(s.agents[x], |s.agents|) }

  /** The lock is held only by an agent that is in its section. */
  predicate HeldOk(s: State) { s.lock.Held? ==> s.lock.who < |s.agents| && InLock(s.agents[s.lock.who]) }

  lemma WriteFine(s: State, s': State, a: nat, src: seq<int>, i: nat, flag: bool, x: int)
    requires WriteNext(s, s', a, src, i, flag) && AgentOk(s, a) && FineAt(s, a) && FineAt(s, x) && HeldOk(s)
    ensures FineAt(s', x) && HeldOk(s')
  {
  }

  lemma ReadFine(s: State, s': State, a: nat, n: nat, i: nat, flag: bool, x: int)
    requires ReadNext(s, s', a, n, i, flag) && AgentOk(s, a) && FineAt(s, a) && FineAt(s, x) && HeldOk(s)
    ensures FineAt(s', x) && HeldOk(s')
  {
  }

  lemma TellFine(s: State, s': State, a: nat, src: seq<int>, i: nat, j: nat, writable: bool, x: int)
    requires TellNext(s, s', a, src, i, j, writable) && AgentOk(s, a) && FineAt(s, a) && FineAt(s, x) && HeldOk(s)
    ensures FineAt(s', x) && HeldOk(s')
  {
  }

  lemma OtherFine(s: State, s': State, st: Step, x: int)
    requires (st.Close? || st.Kill?) && Next(s, s', st)
    requires AgentOk(s, st.a) && FineAt(s, st.a) && FineAt(s, x) && HeldOk(s)
    ensures FineAt(s', x) && HeldOk(s')
  {
  }

  lemma StepFine(s: State, s': State, st: Step, x: int)
    requires Next(s, s', st) && AgentOk(s, st.a) && FineAt(s, st.a) && FineAt(s, x) && HeldOk(s)
    ensures FineAt(s', x) && HeldOk(s')
  {
    hide WriteNext, ReadNext, TellNext, DoClose, DoCStart, DoKill, FineAt, HeldOk, AgentOk;
    match st
    case Write(a, src, i, flag) => WriteFine(s, s', a, src, i, flag, x);
    case Read(a, n, i, flag) => ReadFine(s, s', a, n, i, flag, x);
    case Tell(a, src, i, j, writable) => TellFine(s, s', a, src, i, j, writable, x);
    case _ => OtherFine(s, s', st, x);
  }

  lemma {:induction false} RunFine(run: seq<State>, steps: seq<Step>, k: nat, x: int)
    requires IsRun(run, steps) && k < |run|
    ensures FineAt(run[k], x) && HeldOk(run[k])
  {
    if k > 0 {
      var s, s', st := run[k - 1], run[k], steps[k - 1];
      RunFine(run, steps, k - 1, x);
      RunFine(run, steps, k - 1, st.a);
      RunAgent(run, steps, k - 1, st.a);
      hide AgentOk, Next, FineAt, HeldOk, Init, FifoOk;
      StepFine(s, s', st, x);
    }
  }

  lemma RunAgent(run: seq<State>, steps: seq<Step>, k: nat, x: int)
    requires IsRun(run, steps) && k < |run|
    ensures AgentOk(run[k], x)
  {
    hide FifoOk, AgentOk, Next, Init;
    RunInv(run, steps, k);
  }

  /** The lock is held by exactly the agent that is in its section. */
  lemma LockExact(run: seq<State>, steps: seq<Step>, k: nat, a: nat)
    requires IsRun(run, steps) && k < |run|
    ensures run[k].lock == Held(a) <==> a < |run[k].agents| && InLock(run[k].agents[a])
  {
    RunFine(run, steps, k, a);
    RunAgent(run, steps, k, a);
  }

  /** A writer sleeps only with bytes left to write. */
  lemma SleepsForMore(run: seq<State>, steps: seq<Step>, k: nat, a: nat)
    requires IsRun(run, steps) && k < |run| && a < |run[k].agents| && run[k].agents[a].WAsleep?
    ensures run[k].agents[a].i < |run[k].agents[a].src|
  {
    RunFine(run, steps, k, a);
  }

  // ---------------------------------------------------------------- going on

  /** A step of a, not of somebody who kills it, in which nothing fails. */
  predicate Own(st: Step, a: nat) { st.a == a && !st.Kill? && !((st.Write? || st.Read?) && st.flag) }

  /** In every reachable state an agent that holds the lock, or wants it while it is free, has a step to take. */
  lemma GoesOn(run: seq<State>, steps: seq<Step>, k: nat, a: nat) returns (s': State, st: Step)
    requires IsRun(run, steps) && k < |run| && a < |run[k].agents|
    requires
      var v := run[k].agents[a];
      run[k].lock == Held(a) || (run[k].lock.Free? && (v.WWant? || v.RWant? || v.CWant?))
    ensures Next(run[k], s', st) && Own(st, a)
  {
    RunFine(run, steps, k, a);
    RunInv(run, steps, k);
    LockExact(run, steps, k, a);
    hide ByteOk, Init;
    var s := run[k];
    match s.agents[a] {
      case WWant(src, i) => s', st := Go(s, a, WLoop(src, i, i)).(lock := Held(a)), Write(a, src, i, false);
      case RWant(n) => s', st := Go(s, a, RWait(n)).(lock := Held(a)), Read(a, n, 0, false);
      case CWant(writable) => s', st := Closed(s, a, writable), Close(a, writable);
      case WLoop(src, i, from) => s', st := Looped(s, a, src, i, from), Write(a, src, i, false);
      case WTell(src, i, j) => s', st := WriterTold(s, a, src, i, j);
      case RWait(n) => s', st := Waited(s, a, n), Read(a, n, 0, false);
      case RCopy(n, i) => s', st := ReadOne(s, a, n, i), Read(a, n, i, false);
      case _ => s', st := Swept(s, a);
    }
  }

  function Closed(s: State, a: nat, writable: bool): (s': State)
    requires At(s, a, CWant(writable)) && s.lock.Free?
    ensures DoClose(s, s', a, writable)
  {
    var t := Go(s, a, CEnd(writable, 0)).(lock := Held(a));
    if writable then t.(writeopen := false) else t.(readopen := false)
  }

  /** A round of the loop of pipewrite. */
  function Looped(s: State, a: nat, src: seq<int>, i: nat, from: nat): (s': State)
    requires At(s, a, WLoop(src, i, from)) && |s.data| == PIPESIZE && i <= |src|
    ensures WriteNext(s, s', a, src, i, false)
  {
    if i == |src| then Go(s, a, WEnd(i, 0))
    else if !s.readopen then Go(s, a, Idle).(lock := Free)
    else if Full(s) then Go(s, a, WTell(src, i, 0))
    else Go(s, a, WLoop(src, i + 1, from)).(data := s.data[s.nwrite % PIPESIZE := src[i]],
                                            nwrite := (s.nwrite + 1) % U32, enq := s.enq + [src[i]])
  }

  /** A round of the wakeup before pipewrite sleeps, or the sleep. */
  lemma WriterTold(s: State, a: nat, src: seq<int>, i: nat, j: nat) returns (s': State, st: Step)
    requires At(s, a, WTell(src, i, j)) && j <= |s.agents|
    ensures Next(s, s', st) && Own(st, a)
  {
    if j < |s.agents| {
      s', st := Go(Woken(s, true, j), a, WTell(src, i, j + 1)), Tell(a, src, i, j, true);
    } else {
      s', st := Go(s, a, WAsleep(src, i)).(lock := Free), Write(a, src, i, false);
    }
  }

  /** piperead with the lock, before it copies. */
  function Waited(s: State, a: nat, n: nat): (s': State)
    requires At(s, a, RWait(n))
    ensures ReadNext(s, s', a, n, 0, false)
  {
    if Empty(s) && s.writeopen then Go(s, a, RAsleep(n)).(lock := Free) else Go(s, a, RCopy(n, 0))
  }

  /** A round of the loop of piperead. */
  function ReadOne(s: State, a: nat, n: nat, i: nat): (s': State)
    requires At(s, a, RCopy(n, i)) && |s.data| == PIPESIZE && i <= n
    ensures ReadNext(s, s', a, n, i, false)
  {
    if i == n || Empty(s) then Go(s, a, REnd(i, 0))
    else Go(s, a, RCopy(n, i + 1)).(nread := (s.nread + 1) % U32, deq := s.deq + [s.data[s.nread % PIPESIZE]])
  }

  /** A round of the wakeup at the end of pipewrite, piperead or pipeclose, or the release of the lock after it. */
  lemma Swept(s: State, a: nat) returns (s': State, st: Step)
    requires a < |s.agents| && (s.agents[a].WEnd? || s.agents[a].REnd? || s.agents[a].CEnd?)
    ensures Next(s, s', st) && Own(st, a)
  {
    var n, done := |s.agents|, Go(s, a, Idle).(lock := Free);
    match s.agents[a] {
      case WEnd(i, j) =>
        s', st := if j < n then Go(Woken(s, true, j), a, WEnd(i, j + 1)) else done, Tell(a, [], i, j, true);
      case REnd(i, j) =>
        s', st := if j < n then Go(Woken(s, false, j), a, REnd(i, j + 1)) else done, Tell(a, [], i, j, true);
      case CEnd(writable, j) =>
        st := Tell(a, [], 0, j, writable);
        s' := if j < n then Go(Woken(s, writable, j), a, CEnd(writable, j + 1)) else done;
    }
  }

  // ---------------------------------------------------------------- letting go

  /** How many more steps an agent may take before it lets go of the lock. */
  function Rank(v: Agent, n: nat): nat
    requires Fine(v, n)
  {
    match v
    case WLoop(src, i, from) => |src| - i + n + 3
    case WTell(src, i, j) => n - j + 1
    case WEnd(i, j) => n - j + 1
    case RWait(count) => count + n + 4
    case RCopy(count, i) => count - i + n + 3
    case REnd(i, j) => n - j + 1
    case CEnd(writable, j) => n - j + 1
    case _ => 0
  }

  /** Each step of the holder brings it closer to letting go, and nobody else moves it. */
  lemma Closer(s: State, s': State, st: Step, a: nat)
    requires Next(s, s', st) && s.lock == Held(a) && a < |s.agents| == |s'.agents| && InLock(s.agents[a])
    requires FineAt(s, a) && FineAt(s', a) && AgentOk(s, st.a)
    ensures Rank(s'.agents[a], |s.agents|) + (if st.a == a && !st.Kill? then 1 else 0) <= Rank(s.agents[a], |s.agents|)
  {
    hide WriteNext, ReadNext, TellNext;
    match st
    case Write(w, t, j, flag) => WriteCloser(s, s', w, t, j, flag, a);
    case Read(r, x, j, flag) => ReadCloser(s, s', r, x, j, flag, a);
    case Tell(w, t, l, j, writable) => TellCloser(s, s', w, t, l, j, writable, a);
    case Close(c, writable) =>
    case Kill(c) =>
  }

  lemma WriteCloser(s: State, s': State, w: nat, t: seq<int>, j: nat, flag: bool, a: nat)
    requires WriteNext(s, s', w, t, j, flag) && s.lock == Held(a) && a < |s.agents| == |s'.agents|
    requires InLock(s.agents[a]) && FineAt(s, a) && FineAt(s', a) && AgentOk(s, w)
    ensures Rank(s'.agents[a], |s.agents|) + (if w == a then 1 else 0) <= Rank(s.agents[a], |s.agents|)
  {
  }

  lemma ReadCloser(s: State, s': State, r: nat, x: nat, j: nat, flag: bool, a: nat)
    requires ReadNext(s, s', r, x, j, flag) && s.lock == Held(a) && a < |s.agents| == |s'.agents|
    requires InLock(s.agents[a]) && FineAt(s, a) && FineAt(s', a) && AgentOk(s, r)
    ensures Rank(s'.agents[a], |s.agents|) + (if r == a then 1 else 0) <= Rank(s.agents[a], |s.agents|)
  {
  }

  lemma TellCloser(s: State, s': State, w: nat, t: seq<int>, l: nat, j: nat, writable: bool, a: nat)
    requires TellNext(s, s', w, t, l, j, writable) && s.lock == Held(a) && a < |s.agents| == |s'.agents|
    requires InLock(s.agents[a]) && FineAt(s, a) && FineAt(s', a) && AgentOk(s, w)
    ensures Rank(s'.agents[a], |s.agents|) + (if w == a then 1 else 0) <= Rank(s.agents[a], |s.agents|)
  {
  }

  /** How many of the steps from m on, before step k, are a's own. */
  function Count(steps: seq<Step>, a: nat, m: nat, k: nat): nat
    requires m <= k <= |steps|
  {
    if k == m then 0 else Count(steps, a, m, k - 1) + if steps[k - 1].a == a && !steps[k - 1].Kill? then 1 else 0
  }

  /** An agent that keeps the lock takes at most as many steps meanwhile as its rank says: a section of the lock is
      bounded by the bytes asked for and the processes that wakeup looks at. */
  lemma {:induction false} SectionsEnd(run: seq<State>, steps: seq<Step>, m: nat, k: nat, a: nat)
    requires IsRun(run, steps) && m <= k < |run| && forall l :: m <= l <= k ==> run[l].lock == Held(a)
    ensures a < |run[m].agents| == |run[k].agents|
    ensures FineAt(run[m], a) && FineAt(run[k], a)
    ensures Count(steps, a, m, k) + Rank(run[k].agents[a], |run[k].agents|) <= Rank(run[m].agents[a], |run[m].agents|)
    decreases k
  {
    hide AgentOk, Next, Fine, Rank, Init;
    RunFine(run, steps, m, a);
    RunFine(run, steps, k, a);
    LockExact(run, steps, m, a);
    if k > m {
      var s, s', st := run[k - 1], run[k], steps[k - 1];
      SectionsEnd(run, steps, m, k - 1, a);
      LockExact(run, steps, k - 1, a);
      RunAgent(run, steps, k - 1, st.a);
      SameAgents(s, s', st);
      Closer(s, s', st, a);
    }
  }
}
