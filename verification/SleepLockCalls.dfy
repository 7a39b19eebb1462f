/** What acquiresleep and releasesleep do for their callers, told by the calls of a course alone, and that they go on.
    */
module SleepLockCalls {
  import opened Common
  import opened Sched
  import opened SchedProofs
  import opened SleepProofs
  import opened SleepLocks

  // ---------------------------------------------------------------- who holds a sleep-lock

  predicate Gains(mv: Move, p: nat, l: nat) { mv.Calls? && mv.p == p && mv.call == AcqLeave(l) }

  predicate Loses(mv: Move, p: nat, l: nat) { mv.Calls? && mv.p == p && mv.call == RelClear(l) }

  lemma HeldStep(m: System, m': System, mv: Move, p: nat, l: nat)
    requires MoveNext(m, m', mv) && p < |m.held|
    ensures |m'.held| == |m.held| && m'.n == m.n
    ensures l in m'.held[p] <==> Gains(mv, p, l) || (l in m.held[p] && !Loses(mv, p, l))
  {
    hide Next, DoAcquire, DoSleepCall, DoWrite, DoUnlock, DoWakeCall;
  }

  predicate GainedAt(moves: seq<Move>, k: nat, p: nat, l: nat, i: int) {
    0 <= i < k <= |moves| && Gains(moves[i], p, l) && forall j :: i < j < k ==> !Loses(moves[j], p, l)
  }

  lemma NoneHeld(m: System, p: nat, l: nat)
    requires SleepLocks.Start(m) && p < |m.held|
    ensures l !in m.held[p]
  {
  }

  lemma {:induction false} HeldExactly(ms: seq<System>, moves: seq<Move>, k: nat, p: nat, l: nat)
    requires IsCourse(ms, moves) && k < |ms| && p < |ms[0].held|
    ensures p < |ms[k].held| == |ms[0].held| && (l in ms[k].held[p] <==> exists i :: GainedAt(moves, k, p, l, i))
  {
    hide MoveNext, SleepLocks.Start, Gains, Loses;
    if k == 0 {
      NoneHeld(ms[0], p, l);
    } else {
      HeldExactly(ms, moves, k - 1, p, l);
      assert MoveNext(ms[k - 1], ms[k - 1 + 1], moves[k - 1]);
      HeldStep(ms[k - 1], ms[k], moves[k - 1], p, l);
      if l in ms[k].held[p] {
        if Gains(moves[k - 1], p, l) {
          assert GainedAt(moves, k, p, l, k - 1);
        } else {
          var i :| GainedAt(moves, k - 1, p, l, i);
          assert GainedAt(moves, k, p, l, i);
        }
      }
      if i :| GainedAt(moves, k, p, l, i) {
        if i < k - 1 { assert GainedAt(moves, k - 1, p, l, i); }
      }
    }
  }

  // ---------------------------------------------------------------- its word and pid

  /** A sleep-lock that is taken is so by who holds it, or is about to return with it. */
  predicate OwnerOk(m: System, l: nat) {
    l < m.n && l < |m.s.val| && m.s.val[l] != 0 ==>
      var p := m.s.val[l] - 1;
      0 <= p < |m.held| == |m.prog| && (l in m.held[p] || m.prog[p] == Taken(l))
  }

  lemma OwnerCalls(m: System, m': System, c: nat, p: nat, call: Call, l: nat)
    requires CallNext(m, m', c, p, call) && |m.held| == |m.prog| && OwnerOk(m, l)
    ensures OwnerOk(m', l)
  {
  }

  lemma OwnerOther(m: System, m': System, st: Step, l: nat)
    requires OtherNext(m, m', st) && OwnerOk(m, l)
    ensures OwnerOk(m', l)
  {
    hide Next;
    if l < m.n { SameBelow(m.s, m'.s, st, m.n, l); }
  }

  /** What goes on elsewhere does not change what an inner lock guards. */
  lemma SameBelow(s: State, s': State, st: Step, n: nat, l: nat)
    requires Next(s, s', st) && (st.ProcStep? ==> Elsewhere(n, st.a)) && l < n
    ensures |s'.val| == |s.val| && (l < |s.val| ==> s'.val[l] == s.val[l])
  {
    if !(st.ProcStep? && st.a.Write?) {
      SameVal(s, s', st);
      hide Next;
    }
  }

  lemma OwnerStep(m: System, m': System, mv: Move, l: nat)
    requires MoveNext(m, m', mv) && |m.held| == |m.prog| && OwnerOk(m, l)
    ensures OwnerOk(m', l)
  {
    hide CallNext, OtherNext, OwnerOk;
    match mv
    case Calls(c, p, call) => OwnerCalls(m, m', c, p, call, l);
    case Other(st) => OwnerOther(m, m', st, l);
  }

  lemma NoneOwned(m: System, l: nat)
    requires SleepLocks.Start(m)
    ensures OwnerOk(m, l)
  {
  }

  lemma Sized(m: System)
    requires LockInv(m)
    ensures |m.held| == |m.prog| == |m.s.procs|
  {
  }

  lemma {:induction false} RunOwner(ms: seq<System>, moves: seq<Move>, k: nat, l: nat)
    requires IsCourse(ms, moves) && k < |ms|
    ensures OwnerOk(ms[k], l)
  {
    hide MoveNext, SleepLocks.Start, LockInv, OwnerOk;
    if k == 0 {
      NoneOwned(ms[0], l);
    } else {
      RunOwner(ms, moves, k - 1, l);
      CourseInv(ms, moves, k - 1);
      Sized(ms[k - 1]);
      assert MoveNext(ms[k - 1], ms[k - 1 + 1], moves[k - 1]);
      OwnerStep(ms[k - 1], ms[k], moves[k - 1], l);
    }
  }

  lemma Named(m: System, p: nat, l: nat)
    requires LockInv(m) && p < |m.held| == |m.prog| == |m.s.procs| && l < m.n
    ensures l < |m.s.val| && (l in m.held[p] || m.prog[p] == Taken(l) ==> m.s.val[l] == p + 1)
  {
    hide Inv, ReasonInv;
    Facts(m, p, l);
    SizedVal(m);
  }

  lemma SizedVal(m: System)
    requires LockInv(m)
    ensures m.n <= |m.s.val|
  {
    assert Inv(m.s) && Shape(m);
    assert SchedInv(m.s);
    hide LockInv, Inv;
  }

  /** The word and the pid of a sleep-lock say that p has it if and only if p holds it, or is about to return with it;
      so it is free if and only if nobody does. */
  lemma WordExact(ms: seq<System>, moves: seq<Move>, k: nat, p: nat, l: nat)
    requires IsCourse(ms, moves) && k < |ms| && p < |ms[k].held| && l < ms[k].n
    ensures p < |ms[k].prog| && l < |ms[k].s.val|
    ensures ms[k].s.val[l] == p + 1 <==> l in ms[k].held[p] || ms[k].prog[p] == Taken(l)
    ensures ms[k].s.val[l] == 0 || 0 < ms[k].s.val[l] <= |ms[k].held|
  {
    hide MoveNext, SleepLocks.Start, LockInv;
    CourseInv(ms, moves, k);
    Sized(ms[k]);
    RunOwner(ms, moves, k, l);
    Named(ms[k], p, l);
  }

  // ---------------------------------------------------------------- going on

  /** A process that is in acquiresleep or releasesleep, in its section of the inner lock and in no call of sleep or
      wakeup, has a step of that function to take. */
  lemma GoesOn(ms: seq<System>, moves: seq<Move>, k: nat, c: nat, p: nat) returns (m': System, call: Call)
    requires IsCourse(ms, moves) && k < |ms| && On(ms[k].s, c, p) && ms[k].s.procs[p].pc.In?
    requires p < |ms[k].prog| && !ms[k].prog[p].Idle?
    ensures MoveNext(ms[k], m', Calls(c, p, call))
  {
    var m := ms[k];
    CourseInv(ms, moves, k);
    m', call := CallGoes(m, c, p);
  }

  lemma CallGoes(m: System, c: nat, p: nat) returns (m': System, call: Call)
    requires LockInv(m) && On(m.s, c, p) && m.s.procs[p].pc.In? && p < |m.prog| && !m.prog[p].Idle?
    ensures MoveNext(m, m', Calls(c, p, call))
  {
    hide LockInv, Inv, ReasonInv;
    Facts(m, p, 0);
    SizedVal(m);
    Even(m);
    var l, s, pr := m.prog[p].l, m.s, m.s.procs[p];
    match m.prog[p] {
      case Testing(_) =>
        if s.val[l] != 0 {
          call := AcqSleep(l);
          m' := Now(m, Set(s, p, pr.(pc := SleepEnter(l), calls := pr.calls + 1)), p, Testing(l));
        } else {
          call := AcqTake(l);
          m' := Now(m, s.(val := s.val[l := p + 1]), p, Taken(l));
        }
      case Taken(_) =>
        call := AcqLeave(l);
        m' := Now(m, Go(s, p, At(User)).(lk := s.lk[l := Free]), p, Idle).(held := m.held[p := m.held[p] + {l}]);
      case Dropping(_) =>
        call := RelClear(l);
        m' := Now(m, s.(val := s.val[l := 0]), p, Dropped(l)).(held := m.held[p := m.held[p] - {l}]);
      case Dropped(_) =>
        call := RelWake(l);
        m' := Now(m, Go(s, p, Wake(l, 0)), p, Signal(l));
      case Signal(_) =>
        call := RelLeave(l);
        m' := Now(m, Go(s, p, At(User)).(lk := s.lk[l := Free]), p, Idle);
    }
  }

  lemma Even(m: System)
    requires LockInv(m)
    ensures |m.s.lk| == |m.s.val|
  {
    assert SchedInv(m.s);
    hide Inv;
  }

  /** A process outside of both, in no other section, can call acquiresleep while the inner lock is free, and
      releasesleep for a sleep-lock that it holds. */
  lemma Enters(m: System, c: nat, p: nat, l: nat, release: bool) returns (m': System)
    requires LockInv(m) && Ex(m.s, c, p, At(User)) && p < |m.prog| && m.prog[p].Idle? && l < m.n <= |m.s.val|
    requires l < |m.s.lk| && m.s.lk[l].Free? && (release ==> p < |m.held| && l in m.held[p])
    ensures MoveNext(m, m', Calls(c, p, if release then RelEnter(l) else AcqEnter(l)))
  {
    Even(m);
    Sized(m);
    hide LockInv, Inv, ReasonInv;
    var s := m.s;
    m' := Now(m, Set(s, p, s.procs[p].(pc := In(l), clear := {}, was := s.val[l])).(lk := s.lk[l := By(c)]), p,
              if release then Dropping(l) else Testing(l));
  }
}
