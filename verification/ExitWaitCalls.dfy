/** What the calls of fork, exit, wait and kill do for their callers, told by the steps of a run alone. */
module ExitWaitCalls {
  import opened Common
  import opened ExitWait
  import opened ExitWaitProofs
  import opened ExitWaitTheorems

  // ---------------------------------------------------------------- the status of exit

  /** Between exit's first step and its becoming a zombie. */
  predicate Exiting(pc: Pc) { pc.ExitScan? || pc.ExitWakeInit? || pc.ExitWakeParent? || pc.ExitLock? || pc.ExitState? }

  /** Before state k, the process with this pid has called exit(status). */
  ghost predicate Called(run: seq<State>, moves: seq<(nat, Step)>, k: nat, pid: nat, status: int) {
    exists i :: CalledAt(run, moves, k, pid, status, i)
  }

  predicate CalledAt(run: seq<State>, moves: seq<(nat, Step)>, k: nat, pid: nat, status: int, i: int) {
    && 0 <= i < k && i < |moves| && i < |run| && moves[i].1 == OnExit(status)
    && moves[i].0 < |run[i].procs| && run[i].procs[moves[i].0].pid == pid
  }

  lemma CalledLater(run: seq<State>, moves: seq<(nat, Step)>, k: nat, pid: nat, status: int)
    requires Called(run, moves, k, pid, status)
    ensures Called(run, moves, k + 1, pid, status)
  {
    var i :| CalledAt(run, moves, k, pid, status, i);
    assert CalledAt(run, moves, k + 1, pid, status, i);
  }

  lemma ForkStatus(s: State, s': State, p: nat, st: Step, x: nat)
    requires Inv(s) && ForkNext(s, s', p, st) && x < |s.procs|
    ensures StatusStep(s, s', p, st, x)
  {
    if p < |s.procs| { assert StateOk(s.procs[p], p) && ForkOk(s, p); }
    assert StateOk(s.procs[x], x);
    hide Inv;
  }

  lemma ExitStatus(s: State, s': State, p: nat, st: Step, x: nat)
    requires Inv(s) && ExitNext(s, s', p, st) && x < |s.procs|
    ensures StatusStep(s, s', p, st, x)
  {
    hide Inv;
  }

  lemma WaitStatus(s: State, s': State, p: nat, st: Step, x: nat)
    requires Inv(s) && WaitNext(s, s', p, st) && x < |s.procs|
    ensures StatusStep(s, s', p, st, x)
  {
    if p < |s.procs| { assert ReapOk(s, p) && StateOk(s.procs[p], p); }
    hide Inv;
  }

  /** What a step may do to the status of process x, and to the statuses that waits have returned. */
  predicate StatusStep(s: State, s': State, p: nat, st: Step, x: nat)
    requires x < |s.procs|
  {
    && |s'.procs| == |s.procs|
    && var a, b := s.procs[x], s'.procs[x];
    && (Exiting(b.pc) ==>
          b.pid == a.pid && ((Exiting(a.pc) && b.status == a.status) || (x == p && st == OnExit(b.status))))
    && (b.state == Zombie ==>
          b.pid == a.pid && ((a.state == Zombie && b.xstate == a.xstate) || (Exiting(a.pc) && b.xstate == a.status)))
    && (s'.reaped == s.reaped
        || (p < |s.procs| && s.procs[p].pc.WaitReap? && s.procs[p].pc.j < |s.procs|
            && var z := s.procs[s.procs[p].pc.j];
               z.state == Zombie && z.parent == Some(p) && s'.reaped == s.reaped + [(z.pid, z.xstate)]))
  }

  lemma StatusSteps(s: State, s': State, p: nat, st: Step, x: nat)
    requires Inv(s) && Next(s, s', p, st) && x < |s.procs|
    ensures StatusStep(s, s', p, st, x)
  {
    hide Inv, ForkNext, ExitNext, WaitNext, StatusStep;
    if ForkNext(s, s', p, st) {
      ForkStatus(s, s', p, st, x);
    } else if ExitNext(s, s', p, st) {
      ExitStatus(s, s', p, st, x);
    } else {
      WaitStatus(s, s', p, st, x);
    }
  }

  /** A process that is exiting, or has, has called exit with the status it carries. */
  ghost predicate Carries(run: seq<State>, moves: seq<(nat, Step)>, k: nat, x: nat)
    requires k < |run|
  {
    x < |run[k].procs| ==>
      var pr := run[k].procs[x];
      && (Exiting(pr.pc) ==> Called(run, moves, k, pr.pid, pr.status))
      && (pr.state == Zombie ==> Called(run, moves, k, pr.pid, pr.xstate))
  }

  lemma {:induction false} RunCarries(run: seq<State>, moves: seq<(nat, Step)>, k: nat, x: nat)
    requires IsRun(run, moves) && k < |run|
    ensures Carries(run, moves, k, x)
  {
    if k > 0 {
      var s, s', p, st := run[k - 1], run[k], moves[k - 1].0, moves[k - 1].1;
      RunCarries(run, moves, k - 1, x);
      RunInv(run, moves, k - 1);
      assert Next(run[k - 1], run[k - 1 + 1], moves[k - 1].0, moves[k - 1].1);
      hide Inv, Next, Init, Called;
      StepKeeps(s, s', p, st);
      if x < |s.procs| {
        StatusSteps(s, s', p, st, x);
        CarriesOn(run, moves, k - 1, x);
      }
    }
  }

  lemma CarriesOn(run: seq<State>, moves: seq<(nat, Step)>, k: nat, x: nat)
    requires |run| == |moves| + 1 && k < |moves| && x < |run[k].procs| && Carries(run, moves, k, x)
    requires StatusStep(run[k], run[k + 1], moves[k].0, moves[k].1, x)
    ensures Carries(run, moves, k + 1, x)
  {
    var a, b := run[k].procs[x], run[k + 1].procs[x];
    if Exiting(a.pc) { CalledLater(run, moves, k, a.pid, a.status); }
    if a.state == Zombie { CalledLater(run, moves, k, a.pid, a.xstate); }
    if x == moves[k].0 && moves[k].1 == OnExit(b.status) { assert CalledAt(run, moves, k + 1, a.pid, b.status, k); }
  }

  /** Every status that a wait returned is the one that the process with that pid passed to exit. */
  lemma {:induction false} StatusIsPassedToExit(run: seq<State>, moves: seq<(nat, Step)>, k: nat, a: nat)
    returns (i: nat)
    requires IsRun(run, moves) && k < |run| && a < |run[k].reaped|
    ensures i < k && moves[i].1 == OnExit(run[k].reaped[a].1)
    ensures moves[i].0 < |run[i].procs| && run[i].procs[moves[i].0].pid == run[k].reaped[a].0
  {
    hide Inv, Next;
    var s, s', p, st := run[k - 1], run[k], moves[k - 1].0, moves[k - 1].1;
    RunInv(run, moves, k - 1);
    InitThere(s);
    StatusSteps(s, s', p, st, 0);
    hide Init, Exiting, CalledAt;
    if a < |s.reaped| {
      i := StatusIsPassedToExit(run, moves, k - 1, a);
    } else {
      i := ZombieCalled(run, moves, k - 1, s.procs[p].pc.j);
    }
  }

  lemma ZombieCalled(run: seq<State>, moves: seq<(nat, Step)>, k: nat, z: nat) returns (i: nat)
    requires IsRun(run, moves) && k < |run| && z < |run[k].procs| && run[k].procs[z].state == Zombie
    ensures i < k && moves[i].1 == OnExit(run[k].procs[z].xstate)
    ensures moves[i].0 < |run[i].procs| && run[i].procs[moves[i].0].pid == run[k].procs[z].pid
  {
    hide Inv, Next, Init;
    RunCarries(run, moves, k, z);
    i :| CalledAt(run, moves, k, run[k].procs[z].pid, run[k].procs[z].xstate, i);
  }

  lemma InitThere(s: State)
    requires Inv(s)
    ensures |s.procs| > 0
  {
  }

  // ---------------------------------------------------------------- parents

  /** What a step may do to the parent of process x. */
  predicate ParentStep(s: State, s': State, p: nat, st: Step, x: nat)
    requires x < |s.procs|
  {
    && |s'.procs| == |s.procs| && p < |s.procs|
    && var a, b := s.procs[x].parent, s'.procs[x].parent;
    && (st == OnForkLink(x) ==> a.None? && b == Some(p))
    && (st != OnForkLink(x) ==>
          || b == a
          || (a == Some(p) && st.OnWaitReap? && b.None?)
          || (a == Some(p) && Exiting(s.procs[p].pc) && p != INIT && b == Some(INIT)))
  }

  lemma ForkParents(s: State, s': State, p: nat, st: Step, x: nat)
    requires Inv(s) && ForkNext(s, s', p, st) && x < |s.procs|
    ensures ParentStep(s, s', p, st, x)
  {
    if p < |s.procs| { assert ForkOk(s, p) && StateOk(s.procs[p], p); }
    hide Inv;
  }

  lemma ExitParents(s: State, s': State, p: nat, st: Step, x: nat)
    requires Inv(s) && ExitNext(s, s', p, st) && x < |s.procs|
    ensures ParentStep(s, s', p, st, x)
  {
    if p < |s.procs| { assert StateOk(s.procs[p], p) && Disowned(s, p, x); }
    hide Inv;
  }

  lemma WaitParents(s: State, s': State, p: nat, st: Step, x: nat)
    requires Inv(s) && WaitNext(s, s', p, st) && x < |s.procs|
    ensures ParentStep(s, s', p, st, x)
  {
    if p < |s.procs| { assert ReapOk(s, p); }
    hide Inv;
  }

  lemma ParentSteps(s: State, s': State, p: nat, st: Step, x: nat)
    requires Inv(s) && Next(s, s', p, st) && x < |s.procs|
    ensures ParentStep(s, s', p, st, x)
  {
    hide Inv, ForkNext, ExitNext, WaitNext, ParentStep;
    if ForkNext(s, s', p, st) {
      ForkParents(s, s', p, st, x);
    } else if ExitNext(s, s', p, st) {
      ExitParents(s, s', p, st, x);
    } else {
      WaitParents(s, s', p, st, x);
    }
  }

  predicate ExitsAt(moves: seq<(nat, Step)>, f: nat, e: int) {
    0 <= e < |moves| && moves[e].0 == f && moves[e].1.OnExit?
  }

  /** A process that is exiting now and was not at i has called exit in between. */
  lemma {:induction false} ExitedSince(run: seq<State>, moves: seq<(nat, Step)>, i: nat, k: nat, f: nat)
    returns (e: nat)
    requires IsRun(run, moves) && i <= k < |run| && f < |run[i].procs| && !Exiting(run[i].procs[f].pc)
    requires f < |run[k].procs| && Exiting(run[k].procs[f].pc)
    ensures i <= e < k && ExitsAt(moves, f, e)
    decreases k
  {
    hide Inv, Next, Init, Exiting;
    RunInv(run, moves, k - 1);
    StepKeeps(run[k - 1], run[k], moves[k - 1].0, moves[k - 1].1);
    StatusSteps(run[k - 1], run[k], moves[k - 1].0, moves[k - 1].1, f);
    if Exiting(run[k - 1].procs[f].pc) {
      e := ExitedSince(run, moves, i, k - 1, f);
    } else {
      e := k - 1;
    }
  }

  /** A process's parent is the one that forked it last, or init, if that one has called exit since. */
  lemma {:induction false} ParentIsForker(run: seq<State>, moves: seq<(nat, Step)>, k: nat, x: nat) returns (i: nat)
    requires IsRun(run, moves) && k < |run| && x < |run[k].procs| && run[k].procs[x].parent.Some?
    ensures i < k && moves[i].1 == OnForkLink(x) && forall l :: i < l < k ==> moves[l].1 != OnForkLink(x)
    ensures run[k].procs[x].parent == Some(moves[i].0)
         || (run[k].procs[x].parent == Some(INIT) && exists e :: i < e < k && ExitsAt(moves, moves[i].0, e))
    decreases k
  {
    hide Inv, Next, Init, Exiting, ExitsAt;
    if k == 0 {
      NoParents(run[0], x);
      assert false;
    }
    var s, s', p, st := run[k - 1], run[k], moves[k - 1].0, moves[k - 1].1;
    RunInv(run, moves, k - 1);
    StepKeeps(s, s', p, st);
    ParentSteps(s, s', p, st, x);
    if st == OnForkLink(x) {
      i := k - 1;
    } else {
      i := ParentIsForker(run, moves, k - 1, x);
      if s'.procs[x].parent != s.procs[x].parent {
        LinkNotExiting(run, moves, i, x);
        var e := ExitedSince(run, moves, i + 1, k - 1, p);
        assert ExitsAt(moves, moves[i].0, e);
      }
    }
  }

  lemma NoParents(s: State, x: nat)
    requires Init(s) && x < |s.procs|
    ensures s.procs[x].parent.None?
  {
  }

  lemma LinkNotExiting(run: seq<State>, moves: seq<(nat, Step)>, i: nat, x: nat)
    requires IsRun(run, moves) && i < |moves| && moves[i].1 == OnForkLink(x)
    ensures moves[i].0 < |run[i + 1].procs| && !Exiting(run[i + 1].procs[moves[i].0].pc)
  {
    assert Next(run[i], run[i + 1], moves[i].0, moves[i].1);
  }

  // ---------------------------------------------------------------- what wait finds

  /** A scan that has seen a child says so. */
  ghost predicate KidsOk(s: State, p: nat) {
    p < |s.procs| && s.procs[p].pc.WaitScan? && s.procs[p].pc.kids ==> exists x: nat :: ChildOf(s, p, x)
  }

  predicate ChildOf(s: State, p: nat, x: nat) { x < |s.procs| && s.procs[x].parent == Some(p) }

  /** Nobody else starts or moves a process's scan. */
  lemma OthersScan(s: State, s': State, p: nat, st: Step, q: nat)
    requires Next(s, s', p, st) && q < |s.procs| && |s'.procs| == |s.procs| && p != q && s'.procs[q].pc.WaitScan?
    ensures s.procs[q].pc == s'.procs[q].pc
  {
    hide ExitNext, WaitNext, ForkNext;
    if ForkNext(s, s', p, st) {
      ForkScans(s, s', p, st, q);
    } else if ExitNext(s, s', p, st) {
      ExitScans(s, s', p, st, q);
    } else {
      WaitScans(s, s', p, st, q);
    }
  }

  lemma ForkScans(s: State, s': State, p: nat, st: Step, q: nat)
    requires ForkNext(s, s', p, st) && q < |s.procs| && |s'.procs| == |s.procs| && p != q && s'.procs[q].pc.WaitScan?
    ensures s.procs[q].pc == s'.procs[q].pc
  {
  }

  lemma ExitScans(s: State, s': State, p: nat, st: Step, q: nat)
    requires ExitNext(s, s', p, st) && q < |s.procs| && |s'.procs| == |s.procs| && p != q
    ensures s.procs[q].pc == s'.procs[q].pc
  {
  }

  lemma WaitScans(s: State, s': State, p: nat, st: Step, q: nat)
    requires WaitNext(s, s', p, st) && q < |s.procs| && |s'.procs| == |s.procs| && p != q
    ensures s.procs[q].pc == s'.procs[q].pc
  {
  }

  lemma OwnScan(s: State, s': State, p: nat, st: Step)
    requires Next(s, s', p, st) && p < |s.procs| == |s'.procs| && s'.procs[p].pc.WaitScan? && s'.procs[p].pc.kids
    ensures s.procs[p].pc.WaitScan? && forall x: nat :: ChildOf(s, p, x) ==> ChildOf(s', p, x)
    ensures !s.procs[p].pc.kids ==> ChildOf(s', p, s.procs[p].pc.j)
  {
    assert !ForkNext(s, s', p, st) && !ExitNext(s, s', p, st);
  }

  lemma {:induction false} RunKids(run: seq<State>, moves: seq<(nat, Step)>, k: nat, q: nat)
    requires IsRun(run, moves) && k < |run|
    ensures KidsOk(run[k], q)
  {
    if k > 0 {
      hide Inv, Next, Init, ChildOf, Exiting;
      var s, s', p, st := run[k - 1], run[k], moves[k - 1].0, moves[k - 1].1;
      RunKids(run, moves, k - 1, q);
      RunInv(run, moves, k - 1);
      StepKeeps(s, s', p, st);
      if q < |s.procs| && s'.procs[q].pc.WaitScan? && s'.procs[q].pc.kids {
        if p == q { OwnScan(s, s', p, st); } else { OthersScan(s, s', p, st, q); }
        if s.procs[q].pc.kids {
          var x: nat :| ChildOf(s, q, x);
          ChildStays(s, s', p, st, q, x);
        }
      }
    }
  }

  lemma ChildStays(s: State, s': State, p: nat, st: Step, q: nat, x: nat)
    requires Inv(s) && Next(s, s', p, st) && |s'.procs| == |s.procs| && ChildOf(s, q, x)
    requires p == q ==> forall y: nat :: ChildOf(s, q, y) ==> ChildOf(s', q, y)
    ensures ChildOf(s', q, x)
  {
    ParentSteps(s, s', p, st, x);
    hide Inv, Next;
  }

  /** After its scan wait returns if and only if the caller has been killed or has no child at all. */
  lemma WaitEndsExactly(run: seq<State>, moves: seq<(nat, Step)>, i: nat)
    requires IsRun(run, moves) && i < |moves| && moves[i].1.OnWaitEnd?
    ensures var p := moves[i].0;
            && p < |run[i].procs| && p < |run[i + 1].procs|
            && (run[i + 1].procs[p].pc == Idle <==>
                  run[i].procs[p].killed || forall x :: 0 <= x < |run[i].procs| ==> run[i].procs[x].parent != Some(p))
  {
    var p := moves[i].0;
    RunInv(run, moves, i);
    RunKids(run, moves, i, p);
    assert Next(run[i], run[i + 1], moves[i].0, moves[i].1);
    assert DoWaitEnd(run[i], run[i + 1], p, moves[i].1.kids);
    forall x | 0 <= x < |run[i].procs| && !moves[i].1.kids ensures run[i].procs[x].parent != Some(p) {
      assert Disowned(run[i], p, x);
    }
    hide Inv, Next;
    if run[i].procs[p].pc.kids {
      var x: nat :| ChildOf(run[i], p, x);
      assert run[i].procs[x].parent == Some(p);
    }
  }

  // ---------------------------------------------------------------- kill

  predicate Frees(s: State, s': State, q: nat) {
    q < |s.procs| && q < |s'.procs| && s.procs[q].state != Unused && s'.procs[q].state == Unused
  }

  /** What a step does to the mark of entry q. */
  predicate MarkStep(s: State, s': State, st: Step, q: nat) {
    && q < |s.procs| == |s'.procs|
    && s'.procs[q].killed == (!Frees(s, s', q) && (s.procs[q].killed || st == OnKill(q)))
  }

  lemma ForkMarks(s: State, s': State, p: nat, st: Step, q: nat)
    requires Inv(s) && ForkNext(s, s', p, st) && q < |s.procs|
    ensures MarkStep(s, s', st, q)
  {
    if p < |s.procs| { assert ForkOk(s, p) && StateOk(s.procs[p], p); }
    hide Inv;
  }

  lemma ExitMarks(s: State, s': State, p: nat, st: Step, q: nat)
    requires Inv(s) && ExitNext(s, s', p, st) && q < |s.procs|
    ensures MarkStep(s, s', st, q)
  {
    hide Inv;
  }

  lemma WaitMarks(s: State, s': State, p: nat, st: Step, q: nat)
    requires Inv(s) && WaitNext(s, s', p, st) && q < |s.procs|
    ensures MarkStep(s, s', st, q)
  {
    if p < |s.procs| { assert ReapOk(s, p) && StateOk(s.procs[p], p); }
    hide Inv;
  }

  lemma Marks(s: State, s': State, p: nat, st: Step, q: nat)
    requires Inv(s) && Next(s, s', p, st) && q < |s.procs|
    ensures MarkStep(s, s', st, q)
  {
    hide Inv, ForkNext, ExitNext, WaitNext;
    if ForkNext(s, s', p, st) {
      ForkMarks(s, s', p, st, q);
    } else if ExitNext(s, s', p, st) {
      ExitMarks(s, s', p, st, q);
    } else {
      WaitMarks(s, s', p, st, q);
    }
  }

  predicate KilledAt(run: seq<State>, moves: seq<(nat, Step)>, k: nat, q: nat, i: int) {
    && 0 <= i < k <= |moves| && |run| == |moves| + 1 && moves[i].1 == OnKill(q)
    && forall l :: i < l < k ==> !Frees(run[l], run[l + 1], q)
  }

  /** An entry of the process table is marked killed if and only if kill has hit it and it has not been freed since. */
  lemma {:induction false} KilledExactly(run: seq<State>, moves: seq<(nat, Step)>, k: nat, q: nat)
    requires IsRun(run, moves) && k < |run| && q < |run[k].procs|
    ensures run[k].procs[q].killed <==> exists i :: KilledAt(run, moves, k, q, i)
  {
    if k == 0 {
      assert !run[0].procs[q].killed;
    } else {
      hide Inv, Next, Init, Frees;
      var s, s', p, st := run[k - 1], run[k], moves[k - 1].0, moves[k - 1].1;
      RunInv(run, moves, k - 1);
      StepKeeps(s, s', p, st);
      KilledExactly(run, moves, k - 1, q);
      Marks(s, s', p, st, q);
      if st == OnKill(q) { KillFrees(s, s', p, st, q); }
      if s'.procs[q].killed {
        if st == OnKill(q) {
          assert KilledAt(run, moves, k, q, k - 1);
        } else {
          var i :| KilledAt(run, moves, k - 1, q, i);
          assert KilledAt(run, moves, k, q, i);
        }
      }
      if i :| KilledAt(run, moves, k, q, i) {
        if i < k - 1 { assert KilledAt(run, moves, k - 1, q, i) && !Frees(run[k - 1], run[k - 1 + 1], q); }
      }
    }
  }

  lemma KillFrees(s: State, s': State, p: nat, st: Step, q: nat)
    requires Next(s, s', p, st) && st == OnKill(q)
    ensures !Frees(s, s', q)
  {
  }

  /** kill wakes a process that sleeps. */
  lemma KillWakes(run: seq<State>, moves: seq<(nat, Step)>, i: nat, q: nat)
    requires IsRun(run, moves) && i < |moves| && moves[i].1 == OnKill(q)
    ensures q < |run[i].procs| == |run[i + 1].procs|
    ensures run[i + 1].procs[q].killed && run[i + 1].procs[q].state != Sleeping
    ensures run[i].procs[q].state != Sleeping ==> run[i + 1].procs[q].state == run[i].procs[q].state
  {
    assert Next(run[i], run[i + 1], moves[i].0, moves[i].1);
  }

  /** The k-th state of the run below: init, and entry 1. */
  function Reviving(k: nat): State {
    var init := match k
      case 2 => ForkSetup(1)
      case 3 => ForkLink(1)
      case 4 => ForkReady(1)
      case _ => Idle;
    var child := Proc(if k < 2 then Unused else if k < 5 then Used else Ready, None,
                      if k < 4 then None else Some(INIT), 0, if k < 2 then 0 else 2, k >= 1,
                      if k == 2 then Held(0) else Free, if k < 5 then Gone else Idle, 0);
    State([Proc(Ready, None, None, 0, 1, false, Free, init, 0), child], Free, if k < 2 then 2 else 3, map[], [])
  }

  /** kill(0) hits an entry that is not in use, and allocproc leaves the mark: the next child is born killed. */
  lemma BornKilled() returns (run: seq<State>, moves: seq<(nat, Step)>)
    ensures IsRun(run, moves) && |run| == 6 && moves[0].1 == OnKill(1)
    ensures |run[0].procs| == 2 && run[0].procs[1].state == Unused
    ensures |run[5].procs| == 2 && run[5].procs[1].state == Ready && run[5].procs[1].killed
  {
    RevivingKills();
    RevivingTakes();
    RevivingLinks();
    RevivingStarts();
    hide Next;
    run := [Reviving(0), Reviving(1), Reviving(2), Reviving(3), Reviving(4), Reviving(5)];
    moves := [(0, OnKill(1)), (0, OnAlloc(1)), (0, OnForkSetup(1, true)), (0, OnForkLink(1)), (0, OnForkReady(1))];
  }

  lemma RevivingKills()
    ensures Next(Reviving(0), Reviving(1), 0, OnKill(1))
  {
    hide ExitNext, WaitNext;
    assert DoKill(Reviving(0), Reviving(1), 0, 1);
  }

  lemma RevivingTakes()
    ensures Next(Reviving(1), Reviving(2), 0, OnAlloc(1)) && Next(Reviving(2), Reviving(3), 0, OnForkSetup(1, true))
  {
    hide ExitNext, WaitNext;
    assert DoAlloc(Reviving(1), Reviving(2), 0, 1) && DoForkSetup(Reviving(2), Reviving(3), 0, 1, true);
  }

  lemma RevivingLinks()
    ensures Next(Reviving(3), Reviving(4), 0, OnForkLink(1))
  {
    hide ExitNext, WaitNext;
    assert DoForkLink(Reviving(3), Reviving(4), 0, 1);
  }

  lemma RevivingStarts()
    ensures Next(Reviving(4), Reviving(5), 0, OnForkReady(1))
  {
    hide ExitNext, WaitNext;
    assert DoForkReady(Reviving(4), Reviving(5), 0, 1);
  }

  /** Only a process that is asleep in wait, or has been woken there and not yet run, has a channel: its own entry. */
  predicate ChannelOk(s: State, p: nat) {
    p < |s.procs| ==> s.procs[p].chan == if s.procs[p].pc.SleepOut? then Some(p) else None
  }

  lemma ForkChannels(s: State, s': State, p: nat, st: Step, q: nat)
    requires Inv(s) && ForkNext(s, s', p, st) && ChannelOk(s, q) && |s'.procs| == |s.procs|
    ensures ChannelOk(s', q)
  {
    if p < |s.procs| { assert ForkOk(s, p) && StateOk(s.procs[p], p); }
    hide Inv;
  }

  lemma ExitChannels(s: State, s': State, p: nat, st: Step, q: nat)
    requires Inv(s) && ExitNext(s, s', p, st) && ChannelOk(s, q) && |s'.procs| == |s.procs|
    ensures ChannelOk(s', q)
  {
    if q < |s.procs| { assert StateOk(s.procs[q], q); }
    hide Inv;
  }

  lemma WaitChannels(s: State, s': State, p: nat, st: Step, q: nat)
    requires Inv(s) && WaitNext(s, s', p, st) && ChannelOk(s, q) && |s'.procs| == |s.procs|
    ensures ChannelOk(s', q)
  {
    if p < |s.procs| { assert ReapOk(s, p) && StateOk(s.procs[p], p); }
    if q < |s.procs| { assert StateOk(s.procs[q], q); }
    hide Inv;
  }

  lemma Channels(s: State, s': State, p: nat, st: Step, q: nat)
    requires Inv(s) && Next(s, s', p, st) && ChannelOk(s, q) && |s'.procs| == |s.procs|
    ensures ChannelOk(s', q)
  {
    hide Inv, ForkNext, ExitNext, WaitNext;
    if ForkNext(s, s', p, st) {
      ForkChannels(s, s', p, st, q);
    } else if ExitNext(s, s', p, st) {
      ExitChannels(s, s', p, st, q);
    } else {
      WaitChannels(s, s', p, st, q);
    }
  }

  lemma {:induction false} ChannelsExact(run: seq<State>, moves: seq<(nat, Step)>, k: nat, q: nat)
    requires IsRun(run, moves) && k < |run|
    ensures ChannelOk(run[k], q)
  {
    if k > 0 {
      hide Inv, Next, Init, ChannelOk;
      RunInv(run, moves, k - 1);
      StepKeeps(run[k - 1], run[k], moves[k - 1].0, moves[k - 1].1);
      ChannelsExact(run, moves, k - 1, q);
      Channels(run[k - 1], run[k], moves[k - 1].0, moves[k - 1].1, q);
    }
  }
}
