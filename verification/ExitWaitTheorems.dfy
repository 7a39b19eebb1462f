/** What holds in every state of every run of fork, exit and wait. */
module ExitWaitTheorems {
  import opened Common
  import opened ExitWait
  import opened ExitWaitProofs

  lemma StepKeeps(s: State, s': State, p: nat, st: Step)
    requires Inv(s) && Next(s, s', p, st)
    ensures Inv(s') && |s'.procs| == |s.procs|
  {
    hide Inv;
    if ForkNext(s, s', p, st) {
      ForkNextKeeps(s, s', p, st);
    } else if ExitNext(s, s', p, st) {
      ExitNextKeeps(s, s', p, st);
    } else {
      WaitNextKeeps(s, s', p, st);
    }
  }

  lemma InitInv(s: State)
    requires Init(s)
    ensures Inv(s)
  {
    assert ThreadInv(s) && FamilyInv(s);
    assert WaitInv(s) && HistoryInv(s);
  }

  /** A run: who moved, and which step it took. */
  predicate IsRun(run: seq<State>, moves: seq<(nat, Step)>) {
    && |run| == |moves| + 1 && Init(run[0])
    && forall i :: 0 <= i < |moves| ==> Next(run[i], run[i + 1], moves[i].0, moves[i].1)
  }

  lemma {:induction false} RunInv(run: seq<State>, moves: seq<(nat, Step)>, i: nat)
    requires IsRun(run, moves) && i < |run|
    ensures Inv(run[i])
  {
    if i == 0 {
      InitInv(run[0]);
    } else {
      RunInv(run, moves, i - 1);
      hide Inv;
      StepKeeps(run[i - 1], run[i], moves[i - 1].0, moves[i - 1].1);
    }
  }

  predicate Started(s: State, x: nat) { x < |s.procs| && (Alive(s.procs[x]) || s.procs[x].state == Zombie) }

  /** The process reached from x by going from child to parent until there is none. */
  ghost function Root(s: State, x: nat): nat
    requires Inv(s) && Started(s, x)
    decreases s.procs[x].pid
  {
    assert ParentOk(s, x);
    if s.procs[x].parent.None? then x else Root(s, s.procs[x].parent.value)
  }

  lemma {:induction false} RootIsInit(s: State, x: nat)
    requires Inv(s) && Started(s, x)
    ensures Root(s, x) == INIT
    decreases s.procs[x].pid
  {
    assert ParentOk(s, x);
    if s.procs[x].parent.Some? {
      RootIsInit(s, s.procs[x].parent.value);
    }
  }

  /** Started processes form one tree: each has a live parent older than itself, up to init. */
  lemma FamilyTree(run: seq<State>, moves: seq<(nat, Step)>, i: nat, x: nat)
    requires IsRun(run, moves) && i < |run| && Started(run[i], x)
    ensures Inv(run[i]) && Root(run[i], x) == INIT
    ensures x != INIT ==>
              && run[i].procs[x].parent.Some? && Started(run[i], run[i].procs[x].parent.value)
              && Alive(run[i].procs[run[i].procs[x].parent.value])
  {
    RunInv(run, moves, i);
    RootIsInit(run[i], x);
    assert ParentOk(run[i], x);
  }

  /** An exited process has no children left. */
  lemma ZombieHasNoChildren(run: seq<State>, moves: seq<(nat, Step)>, i: nat, z: nat, x: nat)
    requires IsRun(run, moves) && i < |run| && z < |run[i].procs|
    requires x < |run[i].procs| && run[i].procs[z].state == Zombie
    ensures run[i].procs[x].parent != Some(z)
  {
    RunInv(run, moves, i);
    assert ParentOk(run[i], x);
  }

  /** Outside wait_lock no process sleeps in wait while a child of it is a zombie. */
  lemma NoParentSleepsOnZombie(run: seq<State>, moves: seq<(nat, Step)>, i: nat, q: nat, z: nat)
    requires IsRun(run, moves) && i < |run| && q < |run[i].procs| && z < |run[i].procs| && run[i].waitLock.Free?
    requires run[i].procs[q].state == Sleeping && run[i].procs[z].state == Zombie
    ensures run[i].procs[z].parent != Some(q)
  {
    RunInv(run, moves, i);
    assert Noticed(run[i], q, z) && StateOk(run[i].procs[q], q);
  }

  /** A child is freed only when it is a zombie that has left its kernel stack and whose lock the scheduler
      has released. */
  lemma FreedIsGone(run: seq<State>, moves: seq<(nat, Step)>, i: nat, j: nat, ok: bool)
    requires IsRun(run, moves) && i < |moves| && moves[i].1 == OnWaitReap(j, ok)
    ensures j < |run[i].procs| && run[i].procs[j].state == Zombie && run[i].procs[j].pc.Gone?
    ensures run[i].procs[j].parent == Some(moves[i].0)
  {
    RunInv(run, moves, i);
    assert Next(run[i], run[i + 1], moves[i].0, moves[i].1);
    assert ReapOk(run[i], moves[i].0);
  }

  /** A status that wait returned is the one its process passed to exit. */
  lemma StatusIsExits(run: seq<State>, moves: seq<(nat, Step)>, i: nat, a: nat)
    requires IsRun(run, moves) && i < |run| && a < |run[i].reaped|
    ensures run[i].reaped[a].0 in run[i].exited && run[i].exited[run[i].reaped[a].0] == run[i].reaped[a].1
  {
    RunInv(run, moves, i);
    assert Reaped(run[i], a);
  }

  /** Each exit status is returned by at most one wait. */
  lemma StatusReapedOnce(run: seq<State>, moves: seq<(nat, Step)>, i: nat, a: nat, b: nat)
    requires IsRun(run, moves) && i < |run| && a < b < |run[i].reaped|
    ensures run[i].reaped[a].0 != run[i].reaped[b].0
  {
    RunInv(run, moves, i);
    assert Reaped(run[i], a) && Reaped(run[i], b);
  }

  lemma Unrecorded(s: State, p: nat)
    requires Inv(s) && p < |s.procs| && s.procs[p].pc.ExitState?
    ensures s.procs[p].pid !in s.exited
  {
    assert Recorded(s, p) && StateOk(s.procs[p], p);
  }

  lemma StatusKept(s: State, s': State, p: nat, st: Step, pid: nat)
    requires Inv(s) && Next(s, s', p, st) && pid in s.exited
    ensures pid in s'.exited && s'.exited[pid] == s.exited[pid]
  {
    hide Inv;
    if p < |s.procs| && s.procs[p].pc.ExitState? { Unrecorded(s, p); }
  }

  /** exit is recorded once per pid: a later exit never overwrites a status that is already recorded. */
  lemma {:induction false} StatusesStay(run: seq<State>, moves: seq<(nat, Step)>, i: nat, k: nat, pid: nat)
    requires IsRun(run, moves) && i <= k < |run| && pid in run[i].exited
    ensures pid in run[k].exited && run[k].exited[pid] == run[i].exited[pid]
    decreases k - i
  {
    if i < k {
      RunInv(run, moves, i);
      assert Next(run[i], run[i + 1], moves[i].0, moves[i].1);
      hide Inv, Next;
      StatusKept(run[i], run[i + 1], moves[i].0, moves[i].1, pid);
      StatusesStay(run, moves, i + 1, k, pid);
    }
  }

  /** wait gives up without being killed only when the caller has no child at all. */
  lemma WaitGivesUp(run: seq<State>, moves: seq<(nat, Step)>, i: nat, x: nat)
    requires IsRun(run, moves) && i < |moves| && moves[i].1 == OnWaitEnd(false) && x < |run[i].procs|
    ensures run[i].procs[x].parent != Some(moves[i].0)
  {
    RunInv(run, moves, i);
    assert Next(run[i], run[i + 1], moves[i].0, moves[i].1);
    assert Disowned(run[i], moves[i].0, x);
  }
}
