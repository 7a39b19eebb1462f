/** Every step of fork, exit, wait and kill keeps the invariant: each kind of step is shown to touch two
    processes at most, and such steps to keep the invariant part by part. */
module ExitWaitProofs {
  import opened Common
  import opened ExitWait

  // ---------------------------------------------------------------- threads and locks

  predicate Mine(s: State, p: nat, q: nat)
    requires q < |s.procs|
  {
    s.procs[q].lock.Free? || s.procs[q].lock == Held(p)
  }

  /** What a step of p may do to another process q. */
  predicate Touches(s: State, a: Proc, b: Proc, p: nat, q: nat)
    requires p < |s.procs| && q < |s.procs|
  {
    && (b.pc == a.pc || (a.pc.Gone? && b.pc.Idle?))
    && (b.pid == a.pid || a.pc.Gone?)
    && (a.state == Used ==>
       (b.state == Used && b.parent == a.parent && b.pid == a.pid) || Child(s.procs[p].pc) == Some(q))
    && (Mine(s, p, q)
       || (b.state == a.state && b.pc == a.pc && (b.parent == a.parent || s.waitLock.Free? || s.waitLock == Held(p))))
    && (b.lock == a.lock || Mine(s, p, q))
    && (b.state == Used && b.parent.Some? ==> (a.state == Used && b.parent == a.parent) || b.parent == Some(p))
    && StateOk(b, q)
  }

  /** A step of p's thread that touches at most p and q, and changes a lock only if it is free or p's. */
  predicate ThreadStep(s: State, s': State, p: nat, q: nat) {
    && |s'.procs| == |s.procs| && p < |s.procs| && q < |s.procs|
    && (forall x :: 0 <= x < |s.procs| && x != p && x != q ==> s'.procs[x] == s.procs[x])
    && (s'.waitLock == s.waitLock || s.waitLock.Free? || s.waitLock == Held(p))
    && (s'.procs[p].lock == s.procs[p].lock || Mine(s, p, p))
    && !s.procs[p].pc.Gone? && s'.procs[p].pid == s.procs[p].pid
    && (s.procs[p].pc.ForkReady? ==> q == s.procs[p].pc.n && s'.procs[q].state != Used)
    && (s'.procs[q].state == Used && s'.procs[q].parent == Some(p) ==> s'.procs[p].pc == ForkReady(q))
    && (q != p ==> Touches(s, s.procs[q], s'.procs[q], p, q))
    && (|| Child(s'.procs[p].pc).None? || Child(s'.procs[p].pc) == Child(s.procs[p].pc)
        || (Child(s'.procs[p].pc).value < |s.procs| && s.procs[Child(s'.procs[p].pc).value].state == Unused))
  }

  predicate OneOk(s: State, x: nat)
    requires x < |s.procs|
  {
    LockOk(s, x) && StateOk(s.procs[x], x) && ForkOk(s, x) && ReapOk(s, x) && UsedOk(s, x)
  }

  lemma OtherTouched(s: State, s': State, p: nat, x: nat)
    requires ThreadStep(s, s', p, x) && x < |s.procs| && x != p && OneOk(s, x) && OneOk(s, p) && Apart(s, x, p)
    ensures OneOk(s', x)
  {
  }

  lemma OtherLeft(s: State, s': State, p: nat, q: nat, x: nat)
    requires ThreadStep(s, s', p, q) && x < |s.procs| && x != p
    requires x != q && OneOk(s, x) && OneOk(s, p) && Apart(s, x, p)
    ensures OneOk(s', x)
  {
  }

  lemma OtherKeeps(s: State, s': State, p: nat, q: nat, x: nat)
    requires ThreadInv(s) && ThreadStep(s, s', p, q) && x < |s.procs| && x != p
    ensures OneOk(s', x)
  {
    assert OneOk(s, x) && OneOk(s, p) && Apart(s, x, p);
    hide ThreadInv;
    if x == q { OtherTouched(s, s', p, x); } else { OtherLeft(s, s', p, q, x); }
  }

  lemma ThreadKeeps(s: State, s': State, p: nat, q: nat)
    requires ThreadInv(s) && ThreadStep(s, s', p, q) && OneOk(s', p)
    ensures ThreadInv(s')
  {
    forall x | 0 <= x < |s'.procs|
      ensures OneOk(s', x) && LockOk(s', x) && StateOk(s'.procs[x], x)
      ensures ForkOk(s', x) && ReapOk(s', x) && UsedOk(s', x)
    {
      if x != p { OtherKeeps(s, s', p, q, x); }
    }
    forall x, y | 0 <= x < |s'.procs| && 0 <= y < |s'.procs| ensures Apart(s', x, y) {
      assert Apart(s, x, y) && ForkOk(s, x) && ForkOk(s, y);
    }
  }

  // ---------------------------------------------------------------- the family tree

  /** What a step of p may do to the process t and to p, as far as the family tree goes. */
  predicate FamilyStep(s: State, s': State, p: nat, t: nat) {
    && |s'.procs| == |s.procs| && p < |s.procs| && t < |s.procs| && s'.nextpid >= s.nextpid
    && (forall x :: 0 <= x < |s.procs| && x != p && x != t ==> s'.procs[x] == s.procs[x])
    && s'.procs[p].pid == s.procs[p].pid && s'.procs[p].parent == s.procs[p].parent
    && s'.procs[p].state != Unused && s'.procs[p].state != Used
    && (Alive(s.procs[p]) ==>
       Alive(s'.procs[p]) || (p != INIT && forall x :: 0 <= x < |s.procs| ==> s.procs[x].parent != Some(p)))
    && (t != p ==> Relates(s, s', p, t))
    && forall x :: 0 <= x < |s.procs| ==> Disowned(s', p, x)
  }

  predicate Relates(s: State, s': State, p: nat, t: nat)
    requires p < |s.procs| && t < |s.procs| && |s'.procs| == |s.procs|
  {
    var a, b := s.procs[t], s'.procs[t];
    && (b.pc == a.pc || b.pc.Idle?)
    && (Alive(a) ==> Alive(b) && b.pid == a.pid)
    && (b.pid == a.pid || b.pid == 0 || s.nextpid == b.pid < s'.nextpid)
    && (b.parent == a.parent
       || (t != INIT && (b.parent.None? || b.parent == Some(p) || (b.parent == Some(INIT) && s.waitLock == Held(p)))))
    && ParentOk(s', t)
  }

  lemma OwnPidsKept(s: State, s': State, p: nat, t: nat)
    requires FamilyInv(s) && FamilyStep(s, s', p, t)
    ensures forall x, y :: 0 <= x < |s.procs| && 0 <= y < |s.procs| ==> OwnPid(s', x, y)
  {
    hide Disowned;
    forall x, y | 0 <= x < |s.procs| && 0 <= y < |s.procs| ensures OwnPid(s', x, y) {
      assert OwnPid(s, x, y) && ParentOk(s, x) && ParentOk(s, y);
    }
  }

  lemma FamilyKeeps(s: State, s': State, p: nat, t: nat)
    requires ThreadInv(s) && FamilyInv(s) && FamilyStep(s, s', p, t) && !s.procs[p].pc.Gone?
    ensures FamilyInv(s')
  {
    forall x | 0 <= x < |s.procs| ensures ParentOk(s', x) {
      assert ParentOk(s, x) && ParentOk(s, p);
    }
    OwnPidsKept(s, s', p, t);
    forall q, x | 0 <= q < |s.procs| && 0 <= x < |s.procs| ensures Disowned(s', q, x) {
      assert Disowned(s, q, x) && OneOk(s, q) && Disowned(s', p, x);
    }
    assert ParentOk(s, INIT);
  }

  // ---------------------------------------------------------------- sleeping in wait, and the statuses returned

  /** If z is a zombie, its parent is not asleep and will still look at it. */
  predicate Seen(s: State, z: nat)
    requires z < |s.procs|
  {
    s.procs[z].parent.Some? && s.procs[z].parent.value < |s.procs| ==> Noticed(s, s.procs[z].parent.value, z)
  }

  /** What a step of p may do to the process t and to p, as far as sleeping in wait goes. */
  predicate WaitStep(s: State, s': State, p: nat, t: nat) {
    && |s'.procs| == |s.procs| && p < |s.procs| && t < |s.procs|
    && (forall x :: 0 <= x < |s.procs| && x != p && x != t ==> s'.procs[x] == s.procs[x])
    && (t != p ==>
          && (Down(s'.procs[t]) ==> Down(s.procs[t]))
          && (s'.procs[t].pc == s.procs[t].pc || s'.procs[t].pc.Idle?)
          && (s'.procs[t].parent == s.procs[t].parent || !HoldsWait(s.procs[t].pc)))
    && (Down(s'.procs[p]) ==> Down(s.procs[p]) || s.waitLock == Held(p))
    && (WakeComing(s, INIT) ==> WakeComing(s', INIT) || !Down(s'.procs[INIT]))
    && Seen(s', p) && Seen(s', t) && Announced(s', p)
    && forall z :: 0 <= z < |s.procs| ==> Noticed(s', p, z)
  }

  lemma WaitKeeps(s: State, s': State, p: nat, t: nat)
    requires ThreadInv(s) && FamilyInv(s) && WaitInv(s) && WaitStep(s, s', p, t)
    ensures WaitInv(s')
  {
    forall q, z | 0 <= q < |s.procs| && 0 <= z < |s.procs| ensures Noticed(s', q, z) {
      assert Noticed(s, q, z) && Noticed(s', p, z);
    }
    forall z | 0 <= z < |s.procs| ensures Announced(s', z) {
      assert Announced(s, z) && LockOk(s, z);
    }
  }

  /** What a step of p may do to the process t and to p, as far as pids and statuses go. */
  predicate HistoryStep(s: State, s': State, p: nat, t: nat) {
    && |s'.procs| == |s.procs| && p < |s.procs| && t < |s.procs| && s'.nextpid >= s.nextpid
    && (forall x :: 0 <= x < |s.procs| && x != p && x != t ==> s'.procs[x] == s.procs[x])
    && s'.procs[p].pid == s.procs[p].pid
    && (s'.procs[t].pid == s.procs[t].pid || s'.procs[t].pid == 0 || s'.procs[t].pid == s.nextpid)
    && Recorded(s', p) && Recorded(s', t)
    && (s'.exited == s.exited || s'.exited == s.exited[s.procs[p].pid := s.procs[p].status])
    && (s'.exited != s.exited ==> Alive(s.procs[p]))
    && (s'.reaped == s.reaped
       || (s'.reaped == s.reaped + [(s.procs[t].pid, s.procs[t].xstate)]
          && s.procs[t].state == Zombie && s'.procs[t].pid == 0 && t != p))
  }

  lemma HistoryKeeps(s: State, s': State, p: nat, t: nat)
    requires ThreadInv(s) && FamilyInv(s) && HistoryInv(s) && HistoryStep(s, s', p, t)
    ensures HistoryInv(s')
  {
    assert ParentOk(s, p) && ParentOk(s, t) && Recorded(s, p) && Recorded(s, t);
    forall x | 0 <= x < |s.procs| ensures Recorded(s', x) {
      assert Recorded(s, x) && OwnPid(s, x, p) && ParentOk(s, x);
    }
    forall i | 0 <= i < |s'.reaped| ensures Reaped(s', i) {
      if i < |s.reaped| {
        assert Reaped(s, i);
      } else {
        forall x | 0 <= x < |s.procs| ensures s'.procs[x].pid != s.procs[t].pid { assert OwnPid(s, t, x); }
      }
    }
  }

  // ---------------------------------------------------------------- each step

  predicate Kept(s: State, s': State, p: nat, t: nat) {
    ThreadStep(s, s', p, t) && OneOk(s', p) && FamilyStep(s, s', p, t)
        && WaitStep(s, s', p, t) && HistoryStep(s, s', p, t)
  }

  lemma KeptKeeps(s: State, s': State, p: nat, t: nat)
    requires Inv(s) && Kept(s, s', p, t)
    ensures Inv(s')
  {
    ThreadKeeps(s, s', p, t);
    FamilyKeeps(s, s', p, t);
    WaitKeeps(s, s', p, t);
    HistoryKeeps(s, s', p, t);
  }

  /** The invariant at one process. */
  predicate Local(s: State, p: nat)
    requires p < |s.procs|
  {
    && OneOk(s, p) && ParentOk(s, p) && Seen(s, p) && Announced(s, p) && Recorded(s, p)
    && (forall x :: 0 <= x < |s.procs| ==> Disowned(s, p, x))
    && (forall z :: 0 <= z < |s.procs| ==> Noticed(s, p, z))
  }

  predicate InitOk(s: State) {
    && INIT < |s.procs| && Alive(s.procs[INIT]) && s.procs[INIT].pid == 1
    && s.procs[INIT].parent.None? && OneOk(s, INIT)
    && s.nextpid !in s.exited
  }

  lemma Localize(s: State, p: nat, t: nat)
    requires Inv(s) && p < |s.procs| && t < |s.procs|
    ensures Local(s, p) && Local(s, t) && InitOk(s)
  {
  }

  lemma AllocSteps(s: State, s': State, p: nat, n: nat)
    requires Inv(s) && DoAlloc(s, s', p, n)
    ensures ThreadStep(s, s', p, n) && OneOk(s', p) && FamilyStep(s, s', p, n)
  {
    hide Inv;
    Localize(s, p, n);
    forall x | 0 <= x < |s.procs| ensures Disowned(s', p, x) { assert Disowned(s, p, x); }
  }

  lemma AllocWaits(s: State, s': State, p: nat, n: nat)
    requires Inv(s) && DoAlloc(s, s', p, n)
    ensures WaitStep(s, s', p, n) && HistoryStep(s, s', p, n)
  {
    hide Inv;
    Localize(s, p, n);
    forall z | 0 <= z < |s.procs| ensures Noticed(s', p, z) { assert Noticed(s, p, z); }
  }

  lemma ForkSetupThreads(s: State, s': State, p: nat, n: nat, ok: bool)
    requires Inv(s) && DoForkSetup(s, s', p, n, ok)
    ensures ThreadStep(s, s', p, n) && OneOk(s', p)
  {
    hide Inv;
    Localize(s, p, n);
  }

  lemma ForkSetupFamily(s: State, s': State, p: nat, n: nat, ok: bool)
    requires Inv(s) && DoForkSetup(s, s', p, n, ok)
    ensures FamilyStep(s, s', p, n)
  {
    hide Inv;
    Localize(s, p, n);
    forall x | 0 <= x < |s.procs| ensures Disowned(s', p, x) { assert Disowned(s, p, x); }
  }

  lemma ForkSetupWaits(s: State, s': State, p: nat, n: nat, ok: bool)
    requires Inv(s) && DoForkSetup(s, s', p, n, ok)
    ensures WaitStep(s, s', p, n) && HistoryStep(s, s', p, n)
  {
    hide Inv, ReapOk, UsedOk;
    Localize(s, p, n);
    assert HistoryStep(s, s', p, n) by { hide Noticed, Announced, Seen, Disowned, LockOk; }
    hide HistoryStep, Recorded;
    forall z | 0 <= z < |s.procs| ensures Noticed(s', p, z) { assert Noticed(s, p, z); }
  }

  lemma ForkLinkSteps(s: State, s': State, p: nat, n: nat)
    requires Inv(s) && DoForkLink(s, s', p, n)
    ensures ThreadStep(s, s', p, n) && OneOk(s', p) && FamilyStep(s, s', p, n)
  {
    hide Inv;
    Localize(s, p, n);
    forall x | 0 <= x < |s.procs| ensures Disowned(s', p, x) { assert Disowned(s, p, x); }
  }

  lemma ForkLinkWaits(s: State, s': State, p: nat, n: nat)
    requires Inv(s) && DoForkLink(s, s', p, n)
    ensures WaitStep(s, s', p, n) && HistoryStep(s, s', p, n)
  {
    hide Inv;
    Localize(s, p, n);
    forall z | 0 <= z < |s.procs| ensures Noticed(s', p, z) { assert Noticed(s, p, z); }
  }

  lemma ForkReadySteps(s: State, s': State, p: nat, n: nat)
    requires Inv(s) && DoForkReady(s, s', p, n)
    ensures ThreadStep(s, s', p, n) && OneOk(s', p) && FamilyStep(s, s', p, n)
  {
    hide Inv;
    Localize(s, p, n);
    forall x | 0 <= x < |s.procs| ensures Disowned(s', p, x) { assert Disowned(s, p, x); }
  }

  lemma ForkReadyWaits(s: State, s': State, p: nat, n: nat)
    requires Inv(s) && DoForkReady(s, s', p, n)
    ensures WaitStep(s, s', p, n) && HistoryStep(s, s', p, n)
  {
    hide Inv;
    Localize(s, p, n);
    forall z | 0 <= z < |s.procs| ensures Noticed(s', p, z) { assert Noticed(s, p, z); }
  }

  lemma ExitKept(s: State, s': State, p: nat, status: int)
    requires Inv(s) && DoExit(s, s', p, status)
    ensures Kept(s, s', p, p)
  {
    hide Inv;
    Localize(s, p, p);
    forall x | 0 <= x < |s.procs| ensures Disowned(s', p, x) { assert Disowned(s, p, x); }
    forall z | 0 <= z < |s.procs| ensures Noticed(s', p, z) { assert Noticed(s, p, z); }
  }

  lemma ReparentThreads(s: State, s': State, p: nat, j: nat)
    requires Inv(s) && DoReparent(s, s', p, j)
    ensures ThreadStep(s, s', p, j) && OneOk(s', p)
  {
    hide Inv;
    Localize(s, p, j);
  }

  lemma ReparentFamily(s: State, s': State, p: nat, j: nat)
    requires Inv(s) && DoReparent(s, s', p, j)
    ensures FamilyStep(s, s', p, j)
  {
    hide Inv;
    Localize(s, p, j);
    forall x | 0 <= x < |s.procs| ensures Disowned(s', p, x) { assert Disowned(s, p, x); }
  }

  lemma ReparentWaits(s: State, s': State, p: nat, j: nat)
    requires Inv(s) && DoReparent(s, s', p, j)
    ensures WaitStep(s, s', p, j) && HistoryStep(s, s', p, j)
  {
    hide Inv, ForkOk, ReapOk, UsedOk;
    Localize(s, p, j);
    assert HistoryStep(s, s', p, j) by { hide Noticed, Announced, Seen, Disowned, ParentOk, LockOk; }
    hide HistoryStep, Recorded;
    forall z | 0 <= z < |s.procs| ensures Noticed(s', p, z) { assert Noticed(s, p, z); }
  }

  lemma WakeInitThreads(s: State, s': State, p: nat, j: nat, k: nat)
    requires Inv(s) && DoWakeInit(s, s', p, j, k)
    ensures ThreadStep(s, s', p, k) && OneOk(s', p)
  {
    hide Inv;
    Localize(s, p, k);
    hide Disowned, Noticed, Announced, Seen, Recorded, ParentOk;
  }

  lemma WakeInitFamily(s: State, s': State, p: nat, j: nat, k: nat)
    requires Inv(s) && DoWakeInit(s, s', p, j, k)
    ensures FamilyStep(s, s', p, k)
  {
    hide Inv;
    Localize(s, p, k);
    forall x | 0 <= x < |s.procs| ensures Disowned(s', p, x) { assert Disowned(s, p, x); }
  }

  lemma WakeInitWaits(s: State, s': State, p: nat, j: nat, k: nat)
    requires Inv(s) && DoWakeInit(s, s', p, j, k)
    ensures WaitStep(s, s', p, k) && HistoryStep(s, s', p, k)
  {
    hide Inv, ForkOk, ReapOk, UsedOk;
    Localize(s, p, k);
    assert HistoryStep(s, s', p, k) by { hide Noticed, Announced, Seen, Disowned, ParentOk, LockOk; }
    hide HistoryStep, Recorded;
    forall z | 0 <= z < |s.procs| ensures Noticed(s', p, z) { assert Noticed(s, p, z); }
  }

  lemma WokenInitKept(s: State, s': State, p: nat, j: nat)
    requires Inv(s) && DoWokenInit(s, s', p, j)
    ensures Kept(s, s', p, p)
  {
    hide Inv;
    Localize(s, p, p);
    forall x | 0 <= x < |s.procs| ensures Disowned(s', p, x) { assert Disowned(s, p, x); }
    forall z | 0 <= z < |s.procs| ensures Noticed(s', p, z) { assert Noticed(s, p, z); }
  }

  lemma ReparentedKept(s: State, s': State, p: nat)
    requires Inv(s) && DoReparented(s, s', p)
    ensures Kept(s, s', p, p)
  {
    hide Inv;
    Localize(s, p, p);
    forall x | 0 <= x < |s.procs| ensures Disowned(s', p, x) { assert Disowned(s, p, x); }
    forall z | 0 <= z < |s.procs| ensures Noticed(s', p, z) { assert Noticed(s, p, z); }
  }

  lemma WakeParentThreads(s: State, s': State, p: nat, k: nat)
    requires Inv(s) && DoWakeParent(s, s', p, k)
    ensures ThreadStep(s, s', p, k) && OneOk(s', p)
  {
    hide Inv;
    Localize(s, p, k);
  }

  lemma WakeParentFamily(s: State, s': State, p: nat, k: nat)
    requires Inv(s) && DoWakeParent(s, s', p, k)
    ensures FamilyStep(s, s', p, k)
  {
    hide Inv;
    Localize(s, p, k);
    forall x | 0 <= x < |s.procs| ensures Disowned(s', p, x) { assert Disowned(s, p, x); }
  }

  lemma WakeParentHistory(s: State, s': State, p: nat, k: nat)
    requires Inv(s) && DoWakeParent(s, s', p, k)
    ensures HistoryStep(s, s', p, k)
  {
    hide Inv;
    Localize(s, p, k);
  }

  lemma ParentLocal(s: State, p: nat)
    requires Inv(s) && p < |s.procs| && s.procs[p].parent.Some?
    ensures s.procs[p].parent.value < |s.procs| && OneOk(s, s.procs[p].parent.value)
  {
    assert ParentOk(s, p);
  }

  lemma WakeParentWaits(s: State, s': State, p: nat, k: nat)
    requires Inv(s) && DoWakeParent(s, s', p, k)
    ensures WaitStep(s, s', p, k) && HistoryStep(s, s', p, k)
  {
    hide Inv, HistoryStep, Recorded, ForkOk, ReapOk, UsedOk, Disowned;
    WakeParentHistory(s, s', p, k);
    Localize(s, p, k);
    ParentLocal(s, p);
    forall z | 0 <= z < |s.procs| ensures Noticed(s', p, z) { assert Noticed(s, p, z); }
  }

  lemma WokenParentKept(s: State, s': State, p: nat)
    requires Inv(s) && DoWokenParent(s, s', p)
    ensures Kept(s, s', p, p)
  {
    hide Inv;
    Localize(s, p, p);
    forall x | 0 <= x < |s.procs| ensures Disowned(s', p, x) { assert Disowned(s, p, x); }
    forall z | 0 <= z < |s.procs| ensures Noticed(s', p, z) { assert Noticed(s, p, z); }
  }

  lemma ExitLockKept(s: State, s': State, p: nat)
    requires Inv(s) && DoExitLock(s, s', p)
    ensures Kept(s, s', p, p)
  {
    hide Inv;
    Localize(s, p, p);
    forall x | 0 <= x < |s.procs| ensures Disowned(s', p, x) { assert Disowned(s, p, x); }
    forall z | 0 <= z < |s.procs| ensures Noticed(s', p, z) { assert Noticed(s, p, z); }
  }

  lemma ExitStateKept(s: State, s': State, p: nat)
    requires Inv(s) && DoExitState(s, s', p)
    ensures Kept(s, s', p, p)
  {
    Localize(s, p, p);
    assert OneOk(s, s.procs[p].parent.value);
    hide Inv;
    forall x | 0 <= x < |s.procs| ensures Disowned(s', p, x) && s.procs[x].parent != Some(p) {
      assert Disowned(s, p, x);
    }
    forall z | 0 <= z < |s.procs| ensures Noticed(s', p, z) { assert Noticed(s, p, z); }
  }

  lemma ExitSwitchKept(s: State, s': State, p: nat)
    requires Inv(s) && DoExitSwitch(s, s', p)
    ensures Kept(s, s', p, p)
  {
    hide Inv;
    Localize(s, p, p);
    forall x | 0 <= x < |s.procs| ensures Disowned(s', p, x) { assert Disowned(s, p, x); }
    forall z | 0 <= z < |s.procs| ensures Noticed(s', p, z) { assert Noticed(s, p, z); }
  }

  lemma ExitReleaseKept(s: State, s': State, p: nat)
    requires Inv(s) && DoExitRelease(s, s', p)
    ensures Kept(s, s', p, p)
  {
    hide Inv;
    Localize(s, p, p);
    forall x | 0 <= x < |s.procs| ensures Disowned(s', p, x) { assert Disowned(s, p, x); }
    forall z | 0 <= z < |s.procs| ensures Noticed(s', p, z) { assert Noticed(s, p, z); }
  }

  lemma WaitKept(s: State, s': State, p: nat)
    requires Inv(s) && DoWait(s, s', p)
    ensures Kept(s, s', p, p)
  {
    hide Inv;
    Localize(s, p, p);
    forall x | 0 <= x < |s.procs| ensures Disowned(s', p, x) { assert Disowned(s, p, x); }
    forall z | 0 <= z < |s.procs| ensures Noticed(s', p, z) { assert Noticed(s, p, z); }
  }

  lemma WaitScanKept(s: State, s': State, p: nat, j: nat, kids: bool)
    requires Inv(s) && DoWaitScan(s, s', p, j, kids)
    ensures Kept(s, s', p, p)
  {
    hide Inv;
    Localize(s, p, p);
    forall x | 0 <= x < |s.procs| ensures Disowned(s', p, x) { assert Disowned(s, p, x); }
    forall z | 0 <= z < |s.procs| ensures Noticed(s', p, z) { assert Noticed(s, p, z); }
  }

  lemma WaitFoundSteps(s: State, s': State, p: nat, j: nat, kids: bool)
    requires Inv(s) && DoWaitFound(s, s', p, j, kids)
    ensures ThreadStep(s, s', p, j) && OneOk(s', p) && FamilyStep(s, s', p, j)
  {
    hide Inv;
    Localize(s, p, j);
    forall x | 0 <= x < |s.procs| ensures Disowned(s', p, x) { assert Disowned(s, p, x); }
  }

  lemma WaitFoundWaits(s: State, s': State, p: nat, j: nat, kids: bool)
    requires Inv(s) && DoWaitFound(s, s', p, j, kids)
    ensures WaitStep(s, s', p, j) && HistoryStep(s, s', p, j)
  {
    hide Inv;
    Localize(s, p, j);
    forall z | 0 <= z < |s.procs| ensures Noticed(s', p, z) { assert Noticed(s, p, z); }
  }

  lemma WaitReapThreads(s: State, s': State, p: nat, j: nat, ok: bool)
    requires Inv(s) && DoWaitReap(s, s', p, j, ok)
    ensures ThreadStep(s, s', p, j) && OneOk(s', p)
  {
    hide Inv;
    Localize(s, p, j);
  }

  lemma WaitReapFamily(s: State, s': State, p: nat, j: nat, ok: bool)
    requires Inv(s) && DoWaitReap(s, s', p, j, ok)
    ensures FamilyStep(s, s', p, j)
  {
    hide Inv;
    Localize(s, p, j);
    forall x | 0 <= x < |s.procs| ensures Disowned(s', p, x) { assert Disowned(s, p, x); }
  }

  lemma WaitReapWaits(s: State, s': State, p: nat, j: nat, ok: bool)
    requires Inv(s) && DoWaitReap(s, s', p, j, ok)
    ensures WaitStep(s, s', p, j) && HistoryStep(s, s', p, j)
  {
    hide Inv;
    Localize(s, p, j);
    forall z | 0 <= z < |s.procs| ensures Noticed(s', p, z) { assert Noticed(s, p, z); }
  }

  lemma WaitEndKept(s: State, s': State, p: nat, kids: bool)
    requires Inv(s) && DoWaitEnd(s, s', p, kids)
    ensures Kept(s, s', p, p)
  {
    hide Inv;
    Localize(s, p, p);
    assert ThreadStep(s, s', p, p) && OneOk(s', p);
    hide ThreadStep, OneOk, ForkOk, ReapOk, UsedOk;
    forall x | 0 <= x < |s.procs| ensures Disowned(s', p, x) { assert Disowned(s, p, x); }
    assert FamilyStep(s, s', p, p) && HistoryStep(s, s', p, p);
    hide FamilyStep, HistoryStep, ParentOk, Recorded;
    forall z | 0 <= z < |s.procs| ensures Noticed(s', p, z) { assert Noticed(s, p, z); }
  }

  lemma SleepLockKept(s: State, s': State, p: nat)
    requires Inv(s) && DoSleepLock(s, s', p)
    ensures Kept(s, s', p, p)
  {
    hide Inv;
    Localize(s, p, p);
    forall x | 0 <= x < |s.procs| ensures Disowned(s', p, x) { assert Disowned(s, p, x); }
    forall z | 0 <= z < |s.procs| ensures Noticed(s', p, z) { assert Noticed(s, p, z); }
  }

  lemma SleepUnlockKept(s: State, s': State, p: nat)
    requires Inv(s) && DoSleepUnlock(s, s', p)
    ensures Kept(s, s', p, p)
  {
    hide Inv;
    Localize(s, p, p);
    forall x | 0 <= x < |s.procs| ensures Disowned(s', p, x) { assert Disowned(s, p, x); }
    forall z | 0 <= z < |s.procs| ensures Noticed(s', p, z) { assert Noticed(s, p, z); }
  }

  lemma SleepSwitchKept(s: State, s': State, p: nat)
    requires Inv(s) && DoSleepSwitch(s, s', p)
    ensures Kept(s, s', p, p)
  {
    hide Inv;
    Localize(s, p, p);
    forall x | 0 <= x < |s.procs| ensures Disowned(s', p, x) { assert Disowned(s, p, x); }
    forall z | 0 <= z < |s.procs| ensures Noticed(s', p, z) { assert Noticed(s, p, z); }
  }

  lemma SleepReturnKept(s: State, s': State, p: nat)
    requires Inv(s) && DoSleepReturn(s, s', p)
    ensures Kept(s, s', p, p)
  {
    hide Inv;
    Localize(s, p, p);
    forall x | 0 <= x < |s.procs| ensures Disowned(s', p, x) { assert Disowned(s, p, x); }
    forall z | 0 <= z < |s.procs| ensures Noticed(s', p, z) { assert Noticed(s, p, z); }
  }

  lemma KillSteps(s: State, s': State, p: nat, q: nat)
    requires Inv(s) && DoKill(s, s', p, q)
    ensures ThreadStep(s, s', p, q) && OneOk(s', p) && FamilyStep(s, s', p, q)
  {
    hide Inv;
    Localize(s, p, q);
    forall x | 0 <= x < |s.procs| ensures Disowned(s', p, x) { assert Disowned(s, p, x); }
  }

  lemma KillWaits(s: State, s': State, p: nat, q: nat)
    requires Inv(s) && DoKill(s, s', p, q)
    ensures WaitStep(s, s', p, q) && HistoryStep(s, s', p, q)
  {
    hide Inv, ForkOk, ReapOk, UsedOk;
    Localize(s, p, q);
    assert HistoryStep(s, s', p, q) by { hide Noticed, Announced, Seen, Disowned, ParentOk, LockOk; }
    hide HistoryStep, Recorded;
    forall z | 0 <= z < |s.procs| ensures Noticed(s', p, z) { assert Noticed(s, p, z); }
  }

  // ---------------------------------------------------------------- all steps

  lemma ForkNextKeeps(s: State, s': State, p: nat, st: Step)
    requires Inv(s) && ForkNext(s, s', p, st)
    ensures Inv(s') && |s'.procs| == |s.procs|
  {
    hide Inv;
    match st {
      case OnAlloc(n) => AllocSteps(s, s', p, n); AllocWaits(s, s', p, n); KeptKeeps(s, s', p, n);
      case OnForkSetup(n, ok) =>
        ForkSetupThreads(s, s', p, n, ok);
        ForkSetupFamily(s, s', p, n, ok);
        ForkSetupWaits(s, s', p, n, ok);
        KeptKeeps(s, s', p, n);
      case OnForkLink(n) => ForkLinkSteps(s, s', p, n); ForkLinkWaits(s, s', p, n); KeptKeeps(s, s', p, n);
      case OnForkReady(n) => ForkReadySteps(s, s', p, n); ForkReadyWaits(s, s', p, n); KeptKeeps(s, s', p, n);
      case OnKill(q) => KillSteps(s, s', p, q); KillWaits(s, s', p, q); KeptKeeps(s, s', p, q);
    }
  }

  lemma ExitNextKeeps(s: State, s': State, p: nat, st: Step)
    requires Inv(s) && ExitNext(s, s', p, st)
    ensures Inv(s') && |s'.procs| == |s.procs|
  {
    hide Inv;
    match st {
      case OnReparent(j) =>
        ReparentThreads(s, s', p, j);
        ReparentFamily(s, s', p, j);
        ReparentWaits(s, s', p, j);
        KeptKeeps(s, s', p, j);
      case OnWakeInit(j, k) =>
        WakeInitThreads(s, s', p, j, k);
        WakeInitFamily(s, s', p, j, k);
        WakeInitWaits(s, s', p, j, k);
        KeptKeeps(s, s', p, k);
      case OnWakeParent(k) =>
        WakeParentThreads(s, s', p, k);
        WakeParentFamily(s, s', p, k);
        WakeParentWaits(s, s', p, k);
        KeptKeeps(s, s', p, k);
      case OnExit(status) => ExitKept(s, s', p, status); KeptKeeps(s, s', p, p);
      case OnWokenInit(j) => WokenInitKept(s, s', p, j); KeptKeeps(s, s', p, p);
      case OnReparented => ReparentedKept(s, s', p); KeptKeeps(s, s', p, p);
      case OnWokenParent => WokenParentKept(s, s', p); KeptKeeps(s, s', p, p);
      case OnExitLock => ExitLockKept(s, s', p); KeptKeeps(s, s', p, p);
      case OnExitState => ExitStateKept(s, s', p); KeptKeeps(s, s', p, p);
      case OnExitSwitch => ExitSwitchKept(s, s', p); KeptKeeps(s, s', p, p);
      case OnExitRelease => ExitReleaseKept(s, s', p); KeptKeeps(s, s', p, p);
    }
  }

  lemma WaitNextKeeps(s: State, s': State, p: nat, st: Step)
    requires Inv(s) && WaitNext(s, s', p, st)
    ensures Inv(s') && |s'.procs| == |s.procs|
  {
    hide Inv;
    match st {
      case OnWaitFound(j, kids) =>
        WaitFoundSteps(s, s', p, j, kids);
        WaitFoundWaits(s, s', p, j, kids);
        KeptKeeps(s, s', p, j);
      case OnWaitReap(j, ok) =>
        WaitReapThreads(s, s', p, j, ok);
        WaitReapFamily(s, s', p, j, ok);
        WaitReapWaits(s, s', p, j, ok);
        KeptKeeps(s, s', p, j);
      case OnWait => WaitKept(s, s', p); KeptKeeps(s, s', p, p);
      case OnWaitScan(j, kids) => WaitScanKept(s, s', p, j, kids); KeptKeeps(s, s', p, p);
      case OnWaitEnd(kids) => WaitEndKept(s, s', p, kids); KeptKeeps(s, s', p, p);
      case OnSleepLock => SleepLockKept(s, s', p); KeptKeeps(s, s', p, p);
      case OnSleepUnlock => SleepUnlockKept(s, s', p); KeptKeeps(s, s', p, p);
      case OnSleepSwitch => SleepSwitchKept(s, s', p); KeptKeeps(s, s', p, p);
      case OnSleepReturn => SleepReturnKept(s, s', p); KeptKeeps(s, s', p, p);
    }
  }
}
