/** How commits and recoveries get on: how many steps they take, that they always have one to take, and who sleeps
    in begin_op meanwhile. */
module LogProgress {
  import opened Common
  import opened LogImage
  import opened LogSystem
  import opened LogTheorems

  /** The buffers that keep home blocks and the one of the commit are never more than there are. */
  lemma BuffersBounded(run: seq<State>, steps: seq<Step>, i: nat)
    requires IsRun(run, steps) && i < |run|
    ensures |run[i].cache.Keys| + (if run[i].logbuf then 1 else 0) <= NBUF
  {
    hide CacheInv, OpsInv, PhaseInv, Next, Start;
    RunInv(run, steps, i);
  }

  // ---------------------------------------------------------------- how many steps

  /** A step of commit or of recovery. */
  predicate Works(st: Step) {
    || st.GetLog? || st.CopyToLog? || st.WriteHead? || st.CopyHome? || st.EraseHead? || st.Finish?
    || st.ReadHead? || st.Replay? || st.EraseReplayed?
  }

  /** What a commit or a recovery still has to do: one step for each bread of a log block or the header, one for each
      block write, and one at the beginning of a recovery and at the end of a commit. */
  function Rest(s: State): int {
    var got := if s.logbuf then 1 else 0;
    match s.phase
    case Booting => |s.disk.head| + 2
    case Replaying(k) => |s.lh| - k + 1
    case Erasing => 1
    case Quiet => 0
    case WritingLog(k) => 2 * (|s.lh| - k) + 2 + 2 * |s.lh| + 2 + 1 - got
    case Installing(k) => 2 * (|s.lh| - k) + 2 + 1 - got
    case Clearing => 2 + 1 - got
    case Finishing => 1 - got
  }

  lemma PhaseFacts(s: State)
    requires Inv(s)
    ensures s.committing <==> s.phase.WritingLog? || s.phase.Installing? || s.phase.Clearing? || s.phase.Finishing?
    ensures s.phase.Replaying? || s.phase.Installing? ==> s.phase.tail < |s.lh|
    ensures s.logbuf ==> s.phase.WritingLog? || s.phase.Installing? || s.phase.Clearing?
  {
    hide CacheInv, Sum, OpInv, Used;
  }

  /** Nobody is in an operation while a commit or a recovery runs. */
  lemma NobodyInside(s: State, p: nat)
    requires Inv(s) && s.phase != Quiet && p < |s.ops|
    ensures !s.ops[p].InOp?
  {
    assert OpInv(s, s.ops[p]);
    hide CacheInv, PhaseInv, BufInv, Sum;
  }

  lemma CommitCounts(s: State, s': State, st: Step)
    requires Inv(s) && Next(s, s', st) && !s'.panicked && Works(st)
    ensures Rest(s') == Rest(s) - 1 && (s'.committing ==> s.committing)
  {
    hide Inv, Busy, Used, Read, WakeAll, Start;
    PhaseFacts(s);
  }

  lemma OthersWait(s: State, s': State, st: Step)
    requires Inv(s) && Next(s, s', st) && s.phase != Quiet && !Works(st) && !st.Crash?
    ensures Rest(s') == Rest(s) && s'.committing == s.committing && s'.phase == s.phase
  {
    hide Inv, Busy, Used, Read, WakeAll, HoldsNothing;
    if (st.EndOp? || st.LogWrite? || st.Modify?) && st.p < |s.ops| { NobodyInside(s, st.p); }
    if st.BeginOp? { PhaseFacts(s); }
  }

  /** How many of the steps from m on, before step k, are those of commit or recovery. */
  function Done(steps: seq<Step>, m: nat, k: nat): nat
    requires m <= k <= |steps|
  {
    if k == m then 0 else Done(steps, m, k - 1) + if Works(steps[k - 1]) then 1 else 0
  }

  lemma CommitStarts(s: State, s': State, st: Step)
    requires Inv(s) && Next(s, s', st) && !s.committing && s'.committing
    ensures st.EndOp? && s'.lh == s.lh && Rest(s') == (if s.lh == [] then 1 else 4 * |s.lh| + 5)
  {
    hide Inv, Busy, Used, Read, WakeAll, HoldsNothing;
    PhaseFacts(s);
  }

  /** A commit of n blocks, from the end_op that starts it on, makes exactly n writes of log blocks, one of the header,
      n of home blocks and another of the header, with a bread before each; what others do in between takes nothing
      away and adds nothing. */
  lemma {:induction false} CommitTakes(run: seq<State>, steps: seq<Step>, m: nat, k: nat)
    requires IsRun(run, steps) && 0 < m <= k < |run| && !run[m - 1].committing
    requires forall l :: m <= l <= k ==> run[l].committing && !run[l].panicked
    ensures Done(steps, m, k) + Rest(run[k]) == (var n := |run[m].lh|; if n == 0 then 1 else 4 * n + 5)
    decreases k
  {
    hide Inv, Next, Start, Rest;
    if k == m {
      RunInv(run, steps, m - 1);
      assert Next(run[m - 1], run[m - 1 + 1], steps[m - 1]);
      CommitStarts(run[m - 1], run[m], steps[m - 1]);
    } else {
      CommitTakes(run, steps, m, k - 1);
      RunInv(run, steps, k - 1);
      var s, s', st := run[k - 1], run[k], steps[k - 1];
      assert Next(run[k - 1], run[k - 1 + 1], st);
      NotQuiet(s);
      if Works(st) {
        CommitCounts(s, s', st);
      } else {
        if st.Crash? { NoneCommits(s, s'); }
        OthersWait(s, s', st);
      }
    }
  }

  lemma NotQuiet(s: State)
    requires Inv(s) && s.committing
    ensures s.phase != Quiet && Up(s)
  {
    hide CacheInv, PhaseInv, BufInv, Sum;
  }

  lemma NoneCommits(s: State, s': State)
    requires Next(s, s', Crash)
    ensures !s'.committing
  {
  }

  // ---------------------------------------------------------------- there is always a step to take

  ghost predicate HasCommitter(s: State) { s.committing ==> exists p :: 0 <= p < |s.ops| && s.ops[p].Committer? }

  lemma CommitterStays(s: State, s': State, st: Step)
    requires Inv(s) && Next(s, s', st) && HasCommitter(s)
    ensures HasCommitter(s')
  {
    hide Inv, Busy, Used, Read, HoldsNothing;
    if s'.committing && s.committing {
      var p :| 0 <= p < |s.ops| && s.ops[p].Committer?;
      assert s'.ops[p].Committer?;
    }
    if s'.committing && !s.committing {
      assert st.EndOp?;
      assert s'.ops[st.p].Committer?;
    }
  }

  lemma {:induction false} RunCommitter(run: seq<State>, steps: seq<Step>, i: nat)
    requires IsRun(run, steps) && i < |run|
    ensures HasCommitter(run[i])
  {
    if i > 0 {
      hide Inv, Next, Start, HasCommitter;
      RunCommitter(run, steps, i - 1);
      RunInv(run, steps, i - 1);
      assert Next(run[i - 1], run[i - 1 + 1], steps[i - 1]);
      CommitterStays(run[i - 1], run[i], steps[i - 1]);
    }
  }

  /** The block that the next write of a commit is about. */
  predicate WaitsFor(s: State, b: int) {
    (s.phase.WritingLog? || s.phase.Installing?) && s.phase.tail < |s.lh| && s.lh[s.phase.tail] == b
  }

  /** A commit touches no block that a process holds: it waits until the block is released. */
  lemma WaitsForHolder(run: seq<State>, steps: seq<Step>, i: nat, b: int)
    requires IsRun(run, steps) && i < |steps| && WaitsFor(run[i], b) && b in run[i].held
    ensures !steps[i].CopyToLog? && !steps[i].CopyHome?
    ensures !steps[i].Crash? && !(steps[i].Brelse? && steps[i].b == b) ==> WaitsFor(run[i + 1], b)
  {
    hide Inv, Start;
    RunInv(run, steps, i);
    var s, s', st := run[i], run[i + 1], steps[i];
    assert Next(s, s', st);
    StillWaits(s, s', st, b);
  }

  lemma StillWaits(s: State, s': State, st: Step, b: int)
    requires Inv(s) && Next(s, s', st) && WaitsFor(s, b) && b in s.held
    ensures !st.CopyToLog? && !st.CopyHome?
    ensures !st.Crash? && !(st.Brelse? && st.b == b) ==> WaitsFor(s', b)
  {
    hide Inv, Busy, Used, Read, WakeAll, HoldsNothing;
    if (st.EndOp? || st.LogWrite? || st.Modify?) && st.p < |s.ops| { NobodyInside(s, st.p); }
    PhaseFacts(s);
  }

  /** While a commit runs it has a step to take, or a buffer to recycle, or a process that holds the block which it
      waits for can release it. */
  lemma CommitGoesOn(run: seq<State>, steps: seq<Step>, i: nat) returns (s': State, st: Step)
    requires IsRun(run, steps) && i < |run| && run[i].committing && !run[i].panicked
    ensures Next(run[i], s', st) && (Works(st) || st.Evict? || (st.Brelse? && WaitsFor(run[i], st.b)))
  {
    hide Inv, Next, Start;
    var s := run[i];
    RunInv(run, steps, i);
    RunCommitter(run, steps, i);
    if s.phase.Finishing? {
      var p: nat :| p < |s.ops| && s.ops[p].Committer?;
      s', st := FinishStep(s, p);
    } else if s.logbuf {
      s', st := CommitWrite(s);
    } else {
      s', st := CommitBread(s);
    }
  }

  lemma FinishStep(s: State, p: nat) returns (s': State, st: Step)
    requires !s.panicked && s.phase.Finishing? && p < |s.ops| && s.ops[p].Committer?
    ensures Next(s, s', st) && Works(st)
  {
    s', st := s.(ops := WakeAll(s.ops[p := Outside]), committing := false, phase := Quiet), Finish(p);
  }

  lemma CommitBread(s: State) returns (s': State, st: Step)
    requires Inv(s) && s.committing && !s.panicked && !s.phase.Finishing? && !s.logbuf
    ensures Next(s, s', st) && (Works(st) || st.Evict?)
  {
    hide Inv, Busy, Used;
    PhaseFacts(s);
    if Busy(s) >= NBUF {
      s', st := s.(panicked := true), GetLog;
    } else {
      var b := RoomOrRecycle(s);
      if Used(s) < NBUF {
        s', st := s.(logbuf := true), GetLog;
      } else {
        s', st := s.(cache := s.cache - {b}, torn := s.torn - {b}), Evict(b);
      }
    }
  }

  /** A block that a commit works on is loggable, and who holds it has not changed it. */
  lemma Committing(s: State)
    requires Inv(s) && s.committing
    ensures |s.lh| <= |s.disk.slots| && s.phase != Quiet
    ensures s.phase.WritingLog? ==> s.phase.tail <= |s.lh|
    ensures s.phase.Installing? ==> s.phase.tail < |s.lh|
    ensures forall b :: b in s.held ==> !s.held[b].dirty
    ensures forall b :: b in s.lh ==> b in s.disk.home
  {
    forall b | b in s.held ensures !s.held[b].dirty {
      if s.held[b].dirty { NobodyInside(s, s.held[b].owner); }
    }
    BudgetsNonNegative(s.ops);
  }

  lemma CommitWrite(s: State) returns (s': State, st: Step)
    requires Inv(s) && s.committing && !s.panicked && !s.phase.Finishing? && s.logbuf
    ensures Next(s, s', st) && (Works(st) || (st.Brelse? && WaitsFor(s, st.b)))
  {
    hide Inv, Busy, Used;
    PhaseFacts(s);
    Committing(s);
    if s.phase.Clearing? {
      s', st := s.(disk := s.disk.(head := s.lh), logbuf := false, phase := Finishing), EraseHead;
    } else if s.phase.tail == |s.lh| {
      s', st := s.(disk := s.disk.(head := s.lh), logbuf := false, phase := Installing(0)), WriteHead;
    } else {
      var k, b, last := s.phase.tail, s.lh[s.phase.tail], s.phase.tail + 1 == |s.lh|;
      if b in s.held {
        s', st := s.(held := s.held - {b}), Brelse(s.held[b].owner, b);
      } else if s.phase.WritingLog? {
        st := CopyToLog;
        s' := s.(disk := s.disk.(slots := s.disk.slots[k := Read(s, b)]), cache := s.cache[b := Read(s, b)],
                 logbuf := false, phase := WritingLog(k + 1));
      } else {
        st := CopyHome;
        s' := s.(disk := CopiedHome(s.disk, s.lh, k), cache := s.cache[b := s.disk.slots[k]],
                 pinned := s.pinned - {b}, logbuf := false,
                 phase := if last then Clearing else Installing(k + 1), lh := if last then [] else s.lh);
      }
    }
  }

  /** A recovery has a step to take, or a buffer to recycle: it never panics. */
  lemma RecoveryGoesOn(run: seq<State>, steps: seq<Step>, i: nat) returns (s': State, st: Step)
    requires IsRun(run, steps) && i < |run| && !Up(run[i]) && !run[i].panicked
    ensures Next(run[i], s', st) && (Works(st) || st.Evict?) && !s'.panicked
  {
    hide Inv, Next, Start;
    RunInv(run, steps, i);
    s', st := RecoveryStep(run[i]);
  }

  lemma SomeMember(bs: set<int>) returns (b: int)
    requires |bs| > 0
    ensures b in bs
  {
    NoMember(bs);
    b :| b in bs;
  }

  lemma NoMember(bs: set<int>)
    ensures (forall x :: x !in bs) ==> |bs| == 0
  {
    if forall x :: x !in bs { assert bs == {}; }
  }

  lemma RecoveryStep(s: State) returns (s': State, st: Step)
    requires Inv(s) && !Up(s) && !s.panicked
    ensures Next(s, s', st) && (Works(st) || st.Evict?) && !s'.panicked
  {
    match s.phase {
      case Booting =>
        s', st := s.(lh := s.disk.head, phase := if |s.disk.head| > 0 then Replaying(0) else Erasing), ReadHead;
      case Erasing => s', st := s.(disk := s.disk.(head := s.lh), phase := Quiet), EraseReplayed;
      case Replaying(k) =>
        if Used(s) + 2 <= NBUF {
          var b, last := s.lh[k], k + 1 == |s.lh|;
          st := Replay;
          s' := s.(disk := CopiedHome(s.disk, s.lh, k), cache := s.cache[b := s.disk.slots[k]],
                   phase := if last then Erasing else Replaying(k + 1), lh := if last then [] else s.lh);
        } else {
          var b := SomeMember(s.cache.Keys);
          s', st := s.(cache := s.cache - {b}, torn := s.torn - {b}), Evict(b);
        }
    }
  }

  // ---------------------------------------------------------------- who sleeps in begin_op

  /** begin_op finds a commit running, or no room for one operation more. */
  predicate NoRoom(s: State) { s.committing || |s.lh| + (s.outstanding + 1) * MAXOPBLOCKS > LOGSIZE }

  /** The step wakes p, should it sleep in begin_op: the end of a commit, the end of an operation that is not the last,
      a kill, or a crash. */
  predicate Rouses(s: State, st: Step, p: nat) {
    match st
    case Finish(q) => true
    case EndOp(q) => s.outstanding != 1
    case Kill(q) => q == p
    case Crash => true
    case _ => false
  }

  lemma EndsQuietly(s: State, s': State, p: nat)
    requires Inv(s) && DoEndOp(s, s', p)
    ensures !s.committing
  {
    hide CacheInv, PhaseInv, BufInv, Sum;
    assert OpInv(s, s.ops[p]);
  }

  lemma SleepsThen(s: State, s': State, p: nat)
    requires DoBeginOp(s, s', p)
    ensures s'.ops == s.ops[p := if NoRoom(s) then Asleep else InOp({})]
  {
  }

  lemma SleepStep(s: State, s': State, st: Step, p: nat)
    requires Inv(s) && Next(s, s', st) && p < |s.ops| && p < |s'.ops|
    ensures s'.ops[p].Asleep? <==> (s.ops[p].Asleep? && !Rouses(s, st, p)) || (st == BeginOp(p) && NoRoom(s))
  {
    hide Inv, Busy, Used, Read, HoldsNothing, NoRoom;
    if st.EndOp? { EndsQuietly(s, s', st.p); }
    if st.BeginOp? { SleepsThen(s, s', st.p); }
  }

  predicate SleptAt(run: seq<State>, steps: seq<Step>, k: nat, p: nat, i: int) {
    && 0 <= i < k <= |steps| && |run| == |steps| + 1 && steps[i] == BeginOp(p) && NoRoom(run[i])
    && forall l :: i < l < k ==> !Rouses(run[l], steps[l], p)
  }

  lemma AllOutside(s: State, p: nat)
    requires Start(s) && p < |s.ops|
    ensures !s.ops[p].Asleep?
  {
  }

  /** A process sleeps in begin_op if and only if it found a commit running or no room there, and since then no commit
      and no operation but a last one has ended, and it has not been killed. */
  lemma {:induction false} SleepsExactly(run: seq<State>, steps: seq<Step>, k: nat, p: nat)
    requires IsRun(run, steps) && k < |run| && forall l :: 0 <= l <= k ==> p < |run[l].ops|
    ensures run[k].ops[p].Asleep? <==> exists i :: SleptAt(run, steps, k, p, i)
  {
    hide Inv, Next, Start, Rouses, NoRoom;
    if k == 0 {
      AllOutside(run[0], p);
    } else {
      var s, s', st := run[k - 1], run[k], steps[k - 1];
      SleepsExactly(run, steps, k - 1, p);
      RunInv(run, steps, k - 1);
      assert Next(run[k - 1], run[k - 1 + 1], st);
      SleepStep(s, s', st, p);
      if s'.ops[p].Asleep? {
        if st == BeginOp(p) && NoRoom(s) {
          assert SleptAt(run, steps, k, p, k - 1);
        } else {
          var i :| SleptAt(run, steps, k - 1, p, i);
          assert SleptAt(run, steps, k, p, i);
        }
      }
      if i :| SleptAt(run, steps, k, p, i) {
        if i < k - 1 { assert SleptAt(run, steps, k - 1, p, i); }
      }
    }
  }
}
