/** What the log promises over whole runs. */
module LogTheorems {
  import opened Common
  import opened LogImage
  import opened LogSystem

  /** A run: it starts at power-on with any readable disk, and every move is a step of the system. */
  ghost predicate IsRun(run: seq<State>, steps: seq<Step>) {
    && |run| == |steps| + 1 && Start(run[0]) && run[0].disk.Valid()
    && forall i :: 0 <= i < |steps| ==> Next(run[i], run[i + 1], steps[i])
  }

  lemma {:induction false} RunInv(run: seq<State>, steps: seq<Step>, i: nat)
    requires IsRun(run, steps) && i < |run|
    ensures Inv(run[i])
  {
    hide Inv, Next;
    if i == 0 {
      StartInv(run[0]);
    } else {
      RunInv(run, steps, i - 1);
      assert Next(run[i - 1], run[i - 1 + 1], steps[i - 1]);
      Refines(run[i - 1], run[i], steps[i - 1]);
    }
  }

  /** Every interleaving of operations, commit writes, evictions, crashes and recoveries is a
      behaviour of the atomic disk. */
  lemma RunRefines(run: seq<State>, steps: seq<Step>, i: nat)
    requires IsRun(run, steps) && i < |steps|
    ensures run[i].disk.Valid() && run[i + 1].disk.Valid()
    ensures AtomicStep(Abs(run[i]), EventOf(run[i], run[i + 1], steps[i]), Abs(run[i + 1]))
  {
    RunInv(run, steps, i);
    RunInv(run, steps, i + 1);
    hide Next, AtomicStep, Abs;
    Refines(run[i], run[i + 1], steps[i]);
  }

  predicate RecoveryStep(st: Step) { st.ReadHead? || st.Replay? || st.EraseReplayed? || st.Crash? }

  /** After a crash, however often recovery itself crashes, readers find exactly the contents
      that were durable at the crash. */
  lemma {:induction false} CrashRestoresDurable(run: seq<State>, steps: seq<Step>, i: nat, j: nat)
    requires IsRun(run, steps) && i < j < |run| && steps[i].Crash?
    requires forall k :: i < k < j ==> RecoveryStep(steps[k])
    ensures run[i].disk.Valid() && run[j].disk.Valid()
    ensures Abs(run[j]) == Abstract(Abs(run[i]).durable, Abs(run[i]).durable, {}, {})
    decreases j
  {
    hide Next, Inv, Abs, Start;
    RunRefines(run, steps, j - 1);
    RunRefines(run, steps, i);
    if i + 1 < j {
      CrashRestoresDurable(run, steps, i, j - 1);
      assert RecoveryStep(steps[j - 1]);
    }
  }

  /** What is durable is always the memory of some earlier moment at which no operation was
      in progress, torn blocks aside, which stay as they were: no crash ever exposes part of an operation. */
  lemma {:induction false} DurableIsWhole(run: seq<State>, steps: seq<Step>, i: nat) returns (m: nat)
    requires IsRun(run, steps) && i < |run|
    ensures m <= i && run[i].disk.Valid() && run[m].disk.Valid()
    ensures Abs(run[m]).active == {} && Abs(run[i]).durable == Settled(Abs(run[m]))
  {
    hide Next, Inv, Abs, Committed;
    if i == 0 {
      StartInv(run[0]);
      m := 0;
    } else {
      RunRefines(run, steps, i - 1);
      if EventOf(run[i - 1], run[i], steps[i - 1]).Commit? {
        m := i - 1;
      } else {
        m := DurableIsWhole(run, steps, i - 1);
      }
    }
  }

  /** An operation gives back a block that it has changed and that is not logged. */
  predicate Tears(s: State, st: Step) { st.Drop? && st.b !in s.pinned }

  lemma UntornStep(s: State, s': State, st: Step)
    requires Next(s, s', st) && s.torn == {} && !Tears(s, st)
    ensures s'.torn == {} && !EventOf(s, s', st).Tear? && !EventOf(s, s', st).Mend? && !EventOf(s, s', st).Revert?
  {
    hide Read, Busy, Used, Full;
  }

  /** As long as no operation does so, nothing is torn, every step is one of a plain atomic disk, and what is durable is
      the whole memory of an earlier moment with no operation in progress. */
  lemma {:induction false} UntornRun(run: seq<State>, steps: seq<Step>, i: nat) returns (m: nat)
    requires IsRun(run, steps) && i < |run| && forall k :: 0 <= k < i ==> !Tears(run[k], steps[k])
    ensures run[i].torn == {} && m <= i && run[i].disk.Valid() && run[m].disk.Valid()
    ensures forall k :: 0 <= k < i ==>
      var e := EventOf(run[k], run[k + 1], steps[k]); !e.Tear? && !e.Mend? && !e.Revert?
    ensures Abs(run[m]).active == {} && Abs(run[i]).durable == Abs(run[m]).mem
  {
    hide Next, Inv, Committed, View;
    m := DurableIsWhole(run, steps, i);
    Untorn(run, steps, m);
    Untorn(run, steps, i);
    assert Settled(Abs(run[m])) == Abs(run[m]).mem;
  }

  lemma {:induction false} Untorn(run: seq<State>, steps: seq<Step>, i: nat)
    requires IsRun(run, steps) && i < |run| && forall k :: 0 <= k < i ==> !Tears(run[k], steps[k])
    ensures run[i].torn == {}
    ensures forall k :: 0 <= k < i ==>
      var e := EventOf(run[k], run[k + 1], steps[k]); !e.Tear? && !e.Mend? && !e.Revert?
  {
    if i > 0 {
      hide Next, EventOf, Tears;
      Untorn(run, steps, i - 1);
      assert Next(run[i - 1], run[i - 1 + 1], steps[i - 1]) && !Tears(run[i - 1], steps[i - 1]);
      UntornStep(run[i - 1], run[i], steps[i - 1]);
    }
  }

  /** The k-th state of the run below. */
  function Tearing(k: nat): State {
    var zero, one := Block([0]), Block([1]);
    var op := if k < 3 then Outside else InOp({});
    State(Image([], seq(LOGSIZE, _ => zero), map[0 := zero]),
          if k < 4 || k > 6 then map[] else if k == 4 then map[0 := zero] else map[0 := one],
          if k == 4 then map[0 := Hold(0, false)] else if k == 5 then map[0 := Hold(0, true)] else map[],
          {}, if k == 6 then {0} else {}, false, [], if k < 3 then 0 else 1, false,
          if k == 0 then Booting else if k == 1 then Erasing else Quiet, [op], false)
  }

  lemma TearingBoots()
    ensures Start(Tearing(0)) && Tearing(0).disk.Valid() && Next(Tearing(0), Tearing(1), ReadHead)
    ensures Next(Tearing(1), Tearing(2), EraseReplayed) && Next(Tearing(2), Tearing(3), BeginOp(0))
  {
  }

  lemma TearingReads()
    ensures Next(Tearing(3), Tearing(4), Bread(0, 0))
  {
    var s, t := Tearing(3), Tearing(4);
    assert s.cache[0 := Block([0])] == t.cache && s.held[0 := Hold(0, false)] == t.held && |s.cache.Keys| == 0;
    assert s.pinned + s.held.Keys == {};
  }

  lemma TearingWrites()
    ensures Next(Tearing(4), Tearing(5), Modify(0, 0, Block([1])))
  {
    var s, t := Tearing(4), Tearing(5);
    assert s.cache[0 := Block([1])] == t.cache && s.held[0 := Hold(0, true)] == t.held;
  }

  lemma TearingDrops()
    ensures Next(Tearing(5), Tearing(6), Drop(0, 0)) && Tears(Tearing(5), Drop(0, 0))
    ensures Next(Tearing(6), Tearing(7), Evict(0))
  {
    var s, t, u := Tearing(5), Tearing(6), Tearing(7);
    assert s.held - {0} == t.held && t.cache - {0} == u.cache && t.torn - {0} == {} && s.torn + {0} == {0};
  }

  lemma TearingShows()
    ensures 0 in Tearing(6).disk.home && Read(Tearing(6), 0) == Block([1])
    ensures 0 in Tearing(7).disk.home && Read(Tearing(7), 0) == Block([0])
  {
  }

  /** A run in which that fails: an operation changes block 0 and gives it back unlogged, and when the buffer
      is recycled the change is gone again, with no crash. */
  lemma TornReverts() returns (run: seq<State>, steps: seq<Step>)
    ensures IsRun(run, steps) && |run| == 8 && Tears(run[5], steps[5]) && steps[6] == Evict(0)
    ensures 0 in run[6].disk.home && Read(run[6], 0) == Block([1])
    ensures 0 in run[7].disk.home && Read(run[7], 0) == Block([0])
  {
    hide Next, Start, Read, Tearing, Tears, Image.Valid;
    TearingShows();
    TearingBoots();
    TearingReads();
    TearingWrites();
    TearingDrops();
    run := [Tearing(0), Tearing(1), Tearing(2), Tearing(3), Tearing(4), Tearing(5), Tearing(6), Tearing(7)];
    steps := [ReadHead, EraseReplayed, BeginOp(0), Bread(0, 0), Modify(0, 0, Block([1])), Drop(0, 0), Evict(0)];
  }

  lemma QuietView(s: State)
    requires CacheInv(s) && PhaseInv(s) && s.phase == Quiet && s.lh == []
    requires forall b :: b in s.held ==> !s.held[b].dirty
    ensures Settled(Abs(s)) == Abs(s).durable
  {
    assert s.pinned == {} && Overlay(s.disk.home, [], s.disk.slots) == s.disk.home;
    CleanView(s);
    hide Overlay, Logged, Loggable;
  }

  /** When the last operation's end_op has returned, its group is durable, the log is empty
      and nobody is left asleep in begin_op. */
  lemma QuietMeansDurable(s: State)
    requires Inv(s) && s.phase == Quiet && s.outstanding == 0
    ensures s.lh == [] && Settled(Abs(s)) == Abs(s).durable
    ensures forall p :: 0 <= p < |s.ops| ==> !s.ops[p].Asleep?
  {
    hide Sum;
    Idle(s);
    assert forall p :: 0 <= p < |s.ops| ==> OpInv(s, s.ops[p]);
    assert forall b :: b in s.held ==> !s.held[b].dirty;
    hide OpsInv, OpInv;
    QuietView(s);
  }

  /** Whoever sleeps in begin_op has reason to: a commit is running, or the log has no room for one operation more. */
  predicate HasReason(s: State, p: nat) {
    p < |s.ops| && s.ops[p].Asleep? ==> s.committing || |s.lh| + (s.outstanding + 1) * MAXOPBLOCKS > LOGSIZE
  }

  lemma ReasonKept(s: State, s': State, st: Step, p: nat)
    requires Inv(s) && Next(s, s', st) && HasReason(s, p)
    ensures HasReason(s', p)
  {
    hide Inv, Sum, Read, Busy, Used, HoldsNothing;
    AsleepWhen(s, p);
  }

  /** Nobody sleeps in begin_op before recovery is over, and blocks are installed only by a commit. */
  lemma AsleepWhen(s: State, p: nat)
    requires Inv(s)
    ensures p < |s.ops| && s.ops[p].Asleep? ==> Up(s)
    ensures s.phase.Installing? ==> s.committing
  {
    hide CacheInv, PhaseInv, BufInv, Sum;
    if p < |s.ops| { assert OpInv(s, s.ops[p]); }
  }

  lemma {:induction false} SleepersHaveReason(run: seq<State>, steps: seq<Step>, i: nat, p: nat)
    requires IsRun(run, steps) && i < |run|
    ensures HasReason(run[i], p)
  {
    if i > 0 {
      hide Next, Inv, HasReason, Start;
      SleepersHaveReason(run, steps, i - 1, p);
      RunInv(run, steps, i - 1);
      assert Next(run[i - 1], run[i - 1 + 1], steps[i - 1]);
      ReasonKept(run[i - 1], run[i], steps[i - 1], p);
    }
  }

  /** Operations that keep to MAXOPBLOCKS blocks never overflow the log: log_write panics exactly
      when the log is full, and then the block was already logged. end_op never panics. */
  lemma PanicsExactlyWhenFull(s: State, s': State, p: nat, b: int)
    requires Inv(s) && !s.panicked && DoLogWrite(s, s', p, b)
    ensures s'.panicked <==> |s.lh| == LOGSIZE
    ensures s'.panicked ==> b in s.lh
  {
    assert OpInv(s, s.ops[p]);
    LogWriteBudget(s, s', p, b);
    LogWriteAppendFits(s, p, b);
    hide Sum;
  }

  /** An operation with unused reservation finds room for a block that is not logged yet. */
  lemma LogWriteAppendFits(s: State, p: nat, b: int)
    requires OpsInv(s) && p < |s.ops| && s.ops[p].InOp? && |s.ops[p].written + {b}| <= MAXOPBLOCKS
    ensures s.outstanding >= 1 && (b !in s.lh ==> |s.lh| < LOGSIZE)
  {
    var w := s.ops[p].written;
    assert OpInv(s, s.ops[p]);
    LoggedAppend(s.lh, b, {});
    Change(s.ops, p, Outside);
    Counts(s.ops[p := Outside]);
    assert forall q :: 0 <= q < |s.ops| ==> OpInv(s, s.ops[q]);
    BudgetsNonNegative(s.ops[p := Outside]);
    hide Sum, Logged;
    assert b !in w ==> |w + {b}| == |w| + 1;
  }

  lemma {:induction false} BudgetsNonNegative(ops: seq<Op>)
    requires forall p :: 0 <= p < |ops| && ops[p].InOp? ==> |ops[p].written| <= MAXOPBLOCKS
    ensures Sum(ops, Budget) >= 0
  {
    if ops != [] { BudgetsNonNegative(ops[..|ops| - 1]); }
  }

  lemma EndOpNeverPanics(s: State, s': State, p: nat)
    requires Inv(s) && !s.panicked && DoEndOp(s, s', p)
    ensures !s'.panicked
  {
    assert OpInv(s, s.ops[p]);
  }

  /** From log_write until its copy reaches home, a block stays in the cache. */
  lemma LoggedStaysCached(s: State, s': State, st: Step, b: int)
    requires Inv(s) && Next(s, s', st) && b in s.pinned && b !in s'.pinned
    ensures st.Crash? || (st.CopyHome? && s'.disk.home[b] == s.cache[b] == Committed(s.disk)[b])
  {
    hide Inv, Read, Busy, Used, Full, HoldsNothing;
    if st.CopyHome? { CopyHomeLogged(s, s', b); }
  }

  lemma CopyHomeLogged(s: State, s': State, b: int)
    requires Inv(s) && DoCopyHome(s, s') && b in s.pinned && b !in s'.pinned
    ensures s'.disk.home[b] == s.cache[b] == Committed(s.disk)[b]
  {
    var k := s.phase.tail;
    assert b == s.lh[k];
    hide OpsInv, BufInv;
  }

  // ---------------------------------------------------------------- the panic that absorption does not avoid

  /** The blocks among the first `k` that fall to operation `p`, ten each. */
  function Share(p: nat, k: nat): set<int> { Interval(10 * p, if k < 10 * p + 10 then k else 10 * p + 10) }

  /** Three operations in progress that have logged blocks 0, 1, ..., k - 1 between them. */
  function Filling(k: nat): State {
    var zero := Block([]);
    var disk := Image([], seq(LOGSIZE, _ => zero), map b | b in Interval(0, LOGSIZE) :: zero);
    State(disk, map b | b in Interval(0, k) :: zero, map[], Interval(0, k), {}, false, Upto(k), 3, false, Quiet,
          [InOp(Share(0, k)), InOp(Share(1, k)), InOp(Share(2, k))], false)
  }

  lemma Extend(run: seq<State>, steps: seq<Step>, s: State, st: Step) returns (run': seq<State>, steps': seq<Step>)
    requires IsRun(run, steps) && Next(run[|run| - 1], s, st)
    ensures IsRun(run', steps') && run' == run + [s] && steps' == steps + [st]
  {
    run', steps' := run + [s], steps + [st];
    hide Next;
  }

  lemma Shares(k: nat, p: nat, q: nat)
    requires k < LOGSIZE && p == k / 10 && q < 3
    ensures Share(q, k + 1) == (if q == p then Share(q, k) + {k} else Share(q, k)) && |Share(q, k + 1)| <= 10
  {
    if k < 10 * q {
      assert Share(q, k + 1) == {};
    } else {
      IntervalCount(10 * q, if k + 1 < 10 * q + 10 then k + 1 else 10 * q + 10);
    }
  }

  function Upto(k: nat): seq<int> { seq(k, i => i) }

  lemma UptoNext(k: nat)
    ensures Upto(k + 1) == Upto(k) + [k] && |Upto(k)| == k && k !in Upto(k)
    ensures Interval(0, k + 1) == Interval(0, k) + {k}
  {
  }

  /** `Filling(k)` while operation `p` holds the buffer of block `b`. */
  function Holding(k: nat, p: nat, b: int): State {
    var s := Filling(k);
    s.(cache := s.cache[b := Block([])], held := map[b := Hold(p, false)])
  }

  lemma FillRead(k: nat, p: nat, b: nat)
    requires b < LOGSIZE && p < 3
    requires k <= LOGSIZE && (b == k || k == LOGSIZE)
    ensures Next(Filling(k), Holding(k, p, b), Bread(p, b))
  {
    hide Share, Upto;
    var s := Filling(k);
    IntervalCount(0, k);
    assert s.cache.Keys == Interval(0, k) && s.pinned + s.held.Keys == Interval(0, k);
    assert b in s.cache || k < NBUF;
  }

  lemma FillWriteOps(k: nat, p: nat)
    requires k < LOGSIZE && p == k / 10
    ensures Filling(k + 1).ops == Filling(k).ops[p := InOp(Share(p, k) + {k})] && |Share(p, k) + {k}| <= 10
  {
    Shares(k, p, 0);
    Shares(k, p, 1);
    Shares(k, p, 2);
    hide Share;
  }

  lemma FillCache(k: nat, p: nat)
    ensures Holding(k + 1, p, k).cache == Holding(k, p, k).cache
  {
    hide Share, Upto;
  }

  lemma FillWrite(k: nat, p: nat)
    requires k < LOGSIZE && p == k / 10
    ensures DoLogWrite(Holding(k, p, k), Holding(k + 1, p, k), p, k)
  {
    hide Interval, Share, Upto;
    FillWriteOps(k, p);
    UptoNext(k);
    FillCache(k, p);
  }

  lemma FillWriteStep(k: nat, p: nat)
    requires k < LOGSIZE && p == k / 10
    ensures Next(Holding(k, p, k), Holding(k + 1, p, k), LogWrite(p, k))
  {
    FillWrite(k, p);
    hide DoLogWrite, Interval, Share, Upto;
  }

  lemma FillRelease(k: nat, p: nat)
    requires k < LOGSIZE
    ensures Next(Holding(k + 1, p, k), Filling(k + 1), Brelse(p, k))
  {
    var s, t := Holding(k + 1, p, k), Filling(k + 1);
    assert s.cache == t.cache && s.held - {k} == map[];
    hide Interval, Share, Upto;
  }

  lemma ReachEmpty() returns (run: seq<State>, steps: seq<Step>)
    ensures IsRun(run, steps) && run[|run| - 1] == Filling(0)
  {
    var f := Filling(0);
    assert f.cache == map[] && f.pinned == {} && f.lh == [] && Share(0, 0) == Share(1, 0) == Share(2, 0) == {};
    hide Filling, Share, Upto, Interval;
    var s4 := f.(ops := [InOp({}), InOp({}), Outside], outstanding := 2);
    var s3 := f.(ops := [InOp({}), Outside, Outside], outstanding := 1);
    var s2 := f.(ops := [Outside, Outside, Outside], outstanding := 0);
    var s1 := s2.(phase := Erasing);
    var s0 := s2.(phase := Booting);
    run, steps := [s0, s1, s2, s3, s4, f], [ReadHead, EraseReplayed, BeginOp(0), BeginOp(1), BeginOp(2)];
    assert DoBeginOp(s2, s3, 0) && DoBeginOp(s3, s4, 1) && DoBeginOp(s4, f, 2);
  }

  lemma {:induction false} ReachFilling(k: nat) returns (run: seq<State>, steps: seq<Step>)
    requires k <= LOGSIZE
    ensures IsRun(run, steps) && run[|run| - 1] == Filling(k)
    decreases k
  {
    hide Filling, Holding, Next, Start;
    if k == 0 {
      run, steps := ReachEmpty();
    } else {
      run, steps := ReachFilling(k - 1);
      var p := (k - 1) / 10;
      FillRead(k - 1, p, k - 1);
      FillWriteStep(k - 1, p);
      FillRelease(k - 1, p);
      run, steps := Extend(run, steps, Holding(k - 1, p, k - 1), Bread(p, k - 1));
      run, steps := Extend(run, steps, Holding(k, p, k - 1), LogWrite(p, k - 1));
      run, steps := Extend(run, steps, Filling(k), Brelse(p, k - 1));
    }
  }

  /** log_write tests for space before it looks for the block in the log, so three operations that
      use up their reservations leave a log in which writing a logged block once more panics. */
  lemma AbsorbedWriteCanPanic() returns (run: seq<State>, steps: seq<Step>)
    ensures IsRun(run, steps) && |steps| > 1 && steps[|steps| - 1] == LogWrite(0, 0)
    ensures 0 in run[|run| - 2].lh && !run[|run| - 2].panicked && run[|run| - 1].panicked
  {
    run, steps := ReachFilling(LOGSIZE);
    FillRead(LOGSIZE, 0, 0);
    FullPanics();
    hide Filling, Holding, Next, Start;
    run, steps := Extend(run, steps, Holding(LOGSIZE, 0, 0), Bread(0, 0));
    run, steps := Extend(run, steps, Holding(LOGSIZE, 0, 0).(panicked := true), LogWrite(0, 0));
  }

  lemma FullPanics()
    ensures var s := Holding(LOGSIZE, 0, 0);
            0 in s.lh && !s.panicked && Next(s, s.(panicked := true), LogWrite(0, 0))
  {
    var s := Holding(LOGSIZE, 0, 0);
    IntervalCount(0, 10);
    assert s.lh[0] == 0 && s.ops[0].written == Interval(0, 10) && Interval(0, 10) + {0} == Interval(0, 10);
    hide Interval, Share, Upto;
  }

  // ---------------------------------------------------------------- buffers

  /** bget finds no buffer: every one is busy, and none has the block. */
  predicate NoBuffer(s: State, st: Step) { Busy(s) >= NBUF && (st.GetLog? || (st.Bread? && st.b !in s.cache)) }

  /** Nothing else panics: log_write on a full log, and bread when every buffer is pinned or held. */
  lemma PanicsExactly(s: State, s': State, st: Step)
    requires Inv(s) && !s.panicked && Next(s, s', st)
    ensures s'.panicked <==> NoBuffer(s, st) || (st.LogWrite? && |s.lh| == LOGSIZE)
  {
    hide Inv, Busy, Used, Start;
    match st
    case LogWrite(p, b) => PanicsExactlyWhenFull(s, s', p, b);
    case EndOp(p) => EndOpNeverPanics(s, s', p);
    case Crash => Fresh(s');
    case _ =>
  }

  lemma Fresh(s: State)
    requires Start(s)
    ensures !s.panicked
  {
  }

  /** With one buffer neither pinned nor held, bget has one to hand out, if need be after an eviction. */
  lemma RoomOrRecycle(s: State) returns (b: int)
    requires Inv(s) && Busy(s) < NBUF
    ensures Used(s) < NBUF || DoEvict(s, s.(cache := s.cache - {b}, torn := s.torn - {b}), b)
  {
    b := 0;
    if Used(s) >= NBUF {
      var busy := s.pinned + s.held.Keys;
      if forall x :: x in s.cache.Keys ==> x in busy { SubsetCount(s.cache.Keys, busy); }
      b :| b in s.cache.Keys && b !in busy;
    }
    hide PhaseInv, OpsInv;
  }

  lemma Pins(s: State)
    requires CacheInv(s) && PhaseInv(s) && s.phase.WritingLog?
    ensures s.pinned == Logged(s.lh, 0) && Distinct(s.lh)
  {
  }

  /** What keeps buffers busy when a commit starts: the logged blocks and the others that processes hold. */
  lemma CommitPanicsExactly(s: State, s': State)
    requires Inv(s) && !s.panicked && s.phase.WritingLog? && DoGetLog(s, s')
    ensures s'.panicked <==> |s.lh| + |s.held.Keys - Logged(s.lh, 0)| >= NBUF
  {
    hide OpsInv, CacheInv, PhaseInv, Logged, Distinct;
    Pins(s);
    LoggedCount(s.lh);
    assert s.pinned + s.held.Keys == s.pinned + (s.held.Keys - s.pinned);
  }

  lemma FullStays(s: State, s': State, st: Step)
    requires Inv(s) && Up(s) && |s.lh| == LOGSIZE && Next(s, s', st) && !st.Crash?
    ensures Up(s') && |s'.lh| == LOGSIZE && s'.disk.head == s.disk.head && s'.disk.home == s.disk.home
  {
    hide OpsInv, CacheInv, Logged, Committed, Busy, Used;
    assert !s.phase.Installing? && !s.phase.Clearing? && !s.phase.Finishing?;
    if st.LogWrite? { FullAbsorbs(s, s', st.p, st.b); }
  }

  lemma FullAbsorbs(s: State, s': State, p: nat, b: int)
    requires Inv(s) && |s.lh| == LOGSIZE && DoLogWrite(s, s', p, b)
    ensures s'.lh == s.lh
  {
  }

  /** NBUF is no more than LOGSIZE, so once the log is full nothing becomes durable any more:
      the commit can only panic, and the next boot finds what was durable before. */
  lemma {:induction false} FullLogNeverCommits(run: seq<State>, steps: seq<Step>, i: nat, j: nat)
    requires IsRun(run, steps) && i <= j < |run| && Up(run[i]) && |run[i].lh| == LOGSIZE
    requires forall k :: i <= k < j ==> !steps[k].Crash?
    ensures Up(run[j]) && |run[j].lh| == LOGSIZE && run[j].disk.head == run[i].disk.head == []
    ensures run[j].disk.home == run[i].disk.home && run[i].disk.Valid() && run[j].disk.Valid()
    ensures Committed(run[j].disk) == Committed(run[i].disk) == run[i].disk.home
    decreases j - i
  {
    RunInv(run, steps, j);
    hide Next;
    if i == j {
      FullHead(run[i]);
    } else {
      FullLogNeverCommits(run, steps, i, j - 1);
      RunInv(run, steps, j - 1);
      hide Inv;
      FullStays(run[j - 1], run[j], steps[j - 1]);
    }
  }

  lemma FullHead(s: State)
    requires Inv(s) && Up(s) && |s.lh| == LOGSIZE
    ensures s.disk.head == [] && s.disk.Valid() && Committed(s.disk) == s.disk.home
  {
    hide OpsInv, Logged;
  }

  lemma Ended(s: State, s': State, p: nat, ops: seq<Op>)
    requires p < |s.ops| && s.ops[p].InOp? && s.held == map[] && !s.committing && s.outstanding > 1 && !s.panicked
    requires ops == s.ops[p := Outside] && forall q :: 0 <= q < |ops| ==> !ops[q].Asleep?
    requires s' == s.(ops := ops, outstanding := s.outstanding - 1)
    ensures Next(s, s', EndOp(p))
  {
    assert WakeAll(ops) == ops;
  }

  /** Such a run: three operations fill the log and end, and the commit's first bread panics. */
  lemma FullCommitPanics() returns (run: seq<State>, steps: seq<Step>)
    ensures IsRun(run, steps) && |steps| > 1 && steps[|steps| - 1] == GetLog
    ensures run[|run| - 2].phase == WritingLog(0) && |run[|run| - 2].lh| == LOGSIZE
    ensures !run[|run| - 2].panicked && run[|run| - 1].panicked
  {
    run, steps := ReachFilling(LOGSIZE);
    var s0 := Filling(LOGSIZE);
    var s1 := s0.(ops := s0.ops[0 := Outside], outstanding := 2);
    var s2 := s1.(ops := s1.ops[1 := Outside], outstanding := 1);
    var s3 := s2.(ops := s2.ops[2 := Committer], outstanding := 0, committing := true, phase := WritingLog(0));
    var s4 := s3.(panicked := true);
    hide Share, Upto, Interval, Start;
    Ended(s0, s1, 0, s1.ops);
    Ended(s1, s2, 1, s2.ops);
    assert Next(s2, s3, EndOp(2));
    IntervalCount(0, LOGSIZE);
    assert s3.pinned + s3.held.Keys == Interval(0, LOGSIZE);
    assert Next(s3, s4, GetLog);
    hide Filling, Next;
    run, steps := Extend(run, steps, s1, EndOp(0));
    run, steps := Extend(run, steps, s2, EndOp(1));
    run, steps := Extend(run, steps, s3, EndOp(2));
    run, steps := Extend(run, steps, s4, GetLog);
  }
}
