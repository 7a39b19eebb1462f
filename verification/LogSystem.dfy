/** log.c under concurrency: any number of processes run file system operations over the
    buffer cache while commits, evictions, recoveries and crashes interleave. Each critical
    section of log.lock and each block write is one step. */
module LogSystem {
  import opened Common
  import opened LogImage

  /** Where a process stands with respect to transactions. */
  datatype Op =
    | Outside                     // not in a transaction
    | Asleep                      // in begin_op, asleep on &log
    | Retry                       // in begin_op, woken, about to test again
    | InOp(written: set<int>)     // between begin_op and end_op; blocks it has passed to log_write
    | Committer                   // in end_op, running commit

  /** A buffer's sleep-lock: its owner, and whether the owner changed the data without log_write yet. */
  datatype Hold = Hold(owner: nat, dirty: bool)

  datatype Phase =
    | Booting | Replaying(tail: nat) | Erasing                        // recover_from_log
    | Quiet                                                           // no commit running
    | WritingLog(tail: nat) | Installing(tail: nat) | Clearing | Finishing   // commit

  datatype State = State(
    disk: Image,
    cache: Home,               // valid buffers of home blocks
    held: map<int, Hold>,
    pinned: set<int>,
    torn: set<int>,            // buffers given back changed and not logged, and neither logged nor recycled since
    logbuf: bool,              // the commit holds the buffer of a log block
    lh: seq<int>,              // in-memory log header
    outstanding: int,
    committing: bool,
    phase: Phase,
    ops: seq<Op>,
    panicked: bool)

  datatype Step =
    | BeginOp(p: nat) | EndOp(p: nat) | Kill(p: nat)
    | Bread(p: nat, b: int) | Modify(p: nat, b: int, v: Block) | LogWrite(p: nat, b: int) | Brelse(p: nat, b: int)
    | Drop(p: nat, b: int)
    | Evict(b: int)
    | GetLog | CopyToLog | WriteHead | CopyHome | EraseHead | Finish(p: nat)
    | ReadHead | Replay | EraseReplayed
    | Crash

  function Read(s: State, b: int): Block
    requires b in s.disk.home
  {
    if b in s.cache then s.cache[b] else s.disk.home[b]
  }

  function WakeAll(ops: seq<Op>): seq<Op> {
    seq(|ops|, i requires 0 <= i < |ops| => if ops[i].Asleep? then Retry else ops[i])
  }

  predicate Holds(s: State, p: nat, b: int) { b in s.held && s.held[b].owner == p }

  /** The number of buffers in the cache. */
  const NBUF := MAXOPBLOCKS * 3

  /** Buffers that bget cannot recycle: a process holds them or the log has pinned them. */
  function Busy(s: State): nat { |s.pinned + s.held.Keys| + if s.logbuf then 1 else 0 }

  /** Busy buffers and those that keep a home block. */
  function Used(s: State): nat { |s.cache.Keys| + if s.logbuf then 1 else 0 }

  predicate Full(s: State) { |s.lh| >= LOGSIZE || |s.lh| >= |s.disk.slots| }

  /** Recovery is over: file system calls may run. */
  predicate Up(s: State) { !(s.phase.Booting? || s.phase.Replaying? || s.phase.Erasing?) }

  predicate HoldsNothing(s: State, p: nat) { forall b :: b in s.held ==> s.held[b].owner != p }

  // ---------------------------------------------------------------- system calls

  predicate DoBeginOp(s: State, s': State, p: nat) {
    && p < |s.ops| && (s.ops[p].Outside? || s.ops[p].Retry?) && Up(s) && HoldsNothing(s, p)
    && s' == if s.committing || |s.lh| + (s.outstanding + 1) * MAXOPBLOCKS > LOGSIZE
             then s.(ops := s.ops[p := Asleep])
             else s.(ops := s.ops[p := InOp({})], outstanding := s.outstanding + 1)
  }

  predicate DoEndOp(s: State, s': State, p: nat) {
    && p < |s.ops| && s.ops[p].InOp? && HoldsNothing(s, p)
    && s' == if s.committing then s.(panicked := true)
             else if s.outstanding == 1
             then s.(ops := s.ops[p := Committer], outstanding := 0, committing := true,
                     phase := if |s.lh| > 0 then WritingLog(0) else Finishing)
             else s.(ops := WakeAll(s.ops[p := Outside]), outstanding := s.outstanding - 1)
  }

  /** kill() makes a process sleeping in begin_op test its condition again. */
  predicate DoKill(s: State, s': State, p: nat) {
    p < |s.ops| && s.ops[p].Asleep? && s' == s.(ops := s.ops[p := Retry])
  }

  /** Reads also happen outside transactions, and during a commit. A block that is not cached needs
      a buffer: a recycled one, or bget panics. */
  predicate DoBread(s: State, s': State, p: nat, b: int) {
    && p < |s.ops| && (s.ops[p].Outside? || s.ops[p].InOp?) && Up(s) && b in s.disk.home && b !in s.held
    && if b !in s.cache && Busy(s) >= NBUF then s' == s.(panicked := true)
       else (b in s.cache || Used(s) < NBUF)
            && s' == s.(cache := s.cache[b := Read(s, b)], held := s.held[b := Hold(p, false)])
  }

  predicate DoModify(s: State, s': State, p: nat, b: int, v: Block) {
    && p < |s.ops| && s.ops[p].InOp? && Holds(s, p, b)
    && s' == s.(cache := s.cache[b := v], held := s.held[b := Hold(p, true)])
  }

  /** log_write, by an operation that keeps to the MAXOPBLOCKS blocks begin_op reserved. */
  predicate DoLogWrite(s: State, s': State, p: nat, b: int) {
    && p < |s.ops| && s.ops[p].InOp? && Holds(s, p, b) && |s.ops[p].written + {b}| <= MAXOPBLOCKS
    && s' == if Full(s) || s.outstanding < 1 then s.(panicked := true)
             else s.(held := s.held[b := Hold(p, false)], ops := s.ops[p := InOp(s.ops[p].written + {b})],
                     lh := if b in s.lh then s.lh else s.lh + [b],
                     pinned := if b in s.lh then s.pinned else s.pinned + {b}, torn := s.torn - {b})
  }

  predicate DoBrelse(s: State, s': State, p: nat, b: int) {
    Holds(s, p, b) && !s.held[b].dirty && s' == s.(held := s.held - {b})
  }

  /** brelse of a buffer that was changed and not logged since, as in writei when a copy fails half way. What an
      earlier log_write has pinned will be committed with these bytes. */
  predicate DoDrop(s: State, s': State, p: nat, b: int) {
    && Holds(s, p, b) && s.held[b].dirty
    && s' == s.(held := s.held - {b}, torn := if b in s.pinned then s.torn else s.torn + {b})
  }

  /** The cache may recycle any buffer that nobody holds and the log has not pinned. */
  predicate DoEvict(s: State, s': State, b: int) {
    b in s.cache && b !in s.held && b !in s.pinned && s' == s.(cache := s.cache - {b}, torn := s.torn - {b})
  }

  // ---------------------------------------------------------------- commit, one block write a step

  /** Every block write of a commit starts with a bread of a log block or of the header. */
  predicate DoGetLog(s: State, s': State) {
    && (s.phase.WritingLog? || s.phase.Installing? || s.phase.Clearing?) && !s.logbuf
    && if Busy(s) >= NBUF then s' == s.(panicked := true) else Used(s) < NBUF && s' == s.(logbuf := true)
  }

  predicate DoCopyToLog(s: State, s': State) {
    && s.logbuf && s.phase.WritingLog? && s.phase.tail < |s.lh| <= |s.disk.slots|
    && var k, b := s.phase.tail, s.lh[s.phase.tail];
       && b !in s.held && b in s.disk.home
       && s' == s.(disk := s.disk.(slots := s.disk.slots[k := Read(s, b)]), cache := s.cache[b := Read(s, b)],
                   logbuf := false, phase := WritingLog(k + 1))
  }

  predicate DoWriteHead(s: State, s': State) {
    && s.logbuf && s.phase.WritingLog? && s.phase.tail == |s.lh|
    && s' == s.(disk := s.disk.(head := s.lh), logbuf := false, phase := Installing(0))
  }

  /** `im` with the log block at position `k` copied home. */
  function CopiedHome(im: Image, bs: seq<int>, k: nat): Image
    requires k < |bs| <= |im.slots|
  {
    im.(home := im.home[bs[k] := im.slots[k]])
  }

  predicate DoCopyHome(s: State, s': State) {
    && s.logbuf && s.phase.Installing? && s.phase.tail < |s.lh| <= |s.disk.slots|
    && var k, b, last := s.phase.tail, s.lh[s.phase.tail], s.phase.tail + 1 == |s.lh|;
       && b !in s.held
       && s' == s.(disk := CopiedHome(s.disk, s.lh, k), cache := s.cache[b := s.disk.slots[k]],
                   pinned := s.pinned - {b}, logbuf := false,
                   phase := if last then Clearing else Installing(k + 1), lh := if last then [] else s.lh)
  }

  predicate DoEraseHead(s: State, s': State) {
    s.logbuf && s.phase == Clearing && s' == s.(disk := s.disk.(head := s.lh), logbuf := false, phase := Finishing)
  }

  predicate DoFinish(s: State, s': State, p: nat) {
    && s.phase == Finishing && p < |s.ops| && s.ops[p].Committer?
    && s' == s.(ops := WakeAll(s.ops[p := Outside]), committing := false, phase := Quiet)
  }

  // ---------------------------------------------------------------- crash and recovery

  predicate DoReadHead(s: State, s': State) {
    && s.phase == Booting
    && s' == s.(lh := s.disk.head, phase := if |s.disk.head| > 0 then Replaying(0) else Erasing)
  }

  predicate DoReplay(s: State, s': State) {
    && s.phase.Replaying? && s.phase.tail < |s.lh| <= |s.disk.slots| && Used(s) + 2 <= NBUF
    && var k, b, last := s.phase.tail, s.lh[s.phase.tail], s.phase.tail + 1 == |s.lh|;
       s' == s.(disk := CopiedHome(s.disk, s.lh, k), cache := s.cache[b := s.disk.slots[k]],
                phase := if last then Erasing else Replaying(k + 1), lh := if last then [] else s.lh)
  }

  predicate DoEraseReplayed(s: State, s': State) {
    s.phase == Erasing && s' == s.(disk := s.disk.(head := s.lh), phase := Quiet)
  }

  /** A machine that has just been switched on; a crash keeps the disk and nothing else. */
  predicate Start(s: State) {
    && s == State(s.disk, map[], map[], {}, {}, false, [], 0, false, Booting, s.ops, false)
    && forall p :: 0 <= p < |s.ops| ==> s.ops[p].Outside?
  }

  predicate DoCrash(s: State, s': State) { Start(s') && s'.disk == s.disk }

  predicate Next(s: State, s': State, st: Step) {
    (s.panicked ==> st.Crash?) &&
    match st
    case BeginOp(p) => DoBeginOp(s, s', p)
    case EndOp(p) => DoEndOp(s, s', p)
    case Kill(p) => DoKill(s, s', p)
    case Bread(p, b) => DoBread(s, s', p, b)
    case Modify(p, b, v) => DoModify(s, s', p, b, v)
    case LogWrite(p, b) => DoLogWrite(s, s', p, b)
    case Brelse(p, b) => DoBrelse(s, s', p, b)
    case Drop(p, b) => DoDrop(s, s', p, b)
    case Evict(b) => DoEvict(s, s', b)
    case GetLog => DoGetLog(s, s')
    case CopyToLog => DoCopyToLog(s, s')
    case WriteHead => DoWriteHead(s, s')
    case CopyHome => DoCopyHome(s, s')
    case EraseHead => DoEraseHead(s, s')
    case Finish(p) => DoFinish(s, s', p)
    case ReadHead => DoReadHead(s, s')
    case Replay => DoReplay(s, s')
    case EraseReplayed => DoEraseReplayed(s, s')
    case Crash => DoCrash(s, s')
  }

  // ---------------------------------------------------------------- invariant

  function Sum(ops: seq<Op>, f: Op -> int): int {
    if ops == [] then 0 else Sum(ops[..|ops| - 1], f) + f(ops[|ops| - 1])
  }

  function One(o: Op): int { if o.InOp? then 1 else 0 }

  /** What an operation may still add to the log. */
  function Budget(o: Op): int { if o.InOp? then MAXOPBLOCKS - |o.written| else 0 }

  /** The blocks logged at position `k` or later. */
  function Logged(bs: seq<int>, k: nat): set<int> { set i | k <= i < |bs| :: bs[i] }

  /** Buffers are buffers of home blocks, held and pinned blocks are cached, and a buffer that is
      neither pinned nor torn nor being modified equals its disk block. */
  ghost predicate CacheInv(s: State) {
    && s.disk.Valid() && Loggable(s.lh, s.disk.home.Keys)
    && s.cache.Keys <= s.disk.home.Keys && s.held.Keys <= s.cache.Keys && s.pinned <= s.cache.Keys
    && s.torn <= s.cache.Keys && (forall b :: b in s.torn ==> b !in s.lh)
    && (forall b :: b in s.cache && b !in s.pinned && b !in s.torn && !(b in s.held && s.held[b].dirty) ==>
          s.cache[b] == s.disk.home[b])
    && (forall b :: b in s.held && s.held[b].dirty ==>
          s.held[b].owner < |s.ops| && s.ops[s.held[b].owner].InOp?)
  }

  /** Only whole groups of operations commit, and the log's space is reserved. */
  ghost predicate OpsInv(s: State) {
    && s.outstanding == Sum(s.ops, One) >= 0
    && (s.committing <==> s.phase.WritingLog? || s.phase.Installing? || s.phase.Clearing? || s.phase.Finishing?)
    && (s.phase != Quiet ==> s.outstanding == 0)
    && |s.lh| + Sum(s.ops, Budget) <= LOGSIZE
    && (forall p :: 0 <= p < |s.ops| ==> OpInv(s, s.ops[p]))
    && (forall p, q :: 0 <= p < q < |s.ops| ==> !(s.ops[p].Committer? && s.ops[q].Committer?))
    && (s.phase == Quiet && s.outstanding == 0 ==> s.lh == [])
  }

  ghost predicate OpInv(s: State, o: Op) {
    && (o.InOp? ==> s.phase == Quiet && o.written <= Logged(s.lh, 0) && |o.written| <= MAXOPBLOCKS)
    && (o.Asleep? ==> s.committing || s.outstanding > 0)
    && (o.Committer? ==> s.committing)
  }

  /** What the disk's log region holds in each phase. */
  ghost predicate PhaseInv(s: State)
    requires CacheInv(s)
  {
    match s.phase
    case Booting => s.cache == map[] && s.lh == [] && s.pinned == {}
    case Replaying(k) => s.lh == s.disk.head && k < |s.lh| && s.pinned == {} && s.torn == {} && s.held == map[]
                         && forall i :: 0 <= i < k ==> s.disk.home[s.lh[i]] == s.disk.slots[i]
    case Erasing => s.lh == [] && s.pinned == {} && s.torn == {} && s.held == map[] && s.disk.home == Committed(s.disk)
    case Quiet => s.disk.head == [] && s.pinned == Logged(s.lh, 0)
    case WritingLog(k) => s.disk.head == [] && s.pinned == Logged(s.lh, 0) && k <= |s.lh| && |s.lh| > 0
                          && forall i :: 0 <= i < k ==> s.lh[i] in s.cache && s.disk.slots[i] == s.cache[s.lh[i]]
    case Installing(k) => s.disk.head == s.lh && k < |s.lh| && s.pinned == Logged(s.lh, k)
                          && (forall i :: 0 <= i < k ==> s.disk.home[s.lh[i]] == s.disk.slots[i])
                          && forall i :: k <= i < |s.lh| ==> s.lh[i] in s.cache && s.disk.slots[i] == s.cache[s.lh[i]]
    case Clearing => s.lh == [] && s.pinned == {} && s.disk.home == Committed(s.disk)
    case Finishing => s.lh == [] && s.pinned == {} && s.disk.head == []
  }

  /** No more buffers than there are; a commit that has got its first one has fewer than NBUF blocks. */
  ghost predicate BufInv(s: State) {
    && Used(s) <= NBUF
    && (s.logbuf ==> s.phase.WritingLog? || s.phase.Installing? || s.phase.Clearing?)
    && (s.phase.Installing? || (s.phase.WritingLog? && (s.logbuf || s.phase.tail > 0)) ==> |s.lh| < NBUF)
  }

  ghost predicate Inv(s: State) { CacheInv(s) && OpsInv(s) && PhaseInv(s) && BufInv(s) }

  // ---------------------------------------------------------------- the atomic disk

  /** The specification: contents in memory, contents that survive a crash, operations in progress, and the blocks
      that a write has torn. */
  datatype Abstract = Abstract(mem: Home, durable: Home, active: set<nat>, torn: set<int>)

  datatype Event = Stutter | Begin(p: nat) | End(p: nat) | Write(p: nat, b: int, v: Block) | Commit | Reset
                 | Tear(b: int) | Mend(b: int) | Revert(b: int)

  /** What memory is once every torn block has gone back. */
  ghost function Settled(a: Abstract): Home {
    map b | b in a.mem :: if b in a.torn && b in a.durable then a.durable[b] else a.mem[b]
  }

  /** Writes happen inside operations, a commit makes everything durable at once and only when
      no operation is in progress, and a crash goes back to the last commit. A commit leaves torn blocks out; they go
      back by themselves to what is durable, unless an operation takes them in. */
  ghost predicate AtomicStep(a: Abstract, e: Event, a': Abstract) {
    match e
    case Stutter => a' == a
    case Begin(p) => p !in a.active && a' == a.(active := a.active + {p})
    case End(p) => p in a.active && a' == a.(active := a.active - {p})
    case Write(p, b, v) => p in a.active && b in a.mem && a' == a.(mem := a.mem[b := v])
    case Commit => a.active == {} && a' == a.(durable := Settled(a))
    case Reset => a' == Abstract(a.durable, a.durable, {}, {})
    case Tear(b) => a.active != {} && b in a.mem && a' == a.(torn := a.torn + {b})
    case Mend(b) => a.active != {} && b in a.torn && a' == a.(torn := a.torn - {b})
    case Revert(b) => b in a.torn && b in a.durable && a' == a.(mem := a.mem[b := a.durable[b]], torn := a.torn - {b})
  }

  ghost function Abs(s: State): Abstract
    requires s.disk.Valid()
  {
    Abstract(if Up(s) then View(s.disk.home, s.cache) else Committed(s.disk), Committed(s.disk),
             (set p: nat | p < |s.ops| && s.ops[p].InOp?), s.torn)
  }

  /** The event each step stands for; the header write of a commit is the commit. */
  ghost function EventOf(s: State, s': State, st: Step): Event {
    match st
    case Drop(_, b) => if b in s'.torn && b !in s.torn then Tear(b) else Stutter
    case LogWrite(_, b) => if b in s.torn && b !in s'.torn then Mend(b) else Stutter
    case Evict(b) => if b in s.torn then Revert(b) else Stutter
    case BeginOp(p) => if p < |s'.ops| && s'.ops[p].InOp? then Begin(p) else Stutter
    case EndOp(p) => End(p)
    case Modify(p, b, v) => Write(p, b, v)
    case WriteHead => Commit
    case Crash => Reset
    case _ => Stutter
  }

  // ---------------------------------------------------------------- sums over processes

  lemma {:induction false} SumUpdate(ops: seq<Op>, p: nat, o: Op, f: Op -> int)
    requires p < |ops|
    ensures Sum(ops[p := o], f) == Sum(ops, f) - f(ops[p]) + f(o)
  {
    var n := |ops| - 1;
    if p < n {
      SumUpdate(ops[..n], p, o, f);
      assert ops[p := o][..n] == ops[..n][p := o];
    } else {
      assert ops[p := o][..n] == ops[..n];
    }
  }

  lemma {:induction false} SumSame(a: seq<Op>, b: seq<Op>, f: Op -> int)
    requires |a| == |b| && forall i :: 0 <= i < |a| ==> f(a[i]) == f(b[i])
    ensures Sum(a, f) == Sum(b, f)
  {
    if a != [] { SumSame(a[..|a| - 1], b[..|b| - 1], f); }
  }

  /** Reservations cover budgets, and a zero count means nobody is in an operation. */
  lemma {:induction false} Counts(ops: seq<Op>)
    ensures Sum(ops, One) >= 0 && Sum(ops, Budget) <= MAXOPBLOCKS * Sum(ops, One)
    ensures Sum(ops, One) == 0 ==> forall i :: 0 <= i < |ops| ==> !ops[i].InOp?
  {
    if ops != [] {
      var n := |ops| - 1;
      Counts(ops[..n]);
      assert forall i :: 0 <= i < n ==> ops[i] == ops[..n][i];
    }
  }

  lemma Change(ops: seq<Op>, p: nat, o: Op)
    requires p < |ops|
    ensures Sum(ops[p := o], One) == Sum(ops, One) - One(ops[p]) + One(o)
    ensures Sum(ops[p := o], Budget) == Sum(ops, Budget) - Budget(ops[p]) + Budget(o)
  {
    SumUpdate(ops, p, o, One);
    SumUpdate(ops, p, o, Budget);
  }

  lemma Woken(ops: seq<Op>)
    ensures Sum(WakeAll(ops), One) == Sum(ops, One) && Sum(WakeAll(ops), Budget) == Sum(ops, Budget)
  {
    SumSame(WakeAll(ops), ops, One);
    SumSame(WakeAll(ops), ops, Budget);
  }

  lemma Idle(s: State)
    requires OpsInv(s) && s.outstanding == 0
    ensures forall p :: 0 <= p < |s.ops| ==> !s.ops[p].InOp?
  {
    Counts(s.ops);
  }

  /** Copying a logged block home changes nothing the disk stands for. */
  lemma CopyHomeInvisible(im: Image, k: nat)
    requires im.Valid() && k < |im.head|
    ensures var im' := im.(home := im.home[im.head[k] := im.slots[k]]);
            im'.Valid() && Committed(im') == Committed(im)
  {
    assert im.head[k] in im.home;
    assert (im.home[im.head[k] := im.slots[k]]).Keys == im.home.Keys;
  }

  /** Once every logged block is home, the home blocks are the committed contents. */
  lemma AllHome(im: Image)
    requires im.Valid() && forall i :: 0 <= i < |im.head| ==> im.home[im.head[i]] == im.slots[i]
    ensures im.home == Committed(im)
  {
  }

  /** With nothing pinned or being modified, readers see the disk. */
  lemma CleanView(s: State)
    requires CacheInv(s) && s.pinned == {} && forall b :: b in s.held ==> !s.held[b].dirty
    ensures View(s.disk.home, s.cache - s.torn) == s.disk.home
  {
    forall b | b in s.cache - s.torn ensures s.cache[b] == s.disk.home[b] { assert b !in s.pinned; }
  }

  lemma LoggedAppend(bs: seq<int>, b: int, home: set<int>)
    ensures Logged(bs + [b], 0) == Logged(bs, 0) + {b} && (b in bs <==> b in Logged(bs, 0))
    ensures Loggable(bs, home) && b in home && b !in bs && |bs| < LOGSIZE ==> Loggable(bs + [b], home)
  {
    var cs := bs + [b];
    assert Distinct(bs) && b !in bs ==> Distinct(cs);
    assert cs[|bs|] == b;
    forall x | x in Logged(bs, 0) ensures x in Logged(cs, 0) {
      var i :| 0 <= i < |bs| && bs[i] == x;
      assert cs[i] == x;
    }
  }

  lemma LoggedNext(bs: seq<int>, k: nat)
    requires k < |bs| && Distinct(bs)
    ensures Logged(bs, k) - {bs[k]} == Logged(bs, k + 1) && (k + 1 == |bs| ==> Logged(bs, k + 1) == {})
  {
  }

  // ---------------------------------------------------------------- every step

  lemma SameAbs(s: State, s': State)
    requires s.disk.Valid() && s'.disk == s.disk && Up(s') == Up(s) && s'.torn == s.torn
    requires View(s'.disk.home, s'.cache) == View(s.disk.home, s.cache)
    requires |s.ops| == |s'.ops| && forall q :: 0 <= q < |s.ops| ==> s'.ops[q].InOp? == s.ops[q].InOp?
    ensures Abs(s') == Abs(s)
  {
  }

  lemma BeginOpOps(s: State, s': State, p: nat)
    requires OpsInv(s) && DoBeginOp(s, s', p)
    ensures OpsInv(s')
  {
    hide Sum, Logged;
    Counts(s.ops);
    Change(s.ops, p, s'.ops[p]);
    forall q | 0 <= q < |s.ops| ensures OpInv(s', s'.ops[q]) { assert OpInv(s, s.ops[q]); }
  }

  lemma BeginOpCache(s: State, s': State, p: nat)
    requires CacheInv(s) && DoBeginOp(s, s', p)
    ensures CacheInv(s')
  {
    hide Loggable, Image.Valid;
  }

  lemma BeginOpRest(s: State, s': State, p: nat)
    requires CacheInv(s) && PhaseInv(s) && BufInv(s) && DoBeginOp(s, s', p)
    ensures CacheInv(s') && PhaseInv(s') && BufInv(s')
  {
    hide CacheInv, Committed, Logged, HoldsNothing;
    BeginOpCache(s, s', p);
  }

  lemma BeginOpKeeps(s: State, s': State, p: nat)
    requires Inv(s) && DoBeginOp(s, s', p)
    ensures Inv(s') && AtomicStep(Abs(s), if s'.ops[p].InOp? then Begin(p) else Stutter, Abs(s'))
  {
    hide OpsInv, CacheInv, PhaseInv, BufInv, Committed, View;
    BeginOpOps(s, s', p);
    BeginOpRest(s, s', p);
  }

  /** A commit starts only when the last operation ends, so no operation is cut in two. */
  lemma EndOpOps(s: State, s': State, p: nat)
    requires OpsInv(s) && DoEndOp(s, s', p)
    ensures OpsInv(s') && s.phase == Quiet && !s.committing && |s'.ops| == |s.ops|
    ensures forall q :: 0 <= q < |s.ops| ==> s'.ops[q].InOp? == (s.ops[q].InOp? && q != p)
    ensures s.outstanding == 1 ==> forall q :: 0 <= q < |s'.ops| ==> !s'.ops[q].InOp?
  {
    hide Sum, Logged;
    assert OpInv(s, s.ops[p]);
    if s.outstanding == 1 {
      Change(s.ops, p, Committer);
      Counts(s.ops[p := Committer]);
    } else {
      Change(s.ops, p, Outside);
      Counts(s.ops[p := Outside]);
      Woken(s.ops[p := Outside]);
    }
    forall q | 0 <= q < |s.ops| ensures OpInv(s', s'.ops[q]) { assert OpInv(s, s.ops[q]); }
  }

  lemma EndOpCache(s: State, s': State, p: nat)
    requires CacheInv(s) && DoEndOp(s, s', p)
    ensures CacheInv(s')
  {
    hide Loggable, Image.Valid;
  }

  lemma EndOpRest(s: State, s': State, p: nat)
    requires CacheInv(s) && CacheInv(s') && PhaseInv(s) && BufInv(s)
    requires s.phase == Quiet && !s.committing && DoEndOp(s, s', p)
    requires s'.phase == Finishing ==> s.lh == []
    ensures PhaseInv(s') && BufInv(s')
  {
    hide CacheInv, Committed;
  }

  lemma EndOpKeeps(s: State, s': State, p: nat)
    requires Inv(s) && DoEndOp(s, s', p)
    ensures Inv(s') && AtomicStep(Abs(s), End(p), Abs(s'))
  {
    EndOpOps(s, s', p);
    hide OpsInv, CacheInv, PhaseInv, BufInv, View, Committed;
    EndOpCache(s, s', p);
    EndOpRest(s, s', p);
    Readable(s);
  }

  lemma KillKeeps(s: State, s': State, p: nat)
    requires Inv(s) && DoKill(s, s', p)
    ensures Inv(s') && AtomicStep(Abs(s), Stutter, Abs(s'))
  {
    Change(s.ops, p, Retry);
    SameAbs(s, s');
    hide Sum, Committed;
  }

  /** A step that touches only buffers leaves the operations' bookkeeping alone. */
  lemma OpsFrame(s: State, s': State)
    requires OpsInv(s) && s'.ops == s.ops && s'.outstanding == s.outstanding && s'.committing == s.committing
    requires s'.phase == s.phase && s'.lh == s.lh
    ensures OpsInv(s')
  {
    hide Sum;
    forall p | 0 <= p < |s.ops| ensures OpInv(s', s'.ops[p]) { assert OpInv(s, s.ops[p]); }
  }

  lemma Readable(s: State)
    requires CacheInv(s)
    ensures s.disk.Valid()
  {
  }

  /** A panic changes nothing but the flag. */
  lemma PanicFrame(s: State, s': State)
    requires CacheInv(s) && PhaseInv(s) && BufInv(s) && s' == s.(panicked := true)
    ensures CacheInv(s') && PhaseInv(s') && BufInv(s')
  {
    hide Loggable, Logged, Image.Valid, Committed;
  }

  lemma OneMore(cache: Home, b: int, v: Block)
    ensures |cache[b := v].Keys| <= |cache.Keys| + 1 && (b in cache ==> cache[b := v].Keys == cache.Keys)
  {
    assert cache[b := v].Keys == cache.Keys + {b};
  }

  lemma BreadBuf(s: State, s': State, p: nat, b: int)
    requires BufInv(s) && DoBread(s, s', p, b) && !s'.panicked
    ensures BufInv(s')
  {
    hide Busy, Read;
    OneMore(s.cache, b, s'.cache[b]);
  }

  lemma BreadCache(s: State, s': State, p: nat, b: int)
    requires CacheInv(s) && DoBread(s, s', p, b) && !s'.panicked
    ensures CacheInv(s') && View(s'.disk.home, s'.cache) == View(s.disk.home, s.cache)
  {
    hide Loggable, Image.Valid, Busy, Used;
  }

  lemma BreadPhase(s: State, s': State, p: nat, b: int)
    requires CacheInv(s) && CacheInv(s') && PhaseInv(s) && DoBread(s, s', p, b) && !s'.panicked
    ensures PhaseInv(s')
  {
    hide CacheInv, Loggable, Image.Valid, Busy, Used, Committed, Logged;
  }

  lemma BreadKeeps(s: State, s': State, p: nat, b: int)
    requires Inv(s) && DoBread(s, s', p, b) && !s.panicked
    ensures Inv(s') && AtomicStep(Abs(s), Stutter, Abs(s'))
  {
    hide OpsInv, CacheInv, PhaseInv, BufInv, Abs, Busy, Used, Read, View;
    OpsFrame(s, s');
    if s'.panicked {
      PanicFrame(s, s');
    } else {
      BreadCache(s, s', p, b);
      BreadPhase(s, s', p, b);
      BreadBuf(s, s', p, b);
    }
    Readable(s);
    SameAbs(s, s');
  }

  lemma ModifyKeeps(s: State, s': State, p: nat, b: int, v: Block)
    requires Inv(s) && DoModify(s, s', p, b, v)
    ensures Inv(s') && AtomicStep(Abs(s), Write(p, b, v), Abs(s'))
  {
    OpsFrame(s, s');
    assert OpInv(s, s.ops[p]);
    hide OpsInv, Committed, Loggable, Logged;
  }

  /** log_write neither overdraws the operation's reservation nor the log. */
  lemma LogWriteBudget(s: State, s': State, p: nat, b: int)
    requires OpsInv(s) && DoLogWrite(s, s', p, b)
    ensures s'.outstanding == Sum(s'.ops, One) >= 1 && |s'.lh| + Sum(s'.ops, Budget) <= LOGSIZE
  {
    var w := s.ops[p].written;
    assert OpInv(s, s.ops[p]);
    LoggedAppend(s.lh, b, {});
    Change(s.ops, p, InOp(w + {b}));
    Change(s.ops, p, Outside);
    Counts(s.ops[p := Outside]);
    hide Sum, Logged;
    assert b in w ==> w + {b} == w;
  }

  lemma LogWriteOps(s: State, s': State, p: nat, b: int)
    requires OpsInv(s) && DoLogWrite(s, s', p, b)
    ensures OpsInv(s')
  {
    hide Sum, Logged;
    LogWriteBudget(s, s', p, b);
    LoggedAppend(s.lh, b, {});
    forall q | 0 <= q < |s.ops| ensures OpInv(s', s'.ops[q]) { assert OpInv(s, s.ops[q]); }
  }

  lemma LogWriteLists(s: State, s': State, p: nat, b: int)
    requires CacheInv(s) && s.pinned == Logged(s.lh, 0) && DoLogWrite(s, s', p, b)
    ensures Loggable(s'.lh, s.disk.home.Keys) && s'.pinned == Logged(s'.lh, 0)
    ensures (forall x :: x in s'.lh <==> x in s'.pinned)
    ensures (Full(s) || s.outstanding < 1) || s'.pinned == s.pinned + {b}
  {
    LoggedAppend(s.lh, b, s.disk.home.Keys);
    hide Loggable;
  }

  lemma LogWriteClean(s: State, s': State, p: nat, b: int, x: int)
    requires CacheInv(s) && DoLogWrite(s, s', p, b) && (forall y :: y in s'.lh <==> y in s'.pinned)
    requires (Full(s) || s.outstanding < 1) || s'.pinned == s.pinned + {b}
    ensures x in s'.cache && x !in s'.pinned && x !in s'.torn && !(x in s'.held && s'.held[x].dirty) ==>
              s'.cache[x] == s'.disk.home[x]
    ensures x in s'.held && s'.held[x].dirty ==> s'.held[x].owner < |s'.ops| && s'.ops[s'.held[x].owner].InOp?
    ensures x in s'.torn ==> x in s.torn && x !in s'.lh
  {
    hide Loggable, Image.Valid;
  }

  lemma LogWriteCache(s: State, s': State, p: nat, b: int)
    requires CacheInv(s) && PhaseInv(s) && s.phase == Quiet && DoLogWrite(s, s', p, b)
    ensures CacheInv(s') && PhaseInv(s')
  {
    hide Loggable, Logged, Image.Valid, Committed, Full;
    LogWriteLists(s, s', p, b);
    forall x
      ensures x in s'.cache && x !in s'.pinned && x !in s'.torn && !(x in s'.held && s'.held[x].dirty) ==>
                s'.cache[x] == s'.disk.home[x]
      ensures x in s'.held && s'.held[x].dirty ==> s'.held[x].owner < |s'.ops| && s'.ops[s'.held[x].owner].InOp?
      ensures x in s'.torn ==> x in s.torn && x !in s'.lh
    {
      LogWriteClean(s, s', p, b, x);
    }
  }

  lemma LogWriteKeeps(s: State, s': State, p: nat, b: int)
    requires Inv(s) && DoLogWrite(s, s', p, b)
    ensures Inv(s') && AtomicStep(Abs(s), EventOf(s, s', LogWrite(p, b)), Abs(s'))
  {
    LogWriteOps(s, s', p, b);
    assert OpInv(s, s.ops[p]) && s.phase == Quiet;
    hide OpsInv, CacheInv, PhaseInv, BufInv, Loggable, Logged, Committed, View;
    Readable(s);
    LogWriteCache(s, s', p, b);
    LogWriteBuf(s, s', p, b);
    LogWriteAbs(s, s', p, b);
  }

  lemma LogWriteBuf(s: State, s': State, p: nat, b: int)
    requires BufInv(s) && s.phase == Quiet && DoLogWrite(s, s', p, b)
    ensures BufInv(s')
  {
  }

  /** If the block was torn, logging it takes in what was torn. */
  lemma LogWriteAbs(s: State, s': State, p: nat, b: int)
    requires s.disk.Valid() && DoLogWrite(s, s', p, b)
    ensures s'.disk.Valid() && AtomicStep(Abs(s), EventOf(s, s', LogWrite(p, b)), Abs(s'))
  {
    hide View, Committed, Full, Image.Valid;
    assert p in Abs(s).active && Abs(s').active == Abs(s).active;
  }

  lemma BrelseKeeps(s: State, s': State, p: nat, b: int)
    requires Inv(s) && DoBrelse(s, s', p, b)
    ensures Inv(s') && AtomicStep(Abs(s), Stutter, Abs(s'))
  {
    SameAbs(s, s');
    hide Committed, Loggable;
  }

  /** A torn block is not logged, so what is durable is on its home block. */
  lemma TornHome(s: State, b: int)
    requires CacheInv(s) && PhaseInv(s) && b in s.torn
    ensures Up(s) && b in s.disk.home && b in Committed(s.disk) && Committed(s.disk)[b] == s.disk.home[b]
  {
  }

  lemma EvictCache(s: State, s': State, b: int)
    requires CacheInv(s) && DoEvict(s, s', b)
    ensures CacheInv(s')
    ensures b !in s.torn ==> View(s'.disk.home, s'.cache) == View(s.disk.home, s.cache)
    ensures b in s.torn ==> View(s'.disk.home, s'.cache) == View(s.disk.home, s.cache)[b := s.disk.home[b]]
  {
    hide Loggable, Image.Valid;
    assert b in s.disk.home;
  }

  lemma EvictRest(s: State, s': State, b: int)
    requires CacheInv(s) && CacheInv(s') && PhaseInv(s) && BufInv(s) && DoEvict(s, s', b)
    ensures PhaseInv(s') && BufInv(s')
  {
    hide CacheInv, Committed;
    assert s'.cache.Keys == s.cache.Keys - {b};
  }

  lemma EvictKeeps(s: State, s': State, b: int)
    requires Inv(s) && DoEvict(s, s', b)
    ensures Inv(s') && AtomicStep(Abs(s), EventOf(s, s', Evict(b)), Abs(s'))
  {
    hide OpsInv, CacheInv, PhaseInv, BufInv, View, Committed;
    OpsFrame(s, s');
    EvictCache(s, s', b);
    EvictRest(s, s', b);
    Readable(s);
    if b in s.torn {
      TornHome(s, b);
    } else {
      assert s'.torn == s.torn;
      SameAbs(s, s');
    }
  }

  lemma DropCache(s: State, s': State, p: nat, b: int)
    requires CacheInv(s) && PhaseInv(s) && s.phase == Quiet && DoDrop(s, s', p, b)
    ensures CacheInv(s') && PhaseInv(s')
  {
    hide Loggable, Image.Valid, Committed;
  }

  /** What an operation gives back changed and not logged is torn, unless it is logged already. */
  lemma DropKeeps(s: State, s': State, p: nat, b: int)
    requires Inv(s) && DoDrop(s, s', p, b)
    ensures Inv(s') && AtomicStep(Abs(s), EventOf(s, s', Drop(p, b)), Abs(s'))
  {
    OpsFrame(s, s');
    assert p < |s.ops| && s.ops[p].InOp? && OpInv(s, s.ops[p]);
    assert p in Abs(s).active && b in s.disk.home;
    DropCache(s, s', p, b);
    hide OpsInv, CacheInv, PhaseInv, Committed;
  }

  /** Blocks that are logged are pinned, so the log alone keeps that many buffers busy. */
  lemma {:induction false} LoggedCount(bs: seq<int>)
    requires Distinct(bs)
    ensures |Logged(bs, 0)| == |bs|
  {
    if bs == [] {
      assert Logged(bs, 0) == {};
    } else {
      var n := |bs| - 1;
      LoggedCount(bs[..n]);
      LoggedAppend(bs[..n], bs[n], {});
      assert bs[..n] + [bs[n]] == bs;
    }
  }

  lemma LogIsBusy(s: State)
    requires CacheInv(s) && PhaseInv(s) && s.phase.WritingLog?
    ensures |s.lh| <= |s.pinned + s.held.Keys|
  {
    hide Committed, Image.Valid, Logged;
    LoggedCount(s.lh);
    SubsetCount(s.pinned, s.pinned + s.held.Keys);
  }

  lemma GetLogRoom(s: State, s': State)
    requires CacheInv(s) && PhaseInv(s) && BufInv(s) && DoGetLog(s, s') && !s'.panicked
    ensures BufInv(s')
  {
    hide CacheInv, PhaseInv;
    if s.phase.WritingLog? { LogIsBusy(s); }
  }

  lemma GetLogBuf(s: State, s': State)
    requires CacheInv(s) && PhaseInv(s) && BufInv(s) && DoGetLog(s, s') && !s'.panicked
    ensures CacheInv(s') && PhaseInv(s') && BufInv(s')
  {
    hide CacheInv, Committed, Logged, BufInv, Busy, Used;
    GetLogCache(s, s');
    GetLogRoom(s, s');
  }

  lemma GetLogCache(s: State, s': State)
    requires CacheInv(s) && DoGetLog(s, s')
    ensures CacheInv(s')
  {
    hide Loggable, Image.Valid;
  }

  lemma GetLogKeeps(s: State, s': State)
    requires Inv(s) && DoGetLog(s, s') && !s.panicked
    ensures Inv(s') && AtomicStep(Abs(s), Stutter, Abs(s'))
  {
    hide OpsInv, CacheInv, PhaseInv, BufInv, Abs, Busy, Used, View;
    OpsFrame(s, s');
    Readable(s);
    SameAbs(s, s');
    if s'.panicked { PanicFrame(s, s'); } else { GetLogBuf(s, s'); }
  }

  lemma CopyToLogKeeps(s: State, s': State)
    requires Inv(s) && DoCopyToLog(s, s')
    ensures Inv(s') && AtomicStep(Abs(s), Stutter, Abs(s'))
  {
  }

  /** A step of the commit that keeps the log and leaves the operations alone. */
  lemma OpsCommit(s: State, s': State)
    requires OpsInv(s) && s'.ops == s.ops && s'.outstanding == s.outstanding && s'.committing == s.committing
    requires s.committing && s'.lh == s.lh
    requires s'.phase.WritingLog? || s'.phase.Installing? || s'.phase.Clearing? || s'.phase.Finishing?
    ensures OpsInv(s')
  {
    hide Sum, Logged;
    Idle(s);
    forall p | 0 <= p < |s.ops| ensures OpInv(s', s'.ops[p]) { assert OpInv(s, s.ops[p]); }
  }

  lemma WriteHeadCache(s: State, s': State)
    requires CacheInv(s) && PhaseInv(s) && BufInv(s) && DoWriteHead(s, s')
    ensures CacheInv(s') && PhaseInv(s') && BufInv(s')
  {
    hide Committed;
  }

  lemma WriteHeadAbs(s: State, s': State)
    requires CacheInv(s) && CacheInv(s') && PhaseInv(s) && DoWriteHead(s, s')
    requires forall b :: b in s.held ==> !s.held[b].dirty
    ensures Committed(s'.disk) == Settled(Abs(s))
  {
    var kept := s.cache - s.torn;
    forall i | 0 <= i < |s.lh| ensures s.lh[i] in kept && s.disk.slots[i] == kept[s.lh[i]] {
      assert s.lh[i] in s.lh && s.lh[i] in s.cache;
    }
    forall b | b in kept && b !in s.lh ensures kept[b] == s.disk.home[b] { assert b !in Logged(s.lh, 0); }
    OverlayIsView(s.disk.home, kept, s.lh, s.disk.slots);
    assert Overlay(s.disk.home, [], s.disk.slots) == s.disk.home;
    hide Overlay, Loggable;
  }

  lemma WriteHeadKeeps(s: State, s': State)
    requires Inv(s) && DoWriteHead(s, s')
    ensures Inv(s') && AtomicStep(Abs(s), Commit, Abs(s'))
  {
    Idle(s);
    assert s.committing && forall b :: b in s.held ==> !s.held[b].dirty;
    hide OpsInv, CacheInv, PhaseInv, BufInv, Committed, View, Settled;
    OpsCommit(s, s');
    WriteHeadCache(s, s');
    WriteHeadAbs(s, s');
    Readable(s);
  }

  lemma CopyHomeCache(s: State, s': State)
    requires CacheInv(s) && PhaseInv(s) && DoCopyHome(s, s')
    ensures CacheInv(s') && Committed(s'.disk) == Committed(s.disk)
    ensures View(s'.disk.home, s'.cache) == View(s.disk.home, s.cache)
  {
    CopyHomeInvisible(s.disk, s.phase.tail);
    hide Committed, Logged, Loggable;
    assert s'.lh == [] ==> Loggable([], s.disk.home.Keys);
  }

  lemma CopyHomePhase(s: State, s': State)
    requires CacheInv(s) && PhaseInv(s) && DoCopyHome(s, s') && CacheInv(s')
    ensures PhaseInv(s')
  {
    var k := s.phase.tail;
    LoggedNext(s.lh, k);
    hide Logged;
    assert forall i :: 0 <= i <= k ==> s'.disk.home[s.lh[i]] == s.disk.slots[i];
    if k + 1 == |s.lh| { AllHome(s'.disk); }
    hide Committed;
  }

  lemma CopyHomeKeeps(s: State, s': State)
    requires Inv(s) && DoCopyHome(s, s')
    ensures Inv(s') && AtomicStep(Abs(s), Stutter, Abs(s'))
  {
    CopyHomeCache(s, s');
    CopyHomePhase(s, s');
    assert OpsInv(s');
    hide OpsInv, OpInv, CacheInv, PhaseInv, Committed;
  }

  lemma EraseHeadKeeps(s: State, s': State)
    requires Inv(s) && DoEraseHead(s, s')
    ensures Inv(s') && AtomicStep(Abs(s), Stutter, Abs(s'))
  {
  }

  lemma FinishKeeps(s: State, s': State, p: nat)
    requires Inv(s) && DoFinish(s, s', p)
    ensures Inv(s') && AtomicStep(Abs(s), Stutter, Abs(s'))
  {
    Change(s.ops, p, Outside);
    Woken(s.ops[p := Outside]);
    Idle(s);
    SameAbs(s, s');
    hide Sum, Committed;
  }

  lemma ReadHeadKeeps(s: State, s': State)
    requires Inv(s) && DoReadHead(s, s')
    ensures Inv(s') && AtomicStep(Abs(s), Stutter, Abs(s'))
  {
    Counts(s.ops);
    if s.disk.head == [] { AllHome(s.disk); }
    hide Sum;
  }

  lemma ReplayCache(s: State, s': State)
    requires CacheInv(s) && PhaseInv(s) && DoReplay(s, s')
    ensures CacheInv(s') && s.disk.Valid() && s'.disk.Valid() && Committed(s'.disk) == Committed(s.disk)
  {
    CopyHomeInvisible(s.disk, s.phase.tail);
    hide Committed, Logged;
  }

  lemma ReplayPhase(s: State, s': State)
    requires CacheInv(s) && PhaseInv(s) && DoReplay(s, s') && CacheInv(s')
    ensures PhaseInv(s')
  {
    var k := s.phase.tail;
    assert forall i :: 0 <= i <= k ==> s'.disk.home[s.lh[i]] == s.disk.slots[i];
    if k + 1 == |s.lh| { AllHome(s'.disk); }
    hide Committed, Logged;
  }

  lemma ReplayBuf(s: State, s': State)
    requires BufInv(s) && DoReplay(s, s')
    ensures BufInv(s')
  {
    hide CopiedHome;
    OneMore(s.cache, s.lh[s.phase.tail], s.disk.slots[s.phase.tail]);
  }

  lemma ReplayKeeps(s: State, s': State)
    requires Inv(s) && DoReplay(s, s')
    ensures Inv(s') && AtomicStep(Abs(s), Stutter, Abs(s'))
  {
    assert OpsInv(s');
    hide OpsInv, CacheInv, PhaseInv, BufInv, Committed, View;
    ReplayCache(s, s');
    ReplayPhase(s, s');
    ReplayBuf(s, s');
  }

  lemma EraseReplayedKeeps(s: State, s': State)
    requires Inv(s) && DoEraseReplayed(s, s')
    ensures Inv(s') && AtomicStep(Abs(s), Stutter, Abs(s'))
  {
    assert OpsInv(s') by { hide Sum, Logged; }
    hide OpsInv;
    EraseReplayedCache(s, s');
    CleanView(s);
    AllHome(s'.disk);
    hide CacheInv, BufInv, Committed;
    assert s.cache - s.torn == s.cache;
  }

  lemma EraseReplayedCache(s: State, s': State)
    requires CacheInv(s) && PhaseInv(s) && BufInv(s) && DoEraseReplayed(s, s')
    ensures CacheInv(s') && PhaseInv(s') && BufInv(s')
  {
    hide Committed;
  }

  lemma {:induction false} AllOutside(ops: seq<Op>)
    requires forall p :: 0 <= p < |ops| ==> ops[p].Outside?
    ensures Sum(ops, One) == 0 && Sum(ops, Budget) == 0
  {
    if ops != [] { AllOutside(ops[..|ops| - 1]); }
  }

  lemma StartInv(s: State)
    requires Start(s) && s.disk.Valid()
    ensures Inv(s) && Abs(s) == Abstract(Committed(s.disk), Committed(s.disk), {}, {})
  {
    AllOutside(s.ops);
  }

  /** Every step keeps the invariant and is one step of the atomic disk. */
  lemma Refines(s: State, s': State, st: Step)
    requires Inv(s) && Next(s, s', st)
    ensures Inv(s') && AtomicStep(Abs(s), EventOf(s, s', st), Abs(s'))
  {
    hide Inv, Abs, AtomicStep, DoEndOp, DoKill, DoBread, DoModify, DoLogWrite, DoBrelse, DoDrop, DoEvict,
      DoGetLog, DoCopyToLog, DoWriteHead, DoCopyHome, DoEraseHead, DoFinish,
      DoReadHead, DoReplay, DoEraseReplayed, DoCrash;
    match st
    case BeginOp(p) => BeginOpKeeps(s, s', p);
    case EndOp(p) => EndOpKeeps(s, s', p);
    case Kill(p) => KillKeeps(s, s', p);
    case Bread(p, b) => BreadKeeps(s, s', p, b);
    case Modify(p, b, v) => ModifyKeeps(s, s', p, b, v);
    case LogWrite(p, b) => LogWriteKeeps(s, s', p, b);
    case Brelse(p, b) => BrelseKeeps(s, s', p, b);
    case Drop(p, b) => DropKeeps(s, s', p, b);
    case Evict(b) => EvictKeeps(s, s', b);
    case GetLog => GetLogKeeps(s, s');
    case CopyToLog => CopyToLogKeeps(s, s');
    case WriteHead => WriteHeadKeeps(s, s');
    case CopyHome => CopyHomeKeeps(s, s');
    case EraseHead => EraseHeadKeeps(s, s');
    case Finish(p) => FinishKeeps(s, s', p);
    case ReadHead => ReadHeadKeeps(s, s');
    case Replay => ReplayKeeps(s, s');
    case EraseReplayed => EraseReplayedKeeps(s, s');
    case Crash => CrashKeeps(s, s');
  }

  lemma CrashKeeps(s: State, s': State)
    requires Inv(s) && DoCrash(s, s')
    ensures Inv(s') && AtomicStep(Abs(s), Reset, Abs(s'))
  {
    StartInv(s');
  }
}
