/** What readers of a pipe may rely on: whoever sleeps in piperead finds the pipe empty, unless a writer gave
    up after it had stored bytes, and then not. */
module PipeReaders {
  import opened Common
  import opened Pipe

  /** A writer is killed where it has stored bytes since it got the lock: it returns without waking the readers. */
  predicate Strands(s: State, s': State, st: Step) {
    && st.Write? && DoWQuit(s, s', st.a, st.src, st.i, st.flag)
    && st.a < |s.agents| && s.agents[st.a].WLoop? && s.agents[st.a].i > s.agents[st.a].from
  }

  /** The lock's holder will wake reader a, if it is asleep, before it lets go; or it has stored bytes. */
  predicate Owed(s: State, a: nat) {
    && s.lock.Held? && s.lock.who < |s.agents|
    && var v := s.agents[s.lock.who];
       (v.WLoop? && v.i > v.from) || (v.WTell? && v.j <= a) || (v.WEnd? && v.j <= a)
           || (v.CEnd? && v.writable && v.j <= a)
  }

  predicate ReaderOk(s: State, a: nat) {
    a < |s.agents| && s.agents[a].RAsleep? ==> Owed(s, a) || (Empty(s) && s.writeopen)
  }

  /** A writer that has stored bytes since it got the lock has left them in the pipe. */
  predicate StoredOk(s: State, w: nat) {
    w < |s.agents| && s.agents[w].WLoop? ==>
      s.agents[w].from <= s.agents[w].i && (s.agents[w].i > s.agents[w].from ==> |s.enq| > |s.deq|)
  }

  ghost predicate StoredInv(s: State) { forall w: nat :: StoredOk(s, w) }

  lemma WriteStored(s: State, s': State, a: nat, src: seq<int>, i: nat, flag: bool, w: nat)
    requires AgentOk(s, w) && AgentOk(s, a) && WriteNext(s, s', a, src, i, flag) && StoredOk(s, w) && |s.enq| >= |s.deq|
    ensures StoredOk(s', w)
  {
  }

  lemma ReadStored(s: State, s': State, a: nat, n: nat, i: nat, flag: bool, w: nat)
    requires AgentOk(s, w) && AgentOk(s, a) && ReadNext(s, s', a, n, i, flag) && StoredOk(s, w)
    ensures StoredOk(s', w)
  {
  }

  lemma TellStored(s: State, s': State, a: nat, src: seq<int>, i: nat, j: nat, writable: bool, w: nat)
    requires TellNext(s, s', a, src, i, j, writable) && StoredOk(s, w)
    ensures StoredOk(s', w)
  {
  }

  lemma CloseStored(s: State, s': State, c: nat, writable: bool, w: nat)
    requires StoredOk(s, w) && (DoCStart(s, s', c, writable) || DoClose(s, s', c, writable) || DoKill(s, s', c))
    ensures StoredOk(s', w)
  {
  }

  lemma StoredKept(s: State, s': State, st: Step, w: nat)
    requires AgentOk(s, w) && AgentOk(s, st.a) && Next(s, s', st) && StoredOk(s, w) && |s.enq| >= |s.deq|
    ensures StoredOk(s', w)
  {
    hide AgentOk, StoredOk, WriteNext, ReadNext, TellNext, DoCStart, DoClose, DoKill;
    match st
    case Write(a, src, i, flag) => WriteStored(s, s', a, src, i, flag, w);
    case Read(a, n, i, flag) => ReadStored(s, s', a, n, i, flag, w);
    case Tell(a, src, i, j, writable) => TellStored(s, s', a, src, i, j, writable, w);
    case Close(c, writable) => CloseStored(s, s', c, writable, w);
    case Kill(c) => CloseStored(s, s', c, false, w);
  }

  lemma WriteReader(s: State, s': State, w: nat, src: seq<int>, i: nat, flag: bool, a: nat)
    requires AgentOk(s, w) && WriteNext(s, s', w, src, i, flag)
    requires !Strands(s, s', Write(w, src, i, flag)) && ReaderOk(s, a)
    requires StoredOk(s, w) && (Empty(s) <==> |s.enq| == |s.deq|) && (Full(s) <==> |s.enq| == |s.deq| + PIPESIZE)
    requires Empty(s') <==> |s'.enq| == |s'.deq|
    ensures ReaderOk(s', a)
  {
  }

  lemma ReadReader(s: State, s': State, r: nat, n: nat, i: nat, flag: bool, a: nat)
    requires AgentOk(s, r) && ReadNext(s, s', r, n, i, flag) && ReaderOk(s, a)
    ensures ReaderOk(s', a)
  {
  }

  lemma TellReader(s: State, s': State, w: nat, src: seq<int>, i: nat, j: nat, writable: bool, a: nat)
    requires AgentOk(s, w) && TellNext(s, s', w, src, i, j, writable) && ReaderOk(s, a)
    ensures ReaderOk(s', a)
  {
  }

  lemma CloseReader(s: State, s': State, c: nat, writable: bool, a: nat)
    requires AgentOk(s, c) && ReaderOk(s, a)
    requires DoCStart(s, s', c, writable) || DoClose(s, s', c, writable) || DoKill(s, s', c)
    ensures ReaderOk(s', a)
  {
  }

  /** Every step but a stranding one keeps: a sleeping reader has an empty pipe with a writer, or is owed a wakeup. */
  lemma ReaderKept(s: State, s': State, st: Step, a: nat)
    requires Inv(s) && Inv(s') && StoredInv(s) && Next(s, s', st) && !Strands(s, s', st) && ReaderOk(s, a)
    ensures ReaderOk(s', a)
  {
    CountersExact(s);
    CountersExact(s');
    assert AgentOk(s, st.a) && StoredOk(s, st.a);
    hide Inv, StoredInv, AgentOk, StoredOk, ReaderOk, Strands, Empty, Full;
    match st
    case Write(w, src, i, flag) => WriteReader(s, s', w, src, i, flag, a);
    case Read(r, n, i, flag) => ReadReader(s, s', r, n, i, flag, a);
    case Tell(w, src, i, j, writable) => TellReader(s, s', w, src, i, j, writable, a);
    case Close(c, writable) => CloseReader(s, s', c, writable, a);
    case Kill(c) => CloseReader(s, s', c, false, a);
  }

  // ---------------------------------------------------------------- every run

  lemma {:induction false} RunStored(run: seq<State>, steps: seq<Step>, i: nat)
    requires IsRun(run, steps) && i < |run|
    ensures StoredInv(run[i])
  {
    if i > 0 {
      RunStored(run, steps, i - 1);
      RunInv(run, steps, i - 1);
      var s, s', st := run[i - 1], run[i], steps[i - 1];
      assert Next(s, s', st);
      hide Next, StoredOk;
      forall w: nat ensures StoredOk(s', w) {
        assert StoredOk(s, w) && AgentOk(s, w) && AgentOk(s, st.a);
        StoredKept(s, s', st, w);
      }
    }
  }

  lemma {:induction false} RunReader(run: seq<State>, steps: seq<Step>, m: nat, i: nat, a: nat)
    requires IsRun(run, steps) && m <= i < |run| && ReaderOk(run[m], a)
    requires forall k :: m <= k < i ==> !Strands(run[k], run[k + 1], steps[k])
    ensures ReaderOk(run[i], a)
    decreases i
  {
    if m < i {
      hide Next, Inv, StoredInv, ReaderOk, Strands, Init;
      RunReader(run, steps, m, i - 1, a);
      RunInv(run, steps, i - 1);
      RunInv(run, steps, i);
      RunStored(run, steps, i - 1);
      assert Next(run[i - 1], run[i - 1 + 1], steps[i - 1]) && !Strands(run[i - 1], run[i - 1 + 1], steps[i - 1]);
      ReaderKept(run[i - 1], run[i], steps[i - 1], a);
    }
  }

  /** When nobody holds the lock, a reader that sleeps in piperead has reason to, if no writer has given up
      after storing bytes since the reader was last awake. */
  lemma ReaderAsleepMeansEmpty(run: seq<State>, steps: seq<Step>, m: nat, i: nat, a: nat)
    requires IsRun(run, steps) && m <= i < |run| && a < |run[i].agents|
    requires a < |run[m].agents| && !run[m].agents[a].RAsleep?
    requires forall k :: m <= k < i ==> !Strands(run[k], run[k + 1], steps[k])
    requires run[i].lock.Free? && run[i].agents[a].RAsleep?
    ensures run[i].enq == run[i].deq && run[i].writeopen
  {
    RunReader(run, steps, m, i, a);
    RunInv(run, steps, i);
    CountersExact(run[i]);
    FifoAlways(run, steps, i);
  }

  /** A writer that gives up while a reader sleeps that had reason to: the reader sleeps on without one if and
      only if the writer has stored bytes since it got the lock. */
  lemma StrandsExactly(run: seq<State>, steps: seq<Step>, m: nat, i: nat, a: nat)
    requires IsRun(run, steps) && m <= i < |steps| && a < |run[m].agents| && !run[m].agents[a].RAsleep?
    requires forall k :: m <= k < i ==> !Strands(run[k], run[k + 1], steps[k])
    requires a < |run[i].agents| && run[i].agents[a].RAsleep?
    requires steps[i].Write? && DoWQuit(run[i], run[i + 1], steps[i].a, steps[i].src, steps[i].i, steps[i].flag)
    ensures a < |run[i + 1].agents| && run[i + 1].agents[a].RAsleep? && run[i + 1].lock.Free?
    ensures Strands(run[i], run[i + 1], steps[i]) <==> !(run[i + 1].enq == run[i + 1].deq && run[i + 1].writeopen)
  {
    RunReader(run, steps, m, i, a);
    RunInv(run, steps, i);
    RunStored(run, steps, i);
    CountersExact(run[i]);
    FifoAlways(run, steps, i);
    assert StoredOk(run[i], steps[i].a) && AgentOk(run[i], steps[i].a);
  }

  /** The k-th state of the run below: reader 0, and writer 1 with two bytes. */
  function Stranding(k: nat): State {
    var full := k >= 6;
    var reader := if k == 0 then Idle else if k == 1 then RWant(1) else if k == 2 then RWait(1) else RAsleep(1);
    var writer := if k == 4 then WWant([7, 7], 0) else if k == 5 then WLoop([7, 7], 0, 0)
                  else if k == 6 then WLoop([7, 7], 1, 0) else Idle;
    State(seq(PIPESIZE, j => if full && j == 0 then 7 else 0), 0, if full then 1 else 0, true, true,
          if k == 2 then Held(0) else if k == 5 || k == 6 then Held(1) else Free, [reader, writer],
          if full then [7] else [], [])
  }

  lemma StrandingReads()
    ensures Init(Stranding(0)) && Next(Stranding(0), Stranding(1), Read(0, 1, 0, false))
    ensures Next(Stranding(1), Stranding(2), Read(0, 1, 0, false))
    ensures Next(Stranding(2), Stranding(3), Read(0, 1, 0, false))
  {
    assert DoRStart(Stranding(0), Stranding(1), 0, 1) && DoRAcquire(Stranding(1), Stranding(2), 0, 1);
    assert DoRSleep(Stranding(2), Stranding(3), 0, 1);
  }

  lemma StrandingWrites()
    ensures Next(Stranding(3), Stranding(4), Write(1, [7, 7], 0, false))
    ensures Next(Stranding(4), Stranding(5), Write(1, [7, 7], 0, false))
    ensures Next(Stranding(5), Stranding(6), Write(1, [7, 7], 0, false))
  {
    var s, t := Stranding(5), Stranding(6);
    assert DoWStart(Stranding(3), Stranding(4), 1, [7, 7]) && DoWAcquire(Stranding(4), Stranding(5), 1, [7, 7], 0);
    assert t.data == s.data[0 := 7] && s.enq + [7] == t.enq;
    assert DoWByte(s, t, 1, [7, 7], 0);
  }

  lemma StrandingQuits()
    ensures Next(Stranding(6), Stranding(7), Write(1, [7, 7], 1, true))
    ensures Strands(Stranding(6), Stranding(7), Write(1, [7, 7], 1, true))
  {
    assert DoWQuit(Stranding(6), Stranding(7), 1, [7, 7], 1, true);
  }

  /** Such a run: a reader sleeps, a writer stores one of two bytes and is killed. */
  lemma StrandedReader() returns (run: seq<State>, steps: seq<Step>)
    ensures IsRun(run, steps) && |run| == 8 && Strands(run[6], run[7], steps[6])
    ensures |run[7].agents| == 2 && run[7].lock.Free? && run[7].agents[0].RAsleep? && |run[7].enq| == |run[7].deq| + 1
  {
    hide Next, Init, Strands;
    StrandingReads();
    StrandingWrites();
    StrandingQuits();
    run := [Stranding(0), Stranding(1), Stranding(2), Stranding(3), Stranding(4),
        Stranding(5), Stranding(6), Stranding(7)];
    var read, write := Read(0, 1, 0, false), Write(1, [7, 7], 0, false);
    steps := [read, read, read, write, write, write, Write(1, [7, 7], 1, true)];
  }
}
