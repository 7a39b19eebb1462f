/** What each call of pipewrite puts into the pipe and each call of piperead takes out, told by the steps of a run
    alone. */
module PipeCalls {
  import opened Common
  import opened Pipe

  /** The bytes that the steps m..k-1 of agent a put into the pipe, in order. */
  ghost function PutBy(run: seq<State>, steps: seq<Step>, a: nat, m: nat, k: nat): seq<int>
    requires m <= k < |run| == |steps| + 1
    decreases k
  {
    if k == m then []
    else PutBy(run, steps, a, m, k - 1)
         + if steps[k - 1].a == a then Added(run[k - 1].enq, run[k].enq) else []
  }

  ghost function TakenBy(run: seq<State>, steps: seq<Step>, a: nat, m: nat, k: nat): seq<int>
    requires m <= k < |run| == |steps| + 1
    decreases k
  {
    if k == m then []
    else TakenBy(run, steps, a, m, k - 1)
         + if steps[k - 1].a == a then Added(run[k - 1].deq, run[k].deq) else []
  }

  /** What t has after s. */
  function Added(s: seq<int>, t: seq<int>): seq<int> { if |s| <= |t| then t[|s|..] else [] }

  /** The agent is in a pipewrite of src, i bytes of which are in the pipe. */
  predicate Writes(v: Agent, src: seq<int>, i: nat) {
    match v
    case WWant(t, j) => t == src && j == i
    case WLoop(t, j, _) => t == src && j == i
    case WTell(t, j, _) => t == src && j == i
    case WAsleep(t, j) => t == src && j == i
    case WEnd(j, _) => j == i
    case _ => false
  }

  lemma WriteMoves(s: State, s': State, st: Step, a: nat, src: seq<int>, i: nat)
    requires Next(s, s', st) && a < |s.agents| && Writes(s.agents[a], src, i) && i <= |src|
    ensures a < |s'.agents|
    ensures st.a != a ==> Writes(s'.agents[a], src, i)
    ensures st.a == a ==>
      || (s'.agents[a] == Idle && s'.enq == s.enq)
      || (Writes(s'.agents[a], src, i) && s'.enq == s.enq)
      || (i < |src| && Writes(s'.agents[a], src, i + 1) && s'.enq == s.enq + [src[i]])
  {
    match st
    case Write(w, t, j, flag) => WriterMoves(s, s', w, t, j, flag, a, src, i);
    case Read(r, n, j, flag) => ReaderMoves(s, s', r, n, j, flag, a, src, i);
    case Tell(w, t, l, j, writable) => TellMoves(s, s', w, t, l, j, writable, a, src, i);
    case Close(c, writable) =>
    case Kill(c) =>
  }

  lemma WriterMoves(s: State, s': State, w: nat, t: seq<int>, j: nat, flag: bool, a: nat, src: seq<int>, i: nat)
    requires WriteNext(s, s', w, t, j, flag) && a < |s.agents| && Writes(s.agents[a], src, i) && i <= |src|
    ensures a < |s'.agents|
    ensures w != a ==> Writes(s'.agents[a], src, i)
    ensures w == a ==>
      || (s'.agents[a] == Idle && s'.enq == s.enq)
      || (Writes(s'.agents[a], src, i) && s'.enq == s.enq)
      || (i < |src| && Writes(s'.agents[a], src, i + 1) && s'.enq == s.enq + [src[i]])
  {
  }

  lemma ReaderMoves(s: State, s': State, r: nat, n: nat, j: nat, flag: bool, a: nat, src: seq<int>, i: nat)
    requires ReadNext(s, s', r, n, j, flag) && a < |s.agents| && Writes(s.agents[a], src, i)
    ensures a < |s'.agents| && r != a && Writes(s'.agents[a], src, i)
  {
  }

  lemma TellMoves(s: State, s': State, w: nat, t: seq<int>, l: nat, j: nat, writable: bool, a: nat, src: seq<int>,
                  i: nat)
    requires TellNext(s, s', w, t, l, j, writable) && a < |s.agents| && Writes(s.agents[a], src, i)
    ensures a < |s'.agents| && s'.enq == s.enq
    ensures Writes(s'.agents[a], src, i) || (w == a && s'.agents[a] == Idle)
  {
  }

  /** A pipewrite of src by a begins with step m and has not returned by state k. */
  predicate WriteCall(run: seq<State>, steps: seq<Step>, m: nat, k: nat, a: nat, src: seq<int>) {
    && IsRun(run, steps) && m < k < |run| && DoWStart(run[m], run[m + 1], a, src)
    && forall l :: m < l <= k ==> a < |run[l].agents| && run[l].agents[a] != Idle
  }

  lemma PutNext(run: seq<State>, steps: seq<Step>, a: nat, m: nat, k: nat, src: seq<int>, i: nat) returns (i': nat)
    requires m <= k < |steps| && |run| == |steps| + 1 && Next(run[k], run[k + 1], steps[k])
    requires a < |run[k].agents| && a < |run[k + 1].agents| && run[k + 1].agents[a] != Idle
    requires i <= |src| && Writes(run[k].agents[a], src, i) && PutBy(run, steps, a, m, k) == src[..i]
    ensures i <= i' <= |src| && Writes(run[k + 1].agents[a], src, i') && PutBy(run, steps, a, m, k + 1) == src[..i']
  {
    WriteMoves(run[k], run[k + 1], steps[k], a, src, i);
    hide Next, Writes;
    if steps[k].a == a && run[k + 1].enq != run[k].enq {
      i' := i + 1;
      assert src[..i] + [src[i]] == src[..i + 1];
    } else {
      i' := i;
    }
  }

  lemma WriteBegins(run: seq<State>, steps: seq<Step>, m: nat, a: nat, src: seq<int>)
    requires |run| == |steps| + 1 && m < |steps| && DoWStart(run[m], run[m + 1], a, src)
    ensures a < |run[m + 1].agents| && Writes(run[m + 1].agents[a], src, 0) && !run[m + 1].agents[a].WEnd?
    ensures PutBy(run, steps, a, m + 1, m + 1) == src[..0]
  {
  }

  /** A pipewrite puts in the bytes it was given, in order and each once: when it has written i of them, the pipe has
      got src[..i] from it; so it has when it returns i. */
  lemma {:induction false} WriteDelivers(run: seq<State>, steps: seq<Step>, m: nat, k: nat, a: nat, src: seq<int>)
    returns (i: nat)
    requires WriteCall(run, steps, m, k, a, src)
    ensures i <= |src| && a < |run[k].agents| && Writes(run[k].agents[a], src, i)
    ensures PutBy(run, steps, a, m + 1, k) == src[..i]
    decreases k
  {
    hide Next, Init, Writes, DoWStart;
    if k == m + 1 {
      WriteBegins(run, steps, m, a, src);
      i := 0;
    } else {
      i := WriteDelivers(run, steps, m, k - 1, a, src);
      i := PutNext(run, steps, a, m + 1, k - 1, src, i);
    }
  }

  /** Step l is one of a's at which a copy from or to the user fails. */
  predicate Faults(steps: seq<Step>, a: nat, l: int) {
    0 <= l < |steps| && steps[l].a == a && (steps[l].Write? || steps[l].Read?) && steps[l].flag
  }

  lemma EndMoves(s: State, s': State, st: Step, a: nat, src: seq<int>, i: nat)
    requires Next(s, s', st) && a < |s.agents| && Writes(s.agents[a], src, i) && a < |s'.agents| && s'.agents[a].WEnd?
    ensures s.agents[a].WEnd? || i >= |src| || (st.a == a && st.Write? && st.flag)
  {
    if st.Tell? {
      TellStarts(s, s', st.a, st.src, st.i, st.j, st.writable, a);
    } else if st.Write? {
      WriteStarts(s, s', st.a, st.src, st.i, st.flag, a);
    }
    hide TellNext, WriteNext;
  }

  lemma WriteStarts(s: State, s': State, w: nat, t: seq<int>, j: nat, flag: bool, a: nat)
    requires WriteNext(s, s', w, t, j, flag) && a < |s.agents| && a < |s'.agents| && s'.agents[a].WEnd?
    ensures s.agents[a].WEnd? || (w == a && (flag || (s.agents[a].WLoop? && s.agents[a].i >= |s.agents[a].src|)))
  {
  }

  lemma TellStarts(s: State, s': State, w: nat, t: seq<int>, l: nat, j: nat, writable: bool, a: nat)
    requires TellNext(s, s', w, t, l, j, writable) && a < |s.agents| && a < |s'.agents| && s'.agents[a].WEnd?
    ensures s.agents[a].WEnd?
  {
  }

  /** A pipewrite that is neither killed nor meets a failing copy returns when all its bytes are in, and not before. */
  lemma {:induction false} WriteIsWhole(run: seq<State>, steps: seq<Step>, m: nat, k: nat, a: nat, src: seq<int>)
    returns (i: nat)
    requires WriteCall(run, steps, m, k, a, src) && forall l :: m < l < k ==> !Faults(steps, a, l)
    ensures i <= |src| && a < |run[k].agents| && Writes(run[k].agents[a], src, i)
    ensures PutBy(run, steps, a, m + 1, k) == src[..i] && (run[k].agents[a].WEnd? ==> i == |src|)
    decreases k
  {
    hide Next, Init, Writes, DoWStart;
    if k == m + 1 {
      WriteBegins(run, steps, m, a, src);
      i := 0;
    } else {
      i := WriteIsWhole(run, steps, m, k - 1, a, src);
      var j := i;
      i := PutNext(run, steps, a, m + 1, k - 1, src, j);
      if run[k].agents[a].WEnd? {
        EndMoves(run[k - 1], run[k], steps[k - 1], a, src, j);
        assert !Faults(steps, a, k - 1);
      }
    }
  }

  // ---------------------------------------------------------------- piperead

  /** The agent is in a piperead of n that has handed i bytes to its caller; `lost` says that it has taken one more,
      which it could not hand over. */
  predicate Reads(v: Agent, n: nat, i: nat, lost: bool) {
    match v
    case RWant(x) => x == n && i == 0 && !lost
    case RWait(x) => x == n && i == 0 && !lost
    case RAsleep(x) => x == n && i == 0 && !lost
    case RCopy(x, j) => x == n && j == i && !lost
    case REnd(j, _) => j == i
    case _ => false
  }

  lemma ReadMoves(s: State, s': State, st: Step, a: nat, n: nat, i: nat, lost: bool)
    requires Next(s, s', st) && a < |s.agents| && Reads(s.agents[a], n, i, lost)
    ensures a < |s'.agents|
    ensures st.a != a ==> Reads(s'.agents[a], n, i, lost)
    ensures st.a == a ==>
      || (s'.agents[a] == Idle && s'.deq == s.deq)
      || (Reads(s'.agents[a], n, i, lost) && s'.deq == s.deq)
      || (!lost && i < n && |s'.deq| == |s.deq| + 1 && s.deq <= s'.deq && st.Read?
          && if st.flag then Reads(s'.agents[a], n, i, true) else Reads(s'.agents[a], n, i + 1, false))
  {
    match st
    case Write(w, t, j, flag) => ReadWriter(s, s', w, t, j, flag, a, n, i, lost);
    case Read(r, x, j, flag) => ReadReader(s, s', r, x, j, flag, a, n, i, lost);
    case Tell(w, t, l, j, writable) => ReadTell(s, s', w, t, l, j, writable, a, n, i, lost);
    case Close(c, writable) =>
    case Kill(c) =>
  }

  lemma ReadReader(s: State, s': State, r: nat, x: nat, j: nat, flag: bool, a: nat, n: nat, i: nat, lost: bool)
    requires ReadNext(s, s', r, x, j, flag) && a < |s.agents| && Reads(s.agents[a], n, i, lost)
    ensures a < |s'.agents|
    ensures r != a ==> Reads(s'.agents[a], n, i, lost)
    ensures r == a ==>
      || (s'.agents[a] == Idle && s'.deq == s.deq)
      || (Reads(s'.agents[a], n, i, lost) && s'.deq == s.deq)
      || (!lost && i < n && |s'.deq| == |s.deq| + 1 && s.deq <= s'.deq
          && if flag then Reads(s'.agents[a], n, i, true) else Reads(s'.agents[a], n, i + 1, false))
  {
  }

  lemma ReadWriter(s: State, s': State, w: nat, t: seq<int>, j: nat, flag: bool, a: nat, n: nat, i: nat, lost: bool)
    requires WriteNext(s, s', w, t, j, flag) && a < |s.agents| && Reads(s.agents[a], n, i, lost)
    ensures a < |s'.agents| && w != a && Reads(s'.agents[a], n, i, lost)
  {
  }

  lemma ReadTell(s: State, s': State, w: nat, t: seq<int>, l: nat, j: nat, writable: bool, a: nat, n: nat, i: nat,
                 lost: bool)
    requires TellNext(s, s', w, t, l, j, writable) && a < |s.agents| && Reads(s.agents[a], n, i, lost)
    ensures a < |s'.agents| && s'.deq == s.deq
    ensures Reads(s'.agents[a], n, i, lost) || (w == a && s'.agents[a] == Idle)
  {
  }

  predicate ReadCall(run: seq<State>, steps: seq<Step>, m: nat, k: nat, a: nat, n: nat) {
    && IsRun(run, steps) && m < k < |run| && DoRStart(run[m], run[m + 1], a, n)
    && forall l :: m < l <= k ==> a < |run[l].agents| && run[l].agents[a] != Idle
  }

  /** Among the steps m..k-1 there is one of a's at which a byte comes out of the pipe and its copy fails. */
  ghost predicate Loses(run: seq<State>, steps: seq<Step>, a: nat, m: nat, k: nat) {
    exists l :: m <= l < k && LosesAt(run, steps, a, l)
  }

  predicate LosesAt(run: seq<State>, steps: seq<Step>, a: nat, l: int) {
    Faults(steps, a, l) && l + 1 < |run| && |run[l].deq| < |run[l + 1].deq|
  }

  lemma TakeNext(run: seq<State>, steps: seq<Step>, a: nat, m: nat, k: nat, n: nat, i: nat, lost: bool)
    returns (i': nat, lost': bool)
    requires m <= k < |steps| && |run| == |steps| + 1 && Next(run[k], run[k + 1], steps[k])
    requires a < |run[k].agents| && a < |run[k + 1].agents| && run[k + 1].agents[a] != Idle
    requires Reads(run[k].agents[a], n, i, lost) && |TakenBy(run, steps, a, m, k)| == i + if lost then 1 else 0
    requires |TakenBy(run, steps, a, m, k)| <= n && (lost <==> Loses(run, steps, a, m, k))
    ensures Reads(run[k + 1].agents[a], n, i', lost')
    ensures |TakenBy(run, steps, a, m, k + 1)| == i' + if lost' then 1 else 0
    ensures |TakenBy(run, steps, a, m, k + 1)| <= n && (lost' <==> Loses(run, steps, a, m, k + 1))
  {
    ReadMoves(run[k], run[k + 1], steps[k], a, n, i, lost);
    hide Next, Reads;
    if steps[k].a == a && run[k + 1].deq != run[k].deq {
      i', lost' := if steps[k].flag then i else i + 1, steps[k].flag;
      assert lost' ==> LosesAt(run, steps, a, k);
    } else {
      i', lost' := i, lost;
    }
    LosesNext(run, steps, a, m, k);
  }

  lemma LosesNext(run: seq<State>, steps: seq<Step>, a: nat, m: nat, k: nat)
    requires m <= k
    ensures Loses(run, steps, a, m, k + 1) <==> Loses(run, steps, a, m, k) || LosesAt(run, steps, a, k)
  {
    hide LosesAt;
  }

  lemma ReadBegins(run: seq<State>, steps: seq<Step>, m: nat, a: nat, n: nat)
    requires |run| == |steps| + 1 && m < |steps| && DoRStart(run[m], run[m + 1], a, n)
    ensures a < |run[m + 1].agents| && Reads(run[m + 1].agents[a], n, 0, false)
    ensures TakenBy(run, steps, a, m + 1, m + 1) == [] && !Loses(run, steps, a, m + 1, m + 1)
  {
  }

  /** A piperead of n takes at most n bytes from the front of the pipe, as many as it returns; and one more if and
      only if that one could not be copied to its caller, and is lost. */
  lemma {:induction false} ReadTakes(run: seq<State>, steps: seq<Step>, m: nat, k: nat, a: nat, n: nat)
    returns (i: nat, lost: bool)
    requires ReadCall(run, steps, m, k, a, n)
    ensures a < |run[k].agents| && Reads(run[k].agents[a], n, i, lost)
    ensures |TakenBy(run, steps, a, m + 1, k)| == (i + if lost then 1 else 0) <= n
    ensures lost <==> Loses(run, steps, a, m + 1, k)
    decreases k
  {
    hide Next, Init, Reads, DoRStart, Loses;
    if k == m + 1 {
      ReadBegins(run, steps, m, a, n);
      i, lost := 0, false;
    } else {
      i, lost := ReadTakes(run, steps, m, k - 1, a, n);
      i, lost := TakeNext(run, steps, a, m + 1, k - 1, n, i, lost);
    }
  }

  /** A reader that has taken nothing yet has found bytes in the pipe, or its write end closed. */
  predicate FoundOk(s: State, a: nat) {
    a < |s.agents| && s.agents[a].RCopy? && s.agents[a].i == 0 ==> !Empty(s) || !s.writeopen
  }

  lemma FoundWrite(s: State, s': State, w: nat, t: seq<int>, j: nat, flag: bool, a: nat)
    requires AgentOk(s, a) && AgentOk(s, w) && WriteNext(s, s', w, t, j, flag) && FoundOk(s, a)
    ensures FoundOk(s', a)
  {
  }

  lemma FoundRead(s: State, s': State, r: nat, x: nat, j: nat, flag: bool, a: nat)
    requires AgentOk(s, a) && AgentOk(s, r) && ReadNext(s, s', r, x, j, flag) && FoundOk(s, a)
    ensures FoundOk(s', a)
  {
  }

  lemma FoundTell(s: State, s': State, w: nat, t: seq<int>, l: nat, j: nat, writable: bool, a: nat)
    requires TellNext(s, s', w, t, l, j, writable) && FoundOk(s, a)
    ensures FoundOk(s', a)
  {
  }

  lemma FoundStep(s: State, s': State, st: Step, a: nat)
    requires Inv(s) && Next(s, s', st) && FoundOk(s, a)
    ensures FoundOk(s', a)
  {
    assert AgentOk(s, a) && AgentOk(s, st.a);
    hide Inv, AgentOk, FoundOk, WriteNext, ReadNext, TellNext;
    match st
    case Write(w, t, j, flag) => FoundWrite(s, s', w, t, j, flag, a);
    case Read(r, x, j, flag) => FoundRead(s, s', r, x, j, flag, a);
    case Tell(w, t, l, j, writable) => FoundTell(s, s', w, t, l, j, writable, a);
    case Close(c, writable) => FoundClose(s, s', c, writable, a);
    case Kill(c) => FoundClose(s, s', c, false, a);
  }

  lemma FoundClose(s: State, s': State, c: nat, writable: bool, a: nat)
    requires AgentOk(s, a) && FoundOk(s, a)
    requires DoCStart(s, s', c, writable) || DoClose(s, s', c, writable) || DoKill(s, s', c)
    ensures FoundOk(s', a)
  {
  }

  lemma {:induction false} RunFound(run: seq<State>, steps: seq<Step>, k: nat, a: nat)
    requires IsRun(run, steps) && k < |run|
    ensures FoundOk(run[k], a)
  {
    if k > 0 {
      hide Next, Inv, Init, FoundOk;
      RunFound(run, steps, k - 1, a);
      RunInv(run, steps, k - 1);
      FoundStep(run[k - 1], run[k], steps[k - 1], a);
    }
  }

  /** Unless a copy fails, piperead stops with fewer than n bytes only where the pipe is empty, and with none only at
      the end of the file: the write end is closed. */
  lemma ReadEnds(run: seq<State>, steps: seq<Step>, k: nat, a: nat, n: nat, i: nat)
    requires IsRun(run, steps) && k < |steps| && a < |run[k].agents| && run[k].agents[a] == RCopy(n, i)
    requires a < |run[k + 1].agents| && run[k + 1].agents[a].REnd? && !Faults(steps, a, k)
    ensures i >= n || (run[k].enq == run[k].deq && (i == 0 ==> !run[k].writeopen))
  {
    RunFound(run, steps, k, a);
    RunInv(run, steps, k);
    CountersExact(run[k]);
    FifoAlways(run, steps, k);
    assert Next(run[k], run[k + 1], steps[k]);
    hide Inv, FifoOk, Init, Buffered;
    SameAgents(run[k], run[k + 1], steps[k]);
    EndsRead(run[k], run[k + 1], steps[k], a, n, i);
  }

  lemma SameAgents(s: State, s': State, st: Step)
    requires Next(s, s', st)
    ensures |s'.agents| == |s.agents|
  {
    hide WriteNext, ReadNext, TellNext;
    match st
    case Write(w, t, j, flag) => SameWritten(s, s', w, t, j, flag);
    case Read(r, x, j, flag) => SameRead(s, s', r, x, j, flag);
    case Tell(w, t, l, j, writable) => SameTold(s, s', w, t, l, j, writable);
    case Close(c, writable) =>
    case Kill(c) =>
  }

  lemma SameWritten(s: State, s': State, w: nat, t: seq<int>, j: nat, flag: bool)
    requires WriteNext(s, s', w, t, j, flag)
    ensures |s'.agents| == |s.agents|
  {
  }

  lemma SameRead(s: State, s': State, r: nat, x: nat, j: nat, flag: bool)
    requires ReadNext(s, s', r, x, j, flag)
    ensures |s'.agents| == |s.agents|
  {
  }

  lemma SameTold(s: State, s': State, w: nat, t: seq<int>, l: nat, j: nat, writable: bool)
    requires TellNext(s, s', w, t, l, j, writable)
    ensures |s'.agents| == |s.agents|
  {
  }

  lemma EndsRead(s: State, s': State, st: Step, a: nat, n: nat, i: nat)
    requires Next(s, s', st) && a < |s.agents| && s.agents[a] == RCopy(n, i) && a < |s'.agents| && s'.agents[a].REnd?
    requires |s'.agents| == |s.agents|
    ensures st.Read? && st.a == a && (st.flag || i >= n || Empty(s))
  {
    hide TellNext, WriteNext;
    if st.Tell? { CopyTell(s, s', st.a, st.src, st.i, st.j, st.writable, a); }
    if st.Write? { CopyWrite(s, s', st.a, st.src, st.i, st.flag, a); }
  }

  lemma CopyWrite(s: State, s': State, w: nat, t: seq<int>, j: nat, flag: bool, a: nat)
    requires WriteNext(s, s', w, t, j, flag) && a < |s.agents| == |s'.agents| && s.agents[a].RCopy?
    ensures s'.agents[a] == s.agents[a]
  {
  }

  lemma CopyTell(s: State, s': State, w: nat, t: seq<int>, l: nat, j: nat, writable: bool, a: nat)
    requires TellNext(s, s', w, t, l, j, writable) && a < |s.agents| == |s'.agents| && s.agents[a].RCopy?
    ensures s'.agents[a] == s.agents[a]
  {
  }

  // ---------------------------------------------------------------- giving up

  /** pipewrite returns -1 only with bytes left to write, and only when the read end is closed or the process killed;
      and when the read end is closed it does. */
  lemma WriteGivesUp(run: seq<State>, steps: seq<Step>, k: nat, a: nat, src: seq<int>, i: nat)
    requires IsRun(run, steps) && k < |steps| && Looping(run[k], a, src, i) && steps[k].a == a && !steps[k].Kill?
    ensures a < |run[k + 1].agents| && steps[k].Write?
    ensures run[k + 1].agents[a] == Idle ==> i < |src| && (!run[k].readopen || steps[k].flag)
    ensures i < |src| && !run[k].readopen ==> run[k + 1].agents[a] == Idle
  {
    assert Next(run[k], run[k + 1], steps[k]);
    hide Init, Full, Empty, IsRun;
  }

  /** piperead returns -1 only for a killed process that would have to wait, and goes on to copy if and only if there
      are bytes or no writer. */
  lemma ReadGivesUp(run: seq<State>, steps: seq<Step>, k: nat, a: nat, n: nat)
    requires IsRun(run, steps) && k < |steps| && At(run[k], a, RWait(n)) && steps[k].a == a && !steps[k].Kill?
    ensures a < |run[k + 1].agents| && steps[k].Read?
    ensures run[k + 1].agents[a] == Idle ==> steps[k].flag && run[k].enq == run[k].deq && run[k].writeopen
    ensures run[k + 1].agents[a] == RCopy(n, 0) <==> !(run[k].enq == run[k].deq && run[k].writeopen)
  {
    RunInv(run, steps, k);
    CountersExact(run[k]);
    FifoAlways(run, steps, k);
    assert Next(run[k], run[k + 1], steps[k]);
    hide Init, IsRun, Inv, FifoOk, Buffered;
  }

  /** The k-th state of the run below: one process, which writes a byte and reads it. */
  function Losing(k: nat): State {
    var agent := match k
      case 1 => WWant([7], 0)
      case 2 => WLoop([7], 0, 0)
      case 3 => WLoop([7], 1, 0)
      case 4 => WEnd(1, 0)
      case 5 => WEnd(1, 1)
      case 7 => RWant(1)
      case 8 => RWait(1)
      case 9 => RCopy(1, 0)
      case 10 => REnd(0, 0)
      case _ => Idle;
    var lock := if 2 <= k <= 5 || 8 <= k then Held(0) else Free;
    var blank := seq(PIPESIZE, _ => 0);
    State(if k < 3 then blank else blank[0 := 7], if k < 10 then 0 else 1, if k < 3 then 0 else 1, true, true,
          lock, [agent], if k < 3 then [] else [7], if k < 10 then [] else [7])
  }

  lemma LosingWrites()
    ensures Init(Losing(0)) && Next(Losing(0), Losing(1), Write(0, [7], 0, false))
    ensures Next(Losing(1), Losing(2), Write(0, [7], 0, false)) && Next(Losing(2), Losing(3), Write(0, [7], 0, false))
    ensures Next(Losing(3), Losing(4), Write(0, [7], 1, false))
  {
    assert DoWStart(Losing(0), Losing(1), 0, [7]) && DoWAcquire(Losing(1), Losing(2), 0, [7], 0);
    assert DoWByte(Losing(2), Losing(3), 0, [7], 0) && DoWDone(Losing(3), Losing(4), 0, [7], 1, false);
  }

  lemma LosingTells()
    ensures Next(Losing(4), Losing(5), Tell(0, [], 1, 0, true)) && Next(Losing(5), Losing(6), Tell(0, [], 1, 1, true))
  {
    assert DoWEnd(Losing(4), Losing(5), 0, 1, 0) && DoWEnd(Losing(5), Losing(6), 0, 1, 1);
  }

  lemma LosingReads()
    ensures Next(Losing(6), Losing(7), Read(0, 1, 0, false)) && Next(Losing(7), Losing(8), Read(0, 1, 0, false))
    ensures Next(Losing(8), Losing(9), Read(0, 1, 0, false))
  {
    assert DoRStart(Losing(6), Losing(7), 0, 1) && DoRAcquire(Losing(7), Losing(8), 0, 1);
    assert DoRGo(Losing(8), Losing(9), 0, 1);
  }

  lemma LosingLoses()
    ensures Next(Losing(9), Losing(10), Read(0, 1, 0, true))
  {
    assert DoRByte(Losing(9), Losing(10), 0, 1, 0, true);
  }

  /** A run in which the only byte of the pipe is taken by a piperead that returns 0. */
  lemma LostByte() returns (run: seq<State>, steps: seq<Step>)
    ensures IsRun(run, steps) && |run| == 11 && ReadCall(run, steps, 6, 10, 0, 1)
    ensures run[10].agents == [REnd(0, 0)] && run[10].enq == run[10].deq == [7] && run[9].deq == []
  {
    LosingWrites();
    LosingTells();
    LosingReads();
    LosingLoses();
    hide Next, Init;
    run := [Losing(0), Losing(1), Losing(2), Losing(3), Losing(4), Losing(5), Losing(6), Losing(7), Losing(8),
            Losing(9), Losing(10)];
    var write, read := Write(0, [7], 0, false), Read(0, 1, 0, false);
    steps := [write, write, write, Write(0, [7], 1, false), Tell(0, [], 1, 0, true), Tell(0, [], 1, 1, true),
              read, read, read, Read(0, 1, 0, true)];
  }

  // ---------------------------------------------------------------- pipeclose

  predicate ClosesAt(run: seq<State>, steps: seq<Step>, writable: bool, i: int) {
    0 <= i < |steps| && |run| == |steps| + 1 && steps[i].Close? && steps[i].writable == writable
    && DoClose(run[i], run[i + 1], steps[i].a, writable)
  }

  lemma EndsStep(s: State, s': State, st: Step)
    requires Next(s, s', st)
    ensures var closes := st.Close? && DoClose(s, s', st.a, st.writable);
            && s'.writeopen == (s.writeopen && !(closes && st.writable))
            && s'.readopen == (s.readopen && !(closes && !st.writable))
  {
    hide Full, Empty;
    match st
    case Write(w, t, j, flag) => EndsWritten(s, s', w, t, j, flag);
    case Read(r, x, j, flag) => EndsTaken(s, s', r, x, j, flag);
    case Tell(w, t, l, j, writable) => EndsTold(s, s', w, t, l, j, writable);
    case Close(c, writable) =>
    case Kill(c) =>
  }

  lemma EndsWritten(s: State, s': State, w: nat, t: seq<int>, j: nat, flag: bool)
    requires WriteNext(s, s', w, t, j, flag)
    ensures s'.writeopen == s.writeopen && s'.readopen == s.readopen
  {
  }

  lemma EndsTaken(s: State, s': State, r: nat, x: nat, j: nat, flag: bool)
    requires ReadNext(s, s', r, x, j, flag)
    ensures s'.writeopen == s.writeopen && s'.readopen == s.readopen
  {
  }

  lemma EndsTold(s: State, s': State, w: nat, t: seq<int>, l: nat, j: nat, writable: bool)
    requires TellNext(s, s', w, t, l, j, writable)
    ensures s'.writeopen == s.writeopen && s'.readopen == s.readopen
  {
  }

  /** An end of the pipe is open until it is closed. */
  lemma {:induction false} OpenExactly(run: seq<State>, steps: seq<Step>, k: nat, writable: bool)
    requires IsRun(run, steps) && k < |run|
    ensures (if writable then run[k].writeopen else run[k].readopen) <==>
            forall i :: 0 <= i < k ==> !ClosesAt(run, steps, writable, i)
  {
    if k > 0 {
      hide Next, Init, DoClose;
      OpenExactly(run, steps, k - 1, writable);
      EndsStep(run[k - 1], run[k], steps[k - 1]);
      var closed := ClosesAt(run, steps, writable, k - 1);
      hide ClosesAt;
    }
  }
}
