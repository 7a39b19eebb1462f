/** The parser of sh.c as it runs: loops over a cursor, and nulterminate writing into the text. */
module ShellCode {
  import opened Shell

  method SkipSpace(s: string, ps: nat) returns (p: nat)
    requires ps <= |s|
    ensures p == SkipWs(s, ps)
  {
    p := ps;
    while p < |s| && Ws(s[p])
      invariant ps <= p <= |s| && SkipWs(s, p) == SkipWs(s, ps)
    {
      p := p + 1;
    }
  }

  /** gettoken. */
  method GetTok(s: string, ps: nat) returns (t: Token)
    requires CString(s) && ps <= |s|
    ensures t == GetToken(s, ps)
  {
    var q := SkipSpace(s, ps);
    var p := q;
    var ret := At(s, p);
    if ret == NUL {
    } else if ret == '>' {
      p := p + 1;
      if At(s, p) == '>' {
        ret := '+';
        p := p + 1;
      }
    } else if Sym(ret) {
      p := p + 1;
    } else {
      ret := 'a';
      while p < |s| && !Ws(s[p]) && !Sym(s[p])
        invariant q <= p <= |s| && WordEnd(s, p) == WordEnd(s, q)
      {
        p := p + 1;
      }
    }
    var next := SkipSpace(s, p);
    return Token(ret, q, p, next);
  }

  /** peek: the cursor moves past white space whatever it finds. */
  method PeekTok(s: string, ps: nat, toks: string) returns (r: bool, p: nat)
    requires ps <= |s|
    ensures p == SkipWs(s, ps) && r == Peek(s, ps, toks)
  {
    p := SkipSpace(s, ps);
    r := At(s, p) != NUL && At(s, p) in toks;
  }

  /** One round of parseredirs's loop. */
  lemma RedirsStep(s: string, p: nat)
    requires p <= |s|
    ensures var p1 := SkipWs(s, p);
            if !Peek(s, p, "<>") then Redirs(s, p) == Ok([], p1)
            else
              var t := GetToken(s, p1);
              var f := GetToken(s, t.next);
              && (f.ret != 'a' ==> Redirs(s, p).Panic?) && f.next > p
              && (f.ret == 'a' ==>
                 MoreRedirs(Redirs(s, p), Redirs(s, f.next), [], [Redirect(Span(f.q, f.e), ModeOf(t.ret))]))
  {
  }

  /** `was` is what the loop still finds when it has rs0, `now` when it has rs. */
  ghost predicate MoreRedirs(was: Res<seq<Redirect>>, now: Res<seq<Redirect>>, rs0: seq<Redirect>, rs: seq<Redirect>) {
    (was.Ok? <==> now.Ok?) && (was.Ok? && now.Ok? ==> rs0 + was.val == rs + now.val && was.next == now.next)
  }

  lemma RedirsNext(was: Res<seq<Redirect>>, now: Res<seq<Redirect>>, rest: Res<seq<Redirect>>,
      rs0: seq<Redirect>, rs: seq<Redirect>, r: Redirect)
    requires MoreRedirs(was, now, rs0, rs) && MoreRedirs(now, rest, [], [r])
    ensures MoreRedirs(was, rest, rs0, rs + [r])
  {
    if rest.Ok? { assert now.val == [r] + rest.val && rs + ([r] + rest.val) == (rs + [r]) + rest.val; }
  }

  /** parseredirs: the redirections found are added to those there are. */
  method RedirsLoop(s: string, ps: nat, rs0: seq<Redirect>) returns (ok: bool, rs: seq<Redirect>, p: nat)
    requires CString(s) && ps <= |s|
    ensures ok <==> Redirs(s, ps).Ok?
    ensures ok ==> rs == rs0 + Redirs(s, ps).val && p == Redirs(s, ps).next
  {
    rs, p := rs0, ps;
    hide Redirs, SkipWs, GetToken, Peek;
    while true
      invariant ps <= p <= |s| && MoreRedirs(Redirs(s, ps), Redirs(s, p), rs0, rs)
      decreases |s| - p
    {
      RedirsStep(s, p);
      ghost var now := Redirs(s, p);
      var more;
      more, p := PeekTok(s, p, "<>");
      if !more { return true, rs, p; }
      var tok := GetTok(s, p);
      var f := GetTok(s, tok.next);
      if f.ret != 'a' { return false, rs, p; }
      var mode;
      if tok.ret == '<' { mode := Input; } else if tok.ret == '>' { mode := Output; } else { mode := Append; }
      var r := Redirect(Span(f.q, f.e), mode);
      RedirsNext(Redirs(s, ps), now, Redirs(s, f.next), rs0, rs, r);
      rs := rs + [r];
      p := f.next;
    }
  }

  /** One round of parseexec's loop. */
  lemma ArgsStep(s: string, p: nat, argc: nat)
    requires p <= |s| && argc < MAXARGS
    ensures var p1 := SkipWs(s, p);
            var t := GetToken(s, p1);
            if Peek(s, p, "|)&;") then Args(s, p, argc) == Ok(([], []), p1)
            else if t.ret == NUL then Args(s, p, argc) == Ok(([], []), t.next)
            else if t.ret != 'a' || argc + 1 >= MAXARGS || Redirs(s, t.next).Panic? then Args(s, p, argc).Panic?
            else
              var rs := Redirs(s, t.next);
              var now, rest := Args(s, p, argc), Args(s, rs.next, argc + 1);
              && rs.next > p && (now.Ok? <==> rest.Ok?)
              && (now.Ok? && rest.Ok? ==>
                 now.val.0 == [Span(t.q, t.e)] + rest.val.0
                     && now.val.1 == rs.val + rest.val.1 && now.next == rest.next)
  {
  }

  /** The loop of parseexec. */
  method ArgsLoop(s: string, ps: nat, rs0: seq<Redirect>) returns (ok: bool, argv: seq<Span>, rs: seq<Redirect>, p: nat)
    requires CString(s) && ps <= |s|
    ensures ok <==> Args(s, ps, 0).Ok?
    ensures ok ==> argv == Args(s, ps, 0).val.0 && rs == rs0 + Args(s, ps, 0).val.1 && p == Args(s, ps, 0).next
  {
    argv, rs, p := [], rs0, ps;
    hide Args, Redirs, SkipWs, GetToken, Peek;
    while true
      invariant ps <= p <= |s| && |argv| < MAXARGS && (Args(s, p, |argv|).Ok? <==> Args(s, ps, 0).Ok?)
      invariant ArgsSoFar(Args(s, ps, 0), Args(s, p, |argv|), argv, rs0, rs)
      decreases |s| - p
    {
      ArgsStep(s, p, |argv|);
      ghost var was, now := Args(s, ps, 0), Args(s, p, |argv|);
      var stop;
      stop, p := PeekTok(s, p, "|)&;");
      if stop { return true, argv, rs, p; }
      var t := GetTok(s, p);
      if t.ret == NUL { return true, argv, rs, t.next; }
      if t.ret != 'a' || |argv| + 1 >= MAXARGS { return false, argv, rs, p; }
      var more, rs1, next := RedirsLoop(s, t.next, rs);
      if !more { return false, argv, rs, p; }
      ArgsNext(was, now, Args(s, next, |argv| + 1), argv, rs0, rs, Span(t.q, t.e), Redirs(s, t.next).val);
      argv, rs, p := argv + [Span(t.q, t.e)], rs1, next;
    }
  }

  /** What the loop has collected, followed by what is still to come, is the whole result. */
  ghost predicate ArgsSoFar(was: Res<(seq<Span>, seq<Redirect>)>, now: Res<(seq<Span>, seq<Redirect>)>,
      argv: seq<Span>, rs0: seq<Redirect>, rs: seq<Redirect>) {
    was.Ok? && now.Ok? ==> was.val.0 == argv + now.val.0 && rs0 + was.val.1 == rs + now.val.1 && was.next == now.next
  }

  lemma ArgsNext(was: Res<(seq<Span>, seq<Redirect>)>, now: Res<(seq<Span>, seq<Redirect>)>,
      rest: Res<(seq<Span>, seq<Redirect>)>,
                 argv: seq<Span>, rs0: seq<Redirect>, rs: seq<Redirect>, a: Span, more: seq<Redirect>)
    requires ArgsSoFar(was, now, argv, rs0, rs) && (now.Ok? <==> rest.Ok?)
    requires now.Ok? && rest.Ok? ==>
      now.val.0 == [a] + rest.val.0 && now.val.1 == more + rest.val.1 && now.next == rest.next
    ensures ArgsSoFar(was, rest, argv + [a], rs0, rs + more)
  {
  }

  method ExecM(s: string, ps: nat) returns (r: Res<Cmd>)
    requires CString(s) && ps <= |s|
    ensures r == ParseExec(s, ps)
    decreases |s| - ps, 1
  {
    hide ParseBlock, ParseLine, Redirs, Args, SkipWs, GetToken, Wrap;
    var block, p := PeekTok(s, ps, "(");
    if block {
      r := BlockM(s, p);
      return;
    }
    var ok, rs, p1 := RedirsLoop(s, p, []);
    if !ok { return Panic; }
    assert rs == Redirs(s, p).val;
    var ok2, argv, rs2, p2 := ArgsLoop(s, p1, rs);
    if !ok2 { return Panic; }
    return Ok(Wrap(Exec(argv), rs2), p2);
  }

  method BlockM(s: string, ps: nat) returns (r: Res<Cmd>)
    requires CString(s) && ps <= |s| && Peek(s, ps, "(")
    ensures r == ParseBlock(s, ps)
    decreases |s| - ps, 0
  {
    hide ParseLine, ParseExec, Redirs, SkipWs, WordEnd, Wrap;
    var p := SkipSpace(s, ps);
    var t := GetTok(s, p);
    var c := LineM(s, t.next);
    if c.Panic? { return Panic; }
    var close, p1 := PeekTok(s, c.next, ")");
    if !close { return Panic; }
    var u := GetTok(s, p1);
    var ok, rs, p2 := RedirsLoop(s, u.next, []);
    if !ok { return Panic; }
    assert rs == Redirs(s, u.next).val;
    return Ok(Wrap(c.val, rs), p2);
  }

  method PipeM(s: string, ps: nat) returns (r: Res<Cmd>)
    requires CString(s) && ps <= |s|
    ensures r == ParsePipe(s, ps)
    decreases |s| - ps, 2
  {
    var c := ExecM(s, ps);
    if c.Panic? { return Panic; }
    var more, p := PeekTok(s, c.next, "|");
    if !more { return Ok(c.val, p); }
    var t := GetTok(s, p);
    var right := PipeM(s, t.next);
    if right.Panic? { return Panic; }
    return Ok(Pipe(c.val, right.val), right.next);
  }

  method LineM(s: string, ps: nat) returns (r: Res<Cmd>)
    requires CString(s) && ps <= |s|
    ensures r == ParseLine(s, ps)
    decreases |s| - ps, 3
  {
    var c := PipeM(s, ps);
    if c.Panic? { return Panic; }
    var cmd, p := c.val, c.next;
    while true
      invariant c.next <= p <= |s| && Backs(s, p, cmd) == Backs(s, c.next, c.val)
      decreases |s| - p
    {
      var amp, p1 := PeekTok(s, p, "&");
      if !amp { p := p1; break; }
      var t := GetTok(s, p1);
      p := t.next;
      cmd := Back(cmd);
    }
    var semi, p2 := PeekTok(s, p, ";");
    if !semi { return Ok(cmd, p2); }
    var t := GetTok(s, p2);
    var right := LineM(s, t.next);
    if right.Panic? { return Panic; }
    return Ok(List(cmd, right.val), right.next);
  }

  // ---------------------------------------------------------------- nulterminate

  /** The spans of a command. */
  ghost function SpansOf(c: Cmd): set<Span> {
    match c
    case Exec(argv) => set i | 0 <= i < |argv| :: argv[i]
    case Redir(cmd, r) => SpansOf(cmd) + {r.file}
    case Pipe(l, r) => SpansOf(l) + SpansOf(r)
    case List(l, r) => SpansOf(l) + SpansOf(r)
    case Back(cmd) => SpansOf(cmd)
  }

  /** Position i is where some token of c ends. */
  ghost predicate EndsAt(c: Cmd, i: nat) { exists sp :: sp in SpansOf(c) && sp.e == i }

  lemma {:induction false} AllSpans(s: string, c: Cmd, sp: Span)
    requires SpansOk(s, c) && sp in SpansOf(c)
    ensures WordSpan(s, sp)
    decreases c
  {
    match c {
      case Exec(argv) =>
      case Redir(cmd, r) => if sp in SpansOf(cmd) { AllSpans(s, cmd, sp); }
      case Pipe(l, r) => if sp in SpansOf(l) { AllSpans(s, l, sp); } else { AllSpans(s, r, sp); }
      case List(l, r) => if sp in SpansOf(l) { AllSpans(s, l, sp); } else { AllSpans(s, r, sp); }
      case Back(cmd) => AllSpans(s, cmd, sp);
    }
  }

  ghost predicate Fits(c: Cmd, n: nat) { forall sp :: sp in SpansOf(c) ==> sp.e < n }

  /** nulterminate: a zero at the end of every token, and nothing else changes. */
  method NulTerminate(buf: array<char>, c: Cmd)
    requires Fits(c, buf.Length)
    modifies buf
    ensures forall i :: 0 <= i < buf.Length ==> buf[i] == if EndsAt(c, i) then NUL else old(buf[i])
    decreases c
  {
    match c {
      case Exec(argv) =>
        var k := 0;
        while k < |argv|
          invariant 0 <= k <= |argv|
          invariant forall i :: 0 <= i < buf.Length ==>
            buf[i] == if EndsAt(Exec(argv[..k]), i) then NUL else old(buf[i])
        {
          assert argv[k] in SpansOf(c);
          EndsMore(argv, k);
          buf[argv[k].e] := NUL;
          k := k + 1;
        }
        assert argv[..k] == argv;
      case Redir(cmd, r) =>
        forall sp | sp in SpansOf(cmd) ensures sp.e < buf.Length { assert sp in SpansOf(c); }
        NulTerminate(buf, cmd);
        assert r.file in SpansOf(c);
        forall i: nat ensures EndsAt(c, i) <==> EndsAt(cmd, i) || i == r.file.e {
          EndsUnion(c, i, SpansOf(cmd), {r.file});
        }
        buf[r.file.e] := NUL;
      case Pipe(left, right) =>
        TwoHalves(buf, c, left, right);
      case List(left, right) =>
        TwoHalves(buf, c, left, right);
      case Back(cmd) =>
        assert SpansOf(cmd) == SpansOf(c);
        NulTerminate(buf, cmd);
        forall i: nat ensures EndsAt(c, i) <==> EndsAt(cmd, i) { EndsUnion(c, i, SpansOf(cmd), {}); }
    }
  }

  method TwoHalves(buf: array<char>, ghost c: Cmd, left: Cmd, right: Cmd)
    requires Fits(c, buf.Length) && SpansOf(c) == SpansOf(left) + SpansOf(right) && left < c && right < c
    modifies buf
    ensures forall i :: 0 <= i < buf.Length ==> buf[i] == if EndsAt(c, i) then NUL else old(buf[i])
    decreases c, 0
  {
    forall sp | sp in SpansOf(left) || sp in SpansOf(right) ensures sp.e < buf.Length { assert sp in SpansOf(c); }
    NulTerminate(buf, left);
    NulTerminate(buf, right);
    forall i: nat ensures EndsAt(c, i) <==> EndsAt(left, i) || EndsAt(right, i) {
      EndsUnion(c, i, SpansOf(left), SpansOf(right));
    }
  }

  lemma EndsUnion(c: Cmd, i: nat, a: set<Span>, b: set<Span>)
    requires SpansOf(c) == a + b
    ensures EndsAt(c, i) <==> (exists sp :: sp in a && sp.e == i) || (exists sp :: sp in b && sp.e == i)
  {
    if exists sp :: sp in a && sp.e == i { var sp :| sp in a && sp.e == i; assert sp in SpansOf(c); }
    if exists sp :: sp in b && sp.e == i { var sp :| sp in b && sp.e == i; assert sp in SpansOf(c); }
  }

  lemma EndsMore(argv: seq<Span>, k: nat)
    requires k < |argv|
    ensures forall i: nat :: EndsAt(Exec(argv[..k + 1]), i) <==> EndsAt(Exec(argv[..k]), i) || i == argv[k].e
  {
    var a, b := argv[..k], argv[..k + 1];
    assert SpansOf(Exec(b)) == SpansOf(Exec(a)) + {argv[k]} by {
      forall sp ensures sp in SpansOf(Exec(b)) <==> sp in SpansOf(Exec(a)) + {argv[k]} {
        if sp in SpansOf(Exec(b)) { var i :| 0 <= i < |b| && b[i] == sp; assert i < k ==> a[i] == sp; }
        if sp in SpansOf(Exec(a)) { var i :| 0 <= i < |a| && a[i] == sp; assert b[i] == sp; }
        if sp == argv[k] { assert b[k] == sp; }
      }
    }
    forall i: nat ensures EndsAt(Exec(b), i) <==> EndsAt(Exec(a), i) || i == argv[k].e {
      EndsUnion(Exec(b), i, SpansOf(Exec(a)), {argv[k]});
    }
  }

  /** A token's bytes are not where any token ends. */
  lemma TokensSurvive(s: string, c: Cmd, sp: Span, i: nat)
    requires SpansOk(s, c) && sp in SpansOf(c) && sp.q <= i < sp.e
    ensures !EndsAt(c, i)
  {
    AllSpans(s, c, sp);
    if EndsAt(c, i) {
      var other :| other in SpansOf(c) && other.e == i;
      AllSpans(s, c, other);
    }
  }

  /** parsecmd on the text in buf[..n]: afterwards each argument and file name is a C string in the buffer,
      its token. */
  method ParseCommand(buf: array<char>, n: nat) returns (r: Res<Cmd>)
    requires n < buf.Length && buf[n] == NUL && CString(buf[..n])
    modifies buf
    ensures r == ParseCmd(old(buf[..n]))
    ensures r.Ok? ==> SpansOk(old(buf[..n]), r.val)
    ensures r.Ok? ==> forall sp :: sp in SpansOf(r.val) ==>
      sp.q < sp.e <= n && buf[sp.e] == NUL && buf[sp.q..sp.e] == old(buf[..n])[sp.q..sp.e]
  {
    ghost var s := buf[..n];
    var c := LineM(buf[..n], 0);
    if c.Panic? { return Panic; }
    var p := SkipSpace(buf[..n], c.next);
    if p != n { return Panic; }
    LineSpans(s, 0);
    forall sp | sp in SpansOf(c.val) ensures WordSpan(s, sp) { AllSpans(s, c.val, sp); }
    NulTerminate(buf, c.val);
    forall sp | sp in SpansOf(c.val) ensures sp.q < sp.e <= n && buf[sp.e] == NUL && buf[sp.q..sp.e] == s[sp.q..sp.e] {
      assert EndsAt(c.val, sp.e);
      forall i: nat | sp.q <= i < sp.e ensures buf[i] == s[i] { TokensSurvive(s, c.val, sp, i); }
    }
    return Ok(c.val, n);
  }
}
