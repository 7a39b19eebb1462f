/** The shell's grammar, sh.c: what gettoken, peek and the parse functions compute, as functions of the text
    and a position. */
module Shell {

  const MAXARGS := 10

  /** The bytes q..e-1 of the text. */
  datatype Span = Span(q: nat, e: nat)

  datatype Mode = Input | Output | Append

  datatype Redirect = Redirect(file: Span, mode: Mode)

  datatype Cmd = Exec(argv: seq<Span>) | Redir(cmd: Cmd, redirect: Redirect) | Pipe(left: Cmd, right: Cmd)
      | List(left: Cmd, right: Cmd) | Back(cmd: Cmd)

  /** Panic: the shell reports an error and exits. */
  datatype Res<T> = Ok(val: T, next: nat) | Panic

  const WHITESPACE := " \t\r\n\U{0b}"
  const SYMBOLS := "<|>&;()"
  const NUL := '\0'

  predicate Ws(c: char) { c in WHITESPACE }

  predicate Sym(c: char) { c in SYMBOLS }

  predicate WordChar(c: char) { !Ws(c) && !Sym(c) && c != NUL }

  /** The text is a C string: it ends in a zero, and has none inside. */
  predicate CString(s: string) { forall i :: 0 <= i < |s| ==> s[i] != NUL }

  function At(s: string, p: nat): char { if p < |s| then s[p] else NUL }

  // ---------------------------------------------------------------- gettoken and peek

  function SkipWs(s: string, p: nat): (r: nat)
    requires p <= |s|
    ensures p <= r <= |s| && !Ws(At(s, r)) && (!Ws(At(s, p)) ==> r == p)
    decreases |s| - p
  {
    if p < |s| && Ws(s[p]) then SkipWs(s, p + 1) else p
  }

  function WordEnd(s: string, p: nat): (r: nat)
    requires p <= |s|
    ensures p <= r <= |s| && (r < |s| ==> Ws(s[r]) || Sym(s[r])) && (forall i :: p <= i < r ==> !Ws(s[i]) && !Sym(s[i]))
    ensures p < |s| && !Ws(s[p]) && !Sym(s[p]) ==> p < r
    decreases |s| - p
  {
    if p < |s| && !Ws(s[p]) && !Sym(s[p]) then WordEnd(s, p + 1) else p
  }

  datatype Token = Token(ret: char, q: nat, e: nat, next: nat)

  /** gettoken: 'a' is a word, '+' is >>, NUL is the end, and any other symbol is itself. */
  function GetToken(s: string, p: nat): (t: Token)
    requires p <= |s|
    ensures p <= t.q <= t.e <= t.next <= |s| && (t.ret != NUL ==> t.q < t.e)
    ensures t.ret == 'a' ==> forall i :: t.q <= i < t.e ==> !Ws(s[i]) && !Sym(s[i])
    ensures t.ret == 'a' && t.e < |s| ==> Ws(s[t.e]) || Sym(s[t.e])
  {
    var q := SkipWs(s, p);
    var c := At(s, q);
    if c == NUL then Token(NUL, q, q, SkipWs(s, q))
    else if c == '>' then
      if At(s, q + 1) == '>' then Token('+', q, q + 2, SkipWs(s, q + 2)) else Token('>', q, q + 1, SkipWs(s, q + 1))
    else if Sym(c) then Token(c, q, q + 1, SkipWs(s, q + 1))
    else Token('a', q, WordEnd(s, q), SkipWs(s, WordEnd(s, q)))
  }

  predicate Peek(s: string, p: nat, toks: string)
    requires p <= |s|
  {
    var c := At(s, SkipWs(s, p)); c != NUL && c in toks
  }

  // ---------------------------------------------------------------- the parse functions

  function ModeOf(ret: char): Mode { if ret == '<' then Input else if ret == '>' then Output else Append }

  /** parseredirs, without the command it wraps. */
  function Redirs(s: string, p: nat): (r: Res<seq<Redirect>>)
    requires p <= |s|
    ensures r.Ok? ==> p <= r.next <= |s|
    decreases |s| - p
  {
    var p1 := SkipWs(s, p);
    if !Peek(s, p, "<>") then Ok([], p1) else
    var t := GetToken(s, p1);
    var f := GetToken(s, t.next);
    if f.ret != 'a' then Panic else
    var rest := Redirs(s, f.next);
    if rest.Panic? then Panic else Ok([Redirect(Span(f.q, f.e), ModeOf(t.ret))] + rest.val, rest.next)
  }

  /** The redirections wrap a command one after the other. */
  function Wrap(c: Cmd, rs: seq<Redirect>): Cmd
    decreases |rs|
  {
    if rs == [] then c else Wrap(Redir(c, rs[0]), rs[1..])
  }

  /** The loop of parseexec: the arguments from the argc-th on, and the redirections between them. */
  function Args(s: string, p: nat, argc: nat): (r: Res<(seq<Span>, seq<Redirect>)>)
    requires p <= |s|
    ensures r.Ok? ==> p <= r.next <= |s|
    decreases |s| - p
  {
    var p1 := SkipWs(s, p);
    if Peek(s, p, "|)&;") then Ok(([], []), p1) else
    var t := GetToken(s, p1);
    if t.ret == NUL then Ok(([], []), t.next) else
    if t.ret != 'a' || argc + 1 >= MAXARGS then Panic else
    var rs := Redirs(s, t.next);
    if rs.Panic? then Panic else
    var rest := Args(s, rs.next, argc + 1);
    if rest.Panic? then Panic else Ok(([Span(t.q, t.e)] + rest.val.0, rs.val + rest.val.1), rest.next)
  }

  function ParseExec(s: string, p: nat): (r: Res<Cmd>)
    requires p <= |s|
    ensures r.Ok? ==> p <= r.next <= |s|
    decreases |s| - p, 1
  {
    var p1 := SkipWs(s, p);
    if Peek(s, p, "(") then ParseBlock(s, p1) else
    var rs := Redirs(s, p1);
    if rs.Panic? then Panic else
    var args := Args(s, rs.next, 0);
    if args.Panic? then Panic else Ok(Wrap(Exec(args.val.0), rs.val + args.val.1), args.next)
  }

  function ParseBlock(s: string, p: nat): (r: Res<Cmd>)
    requires p <= |s| && Peek(s, p, "(")
    ensures r.Ok? ==> p <= r.next <= |s|
    decreases |s| - p, 0
  {
    var t := GetToken(s, SkipWs(s, p));
    var c := ParseLine(s, t.next);
    if c.Panic? || !Peek(s, c.next, ")") then Panic else
    var u := GetToken(s, SkipWs(s, c.next));
    var rs := Redirs(s, u.next);
    if rs.Panic? then Panic else Ok(Wrap(c.val, rs.val), rs.next)
  }

  function ParsePipe(s: string, p: nat): (r: Res<Cmd>)
    requires p <= |s|
    ensures r.Ok? ==> p <= r.next <= |s|
    decreases |s| - p, 2
  {
    var c := ParseExec(s, p);
    if c.Panic? then Panic else
    var p1 := SkipWs(s, c.next);
    if !Peek(s, c.next, "|") then Ok(c.val, p1) else
    var r := ParsePipe(s, GetToken(s, p1).next);
    if r.Panic? then Panic else Ok(Pipe(c.val, r.val), r.next)
  }

  /** parseline's loop over '&'. */
  function Backs(s: string, p: nat, c: Cmd): (r: (Cmd, nat))
    requires p <= |s|
    ensures p <= r.1 <= |s|
    decreases |s| - p
  {
    var p1 := SkipWs(s, p);
    if Peek(s, p, "&") then Backs(s, GetToken(s, p1).next, Back(c)) else (c, p1)
  }

  function ParseLine(s: string, p: nat): (r: Res<Cmd>)
    requires p <= |s|
    ensures r.Ok? ==> p <= r.next <= |s|
    decreases |s| - p, 3
  {
    var c := ParsePipe(s, p);
    if c.Panic? then Panic else
    var b := Backs(s, c.next, c.val);
    var p1 := SkipWs(s, b.1);
    if !Peek(s, b.1, ";") then Ok(b.0, p1) else
    var r := ParseLine(s, GetToken(s, p1).next);
    if r.Panic? then Panic else Ok(List(b.0, r.val), r.next)
  }

  function ParseCmd(s: string): (r: Res<Cmd>)
    ensures r.Ok? ==> r.next == |s|
  {
    var c := ParseLine(s, 0);
    if c.Panic? || SkipWs(s, c.next) != |s| then Panic else Ok(c.val, |s|)
  }

  lemma {:induction false} SkipsBlanks(s: string, p: nat)
    requires p <= |s|
    ensures SkipWs(s, p) == |s| <==> forall i :: p <= i < |s| ==> Ws(s[i])
    decreases |s| - p
  {
    if p < |s| && Ws(s[p]) { SkipsBlanks(s, p + 1); }
  }

  /** A line is accepted if and only if it parses and nothing but blanks follow what was parsed. */
  lemma WholeLine(s: string)
    ensures var c := ParseLine(s, 0);
            && (ParseCmd(s).Ok? <==> c.Ok? && forall i :: c.next <= i < |s| ==> Ws(s[i]))
            && (ParseCmd(s).Ok? ==> ParseCmd(s).val == c.val)
  {
    hide ParseLine;
    if ParseLine(s, 0).Ok? { SkipsBlanks(s, ParseLine(s, 0).next); }
  }

  // ---------------------------------------------------------------- the tokens of a parsed command

  /** The span is a whole word: word characters, up to one that is none. */
  predicate WordSpan(s: string, sp: Span) {
    && sp.q < sp.e <= |s| && (forall i :: sp.q <= i < sp.e ==> WordChar(s[i])) && (sp.e < |s| ==> !WordChar(s[sp.e]))
  }

  predicate SpansOk(s: string, c: Cmd) {
    match c
    case Exec(argv) => |argv| < MAXARGS && forall i :: 0 <= i < |argv| ==> WordSpan(s, argv[i])
    case Redir(cmd, r) => SpansOk(s, cmd) && WordSpan(s, r.file)
    case Pipe(l, r) => SpansOk(s, l) && SpansOk(s, r)
    case List(l, r) => SpansOk(s, l) && SpansOk(s, r)
    case Back(cmd) => SpansOk(s, cmd)
  }

  predicate RedirectsOk(s: string, rs: seq<Redirect>) { forall i :: 0 <= i < |rs| ==> WordSpan(s, rs[i].file) }

  lemma {:induction false} RedirsSpans(s: string, p: nat)
    requires CString(s) && p <= |s|
    ensures Redirs(s, p).Ok? ==> RedirectsOk(s, Redirs(s, p).val)
    decreases |s| - p
  {
    hide SkipWs, GetToken, Peek;
    var p1 := SkipWs(s, p);
    if Peek(s, p, "<>") {
      var t := GetToken(s, p1);
      var f := GetToken(s, t.next);
      if f.ret == 'a' { RedirsSpans(s, f.next); }
    }
  }

  lemma {:induction false} WrapSpans(s: string, c: Cmd, rs: seq<Redirect>)
    requires SpansOk(s, c) && RedirectsOk(s, rs)
    ensures SpansOk(s, Wrap(c, rs))
    decreases |rs|
  {
    if rs != [] { WrapSpans(s, Redir(c, rs[0]), rs[1..]); }
  }

  lemma {:induction false} ArgsSpans(s: string, p: nat, argc: nat)
    requires CString(s) && p <= |s| && argc < MAXARGS
    ensures var r := Args(s, p, argc);
            r.Ok? ==> && argc + |r.val.0| < MAXARGS && RedirectsOk(s, r.val.1)
                      && forall i :: 0 <= i < |r.val.0| ==> WordSpan(s, r.val.0[i])
    decreases |s| - p
  {
    hide SkipWs, GetToken, Peek, Redirs;
    var t := GetToken(s, SkipWs(s, p));
    if !Peek(s, p, "|)&;") && t.ret == 'a' && argc + 1 < MAXARGS {
      RedirsSpans(s, t.next);
      var rs := Redirs(s, t.next);
      if rs.Ok? { ArgsSpans(s, rs.next, argc + 1); }
    }
  }

  lemma {:induction false} BacksSpans(s: string, p: nat, c: Cmd)
    requires p <= |s| && SpansOk(s, c)
    ensures SpansOk(s, Backs(s, p, c).0)
    decreases |s| - p
  {
    if Peek(s, p, "&") { BacksSpans(s, GetToken(s, SkipWs(s, p)).next, Back(c)); }
  }

  lemma {:induction false} ExecSpans(s: string, p: nat)
    requires CString(s) && p <= |s|
    ensures ParseExec(s, p).Ok? ==> SpansOk(s, ParseExec(s, p).val)
    decreases |s| - p, 1
  {
    var p1 := SkipWs(s, p);
    if Peek(s, p, "(") {
      var t := GetToken(s, p1);
      LineSpans(s, t.next);
      var c := ParseLine(s, t.next);
      if c.Ok? && Peek(s, c.next, ")") {
        var u := GetToken(s, SkipWs(s, c.next));
        RedirsSpans(s, u.next);
        if Redirs(s, u.next).Ok? { WrapSpans(s, c.val, Redirs(s, u.next).val); }
      }
    } else {
      RedirsSpans(s, p1);
      var rs := Redirs(s, p1);
      if rs.Ok? {
        ArgsSpans(s, rs.next, 0);
        var args := Args(s, rs.next, 0);
        if args.Ok? { WrapSpans(s, Exec(args.val.0), rs.val + args.val.1); }
      }
    }
  }

  lemma {:induction false} PipeSpans(s: string, p: nat)
    requires CString(s) && p <= |s|
    ensures ParsePipe(s, p).Ok? ==> SpansOk(s, ParsePipe(s, p).val)
    decreases |s| - p, 2
  {
    ExecSpans(s, p);
    var c := ParseExec(s, p);
    if c.Ok? && Peek(s, c.next, "|") { PipeSpans(s, GetToken(s, SkipWs(s, c.next)).next); }
  }

  /** Every argument and file name of a parsed command is a whole word of the text. */
  lemma {:induction false} LineSpans(s: string, p: nat)
    requires CString(s) && p <= |s|
    ensures ParseLine(s, p).Ok? ==> SpansOk(s, ParseLine(s, p).val)
    decreases |s| - p, 3
  {
    PipeSpans(s, p);
    var c := ParsePipe(s, p);
    if c.Ok? {
      BacksSpans(s, c.next, c.val);
      var b := Backs(s, c.next, c.val);
      if Peek(s, b.1, ";") { LineSpans(s, GetToken(s, SkipWs(s, b.1)).next); }
    }
  }
}
