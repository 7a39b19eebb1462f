/** Printing a command tree as shell text, and parsing it back. */
module ShellPrint {
  import opened Shell

  datatype Target = Target(file: string, mode: Mode)

  /** A command with its words, not their places in a text. */
  datatype Tree = TExec(argv: seq<string>) | TRedir(cmd: Tree, to: Target) | TPipe(left: Tree, right: Tree)
      | TList(left: Tree, right: Tree) | TBack(cmd: Tree)

  predicate IsWord(w: string) { w != "" && forall i :: 0 <= i < |w| ==> WordChar(w[i]) }

  /** Fewer than MAXARGS arguments, and words that are words. */
  predicate Printable(t: Tree) {
    match t
    case TExec(argv) => |argv| < MAXARGS && forall i :: 0 <= i < |argv| ==> IsWord(argv[i])
    case TRedir(cmd, to) => Printable(cmd) && IsWord(to.file)
    case TPipe(l, r) => Printable(l) && Printable(r)
    case TList(l, r) => Printable(l) && Printable(r)
    case TBack(cmd) => Printable(cmd)
  }

  function Size(t: Tree): nat {
    match t
    case TExec(_) => 1
    case TRedir(cmd, _) => 1 + Size(cmd)
    case TPipe(l, r) => 1 + Size(l) + Size(r)
    case TList(l, r) => 1 + Size(l) + Size(r)
    case TBack(cmd) => 1 + Size(cmd)
  }

  /** A tree without its outer redirections, and these from the innermost on. */
  function Base(t: Tree): (r: Tree)
    ensures !r.TRedir? && Size(r) <= Size(t) && (Printable(t) ==> Printable(r))
  {
    if t.TRedir? then Base(t.cmd) else t
  }

  function Targets(t: Tree): (r: seq<Target>)
    ensures Printable(t) ==> forall i :: 0 <= i < |r| ==> IsWord(r[i].file)
  {
    if t.TRedir? then Targets(t.cmd) + [t.to] else []
  }

  /** A tree without its outer '&'s, and how many there are. */
  function Core(t: Tree): (r: Tree)
    ensures !r.TBack? && Size(r) <= Size(t) && (t.TBack? ==> Size(r) < Size(t)) && (Printable(t) ==> Printable(r))
  {
    if t.TBack? then Core(t.cmd) else t
  }

  function Depth(t: Tree): nat { if t.TBack? then Depth(t.cmd) + 1 else 0 }

  // ---------------------------------------------------------------- printing

  function PrintArgs(argv: seq<string>): string { if argv == [] then "" else argv[0] + " " + PrintArgs(argv[1..]) }

  function Arrow(m: Mode): string { if m == Input then "< " else if m == Output then "> " else ">> " }

  function PrintTargets(ts: seq<Target>): string {
    if ts == [] then "" else Arrow(ts[0].mode) + (ts[0].file + " ") + PrintTargets(ts[1..])
  }

  function Amps(k: nat): string { if k == 0 then "" else "& " + Amps(k - 1) }

  /** Parentheses go round anything but a plain command or redirections of one. */
  function PrintExec(t: Tree): string
    decreases Size(t), 1
  {
    var b := Base(t);
    (if b.TExec? then PrintArgs(b.argv) else "( " + PrintInside(b) + ") ") + PrintTargets(Targets(t))
  }

  function PrintInside(t: Tree): string
    requires !t.TExec? && !t.TRedir?
    decreases Size(t), 0
  {
    if t.TPipe? then PrintExec(t.left) + ("| " + PrintPipe(t.right))
    else if t.TBack? then PrintPipe(Core(t)) + Amps(Depth(t))
    else PrintBack(t.left) + ("; " + PrintLine(t.right))
  }

  function PrintPipe(t: Tree): string
    decreases Size(t), 2
  {
    if t.TPipe? then PrintExec(t.left) + ("| " + PrintPipe(t.right)) else PrintExec(t)
  }

  function PrintBack(t: Tree): string
    decreases Size(t), 3
  {
    PrintPipe(Core(t)) + Amps(Depth(t))
  }

  function PrintLine(t: Tree): string
    decreases Size(t), 4
  {
    if t.TList? then PrintBack(t.left) + ("; " + PrintLine(t.right)) else PrintBack(t)
  }

  /** Inside parentheses a line is printed as anywhere else. */
  lemma InsideIsLine(t: Tree)
    requires !t.TExec? && !t.TRedir?
    ensures PrintInside(t) == PrintLine(t)
  {
    if t.TPipe? { assert PrintLine(t) == PrintPipe(t) + "" && PrintPipe(t) + "" == PrintPipe(t); }
  }

  // ---------------------------------------------------------------- the text and the tree

  predicate Here(s: string, p: nat, w: string) { p + |w| <= |s| && s[p..p + |w|] == w }

  lemma Split(s: string, p: nat, a: string, b: string)
    requires Here(s, p, a + b)
    ensures Here(s, p, a) && Here(s, p + |a|, b)
  {
    assert s[p..p + |a + b|][..|a|] == a && s[p..p + |a + b|][|a|..] == b;
  }

  lemma Assoc(a: string, b: string, c: string)
    ensures (a + b) + c == a + (b + c)
  {
  }

  lemma First(s: string, p: nat, w: string)
    requires Here(s, p, w) && w != ""
    ensures At(s, p) == w[0]
  {
    assert s[p..p + |w|][0] == s[p];
  }

  /** The span is the word. */
  predicate Denotes(s: string, sp: Span, w: string) { sp.q <= sp.e <= |s| && s[sp.q..sp.e] == w }

  predicate TargetsMatch(s: string, rs: seq<Redirect>, ts: seq<Target>) {
    |rs| == |ts| && forall i :: 0 <= i < |rs| ==> Denotes(s, rs[i].file, ts[i].file) && rs[i].mode == ts[i].mode
  }

  predicate ArgsMatch(s: string, argv: seq<Span>, ws: seq<string>) {
    |argv| == |ws| && forall i :: 0 <= i < |argv| ==> Denotes(s, argv[i], ws[i])
  }

  /** The parsed command is the tree, word for word. */
  predicate Matches(s: string, c: Cmd, t: Tree) {
    match t
    case TExec(ws) => c.Exec? && ArgsMatch(s, c.argv, ws)
    case TRedir(u, to) => c.Redir? && Matches(s, c.cmd, u)
        && Denotes(s, c.redirect.file, to.file) && c.redirect.mode == to.mode
    case TPipe(l, r) => c.Pipe? && Matches(s, c.left, l) && Matches(s, c.right, r)
    case TList(l, r) => c.List? && Matches(s, c.left, l) && Matches(s, c.right, r)
    case TBack(u) => c.Back? && Matches(s, c.cmd, u)
  }

  // ---------------------------------------------------------------- tokens

  predicate Solid(s: string, p: nat) { p <= |s| && !Ws(At(s, p)) }

  lemma SymbolToken(s: string, p: nat, c: char)
    requires Here(s, p, [c, ' ']) && Sym(c) && Solid(s, p + 2)
    ensures GetToken(s, p) == Token(c, p, p + 1, p + 2) && Solid(s, p)
  {
    assert s[p..p + 2][0] == s[p] && s[p..p + 2][1] == s[p + 1];
  }

  lemma AppendToken(s: string, p: nat)
    requires Here(s, p, ">> ") && Solid(s, p + 3)
    ensures GetToken(s, p) == Token('+', p, p + 2, p + 3) && Solid(s, p)
  {
    assert s[p..p + 3][0] == s[p] && s[p..p + 3][1] == s[p + 1] && s[p..p + 3][2] == s[p + 2];
  }

  lemma {:induction false} WordEndIs(s: string, p: nat, e: nat)
    requires p <= e < |s| && (forall i :: p <= i < e ==> WordChar(s[i])) && s[e] == ' '
    ensures WordEnd(s, p) == e
    decreases e - p
  {
    if p < e { WordEndIs(s, p + 1, e); }
  }

  lemma WordToken(s: string, p: nat, w: string)
    requires Here(s, p, w + " ") && IsWord(w) && Solid(s, p + |w| + 1)
    ensures GetToken(s, p) == Token('a', p, p + |w|, p + |w| + 1) && Solid(s, p)
    ensures Denotes(s, Span(p, p + |w|), w) && WordChar(At(s, p))
  {
    Split(s, p, w, " ");
    var e := p + |w|;
    assert s[e..e + 1][0] == s[e];
    forall i | p <= i < e ensures WordChar(s[i]) { assert s[p..e][i - p] == s[i]; }
    WordEndIs(s, p, e);
  }

  /** What a peek finds at a token. */
  lemma PeekIs(s: string, p: nat, toks: string)
    requires Solid(s, p)
    ensures SkipWs(s, p) == p && Peek(s, p, toks) == (At(s, p) != NUL && At(s, p) in toks)
  {
  }

  // ---------------------------------------------------------------- redirections and arguments

  /** What may follow a simple command. */
  predicate Stop(c: char) { c == NUL || c in "|)&;" }

  lemma TargetsStart(s: string, p: nat, ts: seq<Target>)
    requires Here(s, p, PrintTargets(ts)) && Stop(At(s, p + |PrintTargets(ts)|))
    ensures Solid(s, p) && (if ts == [] then Stop(At(s, p)) else At(s, p) in "<>")
  {
    if ts != [] { First(s, p, PrintTargets(ts)); }
  }

  lemma OneTarget(s: string, p: nat, to: Target)
    requires Here(s, p, Arrow(to.mode) + (to.file + " ")) && IsWord(to.file)
    requires Solid(s, p + |Arrow(to.mode)| + |to.file| + 1)
    ensures Solid(s, p) && At(s, p) in "<>"
    ensures var t := GetToken(s, p);
            var f := GetToken(s, t.next);
            && f.ret == 'a' && f.next == p + |Arrow(to.mode)| + |to.file| + 1
            && Denotes(s, Span(f.q, f.e), to.file) && ModeOf(t.ret) == to.mode
  {
    hide GetToken, Here, IsWord, Denotes, WordChar, Solid;
    var a, w := Arrow(to.mode), to.file;
    Split(s, p, a, w + " ");
    First(s, p, a);
    WordToken(s, p + |a|, w);
    if to.mode == Append { AppendToken(s, p); } else { SymbolToken(s, p, a[0]); }
  }

  lemma RedirsNone(s: string, p: nat)
    requires Solid(s, p) && At(s, p) !in "<>"
    ensures Redirs(s, p) == Ok([], p)
  {
  }

  lemma {:induction false} TargetsParsed(s: string, p: nat, ts: seq<Target>)
    requires Here(s, p, PrintTargets(ts)) && Stop(At(s, p + |PrintTargets(ts)|))
    requires forall i :: 0 <= i < |ts| ==> IsWord(ts[i].file)
    ensures var r := Redirs(s, p); r.Ok? && r.next == p + |PrintTargets(ts)| && TargetsMatch(s, r.val, ts)
    decreases |ts|
  {
    hide Redirs, GetToken, Arrow, Solid;
    TargetsStart(s, p, ts);
    if ts == [] {
      RedirsNone(s, p);
    } else {
      var one, rest := Arrow(ts[0].mode) + (ts[0].file + " "), PrintTargets(ts[1..]);
      assert PrintTargets(ts) == one + rest;
      Split(s, p, one, rest);
      var n := p + |one|;
      assert At(s, n + |rest|) == At(s, p + |PrintTargets(ts)|);
      hide Here, PrintTargets;
      TargetsStart(s, n, ts[1..]);
      OneTarget(s, p, ts[0]);
      TargetsParsed(s, n, ts[1..]);
      RedirsIs(s, p, ts);
    }
  }

  lemma RedirsUnfold(s: string, p: nat)
    requires Solid(s, p) && At(s, p) in "<>"
    requires var f := GetToken(s, GetToken(s, p).next); f.ret == 'a' && Redirs(s, f.next).Ok?
    ensures var t := GetToken(s, p);
            var f := GetToken(s, t.next);
            var rest := Redirs(s, f.next);
            Redirs(s, p) == Ok([Redirect(Span(f.q, f.e), ModeOf(t.ret))] + rest.val, rest.next)
  {
    PeekIs(s, p, "<>");
    hide GetToken, ModeOf, Peek;
  }

  lemma RedirsIs(s: string, p: nat, ts: seq<Target>)
    requires Solid(s, p) && At(s, p) in "<>" && ts != []
    requires var t := GetToken(s, p);
             var f := GetToken(s, t.next);
             && f.ret == 'a' && Denotes(s, Span(f.q, f.e), ts[0].file) && ModeOf(t.ret) == ts[0].mode
             && Redirs(s, f.next).Ok? && TargetsMatch(s, Redirs(s, f.next).val, ts[1..])
    ensures var r, f := Redirs(s, p), GetToken(s, GetToken(s, p).next);
            r.Ok? && r.next == Redirs(s, f.next).next && TargetsMatch(s, r.val, ts)
  {
    hide GetToken, Denotes, Redirs, ModeOf, Solid, TargetsMatch;
    RedirsUnfold(s, p);
    var t := GetToken(s, p);
    var f := GetToken(s, t.next);
    OneMatches(s, Redirect(Span(f.q, f.e), ModeOf(t.ret)), ts[0]);
    assert [ts[0]] + ts[1..] == ts;
    TargetsConcat(s, [Redirect(Span(f.q, f.e), ModeOf(t.ret))], [ts[0]], Redirs(s, f.next).val, ts[1..]);
  }

  lemma OneMatches(s: string, r: Redirect, to: Target)
    requires Denotes(s, r.file, to.file) && r.mode == to.mode
    ensures TargetsMatch(s, [r], [to])
  {
  }

  lemma ArgsStop(s: string, p: nat, argc: nat)
    requires Solid(s, p) && Stop(At(s, p))
    ensures Args(s, p, argc) == Ok(([], []), p)
  {
  }

  lemma ArgsUnfold(s: string, p: nat, argc: nat)
    requires Solid(s, p) && WordChar(At(s, p)) && argc + 1 < MAXARGS
    requires var t := GetToken(s, p);
             t.ret == 'a' && Redirs(s, t.next).Ok? && Args(s, Redirs(s, t.next).next, argc + 1).Ok?
    ensures var t := GetToken(s, p);
            var rs := Redirs(s, t.next);
            var rest := Args(s, rs.next, argc + 1);
            Args(s, p, argc) == Ok(([Span(t.q, t.e)] + rest.val.0, rs.val + rest.val.1), rest.next)
  {
    PeekIs(s, p, "|)&;");
    hide GetToken, Redirs;
  }

  lemma ArgsCons(s: string, sp: Span, w: string, argv: seq<Span>, ws: seq<string>)
    requires ArgsMatch(s, argv, ws) && Denotes(s, sp, w)
    ensures ArgsMatch(s, [sp] + argv, [w] + ws)
  {
  }

  lemma TargetsConcat(s: string, r1: seq<Redirect>, t1: seq<Target>, r2: seq<Redirect>, t2: seq<Target>)
    requires TargetsMatch(s, r1, t1) && TargetsMatch(s, r2, t2)
    ensures TargetsMatch(s, r1 + r2, t1 + t2)
  {
  }

  /** One argument and what comes after it. */
  lemma ArgsIs(s: string, p: nat, argc: nat, ws: seq<string>, ts: seq<Target>, rs: seq<Target>)
    requires Solid(s, p) && WordChar(At(s, p)) && ws != [] && argc + 1 < MAXARGS
    requires var t := GetToken(s, p);
             && t.ret == 'a' && Denotes(s, Span(t.q, t.e), ws[0])
             && Redirs(s, t.next).Ok? && TargetsMatch(s, Redirs(s, t.next).val, rs)
             && var rest := Args(s, Redirs(s, t.next).next, argc + 1);
                rest.Ok? && ArgsMatch(s, rest.val.0, ws[1..]) && TargetsMatch(s, rest.val.1, ts)
    ensures var r, t := Args(s, p, argc), GetToken(s, p);
            && r.Ok? && r.next == Args(s, Redirs(s, t.next).next, argc + 1).next
            && ArgsMatch(s, r.val.0, ws) && TargetsMatch(s, r.val.1, rs + ts)
  {
    hide GetToken, Redirs, Args, ArgsMatch, TargetsMatch, Denotes;
    ArgsUnfold(s, p, argc);
    var t := GetToken(s, p);
    var rest := Args(s, Redirs(s, t.next).next, argc + 1);
    ArgsCons(s, Span(t.q, t.e), ws[0], rest.val.0, ws[1..]);
    assert [ws[0]] + ws[1..] == ws;
    TargetsConcat(s, Redirs(s, t.next).val, rs, rest.val.1, ts);
  }

  lemma ArgsText(ws: seq<string>, ts: seq<Target>)
    requires ws != [] && IsWord(ws[0])
    ensures var w := PrintArgs(ws) + PrintTargets(ts); w != "" && WordChar(w[0])
  {
    hide PrintTargets;
    assert (PrintArgs(ws) + PrintTargets(ts))[0] == ws[0][0];
  }

  lemma ArgsStart(s: string, p: nat, ws: seq<string>, ts: seq<Target>)
    requires Here(s, p, PrintArgs(ws) + PrintTargets(ts)) && Stop(At(s, p + |PrintArgs(ws) + PrintTargets(ts)|))
    requires forall i :: 0 <= i < |ws| ==> IsWord(ws[i])
    ensures Solid(s, p)
    ensures (if ws == [] then (if ts == [] then Stop(At(s, p)) else At(s, p) in "<>") else WordChar(At(s, p)))
  {
    hide PrintArgs, PrintTargets, Here, IsWord;
    if ws == [] {
      NoMoreArgs(ws, ts);
      TargetsStart(s, p, ts);
    } else {
      ArgsText(ws, ts);
      First(s, p, PrintArgs(ws) + PrintTargets(ts));
      InText(s, p, PrintArgs(ws) + PrintTargets(ts));
    }
  }

  lemma InText(s: string, p: nat, w: string)
    requires Here(s, p, w)
    ensures p <= |s|
  {
  }

  lemma ArgsCut(ws: seq<string>)
    requires ws != []
    ensures PrintArgs(ws) == (ws[0] + " ") + PrintArgs(ws[1..])
  {
  }

  /** Where the rest of a command line is after its first word. */
  lemma ArgsTail(s: string, p: nat, ws: seq<string>, ts: seq<Target>)
    requires Here(s, p, PrintArgs(ws) + PrintTargets(ts)) && ws != []
    ensures Here(s, p, ws[0] + " ") && Here(s, p + |ws[0]| + 1, PrintArgs(ws[1..]) + PrintTargets(ts))
    ensures p + |ws[0]| + 1 + |PrintArgs(ws[1..]) + PrintTargets(ts)| == p + |PrintArgs(ws) + PrintTargets(ts)|
  {
    hide PrintArgs, PrintTargets, Here;
    var w, rest, to := ws[0] + " ", PrintArgs(ws[1..]), PrintTargets(ts);
    ArgsCut(ws);
    Assoc(w, rest, to);
    Split(s, p, w, rest + to);
  }

  lemma NoMoreArgs(ws: seq<string>, ts: seq<Target>)
    requires ws == []
    ensures PrintArgs(ws) + PrintTargets(ts) == PrintTargets(ts)
  {
  }

  /** The first word of a command line as a token. */
  lemma ArgsFirst(s: string, p: nat, ws: seq<string>, ts: seq<Target>)
    requires Here(s, p, PrintArgs(ws) + PrintTargets(ts)) && Stop(At(s, p + |PrintArgs(ws) + PrintTargets(ts)|))
    requires (forall i :: 0 <= i < |ws| ==> IsWord(ws[i])) && ws != []
    ensures var n := p + |ws[0]| + 1;
            && Solid(s, n) && GetToken(s, p) == Token('a', p, p + |ws[0]|, n) && Denotes(s, Span(p, p + |ws[0]|), ws[0])
            && (ws[1..] != [] ==> WordChar(At(s, n)))
  {
    hide GetToken, Solid, Denotes, PrintArgs, PrintTargets;
    ArgsTail(s, p, ws, ts);
    hide Here;
    ArgsStart(s, p + |ws[0]| + 1, ws[1..], ts);
    WordToken(s, p, ws[0]);
  }

  lemma {:induction false} ArgsParsed(s: string, p: nat, ws: seq<string>, ts: seq<Target>, argc: nat)
    requires Here(s, p, PrintArgs(ws) + PrintTargets(ts)) && Stop(At(s, p + |PrintArgs(ws) + PrintTargets(ts)|))
    requires (forall i :: 0 <= i < |ws| ==> IsWord(ws[i])) && (forall i :: 0 <= i < |ts| ==> IsWord(ts[i].file))
    requires argc + |ws| < MAXARGS && (ws == [] ==> ts == [])
    ensures var r := Args(s, p, argc);
            r.Ok? && r.next == p + |PrintArgs(ws) + PrintTargets(ts)|
                && ArgsMatch(s, r.val.0, ws) && TargetsMatch(s, r.val.1, ts)
    decreases |ws|
  {
    hide Args, GetToken, Solid, Redirs, Denotes, Here, PrintArgs, PrintTargets, ArgsMatch, TargetsMatch, IsWord;
    ArgsStart(s, p, ws, ts);
    if ws == [] {
      NoArgs(s, p, ws, ts, argc);
    } else {
      ArgsFirst(s, p, ws, ts);
      ArgsTail(s, p, ws, ts);
      var n := p + |ws[0]| + 1;
      if ws[1..] == [] {
        NoMoreArgs(ws[1..], ts);
        ArgsLast(s, p, ws, ts, argc, n);
      } else {
        NoTargets(s, n);
        ArgsParsed(s, n, ws[1..], ts, argc + 1);
        ArgsIs(s, p, argc, ws, ts, []);
        assert [] + ts == ts;
      }
    }
  }

  lemma NoArgs(s: string, p: nat, ws: seq<string>, ts: seq<Target>, argc: nat)
    requires ws == [] && ts == [] && Solid(s, p) && Stop(At(s, p))
    ensures Args(s, p, argc) == Ok(([], []), p + |PrintArgs(ws) + PrintTargets(ts)|)
    ensures ArgsMatch(s, [], ws) && TargetsMatch(s, [], ts)
  {
    ArgsStop(s, p, argc);
  }

  lemma NoTargets(s: string, p: nat)
    requires Solid(s, p) && At(s, p) !in "<>"
    ensures Redirs(s, p) == Ok([], p) && TargetsMatch(s, [], [])
  {
    RedirsNone(s, p);
  }

  lemma ArgsLast(s: string, p: nat, ws: seq<string>, ts: seq<Target>, argc: nat, n: nat)
    requires |ws| == 1 && Here(s, n, PrintTargets(ts)) && Stop(At(s, n + |PrintTargets(ts)|))
    requires (forall i :: 0 <= i < |ts| ==> IsWord(ts[i].file))
    requires Solid(s, p) && WordChar(At(s, p)) && argc + 1 < MAXARGS
    requires GetToken(s, p) == Token('a', p, p + |ws[0]|, n) && Denotes(s, Span(p, p + |ws[0]|), ws[0])
    ensures var r := Args(s, p, argc);
            r.Ok? && r.next == n + |PrintTargets(ts)| && ArgsMatch(s, r.val.0, ws) && TargetsMatch(s, r.val.1, ts)
  {
    hide Args, GetToken, Redirs, PrintTargets, Here;
    TargetsParsed(s, n, ts);
    TargetsEnd(s, n, ts);
    ArgsStop(s, n + |PrintTargets(ts)|, argc + 1);
    assert ArgsMatch(s, [], ws[1..]) && TargetsMatch(s, [], []);
    hide TargetsMatch, ArgsMatch;
    ArgsIs(s, p, argc, ws, [], ts);
    assert ts + [] == ts;
  }

  lemma TargetsEnd(s: string, p: nat, ts: seq<Target>)
    requires Here(s, p, PrintTargets(ts)) && Stop(At(s, p + |PrintTargets(ts)|))
    ensures Solid(s, p + |PrintTargets(ts)|)
  {
  }

  // ---------------------------------------------------------------- putting a tree together again

  function TWrap(b: Tree, ts: seq<Target>): Tree
    decreases |ts|
  {
    if ts == [] then b else TWrap(TRedir(b, ts[0]), ts[1..])
  }

  lemma {:induction false} TWrapLast(b: Tree, ts: seq<Target>, x: Target)
    ensures TWrap(b, ts + [x]) == TRedir(TWrap(b, ts), x)
    decreases |ts|
  {
    if ts == [] {
      assert (ts + [x])[1..] == [];
    } else {
      assert (ts + [x])[1..] == ts[1..] + [x];
      TWrapLast(TRedir(b, ts[0]), ts[1..], x);
    }
  }

  lemma {:induction false} Rewrapped(t: Tree)
    ensures TWrap(Base(t), Targets(t)) == t
  {
    if t.TRedir? {
      Rewrapped(t.cmd);
      TWrapLast(Base(t), Targets(t.cmd), t.to);
    }
  }

  lemma {:induction false} WrapMatches(s: string, c: Cmd, b: Tree, rs: seq<Redirect>, ts: seq<Target>)
    requires Matches(s, c, b) && TargetsMatch(s, rs, ts)
    ensures Matches(s, Wrap(c, rs), TWrap(b, ts))
    decreases |ts|
  {
    if ts != [] { WrapMatches(s, Redir(c, rs[0]), TRedir(b, ts[0]), rs[1..], ts[1..]); }
  }

  function TBacks(t: Tree, k: nat): Tree
    decreases k
  {
    if k == 0 then t else TBacks(TBack(t), k - 1)
  }

  lemma {:induction false} TBacksOuter(t: Tree, k: nat)
    ensures TBacks(t, k + 1) == TBack(TBacks(t, k))
    decreases k
  {
    if k > 0 { TBacksOuter(TBack(t), k - 1); }
  }

  lemma {:induction false} Rebacked(t: Tree)
    ensures TBacks(Core(t), Depth(t)) == t
  {
    if t.TBack? {
      Rebacked(t.cmd);
      TBacksOuter(Core(t), Depth(t.cmd));
    }
  }

  // ---------------------------------------------------------------- the round trip

  /** A plain command with its redirections. */
  lemma PlainParsed(s: string, p: nat, ws: seq<string>, ts: seq<Target>) returns (argv: seq<Span>, rs: seq<Redirect>)
    requires Here(s, p, PrintArgs(ws) + PrintTargets(ts))
    requires Stop(At(s, p + |PrintArgs(ws) + PrintTargets(ts)|)) && |ws| < MAXARGS
    requires (forall i :: 0 <= i < |ws| ==> IsWord(ws[i])) && (forall i :: 0 <= i < |ts| ==> IsWord(ts[i].file))
    ensures ParseExec(s, p) == Ok(Wrap(Exec(argv), rs), p + |PrintArgs(ws) + PrintTargets(ts)|)
    ensures ArgsMatch(s, argv, ws) && TargetsMatch(s, rs, ts) && Solid(s, p)
  {
    hide Args, Redirs, Here, PrintArgs, PrintTargets, Wrap, ParseBlock;
    ArgsStart(s, p, ws, ts);
    PeekIs(s, p, "(");
    if ws == [] {
      NoMoreArgs(ws, ts);
      TargetsParsed(s, p, ts);
      TargetsEnd(s, p, ts);
      ArgsStop(s, p + |PrintTargets(ts)|, 0);
      argv, rs := [], Redirs(s, p).val;
      assert rs + [] == rs;
    } else {
      NoTargets(s, p);
      ArgsParsed(s, p, ws, ts, 0);
      argv, rs := Args(s, p, 0).val.0, Args(s, p, 0).val.1;
      assert [] + rs == rs;
    }
  }

  lemma {:induction false} AmpsParsed(s: string, p: nat, k: nat, c: Cmd, t: Tree) returns (r: Cmd)
    requires Here(s, p, Amps(k)) && Solid(s, p + |Amps(k)|) && At(s, p + |Amps(k)|) != '&' && Matches(s, c, t)
    ensures Backs(s, p, c) == (r, p + |Amps(k)|) && Matches(s, r, TBacks(t, k)) && Solid(s, p)
    ensures At(s, p) == if k == 0 then At(s, p + |Amps(k)|) else '&'
    decreases k
  {
    if k == 0 {
      r := c;
    } else {
      assert Amps(k) == "& " + Amps(k - 1);
      Split(s, p, "& ", Amps(k - 1));
      First(s, p, "& ");
      r := AmpsParsed(s, p + 2, k - 1, Back(c), TBack(t));
      SymbolToken(s, p, '&');
      PeekIs(s, p, "&");
    }
  }

  /** Where the two halves and the symbol between them are. */
  lemma Halves(s: string, p: nat, a: string, sym: string, b: string)
    requires Here(s, p, a + (sym + b)) && sym != ""
    ensures Here(s, p, a) && Here(s, p + |a|, sym) && At(s, p + |a|) == sym[0] && Here(s, p + |a| + |sym|, b)
    ensures p + |a| + |sym| + |b| == p + |a + (sym + b)|
  {
    Split(s, p, a, sym + b);
    Split(s, p + |a|, sym, b);
    First(s, p + |a|, sym);
  }

  /** What peek and gettoken find where a symbol and a blank are printed. */
  lemma Opens(s: string, p: nat, sym: string)
    requires Here(s, p, sym) && sym in ["( ", ") ", "| ", "; "] && Solid(s, p + 2)
    ensures Solid(s, p) && p + 2 <= |s| && SkipWs(s, p) == p && Peek(s, p, [sym[0]]) && GetToken(s, p).next == p + 2
  {
    assert sym == [sym[0], ' '];
    SymbolToken(s, p, sym[0]);
    First(s, p, sym);
    PeekIs(s, p, [sym[0]]);
    hide Solid, GetToken, SkipWs, Peek;
  }

  /** A block whose line and redirections have been parsed. */
  lemma BlockIs(s: string, p: nat, n: nat, c: Cmd)
    requires Here(s, p, "( ") && Solid(s, p + 2) && ParseLine(s, p + 2) == Ok(c, n)
    requires Here(s, n, ") ") && Solid(s, n + 2) && Redirs(s, n + 2).Ok?
    ensures ParseExec(s, p) == Ok(Wrap(c, Redirs(s, n + 2).val), Redirs(s, n + 2).next) && Solid(s, p)
  {
    hide ParseLine, Redirs, Wrap, GetToken, SkipWs, Peek, Args;
    Opens(s, p, "( ");
    Opens(s, n, ") ");
    hide Solid, Here;
  }

  lemma PipeIs(s: string, p: nat, n: nat, l: Cmd, r: Cmd, e: nat)
    requires p <= |s| && ParseExec(s, p) == Ok(l, n) && Here(s, n, "| ")
    requires Solid(s, n + 2) && ParsePipe(s, n + 2) == Ok(r, e)
    ensures ParsePipe(s, p) == Ok(Pipe(l, r), e)
  {
    SymbolToken(s, n, '|');
    First(s, n, "| ");
    PeekIs(s, n, "|");
    hide ParseExec, GetToken, SkipWs, Here;
  }

  lemma PipeAlone(s: string, p: nat, n: nat, c: Cmd)
    requires p <= |s| && ParseExec(s, p) == Ok(c, n) && Solid(s, n) && At(s, n) != '|'
    ensures ParsePipe(s, p) == Ok(c, n)
  {
    PeekIs(s, n, "|");
    hide ParseExec, SkipWs;
  }

  lemma ListIs(s: string, p: nat, m: nat, c0: Cmd, n: nat, l: Cmd, r: Cmd, e: nat)
    requires p <= |s| && ParsePipe(s, p) == Ok(c0, m) && m <= |s| && Backs(s, m, c0) == (l, n)
    requires Here(s, n, "; ") && Solid(s, n + 2) && ParseLine(s, n + 2) == Ok(r, e)
    ensures ParseLine(s, p) == Ok(List(l, r), e)
  {
    SymbolToken(s, n, ';');
    First(s, n, "; ");
    PeekIs(s, n, ";");
    hide ParsePipe, Backs, GetToken, SkipWs, Here;
  }

  lemma LineAlone(s: string, p: nat, m: nat, c0: Cmd, n: nat, c: Cmd)
    requires p <= |s| && ParsePipe(s, p) == Ok(c0, m) && m <= |s|
    requires Backs(s, m, c0) == (c, n) && Solid(s, n) && At(s, n) != ';'
    ensures ParseLine(s, p) == Ok(c, n)
  {
    PeekIs(s, n, ";");
    hide ParsePipe, Backs, SkipWs;
  }

  /** What may follow a pipeline, and what may follow a line. */
  predicate PipeStop(c: char) { c == NUL || c in ")&;" }

  predicate LineStop(c: char) { c == NUL || c == ')' }

  lemma BlockParts(s: string, p: nat, t: Tree, inside: string, to: string)
    requires Here(s, p, PrintExec(t)) && !Base(t).TExec?
    requires inside == PrintInside(Base(t)) && to == PrintTargets(Targets(t))
    ensures Here(s, p, "( ") && Here(s, p + 2, inside)
    ensures Here(s, p + 2 + |inside|, ") ") && At(s, p + 2 + |inside|) == ')'
    ensures Here(s, p + 4 + |inside|, to) && p + |PrintExec(t)| == p + 4 + |inside| + |to|
  {
    hide PrintInside, PrintTargets, Here;
    assert PrintExec(t) == ("( " + inside + ") ") + to;
    Split(s, p, "( " + inside + ") ", to);
    Split(s, p, "( " + inside, ") ");
    Split(s, p, "( ", inside);
    First(s, p + 2 + |inside|, ") ");
  }

  lemma AmpsFirst(s: string, p: nat, k: nat)
    requires Here(s, p, Amps(k))
    ensures At(s, p) == if k == 0 then At(s, p + |Amps(k)|) else '&'
  {
    if k > 0 { First(s, p, Amps(k)); }
  }

  lemma BackText(t: Tree)
    ensures PrintBack(t) == PrintPipe(Core(t)) + Amps(Depth(t))
    ensures |PrintBack(t)| == |PrintPipe(Core(t))| + |Amps(Depth(t))|
  {
  }

  /** The '&'s after a pipeline. */
  lemma BackJoin(s: string, p: nat, t: Tree, c0: Cmd) returns (c: Cmd)
    requires Here(s, p, PrintBack(t)) && PipeStop(At(s, p + |PrintBack(t)|))
    requires At(s, p + |PrintBack(t)|) != '&' && Matches(s, c0, Core(t))
    ensures p + |PrintPipe(Core(t))| <= |s|
    ensures Backs(s, p + |PrintPipe(Core(t))|, c0) == (c, p + |PrintBack(t)|) && Matches(s, c, t)
    ensures Solid(s, p + |PrintBack(t)|)
  {
    hide PrintPipe, Backs, PrintBack, Core, Depth, TBacks, Matches, Amps;
    var a, k := PrintPipe(Core(t)), Depth(t);
    BackText(t);
    Rebacked(t);
    Split(s, p, a, Amps(k));
    hide Here;
    c := AmpsParsed(s, p + |a|, k, c0, Core(t));
  }

  lemma BackStart(s: string, p: nat, t: Tree)
    requires Here(s, p, PrintBack(t)) && PipeStop(At(s, p + |PrintBack(t)|)) && At(s, p + |PrintBack(t)|) != '&'
    ensures Here(s, p, PrintPipe(Core(t))) && PipeStop(At(s, p + |PrintPipe(Core(t))|))
  {
    hide PrintPipe, PrintBack, Core, Depth, Amps;
    var a, k := PrintPipe(Core(t)), Depth(t);
    BackText(t);
    Split(s, p, a, Amps(k));
    hide Here;
    AmpsFirst(s, p + |a|, k);
  }

  lemma {:induction false} PipeCase(s: string, p: nat, t: Tree) returns (c: Cmd)
    requires Printable(t) && t.TPipe? && Here(s, p, PrintPipe(t)) && PipeStop(At(s, p + |PrintPipe(t)|))
    ensures ParsePipe(s, p) == Ok(c, p + |PrintPipe(t)|) && Matches(s, c, t) && Solid(s, p)
    decreases Size(t), 0
  {
    hide ParseExec, ParsePipe, PrintExec;
    var a, b := PrintExec(t.left), PrintPipe(t.right);
    assert PrintPipe(t) == a + ("| " + b);
    hide PrintPipe;
    Halves(s, p, a, "| ", b);
    hide Here;
    var n := p + |a|;
    var l := ExecBack(s, p, t.left);
    var r := PipeBack(s, n + 2, t.right);
    PipeIs(s, p, n, l, r, n + 2 + |b|);
    c := Pipe(l, r);
  }

  lemma {:induction false} ListCase(s: string, p: nat, t: Tree) returns (c: Cmd)
    requires Printable(t) && t.TList? && Here(s, p, PrintLine(t)) && LineStop(At(s, p + |PrintLine(t)|))
    ensures ParseLine(s, p) == Ok(c, p + |PrintLine(t)|) && Matches(s, c, t) && Solid(s, p)
    decreases Size(t), 0
  {
    hide ParsePipe, ParseLine, PrintBack, Backs;
    var a, b := PrintBack(t.left), PrintLine(t.right);
    assert PrintLine(t) == a + ("; " + b);
    hide PrintLine;
    Halves(s, p, a, "; ", b);
    hide Here;
    var n := p + |a|;
    var c0, m, l := BackBack(s, p, t.left);
    var r := LineBack(s, n + 2, t.right);
    ListIs(s, p, m, c0, n, l, r, n + 2 + |b|);
    c := List(l, r);
  }

  /** What stands between parentheses. */
  lemma {:induction false} InsideBack(s: string, p: nat, t: Tree) returns (c: Cmd)
    requires Printable(t) && !t.TExec? && !t.TRedir? && Here(s, p, PrintLine(t)) && LineStop(At(s, p + |PrintLine(t)|))
    ensures ParseLine(s, p) == Ok(c, p + |PrintLine(t)|) && Matches(s, c, t) && Solid(s, p)
    decreases Size(t), 1
  {
    hide ParsePipe, ParseLine, Backs, PrintBack, Here, Matches, Solid;
    if t.TList? {
      c := ListCase(s, p, t);
    } else {
      assert PrintLine(t) == PrintBack(t);
      hide PrintLine;
      c := BackInside(s, p, t);
    }
  }

  lemma {:induction false} BackInside(s: string, p: nat, t: Tree) returns (c: Cmd)
    requires Printable(t) && (t.TPipe? || t.TBack?) && Here(s, p, PrintBack(t)) && LineStop(At(s, p + |PrintBack(t)|))
    ensures ParseLine(s, p) == Ok(c, p + |PrintBack(t)|) && Matches(s, c, t) && Solid(s, p)
    decreases Size(t), 1, 0
  {
    hide ParsePipe, ParseLine, Backs, PrintBack, PrintPipe, Here, Matches, Solid;
    BackStart(s, p, t);
    var c0;
    if t.TPipe? {
      assert Core(t) == t;
      c0 := PipeCase(s, p, t);
    } else {
      c0 := PipeBack(s, p, Core(t));
    }
    c := BackJoin(s, p, t, c0);
    LineAlone(s, p, p + |PrintPipe(Core(t))|, c0, p + |PrintBack(t)|, c);
  }

  lemma {:induction false} ExecBack(s: string, p: nat, t: Tree) returns (c: Cmd)
    requires Printable(t) && Here(s, p, PrintExec(t)) && Stop(At(s, p + |PrintExec(t)|))
    ensures ParseExec(s, p) == Ok(c, p + |PrintExec(t)|) && Matches(s, c, t) && Solid(s, p)
    decreases Size(t), 3
  {
    var b, ts := Base(t), Targets(t);
    Rewrapped(t);
    hide ParseExec, ParseLine, Redirs, Wrap, TWrap, Solid;
    if b.TExec? {
      assert PrintExec(t) == PrintArgs(b.argv) + PrintTargets(ts);
      hide Here, PrintExec;
      var argv, rs := PlainParsed(s, p, b.argv, ts);
      WrapMatches(s, Exec(argv), b, rs, ts);
      c := Wrap(Exec(argv), rs);
    } else {
      c := BlockBack(s, p, t);
    }
  }

  lemma {:induction false} BlockBack(s: string, p: nat, t: Tree) returns (c: Cmd)
    requires Printable(t) && !Base(t).TExec? && Here(s, p, PrintExec(t)) && Stop(At(s, p + |PrintExec(t)|))
    ensures ParseExec(s, p) == Ok(c, p + |PrintExec(t)|) && Matches(s, c, t) && Solid(s, p)
    decreases Size(t), 2
  {
    hide ParseExec, ParseLine, Redirs, Wrap, TWrap, Here, PrintExec, PrintLine, PrintInside,
        PrintTargets, Base, Targets, Matches, Size, Printable, Solid;
    var b, ts := Base(t), Targets(t);
    Rewrapped(t);
    InsideIsLine(b);
    BlockParts(s, p, t, PrintLine(b), PrintTargets(ts));
    var n := p + 2 + |PrintLine(b)|;
    TargetsParsed(s, n + 2, ts);
    TargetsStart(s, n + 2, ts);
    var d := InsideBack(s, p + 2, b);
    BlockIs(s, p, n, d);
    c := Wrap(d, Redirs(s, n + 2).val);
    WrapMatches(s, d, b, Redirs(s, n + 2).val, ts);
  }

  lemma {:induction false} PipeBack(s: string, p: nat, t: Tree) returns (c: Cmd)
    requires Printable(t) && Here(s, p, PrintPipe(t)) && PipeStop(At(s, p + |PrintPipe(t)|))
    ensures ParsePipe(s, p) == Ok(c, p + |PrintPipe(t)|) && Matches(s, c, t) && Solid(s, p)
    decreases Size(t), 4
  {
    hide ParseExec, ParsePipe, PrintExec;
    if t.TPipe? {
      c := PipeCase(s, p, t);
    } else {
      assert PrintPipe(t) == PrintExec(t);
      hide PrintPipe;
      c := ExecBack(s, p, t);
      PipeAlone(s, p, p + |PrintExec(t)|, c);
    }
  }

  lemma {:induction false} BackBack(s: string, p: nat, t: Tree) returns (c0: Cmd, m: nat, c: Cmd)
    requires Printable(t) && Here(s, p, PrintBack(t))
    requires PipeStop(At(s, p + |PrintBack(t)|)) && At(s, p + |PrintBack(t)|) != '&'
    ensures m <= |s| && ParsePipe(s, p) == Ok(c0, m) && Backs(s, m, c0) == (c, p + |PrintBack(t)|) && Matches(s, c, t)
    ensures Solid(s, p) && Solid(s, p + |PrintBack(t)|)
    decreases Size(t), 5
  {
    hide ParsePipe, Backs, PrintBack, PrintPipe, Here;
    BackStart(s, p, t);
    c0 := PipeBack(s, p, Core(t));
    m := p + |PrintPipe(Core(t))|;
    c := BackJoin(s, p, t, c0);
  }

  lemma {:induction false} LineBack(s: string, p: nat, t: Tree) returns (c: Cmd)
    requires Printable(t) && Here(s, p, PrintLine(t)) && LineStop(At(s, p + |PrintLine(t)|))
    ensures ParseLine(s, p) == Ok(c, p + |PrintLine(t)|) && Matches(s, c, t) && Solid(s, p)
    decreases Size(t), 6
  {
    hide ParsePipe, ParseLine, PrintBack, Backs;
    if t.TList? {
      c := ListCase(s, p, t);
    } else {
      assert PrintLine(t) == PrintBack(t);
      hide PrintLine;
      var c0, m, d := BackBack(s, p, t);
      LineAlone(s, p, m, c0, p + |PrintBack(t)|, d);
      c := d;
    }
  }

  /** Parsing the printed form of any printable tree gives the tree back. */
  lemma PrintThenParse(t: Tree) returns (c: Cmd)
    requires Printable(t)
    ensures ParseCmd(PrintLine(t)) == Ok(c, |PrintLine(t)|) && Matches(PrintLine(t), c, t)
  {
    hide ParseLine, PrintLine;
    var s := PrintLine(t);
    assert s[0..|s|] == s;
    c := LineBack(s, 0, t);
  }
}
