/** Simple commands and the tokens of the text: which words become arguments and which become redirections, in order. */
module ShellTokens {
  import opened Shell

  /** The tokens of the text from p that end by n. */
  function Tokens(s: string, p: nat, n: nat): seq<Token>
    requires p <= n <= |s|
    decreases n - p
  {
    var t := GetToken(s, p);
    if t.ret == NUL || t.next > n then [] else [t] + Tokens(s, t.next, n)
  }

  predicate Arrow(t: Token) { t.ret == '<' || t.ret == '>' || t.ret == '+' }

  /** The redirection that an arrow and a word stand for. */
  function RedirectOf(t: Token, f: Token): Redirect {
    Redirect(Span(f.q, f.e), if t.ret == '<' then Input else if t.ret == '>' then Output else Append)
  }

  /** The words that stand alone, and the redirections, each in the order of the text. */
  function Sorted(toks: seq<Token>): (seq<Span>, seq<Redirect>) {
    if toks == [] then ([], [])
    else if toks[0].ret == 'a' then
      var rest := Sorted(toks[1..]);
      ([Span(toks[0].q, toks[0].e)] + rest.0, rest.1)
    else if Arrow(toks[0]) && |toks| > 1 && toks[1].ret == 'a' then
      var rest := Sorted(toks[2..]);
      (rest.0, [RedirectOf(toks[0], toks[1])] + rest.1)
    else Sorted(toks[1..])
  }

  lemma {:induction false} SkipTwice(s: string, p: nat)
    requires p <= |s|
    ensures SkipWs(s, SkipWs(s, p)) == SkipWs(s, p) && GetToken(s, SkipWs(s, p)) == GetToken(s, p)
  {
  }

  lemma TokensSkip(s: string, p: nat, n: nat)
    requires p <= |s| && SkipWs(s, p) <= n <= |s|
    ensures Tokens(s, SkipWs(s, p), n) == Tokens(s, p, n)
  {
    SkipTwice(s, p);
    hide GetToken, SkipWs;
  }

  lemma OneToken(s: string, p: nat, n: nat)
    requires p <= n <= |s| && GetToken(s, p).ret != NUL && GetToken(s, p).next <= n
    ensures Tokens(s, p, n) == [GetToken(s, p)] + Tokens(s, GetToken(s, p).next, n)
  {
    hide GetToken;
  }

  lemma PeekArrow(s: string, p: nat)
    requires p <= |s| && Peek(s, p, "<>")
    ensures Arrow(GetToken(s, p))
  {
  }

  lemma SortedRedirect(t: Token, f: Token, toks: seq<Token>)
    requires Arrow(t) && f.ret == 'a'
    ensures Sorted([t] + ([f] + toks)) == (Sorted(toks).0, [RedirectOf(t, f)] + Sorted(toks).1)
  {
    var all := [t] + ([f] + toks);
    assert all[2..] == toks;
  }

  lemma SortedWord(t: Token, toks: seq<Token>)
    requires t.ret == 'a'
    ensures Sorted([t] + toks) == ([Span(t.q, t.e)] + Sorted(toks).0, Sorted(toks).1)
  {
    assert ([t] + toks)[1..] == toks;
  }

  lemma Nothing(x: (seq<Span>, seq<Redirect>))
    ensures [] + x.0 == x.0 && [] + x.1 == x.1
  {
  }

  lemma Together<T>(a: seq<T>, b: seq<T>, c: seq<T>)
    ensures a + (b + c) == a + b + c
  {
  }

  /** What parseredirs has used up, from p to m, are its redirections. */
  lemma {:induction false} RedirsSorted(s: string, p: nat, n: nat)
    requires p <= |s| && Redirs(s, p).Ok? && Redirs(s, p).next <= n <= |s|
    ensures var r, toks, rest := Redirs(s, p), Tokens(s, p, n), Tokens(s, Redirs(s, p).next, n);
            && Sorted(toks) == (Sorted(rest).0, r.val + Sorted(rest).1) && |toks| == |rest| + 2 * |r.val|
    decreases |s| - p
  {
    SkipTwice(s, p);
    if !Peek(s, p, "<>") {
      TokensSkip(s, p, n);
      Nothing(Sorted(Tokens(s, SkipWs(s, p), n)));
    } else {
      var t := GetToken(s, p);
      var f := GetToken(s, t.next);
      PeekArrow(s, p);
      RedirsSorted(s, f.next, n);
      OneToken(s, p, n);
      OneToken(s, t.next, n);
      hide GetToken, SkipWs, Peek, Tokens, Sorted;
      SortedRedirect(t, f, Tokens(s, f.next, n));
      var rest := Redirs(s, f.next);
      Together([RedirectOf(t, f)], rest.val, Sorted(Tokens(s, rest.next, n)).1);
    }
  }

  /** What the loop of parseexec has used up are its arguments and the redirections between them. */
  lemma {:induction false} ArgsSorted(s: string, p: nat, argc: nat, n: nat)
    requires p <= |s| && Args(s, p, argc).Ok? && Args(s, p, argc).next <= n <= |s|
    ensures var r, toks, rest := Args(s, p, argc), Tokens(s, p, n), Tokens(s, Args(s, p, argc).next, n);
            && Sorted(toks) == (r.val.0 + Sorted(rest).0, r.val.1 + Sorted(rest).1)
            && |toks| == |rest| + |r.val.0| + 2 * |r.val.1|
    decreases |s| - p
  {
    SkipTwice(s, p);
    var t := GetToken(s, p);
    if Peek(s, p, "|)&;") || t.ret == NUL {
      TokensSkip(s, p, n);
      NulNext(s, p);
      Nothing(Sorted(Tokens(s, SkipWs(s, p), n)));
    } else {
      var rs := Redirs(s, t.next);
      RedirsSorted(s, t.next, n);
      ArgsSorted(s, rs.next, argc + 1, n);
      OneToken(s, p, n);
      hide GetToken, SkipWs, Peek, Tokens, Redirs, Sorted;
      SortedWord(t, Tokens(s, t.next, n));
      var rest := Args(s, rs.next, argc + 1);
      var tail := Sorted(Tokens(s, rest.next, n));
      Together([Span(t.q, t.e)], rest.val.0, tail.0);
      Together(rs.val, rest.val.1, tail.1);
    }
  }

  lemma NulNext(s: string, p: nat)
    requires p <= |s|
    ensures GetToken(s, p).ret == NUL ==> GetToken(s, p).next == SkipWs(s, p)
  {
    SkipTwice(s, p);
  }

  /** parseexec on anything but a block: its arguments are the words of the text it has used that follow no arrow, its
      redirections the arrows with the word after each, both in the order of the text, and there is no other token. The
      first redirection is the innermost. */
  lemma ExecIsItsTokens(s: string, p: nat)
    requires p <= |s| && !Peek(s, p, "(") && ParseExec(s, p).Ok?
    ensures var r := ParseExec(s, p);
            var toks := Tokens(s, p, r.next);
            var (argv, rs) := Sorted(toks);
            r.val == Wrap(Exec(argv), rs) && |toks| == |argv| + 2 * |rs|
  {
    hide GetToken, SkipWs, Redirs, Args, Tokens, Sorted, Wrap, ParseBlock;
    var n := ParseExec(s, p).next;
    var p1 := SkipWs(s, p);
    TokensSkip(s, p, n);
    RedirsSorted(s, p1, n);
    var rs := Redirs(s, p1);
    ArgsSorted(s, rs.next, 0, n);
    NoTokens(s, n);
    var args := Args(s, rs.next, 0).val;
    Whole(args.0, rs.val, args.1);
  }

  lemma Whole(argv: seq<Span>, rs: seq<Redirect>, more: seq<Redirect>)
    ensures argv + [] == argv && rs + (more + []) == rs + more
  {
  }

  lemma NoTokens(s: string, n: nat)
    requires n <= |s|
    ensures Tokens(s, n, n) == [] && Sorted(Tokens(s, n, n)) == ([], [])
  {
  }

  /** The redirections wrap the command from the inside out. */
  lemma {:induction false} WrapOrder(c: Cmd, rs: seq<Redirect>)
    ensures rs == [] ==> Wrap(c, rs) == c
    ensures rs != [] ==> Wrap(c, rs) == Redir(Wrap(c, rs[..|rs| - 1]), rs[|rs| - 1])
    decreases |rs|
  {
    if |rs| > 1 {
      WrapOrder(Redir(c, rs[0]), rs[1..]);
      assert rs[1..][..|rs| - 2] == rs[..|rs| - 1][1..];
    }
  }
}
