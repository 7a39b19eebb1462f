/** The grammar of the shell's command line, over tokens, and that parsecmd accepts exactly its lines, with the tree
    that the grammar gives them. */
module ShellGrammar {
  import opened Shell
  import opened ShellTokens

  // ---------------------------------------------------------------- the grammar

  /** Words, and arrows with a word after each. */
  predicate Clean(toks: seq<Token>) {
    || toks == []
    || (toks[0].ret == 'a' && Clean(toks[1..]))
    || (|toks| > 1 && Arrow(toks[0]) && toks[1].ret == 'a' && Clean(toks[2..]))
  }

  /** Arrows with a word after each, and nothing else. */
  predicate Pairs(toks: seq<Token>) {
    toks == [] || (|toks| > 1 && Arrow(toks[0]) && toks[1].ret == 'a' && Pairs(toks[2..]))
  }

  /** exec: word | arrow word | exec exec */
  predicate IsExec(c: Cmd, toks: seq<Token>) {
    Clean(toks) && |Sorted(toks).0| < MAXARGS && c == Wrap(Exec(Sorted(toks).0), Sorted(toks).1)
  }

  /** block: ( line ) redirections, where the i-th token is the closing parenthesis. */
  ghost predicate BlockAt(c: Cmd, toks: seq<Token>, i: int, b: Cmd)
    decreases |toks|, 0
  {
    && 0 < i < |toks| && toks[0].ret == '(' && toks[i].ret == ')' && IsLine(b, toks[1..i])
    && Pairs(toks[i + 1..]) && c == Wrap(b, Sorted(toks[i + 1..]).1)
  }

  ghost predicate IsSimple(c: Cmd, toks: seq<Token>)
    decreases |toks|, 1
  {
    IsExec(c, toks) || exists i, b :: BlockAt(c, toks, i, b)
  }

  /** pipe: simple | simple '|' pipe */
  ghost predicate PipeAt(c: Cmd, toks: seq<Token>, i: int)
    decreases |toks|, 2
  {
    && c.Pipe? && 0 <= i < |toks| && toks[i].ret == '|'
    && IsSimple(c.left, toks[..i]) && IsPipe(c.right, toks[i + 1..])
  }

  ghost predicate IsPipe(c: Cmd, toks: seq<Token>)
    decreases |toks|, 3
  {
    IsSimple(c, toks) || exists i :: PipeAt(c, toks, i)
  }

  /** back: pipe | back '&' */
  ghost predicate IsBack(c: Cmd, toks: seq<Token>)
    decreases |toks|, 4
  {
    || IsPipe(c, toks)
    || (c.Back? && toks != [] && toks[|toks| - 1].ret == '&' && IsBack(c.cmd, toks[..|toks| - 1]))
  }

  /** line: back | back ';' line */
  ghost predicate LineAt(c: Cmd, toks: seq<Token>, i: int)
    decreases |toks|, 5
  {
    && c.List? && 0 <= i < |toks| && toks[i].ret == ';'
    && IsBack(c.left, toks[..i]) && IsLine(c.right, toks[i + 1..])
  }

  ghost predicate IsLine(c: Cmd, toks: seq<Token>)
    decreases |toks|, 6
  {
    IsBack(c, toks) || exists i :: LineAt(c, toks, i)
  }

  // ---------------------------------------------------------------- stretches of text and their tokens

  /** A token ends, or none begins, before m: the tokens from p are those up to m and those from there. */
  ghost predicate Splits(s: string, p: nat, m: nat) {
    p <= m <= |s| && forall n :: m <= n <= |s| ==> Tokens(s, p, n) == Tokens(s, p, m) + Tokens(s, m, n)
  }

  lemma SplitsSkip(s: string, p: nat)
    requires p <= |s|
    ensures Splits(s, p, SkipWs(s, p)) && Tokens(s, p, SkipWs(s, p)) == []
  {
    hide SkipWs, GetToken;
    var m := SkipWs(s, p);
    TokensSkip(s, p, m);
    NoTokens(s, m);
    forall n | m <= n <= |s| ensures Tokens(s, p, n) == Tokens(s, p, m) + Tokens(s, m, n) { TokensSkip(s, p, n); }
  }

  lemma SplitsOne(s: string, p: nat)
    requires p <= |s| && GetToken(s, p).ret != NUL
    ensures Splits(s, p, GetToken(s, p).next) && Tokens(s, p, GetToken(s, p).next) == [GetToken(s, p)]
  {
    hide GetToken;
    var m := GetToken(s, p).next;
    OneToken(s, p, m);
    NoTokens(s, m);
    hide Tokens;
    forall n | m <= n <= |s| ensures Tokens(s, p, n) == Tokens(s, p, m) + Tokens(s, m, n) { OneToken(s, p, n); }
  }

  lemma SplitsThen(s: string, p: nat, m: nat, q: nat)
    requires Splits(s, p, m) && Splits(s, m, q)
    ensures Splits(s, p, q) && Tokens(s, p, q) == Tokens(s, p, m) + Tokens(s, m, q)
  {
    hide Tokens;
    forall n | q <= n <= |s| ensures Tokens(s, p, n) == Tokens(s, p, q) + Tokens(s, q, n) {
      assert Tokens(s, p, n) == Tokens(s, p, m) + Tokens(s, m, n);
      Together(Tokens(s, p, m), Tokens(s, m, q), Tokens(s, q, n));
    }
  }

  /** peek tells the next token. */
  lemma PeekIs(s: string, p: nat)
    requires p <= |s|
    ensures var ret := GetToken(s, p).ret;
            && (Peek(s, p, "<>") <==> Arrow(GetToken(s, p))) && (Peek(s, p, "(") <==> ret == '(')
            && (Peek(s, p, ")") <==> ret == ')') && (Peek(s, p, "|") <==> ret == '|')
            && (Peek(s, p, "&") <==> ret == '&') && (Peek(s, p, ";") <==> ret == ';')
            && (Peek(s, p, "|)&;") <==> ret == '|' || ret == ')' || ret == '&' || ret == ';')
  {
  }

  // ---------------------------------------------------------------- what is accepted is in the grammar

  lemma {:induction false} PairsClean(a: seq<Token>, b: seq<Token>)
    requires Pairs(a) && Clean(b)
    ensures Clean(a + b)
    decreases |a|
  {
    if a == [] {
      assert a + b == b;
    } else {
      PairsClean(a[2..], b);
      assert (a + b)[2..] == a[2..] + b;
    }
  }

  lemma PairsMore(t: Token, f: Token, toks: seq<Token>)
    requires Arrow(t) && f.ret == 'a' && Pairs(toks)
    ensures Pairs([t] + ([f] + toks))
  {
    assert ([t] + ([f] + toks))[2..] == toks;
  }

  lemma {:induction false} RedirsSound(s: string, p: nat)
    requires p <= |s| && Redirs(s, p).Ok?
    ensures var n := Redirs(s, p).next;
            Splits(s, p, n) && Pairs(Tokens(s, p, n)) && Sorted(Tokens(s, p, n)) == ([], Redirs(s, p).val)
    decreases |s| - p
  {
    hide GetToken, SkipWs, Peek, Tokens, Sorted;
    SkipTwice(s, p);
    PeekIs(s, p);
    var n := Redirs(s, p).next;
    RedirsSorted(s, p, n);
    NoTokens(s, n);
    assert Redirs(s, p).val + [] == Redirs(s, p).val;
    if !Peek(s, p, "<>") {
      SplitsSkip(s, p);
    } else {
      var t := GetToken(s, p);
      var f := GetToken(s, t.next);
      RedirsSound(s, f.next);
      SplitsOne(s, p);
      SplitsOne(s, t.next);
      SplitsThen(s, t.next, f.next, n);
      SplitsThen(s, p, t.next, n);
      PairsMore(t, f, Tokens(s, f.next, n));
    }
  }

  lemma WordClean(t: Token, toks: seq<Token>)
    requires t.ret == 'a' && Clean(toks)
    ensures Clean([t] + toks)
  {
    assert ([t] + toks)[1..] == toks;
  }

  lemma {:induction false} ArgsSound(s: string, p: nat, argc: nat)
    requires p <= |s| && argc < MAXARGS && Args(s, p, argc).Ok?
    ensures var n := Args(s, p, argc).next; Splits(s, p, n) && Clean(Tokens(s, p, n))
    ensures argc + |Args(s, p, argc).val.0| < MAXARGS
    decreases |s| - p
  {
    hide GetToken, SkipWs, Peek, Tokens, Redirs, Clean;
    SkipTwice(s, p);
    NulNext(s, p);
    NilClean();
    var t := GetToken(s, p);
    if Peek(s, p, "|)&;") || t.ret == NUL {
      SplitsSkip(s, p);
    } else {
      var rs := Redirs(s, t.next);
      var n := Args(s, rs.next, argc + 1).next;
      ArgsSound(s, rs.next, argc + 1);
      RedirsSound(s, t.next);
      SplitsThen(s, t.next, rs.next, n);
      PairsClean(Tokens(s, t.next, rs.next), Tokens(s, rs.next, n));
      SplitsOne(s, p);
      SplitsThen(s, p, t.next, n);
      WordClean(t, Tokens(s, t.next, n));
    }
  }

  lemma NilClean()
    ensures Clean([])
  {
  }

  lemma {:induction false} ExecSound(s: string, p: nat)
    requires p <= |s| && ParseExec(s, p).Ok?
    ensures var n := ParseExec(s, p).next; Splits(s, p, n) && IsSimple(ParseExec(s, p).val, Tokens(s, p, n))
    decreases |s| - p, 1
  {
    hide GetToken, SkipWs, Tokens, Redirs, Args, Clean, Sorted, Wrap, IsLine, BlockAt, ParseBlock;
    var p1, n := SkipWs(s, p), ParseExec(s, p).next;
    SplitsSkip(s, p);
    SkipTwice(s, p);
    if Peek(s, p, "(") {
      var i, b := BlockSound(s, p1);
      SplitsThen(s, p, p1, n);
      assert [] + Tokens(s, p1, n) == Tokens(s, p1, n);
    } else {
      var rs := Redirs(s, p1);
      RedirsSound(s, p1);
      ArgsSound(s, rs.next, 0);
      SplitsThen(s, p1, rs.next, n);
      PairsClean(Tokens(s, p1, rs.next), Tokens(s, rs.next, n));
      SplitsThen(s, p, p1, n);
      assert [] + Tokens(s, p1, n) == Tokens(s, p1, n);
      ExecIsItsTokens(s, p);
      ArgvIs(s, p);
    }
  }

  lemma ArgvIs(s: string, p: nat)
    requires p <= |s| && !Peek(s, p, "(") && ParseExec(s, p).Ok?
    ensures |Sorted(Tokens(s, p, ParseExec(s, p).next)).0| < MAXARGS
  {
    hide GetToken, SkipWs, Redirs, Args, Tokens, Sorted, Wrap, ParseBlock;
    var n := ParseExec(s, p).next;
    var p1 := SkipWs(s, p);
    TokensSkip(s, p, n);
    RedirsSorted(s, p1, n);
    var rs := Redirs(s, p1);
    ArgsSorted(s, rs.next, 0, n);
    ArgsSound(s, rs.next, 0);
    NoTokens(s, n);
  }

  lemma {:induction false} BlockSound(s: string, p: nat) returns (i: int, b: Cmd)
    requires p <= |s| && Peek(s, p, "(") && ParseBlock(s, p).Ok? && SkipWs(s, p) == p
    ensures var n := ParseBlock(s, p).next; Splits(s, p, n) && BlockAt(ParseBlock(s, p).val, Tokens(s, p, n), i, b)
    decreases |s| - p, 0
  {
    hide GetToken, SkipWs, Tokens, Redirs, Sorted, Wrap, IsLine, Pairs, Peek, ParseLine;
    PeekIs(s, p);
    var t := GetToken(s, p);
    var c := ParseLine(s, t.next);
    PeekIs(s, c.next);
    SkipTwice(s, c.next);
    var u, n := GetToken(s, c.next), ParseBlock(s, p).next;
    LineSound(s, t.next);
    RedirsSound(s, u.next);
    SplitsOne(s, p);
    SplitsOne(s, c.next);
    SplitsThen(s, c.next, u.next, n);
    SplitsThen(s, t.next, c.next, n);
    SplitsThen(s, p, t.next, n);
    b := c.val;
    i := 1 + |Tokens(s, t.next, c.next)|;
    Parts(t, Tokens(s, t.next, c.next), u, Tokens(s, u.next, n));
  }

  lemma Parts(t: Token, a: seq<Token>, u: Token, b: seq<Token>)
    ensures var toks, i := [t] + (a + ([u] + b)), 1 + |a|;
            i < |toks| && toks[0] == t && toks[i] == u && toks[1..i] == a && toks[i + 1..] == b
  {
  }

  lemma Mid(a: seq<Token>, u: Token, b: seq<Token>)
    ensures var toks, i := a + ([u] + b), |a|; i < |toks| && toks[i] == u && toks[..i] == a && toks[i + 1..] == b
  {
  }

  lemma {:induction false} PipeSound(s: string, p: nat)
    requires p <= |s| && ParsePipe(s, p).Ok?
    ensures var n := ParsePipe(s, p).next; Splits(s, p, n) && IsPipe(ParsePipe(s, p).val, Tokens(s, p, n))
    decreases |s| - p, 2
  {
    hide GetToken, SkipWs, Tokens, Peek, IsSimple, ParseExec;
    var c := ParseExec(s, p);
    ExecSound(s, p);
    var p1, n := SkipWs(s, c.next), ParsePipe(s, p).next;
    SkipTwice(s, c.next);
    PeekIs(s, c.next);
    if !Peek(s, c.next, "|") {
      SplitsSkip(s, c.next);
      SplitsThen(s, p, c.next, p1);
      assert Tokens(s, p, c.next) + [] == Tokens(s, p, c.next);
    } else {
      var u := GetToken(s, c.next);
      PipeSound(s, u.next);
      SplitsOne(s, c.next);
      SplitsThen(s, c.next, u.next, n);
      SplitsThen(s, p, c.next, n);
      Mid(Tokens(s, p, c.next), u, Tokens(s, u.next, n));
      assert PipeAt(ParsePipe(s, p).val, Tokens(s, p, n), |Tokens(s, p, c.next)|);
    }
  }

  lemma {:induction false} BacksSound(s: string, p0: nat, p: nat, c: Cmd)
    requires Splits(s, p0, p) && IsBack(c, Tokens(s, p0, p))
    ensures var r := Backs(s, p, c); Splits(s, p0, r.1) && IsBack(r.0, Tokens(s, p0, r.1))
    decreases |s| - p
  {
    hide GetToken, SkipWs, Tokens, Peek, IsPipe;
    SkipTwice(s, p);
    PeekIs(s, p);
    if Peek(s, p, "&") {
      var u := GetToken(s, p);
      SplitsOne(s, p);
      SplitsThen(s, p0, p, u.next);
      BackMore(c, Tokens(s, p0, p), u);
      BacksSound(s, p0, u.next, Back(c));
    } else {
      SplitsSkip(s, p);
      SplitsThen(s, p0, p, SkipWs(s, p));
      assert Tokens(s, p0, p) + [] == Tokens(s, p0, p);
    }
  }

  lemma BackMore(c: Cmd, toks: seq<Token>, u: Token)
    requires IsBack(c, toks) && u.ret == '&'
    ensures IsBack(Back(c), toks + [u])
  {
    hide IsPipe;
    assert (toks + [u])[..|toks + [u]| - 1] == toks;
  }

  lemma {:induction false} LineSound(s: string, p: nat)
    requires p <= |s| && ParseLine(s, p).Ok?
    ensures var n := ParseLine(s, p).next; Splits(s, p, n) && IsLine(ParseLine(s, p).val, Tokens(s, p, n))
    decreases |s| - p, 3
  {
    hide GetToken, SkipWs, Tokens, Peek, IsPipe, IsBack, ParsePipe, Backs;
    var c := ParsePipe(s, p);
    PipeSound(s, p);
    PipeIsBack(c.val, Tokens(s, p, c.next));
    BacksSound(s, p, c.next, c.val);
    var b := Backs(s, c.next, c.val);
    var p1, n := SkipWs(s, b.1), ParseLine(s, p).next;
    SkipTwice(s, b.1);
    PeekIs(s, b.1);
    if !Peek(s, b.1, ";") {
      SplitsSkip(s, b.1);
      SplitsThen(s, p, b.1, p1);
      assert Tokens(s, p, b.1) + [] == Tokens(s, p, b.1);
    } else {
      var u := GetToken(s, b.1);
      LineSound(s, u.next);
      SplitsOne(s, b.1);
      SplitsThen(s, b.1, u.next, n);
      SplitsThen(s, p, b.1, n);
      Mid(Tokens(s, p, b.1), u, Tokens(s, u.next, n));
      assert LineAt(ParseLine(s, p).val, Tokens(s, p, n), |Tokens(s, p, b.1)|);
    }
  }

  lemma PipeIsBack(c: Cmd, toks: seq<Token>)
    requires IsPipe(c, toks)
    ensures IsBack(c, toks)
  {
  }

  // ---------------------------------------------------------------- what is in the grammar is accepted

  /** From p to m there are whole tokens, and no blanks before the first or after the last. */
  ghost predicate Stretch(s: string, p: nat, m: nat) { Splits(s, p, m) && SkipWs(s, p) == p && SkipWs(s, m) == m }

  /** The text ends at m, or the token there is one of these. */
  predicate Ends(s: string, m: nat, follow: string)
    requires m <= |s|
  {
    GetToken(s, m).ret == NUL || GetToken(s, m).ret in follow
  }

  lemma AtEnd(s: string, p: nat)
    requires CString(s) && p <= |s| && SkipWs(s, p) == p
    ensures GetToken(s, p).ret == NUL <==> p == |s|
    ensures GetToken(s, p).q == p
  {
  }

  lemma NextSkips(s: string, p: nat)
    requires p <= |s|
    ensures SkipWs(s, GetToken(s, p).next) == GetToken(s, p).next
  {
    SkipTwice(s, SkipWs(s, p));
    var t := GetToken(s, p);
    SkipTwice(s, t.e);
  }

  /** A stretch without tokens is empty. */
  lemma SameSpot(s: string, p: nat, m: nat)
    requires CString(s) && Stretch(s, p, m) && Tokens(s, p, m) == []
    ensures p == m
  {
    hide SkipWs, GetToken;
    AtEnd(s, p);
    AtEnd(s, m);
    assert Tokens(s, p, |s|) == [] + Tokens(s, m, |s|);
    assert Tokens(s, p, |s|) == Tokens(s, m, |s|);
    NoTokens(s, |s|);
    if p < |s| {
      OneToken(s, p, |s|);
      assert Tokens(s, p, |s|)[0] == GetToken(s, p);
      if m < |s| {
        OneToken(s, m, |s|);
        assert Tokens(s, m, |s|)[0] == GetToken(s, m);
      }
    }
  }

  /** The first token of a stretch, and the stretch after it. */
  lemma FirstToken(s: string, p: nat, m: nat)
    requires Stretch(s, p, m) && Tokens(s, p, m) != []
    ensures var t, toks := GetToken(s, p), Tokens(s, p, m);
            && toks[0] == t && t.ret != NUL && t.next <= m && Stretch(s, t.next, m) && Tokens(s, t.next, m) == toks[1..]
  {
    hide SkipWs, GetToken;
    var t := GetToken(s, p);
    NextSkips(s, p);
    OneToken(s, p, m);
    hide Tokens;
    forall n | m <= n <= |s| ensures Tokens(s, t.next, n) == Tokens(s, t.next, m) + Tokens(s, m, n) {
      OneToken(s, p, n);
      assert [t] + Tokens(s, t.next, n) == [t] + Tokens(s, t.next, m) + Tokens(s, m, n);
      Cut(t, Tokens(s, t.next, n), Tokens(s, t.next, m), Tokens(s, m, n));
    }
  }

  lemma Cut(t: Token, a: seq<Token>, b: seq<Token>, c: seq<Token>)
    requires [t] + a == [t] + b + c
    ensures a == b + c
  {
    assert a == ([t] + a)[1..] && b + c == ([t] + b + c)[1..];
  }

  /** Where the i-th token of a stretch begins. */
  lemma {:induction false} Spot(s: string, p: nat, m: nat, i: nat) returns (q: nat)
    requires Stretch(s, p, m) && i < |Tokens(s, p, m)|
    ensures Stretch(s, p, q) && Stretch(s, q, m) && Tokens(s, p, q) == Tokens(s, p, m)[..i]
    ensures Tokens(s, q, m) == Tokens(s, p, m)[i..] && GetToken(s, q) == Tokens(s, p, m)[i]
    decreases i
  {
    hide SkipWs, GetToken;
    FirstToken(s, p, m);
    if i == 0 {
      q := p;
      SplitsSkip(s, p);
      NoTokens(s, p);
    } else {
      var t := GetToken(s, p);
      q := Spot(s, t.next, m, i - 1);
      SplitsOne(s, p);
      SplitsThen(s, p, t.next, q);
      hide Tokens;
      Shift(t, Tokens(s, p, m), Tokens(s, t.next, m), i);
    }
  }

  lemma Shift(t: Token, toks: seq<Token>, rest: seq<Token>, i: nat)
    requires 0 < i < |toks| && toks[0] == t && rest == toks[1..]
    ensures toks[..i] == [t] + rest[..i - 1] && toks[i..] == rest[i - 1..] && toks[i] == rest[i - 1]
  {
  }

  lemma {:induction false} PairsSorted(toks: seq<Token>)
    requires Pairs(toks)
    ensures Clean(toks) && Sorted(toks).0 == []
    decreases |toks|
  {
    if toks != [] { PairsSorted(toks[2..]); }
  }

  lemma FirstClean(toks: seq<Token>)
    requires Clean(toks) && toks != []
    ensures toks[0].ret == 'a' || Arrow(toks[0])
    ensures toks[0].ret == 'a' ==> Clean(toks[1..])
    ensures Arrow(toks[0]) ==> |toks| > 1 && toks[1].ret == 'a' && Clean(toks[2..])
  {
  }

  /** parseredirs takes the redirections that a stretch begins with. */
  lemma {:induction false} RedirsComplete(s: string, p: nat, m: nat)
    requires CString(s) && Stretch(s, p, m) && Clean(Tokens(s, p, m)) && Ends(s, m, "|)&;")
    ensures Redirs(s, p).Ok?
    ensures var q := Redirs(s, p).next;
            && Stretch(s, q, m) && Clean(Tokens(s, q, m))
            && (Tokens(s, q, m) == [] || Tokens(s, q, m)[0].ret == 'a')
    decreases |s| - p
  {
    hide SkipWs, GetToken, Peek, Tokens, Clean;
    PeekIs(s, p);
    var toks := Tokens(s, p, m);
    if toks == [] {
      SameSpot(s, p, m);
    } else {
      FirstToken(s, p, m);
      FirstClean(toks);
      var t := GetToken(s, p);
      if Arrow(t) {
        assert toks[1..] != [];
        FirstToken(s, t.next, m);
        assert toks[1..][1..] == toks[2..];
        RedirsComplete(s, GetToken(s, t.next).next, m);
      }
    }
  }

  lemma {:induction false} ArgsComplete(s: string, p: nat, argc: nat, m: nat)
    requires CString(s) && Stretch(s, p, m) && Clean(Tokens(s, p, m)) && Ends(s, m, "|)&;")
    requires Tokens(s, p, m) == [] || Tokens(s, p, m)[0].ret == 'a'
    requires argc + |Sorted(Tokens(s, p, m)).0| < MAXARGS
    ensures Args(s, p, argc) == Ok(Sorted(Tokens(s, p, m)), m)
    decreases |s| - p
  {
    hide SkipWs, GetToken, Peek, Tokens, Clean, Redirs, Sorted;
    PeekIs(s, p);
    var toks := Tokens(s, p, m);
    if toks == [] {
      SameSpot(s, p, m);
      NulNext(s, m);
      NilSorted();
    } else {
      FirstToken(s, p, m);
      FirstClean(toks);
      var t := GetToken(s, p);
      RedirsComplete(s, t.next, m);
      var rs := Redirs(s, t.next);
      RedirsSorted(s, t.next, m);
      assert toks == [t] + toks[1..];
      SortedWord(t, toks[1..]);
      ArgsComplete(s, rs.next, argc + 1, m);
    }
  }

  lemma NilSorted()
    ensures Sorted([]) == ([], [])
  {
  }

  lemma ExecComplete(s: string, p: nat, c: Cmd, m: nat)
    requires CString(s) && Stretch(s, p, m) && IsExec(c, Tokens(s, p, m)) && Ends(s, m, "|)&;")
    ensures ParseExec(s, p) == Ok(c, m)
  {
    hide SkipWs, GetToken, Peek, Tokens, Clean, Redirs, Args, Sorted, Wrap, ParseBlock;
    PeekIs(s, p);
    var toks := Tokens(s, p, m);
    if toks == [] {
      SameSpot(s, p, m);
    } else {
      FirstToken(s, p, m);
      FirstClean(toks);
    }
    RedirsComplete(s, p, m);
    RedirsSorted(s, p, m);
    ArgsComplete(s, Redirs(s, p).next, 0, m);
  }

  lemma {:induction false} BlockComplete(s: string, p: nat, c: Cmd, m: nat, i: int, b: Cmd)
    requires CString(s) && Stretch(s, p, m) && BlockAt(c, Tokens(s, p, m), i, b) && Ends(s, m, "|)&;")
    ensures ParseExec(s, p) == Ok(c, m)
    decreases |Tokens(s, p, m)|, 0
  {
    hide SkipWs, GetToken, Peek, Tokens, Clean, Redirs, Sorted, Wrap, ParseLine, IsLine, Pairs;
    var toks := Tokens(s, p, m);
    PeekIs(s, p);
    FirstToken(s, p, m);
    var t := GetToken(s, p);
    var q := Spot(s, t.next, m, i - 1);
    Inner(toks, Tokens(s, t.next, m), i);
    LineComplete(s, t.next, b, q);
    PeekIs(s, q);
    FirstToken(s, q, m);
    var u := GetToken(s, q);
    var rest := Tokens(s, u.next, m);
    PairsSorted(rest);
    RedirsComplete(s, u.next, m);
    RedirsSorted(s, u.next, m);
    var n := Redirs(s, u.next).next;
    if Tokens(s, n, m) != [] { StartsWord(Tokens(s, n, m)); }
    SameSpot(s, n, m);
    NilSorted();
    assert Redirs(s, u.next).val + [] == Redirs(s, u.next).val;
  }

  lemma Inner(toks: seq<Token>, rest: seq<Token>, i: int)
    requires 0 < i < |toks| && rest == toks[1..]
    ensures rest[..i - 1] == toks[1..i] && rest[i - 1..][1..] == toks[i + 1..] && rest[i - 1] == toks[i]
  {
  }

  lemma StartsWord(toks: seq<Token>)
    requires toks != [] && toks[0].ret == 'a'
    ensures Sorted(toks).0 != []
  {
  }

  lemma SimpleComplete(s: string, p: nat, c: Cmd, m: nat)
    requires CString(s) && Stretch(s, p, m) && IsSimple(c, Tokens(s, p, m)) && Ends(s, m, "|)&;")
    ensures ParseExec(s, p) == Ok(c, m)
    decreases |Tokens(s, p, m)|, 1
  {
    hide SkipWs, GetToken, Tokens, IsExec, BlockAt, ParseExec, Ends;
    if IsExec(c, Tokens(s, p, m)) {
      ExecComplete(s, p, c, m);
    } else {
      var i, b :| BlockAt(c, Tokens(s, p, m), i, b);
      BlockComplete(s, p, c, m, i, b);
    }
  }

  lemma {:induction false} PipeComplete(s: string, p: nat, c: Cmd, m: nat)
    requires CString(s) && Stretch(s, p, m) && IsPipe(c, Tokens(s, p, m)) && Ends(s, m, ")&;")
    ensures ParsePipe(s, p) == Ok(c, m)
    decreases |Tokens(s, p, m)|, 2
  {
    hide SkipWs, GetToken, Peek, Tokens, IsSimple, ParseExec;
    var toks := Tokens(s, p, m);
    PeekIs(s, m);
    if IsSimple(c, toks) {
      SimpleComplete(s, p, c, m);
    } else {
      var i :| PipeAt(c, toks, i);
      var q := Spot(s, p, m, i);
      SimpleComplete(s, p, c.left, q);
      PeekIs(s, q);
      FirstToken(s, q, m);
      assert toks[i..][1..] == toks[i + 1..];
      PipeComplete(s, GetToken(s, q).next, c.right, m);
    }
  }

  /** parseline's loop over '&' goes on with what the first pipeline and the '&'s after it stand for. */
  lemma {:induction false} BackComplete(s: string, p: nat, c: Cmd, m: nat)
    requires CString(s) && Stretch(s, p, m) && IsBack(c, Tokens(s, p, m)) && Ends(s, m, ")&;")
    ensures ParsePipe(s, p).Ok? && Backs(s, ParsePipe(s, p).next, ParsePipe(s, p).val) == Backs(s, m, c)
    decreases |Tokens(s, p, m)|, 3
  {
    hide SkipWs, GetToken, Peek, Tokens, IsPipe, ParsePipe;
    var toks := Tokens(s, p, m);
    if IsPipe(c, toks) {
      PipeComplete(s, p, c, m);
    } else {
      var k := |toks| - 1;
      var q := Spot(s, p, m, k);
      BackComplete(s, p, c.cmd, q);
      PeekIs(s, q);
      FirstToken(s, q, m);
      assert Tokens(s, q, m)[1..] == [];
      SameSpot(s, GetToken(s, q).next, m);
    }
  }

  lemma {:induction false} LineComplete(s: string, p: nat, c: Cmd, m: nat)
    requires CString(s) && Stretch(s, p, m) && IsLine(c, Tokens(s, p, m)) && Ends(s, m, ")")
    ensures ParseLine(s, p) == Ok(c, m)
    decreases |Tokens(s, p, m)|, 4
  {
    hide SkipWs, GetToken, Peek, Tokens, IsBack, ParsePipe;
    var toks := Tokens(s, p, m);
    PeekIs(s, m);
    if IsBack(c, toks) {
      BackComplete(s, p, c, m);
    } else {
      var i :| LineAt(c, toks, i);
      var q := Spot(s, p, m, i);
      BackComplete(s, p, c.left, q);
      PeekIs(s, q);
      FirstToken(s, q, m);
      assert toks[i..][1..] == toks[i + 1..];
      LineComplete(s, GetToken(s, q).next, c.right, m);
    }
  }

  // ---------------------------------------------------------------- the whole line

  lemma ExecSkips(s: string, p: nat)
    requires p <= |s|
    ensures ParseExec(s, p) == ParseExec(s, SkipWs(s, p))
  {
    hide GetToken, SkipWs, Redirs, Args, ParseBlock, Peek;
    SkipTwice(s, p);
    SkipPeeks(s, p);
  }

  lemma PipeSkips(s: string, p: nat)
    requires p <= |s|
    ensures ParsePipe(s, p) == ParsePipe(s, SkipWs(s, p))
  {
    ExecSkips(s, p);
    hide GetToken, SkipWs, ParseExec, Peek;
    var q := SkipWs(s, p);
    assert ParsePipe(s, p).Ok? == ParsePipe(s, q).Ok?;
  }

  lemma LineSkips(s: string, p: nat)
    requires p <= |s|
    ensures ParseLine(s, p) == ParseLine(s, SkipWs(s, p))
  {
    PipeSkips(s, p);
    hide GetToken, SkipWs, ParsePipe, Peek, Backs;
    var q := SkipWs(s, p);
    assert ParseLine(s, p).Ok? == ParseLine(s, q).Ok?;
  }

  lemma SkipPeeks(s: string, p: nat)
    requires p <= |s|
    ensures Peek(s, SkipWs(s, p), "(") == Peek(s, p, "(")
  {
    SkipTwice(s, p);
  }

  lemma EndSkips(s: string)
    ensures SkipWs(s, |s|) == |s| && GetToken(s, |s|).ret == NUL
  {
  }

  lemma {:induction false} SplitsAll(s: string, p: nat)
    requires p <= |s|
    ensures Splits(s, p, |s|)
  {
    hide GetToken;
    NoTokens(s, |s|);
    assert Tokens(s, p, |s|) == Tokens(s, p, |s|) + [];
  }

  /** parsecmd accepts a line, with the tree c, if and only if the grammar derives its tokens for c: the parser is sound
      and complete. In particular the grammar gives no line two trees. */
  lemma ParsesExactly(s: string, c: Cmd)
    requires CString(s)
    ensures ParseCmd(s) == Ok(c, |s|) <==> IsLine(c, Tokens(s, 0, |s|))
  {
    hide SkipWs, GetToken, Tokens, IsLine, ParseLine;
    var n := |s|;
    EndSkips(s);
    if ParseCmd(s) == Ok(c, n) {
      var r := ParseLine(s, 0);
      LineSound(s, 0);
      SplitsSkip(s, r.next);
      SplitsThen(s, 0, r.next, n);
      assert Tokens(s, 0, r.next) + [] == Tokens(s, 0, r.next);
    }
    if IsLine(c, Tokens(s, 0, n)) {
      var p := SkipWs(s, 0);
      LineSkips(s, 0);
      TokensSkip(s, 0, n);
      SplitsAll(s, p);
      SkipTwice(s, 0);
      LineComplete(s, p, c, n);
    }
  }
}
