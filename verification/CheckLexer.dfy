/**
 The scanner of the CHECK canonicaliser, as an automaton over characters.

 The source scans with look-ahead (doubled quotes, comment openers, " AND "). Here the
 same language is read by an automaton that only looks back, so that scanning a
 concatenation is scanning its pieces one after the other.
 */
module CheckLexer {

  datatype Quote = Unquoted | Quoted(mark: char)

  /** `last` is the previous character when it was read outside a quote, else a blank. */
  datatype Lexer = Failed | Lexer(quote: Quote, depth: nat, bracket: nat, last: char)

  const Start: Lexer := Lexer(Unquoted, 0, 0, ' ')

  function Step(l: Lexer, c: char): Lexer {
    if l.Failed? then Failed
    else if l.quote.Quoted? then
      if c == l.quote.mark then Lexer(Unquoted, l.depth, l.bracket, ' ')
      else if c == '\\' then Failed
      else l
    else if c == '\'' || c == '"' then Lexer(Quoted(c), l.depth, l.bracket, ' ')
    else if c == '$' || (c == '-' && l.last == '-') || (c == '*' && l.last == '/') then Failed
    else if c == '[' then l.(bracket := l.bracket + 1, last := c)
    else if c == ']' then if l.bracket == 0 then Failed else l.(bracket := l.bracket - 1, last := c)
    else if c == '(' then l.(depth := l.depth + 1, last := c)
    else if c == ')' then if l.depth == 0 then Failed else l.(depth := l.depth - 1, last := c)
    else l.(last := c)
  }

  function Run(l: Lexer, s: string): Lexer {
    if s == "" then l else Step(Run(l, s[..|s| - 1]), s[|s| - 1])
  }

  /** Outside quotes, parentheses and brackets. */
  predicate AtTop(l: Lexer) {
    l.Lexer? && l.quote.Unquoted? && l.depth == 0 && l.bracket == 0
  }

  /** Balanced text that the canonicaliser is prepared to look into. */
  predicate Clean(s: string) {
    AtTop(Run(Start, s))
  }

  /** One balanced parenthesised expression: "(" clean text ")". */
  predicate IsGroup(s: string) {
    |s| >= 2 && s[0] == '(' && s[|s| - 1] == ')' && Clean(s[1..|s| - 1])
  }

  function Inner(g: string): string
    requires |g| >= 2
  {
    g[1..|g| - 1]
  }

  function Group(s: string): string {
    "(" + s + ")"
  }

  lemma RunOne(l: Lexer, c: char)
    ensures Run(l, [c]) == Step(l, c)
  {
    assert [c][..0] == "";
  }

  lemma {:induction false} RunConcat(l: Lexer, a: string, b: string)
    ensures Run(l, a + b) == Run(Run(l, a), b)
  {
    if b == "" {
      assert a + b == a;
    } else {
      var n := |b| - 1;
      assert (a + b)[..|a + b| - 1] == a + b[..n];
      RunConcat(l, a, b[..n]);
    }
  }

  lemma RunSplit(l: Lexer, s: string, k: nat)
    requires k <= |s|
    ensures Run(l, s) == Run(Run(l, s[..k]), s[k..])
  {
    assert s == s[..k] + s[k..];
    RunConcat(l, s[..k], s[k..]);
  }

  lemma RunNext(l: Lexer, s: string, k: nat)
    requires k < |s|
    ensures Run(l, s[..k + 1]) == Step(Run(l, s[..k]), s[k])
  {
    assert s[..k + 1][..k] == s[..k];
  }

  lemma {:induction false} FailedStays(s: string)
    ensures Run(Failed, s) == Failed
  {
    if s != "" { FailedStays(s[..|s| - 1]); }
  }

  /** A failure on a prefix is a failure on the whole. */
  lemma FailedPrefix(l: Lexer, s: string, k: nat)
    requires k <= |s| && Run(l, s[..k]) == Failed
    ensures Run(l, s) == Failed
  {
    RunSplit(l, s, k);
    FailedStays(s[k..]);
  }

  lemma PrefixOk(l: Lexer, s: string, k: nat)
    requires k <= |s| && Run(l, s) != Failed
    ensures Run(l, s[..k]) != Failed
  {
    if Run(l, s[..k]) == Failed { FailedPrefix(l, s, k); }
  }

  function Deeper(l: Lexer): Lexer {
    if l.Failed? then l else l.(depth := l.depth + 1)
  }

  /** Text that scans from a state scans the same way one parenthesis deeper. */
  lemma {:induction false} DeeperRun(l: Lexer, s: string)
    requires Run(l, s) != Failed
    ensures Run(Deeper(l), s) == Deeper(Run(l, s))
  {
    if s != "" {
      PrefixOk(l, s, |s| - 1);
      DeeperRun(l, s[..|s| - 1]);
    }
  }

  /** Conversely, text that never leaves the enclosing parenthesis scans without it. */
  lemma {:induction false} ShallowerRun(l: Lexer, s: string)
    requires Run(Deeper(l), s) != Failed && l != Failed
    requires forall k :: 0 <= k <= |s| ==> Run(Deeper(l), s[..k]).Lexer? && Run(Deeper(l), s[..k]).depth >= 1
    ensures Run(Deeper(l), s) == Deeper(Run(l, s)) && Run(l, s) != Failed
  {
    if s != "" {
      var n := |s| - 1;
      PrefixOk(Deeper(l), s, n);
      assert forall k :: 0 <= k <= n ==> s[..n][..k] == s[..k];
      ShallowerRun(l, s[..n]);
      assert s[..|s|] == s;
    }
  }

  const Opened: Lexer := Lexer(Unquoted, 1, 0, '(')

  /** How "(" behaves differently from a blank: not at all, unless a comment follows. */
  lemma {:induction false} LastIrrelevant(l: Lexer, m: Lexer, s: string)
    requires l.Lexer? && l.quote.Unquoted? && m == l.(last := ' ') && l.last != '-' && l.last != '/'
    ensures Run(l, s) == Run(m, s) || (s == "" && Run(l, s) == l)
  {
    if s != "" {
      var n := |s| - 1;
      LastIrrelevant(l, m, s[..n]);
      if Run(l, s[..n]) != Run(m, s[..n]) {
        assert s[..n] == "";
      }
    }
  }

  lemma LastIrrelevantTop(l: Lexer, s: string)
    requires l.Lexer? && l.quote.Unquoted? && l.last != '-' && l.last != '/'
    ensures Run(l, s).Failed? <==> Run(l.(last := ' '), s).Failed?
    ensures Run(l, s).Lexer? ==> Run(l.(last := ' '), s).(last := ' ') == Run(l, s).(last := ' ')
  {
    LastIrrelevant(l, l.(last := ' '), s);
  }

  lemma OpenStep()
    ensures Run(Start, "(") == Opened
    ensures Opened.(last := ' ') == Deeper(Start)
  {
    RunOne(Start, '(');
  }

  /** Scanning a group: strictly inside until its last character. */
  lemma GroupRun(s: string, k: nat)
    requires Clean(s) && 1 <= k <= |s| + 1
    ensures var l := Run(Start, Group(s)[..k]); l.Lexer? && l.depth >= 1
  {
    var g := Group(s);
    assert g[..k] == "(" + s[..k - 1];
    OpenStep();
    RunConcat(Start, "(", s[..k - 1]);
    PrefixOk(Start, s, k - 1);
    DeeperRun(Start, s[..k - 1]);
    LastIrrelevantTop(Opened, s[..k - 1]);
  }

  lemma GroupClean(s: string)
    requires Clean(s)
    ensures Run(Start, Group(s)) == Lexer(Unquoted, 0, 0, ')')
    ensures Clean(Group(s)) && IsGroup(Group(s)) && Inner(Group(s)) == s
  {
    var g := Group(s);
    assert g[..|s| + 1] == "(" + s && g[|s| + 1] == ')';
    OpenStep();
    RunConcat(Start, "(", s);
    DeeperRun(Start, s);
    LastIrrelevantTop(Opened, s);
    assert g[..|g| - 1] == "(" + s;
    assert g[1..|g| - 1] == s;
  }

  lemma GroupOf(g: string)
    requires IsGroup(g)
    ensures g == Group(Inner(g)) && Clean(Inner(g)) && Clean(g)
    ensures Run(Start, g) == Lexer(Unquoted, 0, 0, ')')
  {
    assert g == Group(Inner(g));
    GroupClean(Inner(g));
  }

  /** The scanner's own test: the first return to depth zero is at the last character. */
  lemma GroupByDepth(s: string)
    requires Clean(s) && |s| >= 2 && s[0] == '('
    requires forall k :: 1 <= k < |s| ==> Run(Start, s[..k]).Lexer? && Run(Start, s[..k]).depth >= 1
    ensures IsGroup(s)
  {
    var n := |s| - 1;
    var inner := s[1..n];
    RunNext(Start, s, n);
    assert s[..n + 1] == s;
    assert Run(Start, s[..n]).depth >= 1;
    assert s[n] == ')';
    OpenStep();
    assert s[..n] == "(" + inner;
    RunConcat(Start, "(", inner);
    forall k | 0 <= k <= |inner|
      ensures Run(Deeper(Start), inner[..k]).Lexer? && Run(Deeper(Start), inner[..k]).depth >= 1
    {
      assert s[..k + 1] == "(" + inner[..k];
      RunConcat(Start, "(", inner[..k]);
      LastIrrelevantTop(Opened, inner[..k]);
    }
    assert inner[..|inner|] == inner;
    ShallowerRun(Start, inner);
    LastIrrelevantTop(Opened, inner);
  }

  /** A group never returns to depth zero before its last character. */
  lemma GroupDepth(g: string, k: nat)
    requires IsGroup(g) && 1 <= k < |g|
    ensures var l := Run(Start, g[..k]); l.Lexer? && l.depth >= 1
  {
    GroupOf(g);
    GroupRun(Inner(g), k);
  }
}
