/**
 `canonicalRecoveryCheck`: flattening PostgreSQL's nested parenthesised conjunctions in
 CHECK definitions, so that equality of the results can stand for database equivalence.
 */
module CheckCanonicaliser {
  import opened Outcomes
  import opened CheckLexer
  import opened CheckSplitter
  import opened CheckGrammar

  /** The operand texts of a nested conjunction, or None when `s` is not one. */
  function Conjunction(s: string): (r: Option<seq<string>>)
    decreases |s|, 1
  {
    if !Clean(s) then None
    else if IsGroup(s) then Conjunction(Inner(s))
    else if IsConjunctionText(s) then
      PartsShorter(s);
      Some(Flatten(Parts(s), |s|))
    else None
  }

  function Flatten(parts: seq<string>, bound: nat): seq<string>
    requires forall i :: 0 <= i < |parts| ==> |parts[i]| < bound
    decreases bound, 0, |parts|
  {
    if parts == [] then [] else
      Expand(parts[0]) + Flatten(parts[1..], bound)
  }

  function Expand(part: string): seq<string>
    decreases |part|, 2
  {
    match Conjunction(part)
    case Some(inner) => inner
    case None => [part]
  }

  const Prefix: string := "CHECK "

  predicate HasCheckPrefix(definition: string) {
    |definition| >= 7 && definition[..7] == Prefix + "("
  }

  function Canonical(definition: string): string {
    if !HasCheckPrefix(definition) then definition
    else match Conjunction(definition[6..])
      case Some(parts) => Prefix + Group(Join(parts))
      case None => definition
  }

  // ---------------------------------------------------------------- the scanner

  /** The text is not scannable: some prefix is rejected, or something stays open. */
  lemma NotClean(s: string, k: nat)
    requires k <= |s| && Run(Start, s[..k]) == Failed
    ensures !Clean(s)
  {
    FailedPrefix(Start, s, k);
  }

  /** The scanning variables agree with the automaton on the prefix read so far. */
  predicate Tracks(s: string, i: nat, quote: string, depth: int, bracket: int) {
    i <= |s| &&
    var l := Run(Start, s[..i]);
    l.Lexer? && l.depth == depth && l.bracket == bracket && |quote| <= 1 &&
    (if l.quote.Quoted? then quote == [l.quote.mark] && l.quote.mark in {'\'', '"'} && l.last == ' '
     else quote == "") &&
    (l.last == '-' && i < |s| ==> s[i] != '-') && (l.last == '/' && i < |s| ==> s[i] != '*')
  }

  predicate StaysOpen(s: string, m: nat)
    requires m <= |s|
  {
    forall k :: 1 <= k <= m ==> Run(Start, s[..k]).Lexer? && Run(Start, s[..k]).depth >= 1
  }

  /** `end`: the first index whose ")" returns to depth zero, or -1. */
  predicate FirstClose(s: string, i: nat, end: int) {
    i <= |s| && -1 <= end < i &&
    (end < 0 ==> s == "" || s[0] != '(' || StaysOpen(s, i)) &&
    (0 <= end ==> s[end] == ')' && Run(Start, s[..end + 1]).Lexer? && Run(Start, s[..end + 1]).depth == 0) &&
    (0 <= end ==> s[0] != '(' || StaysOpen(s, end))
  }

  datatype Scan = Rejected | Scanned(end: int, splits: seq<nat>)

  function Delta(c: char, up: char, down: char): int {
    if c == up then 1 else if c == down then -1 else 0
  }

  /** The two-character comment openers, looked up ahead of the position. */
  predicate CommentAt(s: string, i: nat) {
    i + 1 < |s| && ((s[i] == '-' && s[i + 1] == '-') || (s[i] == '/' && s[i + 1] == '*'))
  }

  lemma CommentRejected(s: string, i: nat, depth: int, bracket: int)
    requires Tracks(s, i, "", depth, bracket) && CommentAt(s, i)
    ensures !Clean(s)
  {
    RunNext(Start, s, i);
    RunNext(Start, s, i + 1);
    NotClean(s, i + 2);
  }

  lemma DollarRejected(s: string, i: nat, depth: int, bracket: int)
    requires Tracks(s, i, "", depth, bracket) && i < |s| && s[i] == '$'
    ensures !Clean(s)
  {
    RunNext(Start, s, i);
    NotClean(s, i + 1);
  }

  lemma BackslashRejected(s: string, i: nat, quote: string, depth: int, bracket: int)
    requires Tracks(s, i, quote, depth, bracket) && quote != "" && i < |s| && s[i] == '\\' && quote[0] != '\\'
    ensures !Clean(s)
  {
    RunNext(Start, s, i);
    NotClean(s, i + 1);
  }

  /** A character outside quotes that is neither a quote, a "$" nor a comment opener. */
  lemma PlainStep(s: string, i: nat, depth: int, bracket: int)
    requires Tracks(s, i, "", depth, bracket) && i < |s| && !CommentAt(s, i)
    requires s[i] !in {'\'', '"', '$'}
    ensures var d, b := depth + Delta(s[i], '(', ')'), bracket + Delta(s[i], '[', ']');
      if d < 0 || b < 0 then !Clean(s) else Tracks(s, i + 1, "", d, b)
  {
    RunNext(Start, s, i);
    if Run(Start, s[..i + 1]).Failed? { NotClean(s, i + 1); }
  }

  lemma OpenQuoteStep(s: string, i: nat, depth: int, bracket: int)
    requires Tracks(s, i, "", depth, bracket) && i < |s| && s[i] in {'\'', '"'}
    ensures Tracks(s, i + 1, [s[i]], depth, bracket)
  {
    RunNext(Start, s, i);
  }

  /** Inside a quote: an ordinary character, a closing quote, or a doubled quote. */
  lemma QuotedStep(s: string, i: nat, quote: string, depth: int, bracket: int)
    requires Tracks(s, i, quote, depth, bracket) && quote != "" && i < |s| && s[i] != '\\'
    ensures s[i] != quote[0] ==> Tracks(s, i + 1, quote, depth, bracket)
    ensures s[i] == quote[0] ==> Tracks(s, i + 1, "", depth, bracket)
    ensures s[i] == quote[0] && i + 1 < |s| && s[i + 1] == quote[0] ==> Tracks(s, i + 2, quote, depth, bracket)
  {
    RunNext(Start, s, i);
    if i + 1 < |s| { RunNext(Start, s, i + 1); }
  }

  /** Whether the loop pushes `i`: its test runs after the counters were updated. */
  lemma SplitStep(s: string, i: nat, quote: string, depth: int, bracket: int)
    requires Tracks(s, i, quote, depth, bracket) && i < |s|
    ensures SplitsUpTo(s, i + 1) == SplitsUpTo(s, i) +
      (if quote == "" && s[i] == ' ' && depth == 0 && bracket == 0 && i + 5 <= |s| && s[i..i + 5] == Separator
       then [i] else [])
  {
    SplitChars(s, i);
  }

  lemma NotASplit(s: string, i: nat)
    requires i < |s| && s[i] != ' '
    ensures SplitsUpTo(s, i + 1) == SplitsUpTo(s, i)
    ensures i + 5 <= |s| ==> s[i..i + 5] != Separator
  {
    SplitChars(s, i);
    if i + 5 <= |s| { assert s[i..i + 5][0] == s[i]; }
  }

  lemma {:induction false} StaysOpenStep(s: string, m: nat)
    requires m < |s| && StaysOpen(s, m)
    requires Run(Start, s[..m + 1]).Lexer? && Run(Start, s[..m + 1]).depth >= 1
    ensures StaysOpen(s, m + 1)
  {}

  lemma FirstCloseStep(s: string, i: nat, end: int, quote: string, depth: int, bracket: int,
                       quote': string, depth': int, bracket': int)
    requires FirstClose(s, i, end) && i < |s|
    requires Tracks(s, i, quote, depth, bracket) && Tracks(s, i + 1, quote', depth', bracket')
    requires depth' == 0 && depth > 0 ==> s[i] == ')' && quote == ""
    requires s[i] == ')' && quote == "" ==> depth' == depth - 1
    requires i == 0 && s[0] == '(' ==> depth' >= 1
    ensures FirstClose(s, i + 1, if s[i] == ')' && quote == "" && depth' == 0 && end < 0 then i else end)
  {
    var end' := if s[i] == ')' && quote == "" && depth' == 0 && end < 0 then i else end;
    if end < 0 && s[0] == '(' {
      if i > 0 { assert Run(Start, s[..i]).depth >= 1; }
      if end' < 0 { StaysOpenStep(s, i); }
    }
  }

  /** What the loop knows before reading `i`. */
  predicate Scanning(s: string, i: nat, quote: string, depth: int, bracket: int, end: int, splits: seq<nat>) {
    Tracks(s, i, quote, depth, bracket) && FirstClose(s, i, end) && splits == SplitsUpTo(s, i)
  }

  /** One turn inside a quote. */
  lemma QuotedTurn(s: string, i: nat, quote: string, depth: int, bracket: int, end: int, splits: seq<nat>)
    requires Scanning(s, i, quote, depth, bracket, end, splits) && quote != "" && i < |s| && s[i] != '\\'
    ensures s[i] != quote[0] ==> Scanning(s, i + 1, quote, depth, bracket, end, splits)
    ensures s[i] == quote[0] ==> Scanning(s, i + 1, "", depth, bracket, end, splits)
  {
    QuotedStep(s, i, quote, depth, bracket);
    SplitStep(s, i, quote, depth, bracket);
    FirstCloseStep(s, i, end, quote, depth, bracket, if s[i] == quote[0] then "" else quote, depth, bracket);
  }

  /** Opening a quote, or going back into it at its doubled mark. */
  lemma OpeningTurn(s: string, i: nat, depth: int, bracket: int, end: int, splits: seq<nat>)
    requires Scanning(s, i, "", depth, bracket, end, splits) && i < |s| && s[i] in {'\'', '"'}
    ensures Scanning(s, i + 1, [s[i]], depth, bracket, end, splits)
  {
    OpenQuoteStep(s, i, depth, bracket);
    NotASplit(s, i);
    FirstCloseStep(s, i, end, "", depth, bracket, [s[i]], depth, bracket);
  }

  lemma QuoteMark(s: string, i: nat, quote: string, depth: int, bracket: int)
    requires Tracks(s, i, quote, depth, bracket) && quote != ""
    ensures quote == [quote[0]] && quote[0] in {'\'', '"'}
  {}

  function Closing(c: char, depth: int, end: int, i: int): int {
    if c == ')' && depth == 0 && end < 0 then i else end
  }

  /** One turn outside quotes, after the counters were updated. */
  lemma PlainTurn(s: string, i: nat, depth: int, bracket: int, end: int, splits: seq<nat>)
    requires Scanning(s, i, "", depth, bracket, end, splits) && i < |s| && !CommentAt(s, i)
    requires s[i] !in {'\'', '"', '$'}
    ensures var d, b := depth + Delta(s[i], '(', ')'), bracket + Delta(s[i], '[', ']');
      if d < 0 || b < 0 then !Clean(s)
      else
        Scanning(s, i + 1, "", d, b, Closing(s[i], d, end, i),
                 splits + (if d == 0 && b == 0 && i + 5 <= |s| && s[i..i + 5] == Separator then [i] else []))
  {
    var d, b := depth + Delta(s[i], '(', ')'), bracket + Delta(s[i], '[', ']');
    PlainStep(s, i, depth, bracket);
    if d >= 0 && b >= 0 {
      FirstCloseStep(s, i, end, "", depth, bracket, "", d, b);
      if s[i] == ' ' { SplitStep(s, i, "", depth, bracket); } else { NotASplit(s, i); }
    }
  }

  /** The first loop of `conjunction`: one pass over the text with its look-ahead. */
  method ScanText(s: string) returns (r: Scan)
    ensures r.Rejected? <==> !Clean(s)
    ensures r.Scanned? ==> r.splits == Splits(s) && -1 <= r.end < |s|
    ensures r.Scanned? && s != "" ==> (s[0] == '(' && r.end == |s| - 1 <==> IsGroup(s))
  {
    var depth, bracket, quote, end := 0, 0, "", -1;
    var splits: seq<nat> := [];
    var i := 0;
    while i < |s|
      invariant Scanning(s, i, quote, depth, bracket, end, splits)
    {
      var c := s[i];
      if quote != "" {
        QuoteMark(s, i, quote, depth, bracket);
        if c == '\\' {
          BackslashRejected(s, i, quote, depth, bracket);
        } else {
          QuotedTurn(s, i, quote, depth, bracket, end, splits);
        }
        if c == quote[0] {
          if i + 1 < |s| && s[i + 1] == quote[0] {
            OpeningTurn(s, i + 1, depth, bracket, end, splits);
            i := i + 1;
          } else {
            quote := "";
          }
        }
        if c == '\\' {
          return Rejected;
        }
        i := i + 1;
        continue;
      }
      if c == '\'' || c == '"' {
        OpeningTurn(s, i, depth, bracket, end, splits);
        quote := [c];
        i := i + 1;
        continue;
      }
      if c == '$' {
        DollarRejected(s, i, depth, bracket);
        return Rejected;
      }
      if CommentAt(s, i) {
        CommentRejected(s, i, depth, bracket);
        return Rejected;
      }
      PlainTurn(s, i, depth, bracket, end, splits);
      if c == '[' { bracket := bracket + 1; }
      if c == ']' { bracket := bracket - 1; }
      if c == '(' { depth := depth + 1; }
      if c == ')' {
        depth := depth - 1;
        if depth == 0 && end < 0 { end := i; }
      }
      if depth < 0 || bracket < 0 {
        return Rejected;
      }
      if depth == 0 && bracket == 0 && i + 5 <= |s| && s[i..i + 5] == Separator {
        splits := splits + [i];
      }
      i := i + 1;
    }
    ScanEnds(s, quote, depth, bracket, end, splits);
    if quote != "" || depth != 0 || bracket != 0 {
      return Rejected;
    }
    return Scanned(end, splits);
  }

  /** What the loop variables mean at the end of the text. */
  lemma ScanEnds(s: string, quote: string, depth: int, bracket: int, end: int, splits: seq<nat>)
    requires Scanning(s, |s|, quote, depth, bracket, end, splits)
    ensures Clean(s) <==> quote == "" && depth == 0 && bracket == 0
    ensures Clean(s) ==> splits == Splits(s) && (s != "" ==> (s[0] == '(' && end == |s| - 1 <==> IsGroup(s)))
  {
    assert s[..|s|] == s;
    if s != "" && Clean(s) { EndMeansGroup(s, end); }
  }

  lemma EndMeansGroup(s: string, end: int)
    requires s != "" && Clean(s) && FirstClose(s, |s|, end)
    ensures s[0] == '(' && end == |s| - 1 <==> IsGroup(s)
  {
    var n := |s|;
    assert s[..n] == s;
    if s[0] == '(' && end == n - 1 {
      GroupByDepth(s);
    } else if IsGroup(s) {
      GroupOf(s);
      if 0 <= end {
        GroupDepth(s, end + 1);
      }
    }
  }

  /** What the second loop knows before reading `i` of a clean text that opens with "(": the
      depth outside and the quote, and that depth zero was not reached inside. */
  predicate PartScan(part: string, i: nat, d: int, q: string) {
    PartTracks(part, i, d, q) && StaysInside(part, i)
  }

  predicate PartTracks(part: string, i: nat, d: int, q: string) {
    i <= |part| &&
    var l := Run(Start, part[..i]);
    l.Lexer? && l.depth == d && (i > 0 && i < |part| ==> d >= 1) &&
    (if l.quote.Quoted? then q == [l.quote.mark] && l.quote.mark in {'\'', '"'} else q == "")
  }

  predicate StaysInside(part: string, i: nat) {
    forall k :: 1 <= k <= i && k < |part| ==> Run(Start, part[..k]).Lexer? && Run(Start, part[..k]).depth >= 1
  }

  /** The scan of a clean text goes on: the next state is again a lexer state. */
  lemma PartNext(part: string, i: nat, d: int, q: string)
    requires Clean(part) && PartScan(part, i, d, q) && i < |part|
    ensures Run(Start, part[..i + 1]).Lexer?
    ensures Run(Start, part[..i + 1]) == Step(Run(Start, part[..i]), part[i])
  {
    RunNext(Start, part, i);
    PrefixOk(Start, part, i + 1);
  }

  lemma PartQuotedTurn(part: string, i: nat, d: int, q: string)
    requires Clean(part) && PartScan(part, i, d, q) && i < |part| && q != "" && i > 0
    ensures part[i] != q[0] ==> PartScan(part, i + 1, d, q)
    ensures part[i] == q[0] ==> PartScan(part, i + 1, d, "")
  {
    PartNext(part, i, d, q);
  }

  lemma PartOpeningTurn(part: string, i: nat, d: int)
    requires Clean(part) && PartScan(part, i, d, "") && i < |part| && i > 0 && part[i] in {'\'', '"'}
    ensures PartScan(part, i + 1, d, [part[i]])
  {
    PartNext(part, i, d, "");
  }

  lemma PartMark(part: string, i: nat, d: int, q: string)
    requires PartScan(part, i, d, q) && q != ""
    ensures q == [q[0]] && q[0] in {'\'', '"'} && i > 0
  {
    assert part[..0] == "";
  }

  /** Outside quotes: an operand that closes before its end is no group. */
  lemma PartPlainTurn(part: string, i: nat, d: int)
    requires Clean(part) && part != "" && part[0] == '(' && PartScan(part, i, d, "") && i < |part|
    requires part[i] !in {'\'', '"'}
    ensures var after := d + Delta(part[i], '(', ')');
      if part[i] == ')' && after == 0 && i != |part| - 1 then !IsGroup(part) else PartScan(part, i + 1, after, "")
  {
    PartNext(part, i, d, "");
    assert part[..0] == "";
    if part[i] == ')' && d == 1 && i != |part| - 1 && IsGroup(part) {
      GroupDepth(part, i + 1);
    }
  }

  lemma PartEnds(part: string, d: int, q: string)
    requires Clean(part) && part != "" && part[0] == '(' && part[|part| - 1] == ')' && PartScan(part, |part|, d, q)
    ensures IsGroup(part)
  {
    GroupByDepth(part);
  }

  /** The second loop: is one operand a single balanced parenthesised expression? */
  method CheckOperand(part: string) returns (ok: bool)
    requires Clean(part)
    ensures ok == IsGroup(part)
  {
    if part == "" || part[0] != '(' || part[|part| - 1] != ')' {
      return false;
    }
    var d, q := 0, "";
    var i := 0;
    assert part[..0] == "";
    while i < |part|
      invariant PartScan(part, i, d, q)
    {
      if q != "" {
        i, q := ReadQuoted(part, i, d, q);
        continue;
      }
      ok, d, q := ReadPlain(part, i, d);
      if !ok {
        return;
      }
      i := i + 1;
    }
    PartEnds(part, d, q);
    return true;
  }

  /** One turn inside a quote; a doubled mark is read as one. */
  method ReadQuoted(part: string, at: nat, d: int, quote: string) returns (i: nat, q: string)
    requires Clean(part) && at < |part| && quote != "" && PartScan(part, at, d, quote)
    ensures at < i && PartScan(part, i, d, q)
  {
    i, q := at, quote;
    PartMark(part, i, d, q);
    PartQuotedTurn(part, i, d, q);
    if part[i] == q[0] {
      if i + 1 < |part| && part[i + 1] == q[0] {
        PartOpeningTurn(part, i + 1, d);
        i := i + 1;
      } else {
        q := "";
      }
    }
    i := i + 1;
  }

  /** One turn outside quotes; not `ok` when the operand closes before its end. */
  method ReadPlain(part: string, i: nat, depth: int) returns (ok: bool, d: int, q: string)
    requires Clean(part) && part != "" && part[0] == '(' && i < |part| && PartScan(part, i, depth, "")
    ensures if ok then PartScan(part, i + 1, d, q) else !IsGroup(part)
  {
    d, q := depth, "";
    var c := part[i];
    if c == '\'' || c == '"' {
      assert i > 0;
      PartOpeningTurn(part, i, d);
      q := [c];
    } else {
      PartPlainTurn(part, i, d);
      if c == '(' {
        d := d + 1;
      } else if c == ')' {
        d := d - 1;
        if d == 0 && i != |part| - 1 {
          return false, d, q;
        }
      }
    }
    ok := true;
  }

  /** `conjunction`: strip enclosing parentheses, scan, cut, check operands, recurse. */
  method FindConjunction(original: string) returns (r: Option<seq<string>>)
    ensures r == Conjunction(original)
    decreases |original|, 1
  {
    var s := original;
    while true
      invariant |s| <= |original| && Conjunction(s) == Conjunction(original)
      decreases |s|
    {
      var scan := ScanText(s);
      if scan.Rejected? {
        return None;
      }
      if s != "" && s[0] == '(' && scan.end == |s| - 1 {
        s := s[1..|s| - 1];
        continue;
      }
      if |scan.splits| == 0 {
        return None;
      }
      var parts := CutParts(s, scan.splits);
      PartsClean(s);
      PartsShorter(s);
      var allGroups := CheckOperands(parts);
      if !allGroups {
        return None;
      }
      var operands := ExpandOperands(parts, |s|);
      return Some(operands);
    }
  }

  method CheckOperands(parts: seq<string>) returns (ok: bool)
    requires forall i :: 0 <= i < |parts| ==> Clean(parts[i])
    ensures ok == AllGroups(parts)
  {
    for k := 0 to |parts|
      invariant AllGroups(parts[..k])
    {
      ok := CheckOperand(parts[k]);
      if !ok {
        return;
      }
      assert parts[..k + 1] == parts[..k] + [parts[k]];
    }
    assert parts[..|parts|] == parts;
    ok := true;
  }

  /** `parts.flatMap((part) => conjunction(part) ?? [part])`. */
  method ExpandOperands(parts: seq<string>, bound: nat) returns (operands: seq<string>)
    requires forall i :: 0 <= i < |parts| ==> |parts[i]| < bound
    ensures operands == Flatten(parts, bound)
    decreases bound, 0
  {
    operands := [];
    assert parts[0..] == parts;
    for k := 0 to |parts|
      invariant operands + Flatten(parts[k..], bound) == Flatten(parts, bound)
    {
      var inner := FindConjunction(parts[k]);
      assert parts[k..][1..] == parts[k + 1..];
      operands := operands + (if inner.Some? then inner.value else [parts[k]]);
    }
    assert operands + [] == operands;
  }

  /** The `parts` loop, with its running `start`. */
  method CutParts(s: string, splits: seq<nat>) returns (parts: seq<string>)
    requires Inside(s, splits)
    ensures parts == Cut(s, 0, splits)
  {
    parts := [];
    var start: nat := 0;
    assert splits[0..] == splits;
    for k := 0 to |splits|
      invariant start <= |s|
      invariant parts + Cut(s, start, splits[k..]) == Cut(s, 0, splits)
    {
      assert splits[k..][1..] == splits[k + 1..];
      parts := parts + [Slice(s, start, splits[k])];
      start := splits[k] + 5;
    }
    parts := parts + [s[start..]];
  }

  method CanonicalRecoveryCheck(definition: string) returns (r: string)
    ensures r == Canonical(definition)
  {
    if !HasCheckPrefix(definition) {
      return definition;
    }
    var parts := FindConjunction(definition[6..]);
    if parts.Some? {
      return Prefix + Group(Join(parts.value));
    }
    return definition;
  }

  // ---------------------------------------------------------------- on trees

  function CanonicalTree(t: Tree): Tree {
    if IsNest(t) then Paren(Conj(Operands(t))) else t
  }

  /** What the canonicaliser computes: the operands of the tree the text denotes. */
  lemma {:induction false} ConjunctionOfRender(t: Tree)
    requires WellFormed(t)
    ensures Conjunction(Render(t)) == if IsNest(t) then Some(RenderAll(Operands(t))) else None
    decreases t, 0
  {
    RenderClean(t);
    match t
    case Atom(_) =>
    case Paren(u) =>
      ParenShape(u);
      ConjunctionOfRender(u);
    case Conj(ts) =>
      ConjShape(ts);
      PartsShorter(Render(t));
      FlattenOfRender(ts, |Render(t)|);
  }

  lemma {:induction false} FlattenOfRender(ts: seq<Tree>, bound: nat)
    requires AllWellFormed(ts)
    requires forall i :: 0 <= i < |ts| ==> |RenderAll(ts)[i]| < bound
    ensures Flatten(RenderAll(ts), bound) == RenderAll(OperandsOfAll(ts))
    decreases ts, 1
  {
    if ts != [] {
      var texts := RenderAll(ts);
      assert texts[1..] == RenderAll(ts[1..]);
      assert forall i :: 0 <= i < |ts[1..]| ==> RenderAll(ts[1..])[i] == texts[i + 1];
      FlattenOfRender(ts[1..], bound);
      ExpandOfRender(ts[0]);
      RenderAllConcat(Heads(ts[0]), OperandsOfAll(ts[1..]));
    }
  }

  function Heads(t: Tree): seq<Tree> {
    if IsNest(t) then Operands(t) else [t]
  }

  lemma {:induction false} ExpandOfRender(t: Tree)
    requires WellFormed(t)
    ensures Expand(Group(Render(t))) == RenderAll(Heads(t))
    decreases t, 1
  {
    ParenShape(t);
    GroupOf(Group(Render(t)));
    ConjunctionOfRender(t);
  }

  lemma {:induction false} RenderAllConcat(a: seq<Tree>, b: seq<Tree>)
    ensures RenderAll(a + b) == RenderAll(a) + RenderAll(b)
  {
    assert RenderAll(a + b) == RenderAll(a) + RenderAll(b);
  }

  lemma CanonicalTreeWellFormed(t: Tree)
    requires WellFormed(t)
    ensures WellFormed(CanonicalTree(t))
  {}

  lemma CanonicalOfRender(t: Tree)
    requires WellFormed(t) && HasCheckPrefix(Prefix + Render(t))
    ensures Canonical(Prefix + Render(t)) == Prefix + Render(CanonicalTree(t))
    ensures HasCheckPrefix(Canonical(Prefix + Render(t)))
  {
    var d := Prefix + Render(t);
    assert d[6..] == Render(t);
    ConjunctionOfRender(t);
    if IsNest(t) {
      var body := Group(Join(RenderAll(Operands(t))));
      assert (Prefix + body)[..7] == Prefix + "(";
    }
  }

  /** A definition with the CHECK prefix and a clean body is the rendering of one tree. */
  lemma TreeOfDefinition(definition: string) returns (t: Tree)
    requires HasCheckPrefix(definition) && Clean(definition[6..])
    ensures WellFormed(t) && definition == Prefix + Render(t) && t == Parse(definition[6..])
  {
    t := Parse(definition[6..]);
    RenderParse(definition[6..]);
    assert definition[..6] == definition[..7][..6];
    assert definition == definition[..6] + definition[6..];
  }

  // ---------------------------------------------------------------- the theorems

  /** The truth value of a CHECK definition under a valuation of its opaque texts. */
  function Meaning(definition: string, v: Valuation): Truth {
    if HasCheckPrefix(definition) && Clean(definition[6..]) then Eval(Parse(definition[6..]), v)
    else v(definition)
  }

  function OpaqueOperands(definition: string): seq<string> {
    if HasCheckPrefix(definition) && Clean(definition[6..]) then Atoms(Parse(definition[6..]))
    else [definition]
  }

  /** For every text and every three-valued valuation, canonicalising changes no meaning,
      and keeps the opaque operands with their order and multiplicity. */
  lemma MeaningPreserved(definition: string, v: Valuation)
    ensures Meaning(Canonical(definition), v) == Meaning(definition, v)
    ensures OpaqueOperands(Canonical(definition)) == OpaqueOperands(definition)
  {
    if HasCheckPrefix(definition) && Clean(definition[6..]) {
      var t := TreeOfDefinition(definition);
      CanonicalOfRender(t);
      CanonicalTreeWellFormed(t);
      var c := CanonicalTree(t);
      ParseRender(c);
      assert (Prefix + Render(c))[6..] == Render(c);
      RenderClean(c);
      if IsNest(t) {
        var ops := Operands(t);
        OperandsEval(t, v);
        OperandsAtoms(t);
        assert Eval(c, v) == EvalAll(ops, v);
        assert Atoms(c) == AtomsOfAll(ops);
      }
    }
  }

  /** Everything that is not a nested conjunction of groups comes back byte for byte. */
  lemma OtherwiseIdentical(definition: string)
    ensures Canonical(definition) == definition
      || (HasCheckPrefix(definition) && Clean(definition[6..]) && IsNest(Parse(definition[6..])))
  {
    if HasCheckPrefix(definition) && Clean(definition[6..]) {
      var t := TreeOfDefinition(definition);
      CanonicalOfRender(t);
    }
  }

  lemma CanonicalTreeIdempotent(t: Tree)
    ensures CanonicalTree(CanonicalTree(t)) == CanonicalTree(t)
  {
    if IsNest(t) {
      var ops := Operands(t);
      OperandsFixed(ops);
      assert Operands(Conj(ops)) == ops;
      assert Operands(Paren(Conj(ops))) == ops;
    }
  }

  lemma Idempotent(definition: string)
    ensures Canonical(Canonical(definition)) == Canonical(definition)
  {
    if HasCheckPrefix(definition) && Clean(definition[6..]) {
      var t := TreeOfDefinition(definition);
      CanonicalOfRender(t);
      CanonicalTreeWellFormed(t);
      CanonicalOfRender(CanonicalTree(t));
      CanonicalTreeIdempotent(t);
    }
  }

  /** Two trees have one canonical text exactly when they are the same tree, or both are
      nests of the same operand sequence, however they were parenthesised. */
  lemma Confluent(t: Tree, u: Tree)
    requires WellFormed(t) && WellFormed(u)
    requires HasCheckPrefix(Prefix + Render(t)) && HasCheckPrefix(Prefix + Render(u))
    ensures Canonical(Prefix + Render(t)) == Canonical(Prefix + Render(u))
      <==> t == u || (IsNest(t) && IsNest(u) && Operands(t) == Operands(u))
  {
    CanonicalOfRender(t);
    CanonicalOfRender(u);
    CanonicalTreeWellFormed(t);
    CanonicalTreeWellFormed(u);
    var c, d := CanonicalTree(t), CanonicalTree(u);
    if Prefix + Render(c) == Prefix + Render(d) {
      assert (Prefix + Render(c))[6..] == Render(c) && (Prefix + Render(d))[6..] == Render(d);
      UniqueReadability(c, d);
      if !IsNest(t) && IsNest(u) { assert IsNest(d); }
      if IsNest(t) && !IsNest(u) { assert IsNest(c); }
    }
  }

  /** What the evidence rests on: equal canonical texts have equal meaning under every
      valuation and the same opaque operands in the same order. */
  lemma EqualTextsAreEquivalent(a: string, b: string, v: Valuation)
    requires Canonical(a) == Canonical(b)
    ensures Meaning(a, v) == Meaning(b, v)
    ensures OpaqueOperands(a) == OpaqueOperands(b)
  {
    MeaningPreserved(a, v);
    MeaningPreserved(b, v);
  }
}
