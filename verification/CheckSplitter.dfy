/**
 Cutting a CHECK text at its top-level " AND " separators, and putting it together again.
 */
module CheckSplitter {
  import opened CheckLexer

  const Separator: string := " AND "

  predicate SplitAt(s: string, i: nat) {
    i + 5 <= |s| && s[i..i + 5] == Separator && AtTop(Run(Start, s[..i]))
  }

  /** The split positions below `n`, ascending, as the scanning loop collects them. */
  function SplitsUpTo(s: string, n: nat): (r: seq<nat>)
    requires n <= |s|
    ensures forall i :: 0 <= i < |r| ==> r[i] < n && SplitAt(s, r[i])
  {
    if n == 0 then [] else
      SplitsUpTo(s, n - 1) + (if SplitAt(s, n - 1) then [n - 1] else [])
  }

  function Splits(s: string): (r: seq<nat>)
    ensures Inside(s, r) && AllSplits(s, r)
  {
    SplitsUpTo(s, |s|)
  }

  /** `String.prototype.slice` with `a` possibly past `b`: overlapping splits give "". */
  function Slice(s: string, a: nat, b: nat): string
    requires b <= |s|
  {
    if a < b then s[a..b] else ""
  }

  /** Every separator lies inside the text. */
  predicate Inside(s: string, splits: seq<nat>) {
    forall i :: 0 <= i < |splits| ==> splits[i] + 5 <= |s|
  }

  predicate AllSplits(s: string, splits: seq<nat>) {
    forall i :: 0 <= i < |splits| ==> SplitAt(s, splits[i])
  }

  function Cut(s: string, start: nat, splits: seq<nat>): (parts: seq<string>)
    requires start <= |s|
    requires Inside(s, splits)
    ensures |parts| == |splits| + 1
    decreases |splits|
  {
    if splits == [] then [s[start..]] else
      [Slice(s, start, splits[0])] + Cut(s, splits[0] + 5, splits[1..])
  }

  function Parts(s: string): (parts: seq<string>)
    ensures |parts| == |Splits(s)| + 1
  {
    Cut(s, 0, Splits(s))
  }

  function Join(parts: seq<string>): string {
    if |parts| == 0 then ""
    else if |parts| == 1 then parts[0]
    else parts[0] + Separator + Join(parts[1..])
  }

  predicate AllGroups(parts: seq<string>) {
    forall i :: 0 <= i < |parts| ==> IsGroup(parts[i])
  }

  /** A conjunction: at least two operands, each one balanced parenthesised expression. */
  predicate IsConjunctionText(s: string) {
    |Parts(s)| >= 2 && AllGroups(Parts(s))
  }

  function Shift(xs: seq<nat>, d: nat): (r: seq<nat>) {
    seq(|xs|, i requires 0 <= i < |xs| => xs[i] + d)
  }

  lemma SplitChars(s: string, i: nat)
    ensures SplitAt(s, i) ==> s[i] == ' ' && s[i + 1] == 'A'
  {
    if SplitAt(s, i) {
      assert s[i..i + 5][0] == s[i] && s[i..i + 5][1] == s[i + 1];
    }
  }

  lemma SeparatorRun(l: Lexer)
    requires AtTop(l)
    ensures Run(l, Separator) == Start
  {
    assert Separator[..4] == " AND" && Separator[..4][..3] == " AN" && " AN"[..2] == " A" && " A"[..1] == " ";
    assert " AND"[..3] == " AN";
    RunOne(l, ' ');
    var l1 := Run(l, " ");
    assert AtTop(l1);
    assert Run(l, " A") == Step(l1, 'A');
    assert Run(l, " AN") == Step(Run(l, " A"), 'N');
    assert Run(l, " AND") == Step(Run(l, " AN"), 'D');
    assert Run(l, Separator) == Step(Run(l, " AND"), ' ');
  }

  lemma AfterSplit(s: string, i: nat)
    requires SplitAt(s, i)
    ensures Run(Start, s[..i + 5]) == Start
  {
    assert s[..i + 5] == s[..i] + Separator;
    RunConcat(Start, s[..i], Separator);
    SeparatorRun(Run(Start, s[..i]));
  }

  /** Every piece of a clean text is clean. */
  lemma {:induction false} CutClean(s: string, start: nat, splits: seq<nat>)
    requires Clean(s) && start <= |s| && Run(Start, s[..start]) == Start
    requires Inside(s, splits) && AllSplits(s, splits)
    ensures forall i :: 0 <= i < |Cut(s, start, splits)| ==> Clean(Cut(s, start, splits)[i])
    decreases |splits|
  {
    if splits == [] {
      RunSplit(Start, s, start);
    } else {
      var at := splits[0];
      AfterSplit(s, at);
      CutClean(s, at + 5, splits[1..]);
      if start < at {
        assert s[..at][..start] == s[..start];
        assert s[..at][start..] == s[start..at];
        RunSplit(Start, s[..at], start);
      }
    }
  }

  lemma PartsClean(s: string)
    requires Clean(s)
    ensures forall i :: 0 <= i < |Parts(s)| ==> Clean(Parts(s)[i])
  {
    CutClean(s, 0, Splits(s));
  }

  lemma {:induction false} CutShorter(s: string, start: nat, splits: seq<nat>)
    requires start <= |s| && (start >= 5 || splits != [])
    requires Inside(s, splits)
    ensures forall i :: 0 <= i < |Cut(s, start, splits)| ==> |Cut(s, start, splits)[i]| + 5 <= |s|
    decreases |splits|
  {
    if splits != [] {
      CutShorter(s, splits[0] + 5, splits[1..]);
    }
  }

  lemma PartsShorter(s: string)
    requires |Splits(s)| > 0
    ensures forall i :: 0 <= i < |Parts(s)| ==> |Parts(s)[i]| + 5 <= |s|
  {
    CutShorter(s, 0, Splits(s));
  }

  /** A piece found empty means overlapping separators; otherwise nothing is lost. */
  lemma {:induction false} JoinCut(s: string, start: nat, splits: seq<nat>)
    requires start <= |s|
    requires Inside(s, splits) && AllSplits(s, splits)
    requires forall i :: 0 <= i < |Cut(s, start, splits)| ==> Cut(s, start, splits)[i] != ""
    ensures Join(Cut(s, start, splits)) == s[start..]
    decreases |splits|
  {
    if splits != [] {
      var at, all := splits[0], Cut(s, start, splits);
      var rest := Cut(s, at + 5, splits[1..]);
      assert all == [Slice(s, start, at)] + rest;
      assert all[0] != "" && forall i :: 0 <= i < |rest| ==> rest[i] == all[i + 1];
      JoinCut(s, at + 5, splits[1..]);
      JoinFirst(Slice(s, start, at), rest);
      Pieces(s, start, at);
    }
  }

  lemma JoinFirst(first: string, rest: seq<string>)
    requires rest != []
    ensures Join([first] + rest) == first + Separator + Join(rest)
  {
    assert ([first] + rest)[1..] == rest;
  }

  lemma Pieces(s: string, start: nat, at: nat)
    requires SplitAt(s, at) && Slice(s, start, at) != ""
    ensures s[start..] == Slice(s, start, at) + Separator + s[at + 5..]
  {}

  lemma JoinParts(s: string)
    requires AllGroups(Parts(s))
    ensures Join(Parts(s)) == s
  {
    JoinCut(s, 0, Splits(s));
    assert s[0..] == s;
  }

  // ---- splitting a joined list of groups gives the list back ----

  lemma {:induction false} NoSplitInGroup(g: string, rest: string, n: nat)
    requires IsGroup(g) && n <= |g|
    ensures SplitsUpTo(g + rest, n) == []
  {
    if n > 0 {
      NoSplitInGroup(g, rest, n - 1);
      var w := g + rest;
      assert w[..n - 1] == g[..n - 1];
      if n - 1 > 0 {
        GroupDepth(g, n - 1);
      } else {
        SplitChars(w, 0);
      }
    }
  }

  lemma SplitsNext(s: string, n: nat)
    requires n < |s|
    ensures SplitsUpTo(s, n + 1) == SplitsUpTo(s, n) + (if SplitAt(s, n) then [n] else [])
  {}

  lemma NoSplitNext(s: string, n: nat)
    requires n + 1 < |s| && (s[n] != ' ' || s[n + 1] != 'A')
    ensures SplitsUpTo(s, n + 1) == SplitsUpTo(s, n)
  {
    SplitChars(s, n);
    SplitsNext(s, n);
  }

  lemma SplitAtTop(w: string, g: string, n: nat)
    requires n + 5 <= |w| && w[..n] == g && w[n..n + 5] == Separator && AtTop(Run(Start, g))
    ensures SplitAt(w, n)
  {}

  /** The text is a group, a separator and a rest. */
  predicate Leads(w: string, g: string, rest: string) {
    w == g + Separator + rest
  }

  lemma Regrouped(w: string, g: string, rest: string)
    requires Leads(w, g, rest)
    ensures w == g + (Separator + rest) && w[..|g|] == g && w[|g|..|g| + 5] == Separator
    ensures |w| == |g| + 5 + |rest| && w[..|g| + 5] == g + Separator && w[|g| + 5..] == rest
  {}

  lemma SplitAfterGroup(w: string, g: string, rest: string)
    requires IsGroup(g) && Leads(w, g, rest)
    ensures |w| == |g| + 5 + |rest| && SplitsUpTo(w, |g|) == [] && SplitAt(w, |g|)
  {
    Regrouped(w, g, rest);
    NoSplitInGroup(g, Separator + rest, |g|);
    GroupOf(g);
    SplitAtTop(w, g, |g|);
  }

  lemma SeparatorChars(w: string, n: nat)
    requires SplitAt(w, n)
    ensures n + 5 <= |w| && w[n + 1] == 'A' && w[n + 2] == 'N' && w[n + 3] == 'D' && w[n + 4] == ' '
  {
    var t := w[n..n + 5];
    assert t[1] == 'A' && t[2] == 'N' && t[3] == 'D' && t[4] == ' ';
  }

  /** No split position lies inside a separator. */
  lemma SplitsPast(w: string, n: nat)
    requires n + 5 < |w| && SplitAt(w, n) && SplitsUpTo(w, n) == [] && w[n + 5] != 'A'
    ensures SplitsUpTo(w, n + 5) == [n]
  {
    SeparatorChars(w, n);
    SplitsNext(w, n);
    NoSplitNext(w, n + 1);
    NoSplitNext(w, n + 2);
    NoSplitNext(w, n + 3);
    NoSplitNext(w, n + 4);
  }

  lemma AfterSeparator(w: string, g: string, rest: string)
    requires Leads(w, g, rest) && rest != ""
    ensures |g| + 5 < |w| && w[|g| + 5] == rest[0]
  {}

  lemma SplitsOverSeparator(w: string, g: string, rest: string)
    requires IsGroup(g) && rest != "" && rest[0] == '(' && Leads(w, g, rest)
    ensures SplitsUpTo(w, |g| + 5) == [|g|]
  {
    AfterSeparator(w, g, rest);
    SplitAfterGroup(w, g, rest);
    SplitsPast(w, |g|);
  }

  /** Where the scan is back in its initial state, splitting starts afresh. */
  lemma SplitAtFrom(w: string, off: nat, k: nat)
    requires off + k <= |w| && Run(Start, w[..off]) == Start
    ensures SplitAt(w, off + k) == SplitAt(w[off..], k)
  {
    var rest := w[off..];
    assert w[..off + k][..off] == w[..off];
    assert w[..off + k][off..] == rest[..k];
    RunSplit(Start, w[..off + k], off);
    if k + 5 <= |rest| {
      assert w[off + k..off + k + 5] == rest[k..k + 5];
    }
  }

  lemma GroupSeparatorRun(g: string)
    requires IsGroup(g)
    ensures Run(Start, g + Separator) == Start
  {
    GroupOf(g);
    RunConcat(Start, g, Separator);
    SeparatorRun(Run(Start, g));
  }

  lemma SplitAtShifted(w: string, g: string, rest: string, k: nat)
    requires IsGroup(g) && Leads(w, g, rest) && k <= |rest|
    ensures |w| == |g| + 5 + |rest| && SplitAt(w, |g| + 5 + k) == SplitAt(rest, k)
  {
    Regrouped(w, g, rest);
    GroupSeparatorRun(g);
    SplitAtFrom(w, |g| + 5, k);
  }

  lemma ShiftAppend(x: nat, xs: seq<nat>, k: nat, d: nat, hit: bool)
    ensures ([x] + Shift(xs, d)) + (if hit then [d + k] else []) == [x] + Shift(xs + (if hit then [k] else []), d)
  {}

  lemma NextShifted(w: string, rest: string, x: nat, d: nat, k: nat)
    requires k < |rest| && d + k < |w| && SplitAt(w, d + k) == SplitAt(rest, k)
    requires SplitsUpTo(w, d + k) == [x] + Shift(SplitsUpTo(rest, k), d)
    ensures SplitsUpTo(w, d + k + 1) == [x] + Shift(SplitsUpTo(rest, k + 1), d)
  {
    SplitsNext(w, d + k);
    SplitsNext(rest, k);
    ShiftAppend(x, SplitsUpTo(rest, k), k, d, SplitAt(rest, k));
  }

  lemma {:induction false} SplitsFollow(w: string, rest: string, x: nat, d: nat, m: nat)
    requires m <= |rest| && d + |rest| <= |w| && SplitsUpTo(w, d) == [x]
    requires forall k :: 0 <= k < m ==> SplitAt(w, d + k) == SplitAt(rest, k)
    ensures SplitsUpTo(w, d + m) == [x] + Shift(SplitsUpTo(rest, m), d)
  {
    if m > 0 {
      SplitsFollow(w, rest, x, d, m - 1);
      NextShifted(w, rest, x, d, m - 1);
    }
  }

  predicate SplitsAlike(w: string, rest: string, d: nat) {
    d + |rest| == |w| && forall k :: 0 <= k < |rest| ==> SplitAt(w, d + k) == SplitAt(rest, k)
  }

  lemma SplitsStayAlike(w: string, g: string, rest: string)
    requires IsGroup(g) && Leads(w, g, rest)
    ensures SplitsAlike(w, rest, |g| + 5)
  {
    Regrouped(w, g, rest);
    forall k | 0 <= k < |rest| ensures SplitAt(w, |g| + 5 + k) == SplitAt(rest, k) {
      SplitAtShifted(w, g, rest, k);
    }
  }

  lemma SplitsOfAlike(w: string, rest: string, x: nat, d: nat)
    requires SplitsAlike(w, rest, d) && SplitsUpTo(w, d) == [x]
    ensures SplitsUpTo(w, |w|) == [x] + Shift(SplitsUpTo(rest, |rest|), d)
  {
    SplitsFollow(w, rest, x, d, |rest|);
  }

  lemma SplitsShifted(w: string, g: string, rest: string)
    requires IsGroup(g) && rest != "" && rest[0] == '(' && Leads(w, g, rest)
    ensures SplitsUpTo(w, |w|) == [|g|] + Shift(SplitsUpTo(rest, |rest|), |g| + 5)
  {
    SplitsOverSeparator(w, g, rest);
    SplitsStayAlike(w, g, rest);
    SplitsOfAlike(w, rest, |g|, |g| + 5);
  }

  lemma SliceShifted(w: string, rest: string, off: nat, start: nat, at: nat)
    requires off <= |w| && w[off..] == rest && start <= |rest| && at <= |rest|
    ensures Slice(w, off + start, off + at) == Slice(rest, start, at)
  {
    if start < at { assert w[off..][start..at] == w[off + start..off + at]; }
  }

  lemma {:induction false} CutShifted(w: string, rest: string, off: nat, start: nat, splits: seq<nat>)
    requires off <= |w| && w[off..] == rest && start <= |rest|
    requires Inside(rest, splits)
    ensures Cut(w, off + start, Shift(splits, off)) == Cut(rest, start, splits)
    decreases |splits|
  {
    var shifted := Shift(splits, off);
    if splits == [] {
      assert w[off + start..] == rest[start..];
    } else {
      assert shifted[0] == splits[0] + off;
      assert shifted[1..] == Shift(splits[1..], off);
      CutShifted(w, rest, off, splits[0] + 5, splits[1..]);
      SliceShifted(w, rest, off, start, splits[0]);
    }
  }

  lemma GroupParts(g: string)
    requires IsGroup(g)
    ensures Parts(g) == [g]
  {
    assert g + "" == g;
    NoSplitInGroup(g, "", |g|);
    assert g[0..] == g;
  }

  lemma PartsOfJoin(g: string, rest: string)
    requires IsGroup(g) && rest != "" && rest[0] == '('
    ensures Parts(g + Separator + rest) == [g] + Parts(rest)
  {
    var w := g + Separator + rest;
    var off := |g| + 5;
    SplitsShifted(w, g, rest);
    var splits := Splits(rest);
    assert Splits(w) == [|g|] + Shift(splits, off);
    assert Splits(w)[1..] == Shift(splits, off);
    assert w[off..] == rest;
    CutShifted(w, rest, off, 0, splits);
    assert Slice(w, 0, |g|) == g;
  }

  lemma {:induction false} PartsJoin(parts: seq<string>)
    requires |parts| >= 1 && AllGroups(parts)
    ensures Join(parts) != "" && Join(parts)[0] == '('
    ensures Parts(Join(parts)) == parts
    decreases |parts|
  {
    if |parts| == 1 {
      GroupParts(parts[0]);
    } else {
      PartsJoin(parts[1..]);
      PartsOfJoin(parts[0], Join(parts[1..]));
      assert parts == [parts[0]] + parts[1..];
    }
  }

  lemma {:induction false} JoinRun(parts: seq<string>)
    requires |parts| >= 1 && AllGroups(parts)
    ensures Run(Start, Join(parts)) == Lexer(Unquoted, 0, 0, ')') && Clean(Join(parts))
    decreases |parts|
  {
    GroupOf(parts[0]);
    if |parts| > 1 {
      var rest := Join(parts[1..]);
      JoinRun(parts[1..]);
      assert Join(parts) == parts[0] + (Separator + rest);
      RunConcat(Start, parts[0], Separator + rest);
      RunConcat(Run(Start, parts[0]), Separator, rest);
      SeparatorRun(Run(Start, parts[0]));
    }
  }

  /** Two or more joined groups are not one group: depth zero is reached early. */
  lemma JoinNotGroup(parts: seq<string>)
    requires |parts| >= 2 && AllGroups(parts)
    ensures !IsGroup(Join(parts))
  {
    var w := Join(parts);
    if IsGroup(w) {
      assert w[..|parts[0]|] == parts[0];
      GroupOf(parts[0]);
      GroupDepth(w, |parts[0]|);
      assert false;
    }
  }
}
