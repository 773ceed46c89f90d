/**
 The grammar of the texts the canonicaliser looks into, with its three-valued meaning.

 A tree is an opaque atom, a parenthesised tree, or a conjunction of at least two
 parenthesised trees. Every clean text is the rendering of exactly one well-formed tree,
 so a text has one meaning and one list of atoms, whatever the canonicaliser does.
 */
module CheckGrammar {
  import opened CheckLexer
  import opened CheckSplitter

  /** `Conj` holds the contents of its groups: each is rendered inside parentheses. */
  datatype Tree = Atom(text: string) | Paren(inner: Tree) | Conj(groups: seq<Tree>)

  /** SQL truth values. */
  datatype Truth = False | Unknown | True

  type Valuation = string -> Truth

  function And(a: Truth, b: Truth): Truth {
    if a.False? || b.False? then False else if a.Unknown? || b.Unknown? then Unknown else True
  }

  function Render(t: Tree): string
    decreases t, 0
  {
    match t
    case Atom(text) => text
    case Paren(u) => Group(Render(u))
    case Conj(ts) => Join(RenderAll(ts))
  }

  function RenderAll(ts: seq<Tree>): (r: seq<string>)
    ensures |r| == |ts|
    ensures forall i :: 0 <= i < |ts| ==> r[i] == Group(Render(ts[i]))
    decreases ts, 1
  {
    if ts == [] then [] else [Group(Render(ts[0]))] + RenderAll(ts[1..])
  }

  /** Clean text that is neither one group nor a conjunction of groups. */
  predicate Irreducible(text: string) {
    Clean(text) && !IsGroup(text) && !IsConjunctionText(text)
  }

  predicate WellFormed(t: Tree) {
    match t
    case Atom(text) => Irreducible(text)
    case Paren(u) => WellFormed(u)
    case Conj(ts) => |ts| >= 2 && forall i :: 0 <= i < |ts| ==> WellFormed(ts[i])
  }

  predicate AllWellFormed(ts: seq<Tree>) {
    forall i :: 0 <= i < |ts| ==> WellFormed(ts[i])
  }

  function Eval(t: Tree, v: Valuation): Truth
    decreases t, 0
  {
    match t
    case Atom(text) => v(text)
    case Paren(u) => Eval(u, v)
    case Conj(ts) => EvalAll(ts, v)
  }

  function EvalAll(ts: seq<Tree>, v: Valuation): Truth
    decreases ts, 1
  {
    if ts == [] then True else And(Eval(ts[0], v), EvalAll(ts[1..], v))
  }

  /** The opaque texts of a tree, left to right. */
  function Atoms(t: Tree): seq<string>
    decreases t, 0
  {
    match t
    case Atom(text) => [text]
    case Paren(u) => Atoms(u)
    case Conj(ts) => AtomsOfAll(ts)
  }

  function AtomsOfAll(ts: seq<Tree>): seq<string>
    decreases ts, 1
  {
    if ts == [] then [] else Atoms(ts[0]) + AtomsOfAll(ts[1..])
  }

  /** Reading a clean text back. */
  function Parse(s: string): Tree
    decreases |s|, 1
  {
    if IsGroup(s) then Paren(Parse(Inner(s)))
    else if IsConjunctionText(s) then
      PartsShorter(s);
      Conj(ParseAll(Parts(s), |s|))
    else Atom(s)
  }

  function ParseAll(parts: seq<string>, bound: nat): (r: seq<Tree>)
    requires AllGroups(parts) && forall i :: 0 <= i < |parts| ==> |parts[i]| < bound
    ensures |r| == |parts|
    ensures forall i :: 0 <= i < |parts| ==> r[i] == Parse(Inner(parts[i]))
    decreases bound, 0, |parts|
  {
    if parts == [] then [] else [Parse(Inner(parts[0]))] + ParseAll(parts[1..], bound)
  }

  // ---- renderings are clean, and keep their shape ----

  lemma {:induction false} RenderClean(t: Tree)
    requires WellFormed(t)
    ensures Clean(Render(t))
  {
    match t
    case Atom(_) =>
    case Paren(u) =>
      RenderClean(u);
      GroupClean(Render(u));
    case Conj(ts) =>
      RenderGroups(ts);
      JoinRun(RenderAll(ts));
  }

  lemma {:induction false} RenderGroups(ts: seq<Tree>)
    requires AllWellFormed(ts)
    ensures AllGroups(RenderAll(ts))
  {
    forall i | 0 <= i < |ts| ensures IsGroup(RenderAll(ts)[i]) {
      RenderClean(ts[i]);
      GroupClean(Render(ts[i]));
    }
  }

  lemma ParenShape(u: Tree)
    requires WellFormed(u)
    ensures IsGroup(Render(Paren(u))) && Inner(Render(Paren(u))) == Render(u)
  {
    RenderClean(u);
    GroupClean(Render(u));
  }

  lemma ConjShape(ts: seq<Tree>)
    requires |ts| >= 2 && AllWellFormed(ts)
    ensures !IsGroup(Render(Conj(ts)))
    ensures IsConjunctionText(Render(Conj(ts))) && Parts(Render(Conj(ts))) == RenderAll(ts)
  {
    RenderGroups(ts);
    PartsJoin(RenderAll(ts));
    JoinNotGroup(RenderAll(ts));
  }

  // ---- unique readability ----

  /** Rendering then parsing gives the tree back: the grammar is unambiguous. */
  lemma {:induction false} ParseRender(t: Tree)
    requires WellFormed(t)
    ensures Parse(Render(t)) == t
  {
    match t
    case Atom(_) =>
    case Paren(u) =>
      ParenShape(u);
      ParseRender(u);
    case Conj(ts) =>
      ConjShape(ts);
      var s := Render(t);
      PartsShorter(s);
      var back := ParseAll(Parts(s), |s|);
      forall i | 0 <= i < |ts| ensures back[i] == ts[i] {
        ParenShape(ts[i]);
        ParseRender(ts[i]);
      }
      assert back == ts;
  }

  /** Every clean text is a rendering. */
  lemma {:induction false} RenderParse(s: string)
    requires Clean(s)
    ensures WellFormed(Parse(s)) && Render(Parse(s)) == s
    decreases |s|
  {
    if IsGroup(s) {
      GroupOf(s);
      RenderParse(Inner(s));
    } else if IsConjunctionText(s) {
      PartsShorter(s);
      var parts := Parts(s);
      var ts := ParseAll(parts, |s|);
      forall i | 0 <= i < |parts| ensures WellFormed(ts[i]) && Group(Render(ts[i])) == parts[i] {
        GroupOf(parts[i]);
        RenderParse(Inner(parts[i]));
      }
      assert RenderAll(ts) == parts;
      JoinParts(s);
    }
  }

  lemma UniqueReadability(t: Tree, u: Tree)
    requires WellFormed(t) && WellFormed(u) && Render(t) == Render(u)
    ensures t == u
  {
    ParseRender(t);
    ParseRender(u);
  }

  // ---- conjunction is associative, with True as unit ----

  lemma {:induction false} EvalConcat(a: seq<Tree>, b: seq<Tree>, v: Valuation)
    ensures EvalAll(a + b, v) == And(EvalAll(a, v), EvalAll(b, v))
  {
    if a == [] {
      assert a + b == b;
    } else {
      assert (a + b)[1..] == a[1..] + b;
      EvalConcat(a[1..], b, v);
    }
  }

  lemma {:induction false} AtomsConcat(a: seq<Tree>, b: seq<Tree>)
    ensures AtomsOfAll(a + b) == AtomsOfAll(a) + AtomsOfAll(b)
  {
    if a == [] {
      assert a + b == b;
    } else {
      assert (a + b)[1..] == a[1..] + b;
      AtomsConcat(a[1..], b);
    }
  }

  // ---- flattening ----

  /** A conjunction under any number of enclosing parentheses. */
  predicate IsNest(t: Tree) {
    match t
    case Atom(_) => false
    case Paren(u) => IsNest(u)
    case Conj(_) => true
  }

  /** The operands of a nest: what is left when every nested conjunction is opened. */
  function Operands(t: Tree): (r: seq<Tree>)
    ensures WellFormed(t) ==> AllWellFormed(r)
    ensures WellFormed(t) && IsNest(t) ==> |r| >= 2
    ensures forall i :: 0 <= i < |r| ==> !IsNest(r[i])
    decreases t, 0
  {
    match t
    case Atom(_) => [t]
    case Paren(u) => if IsNest(u) then Operands(u) else [t]
    case Conj(ts) => OperandsOfAll(ts)
  }

  function OperandsOfAll(ts: seq<Tree>): (r: seq<Tree>)
    ensures AllWellFormed(ts) ==> AllWellFormed(r) && |r| >= |ts|
    ensures forall i :: 0 <= i < |r| ==> !IsNest(r[i])
    decreases ts, 1
  {
    if ts == [] then [] else
      (if IsNest(ts[0]) then Operands(ts[0]) else [ts[0]]) + OperandsOfAll(ts[1..])
  }

  lemma {:induction false} OperandsEval(t: Tree, v: Valuation)
    ensures EvalAll(Operands(t), v) == Eval(t, v)
    decreases t, 0
  {
    match t
    case Atom(_) =>
    case Paren(u) => if IsNest(u) { OperandsEval(u, v); }
    case Conj(ts) => OperandsOfAllEval(ts, v);
  }

  lemma {:induction false} OperandsOfAllEval(ts: seq<Tree>, v: Valuation)
    ensures EvalAll(OperandsOfAll(ts), v) == EvalAll(ts, v)
    decreases ts, 1
  {
    if ts != [] {
      OperandsOfAllEval(ts[1..], v);
      if IsNest(ts[0]) {
        OperandsEval(ts[0], v);
        EvalConcat(Operands(ts[0]), OperandsOfAll(ts[1..]), v);
      } else {
        EvalConcat([ts[0]], OperandsOfAll(ts[1..]), v);
      }
    }
  }

  lemma {:induction false} OperandsAtoms(t: Tree)
    ensures AtomsOfAll(Operands(t)) == Atoms(t)
    decreases t, 0
  {
    match t
    case Atom(_) =>
    case Paren(u) => if IsNest(u) { OperandsAtoms(u); }
    case Conj(ts) => OperandsOfAllAtoms(ts);
  }

  lemma {:induction false} OperandsOfAllAtoms(ts: seq<Tree>)
    ensures AtomsOfAll(OperandsOfAll(ts)) == AtomsOfAll(ts)
    decreases ts, 1
  {
    if ts != [] {
      OperandsOfAllAtoms(ts[1..]);
      if IsNest(ts[0]) {
        OperandsAtoms(ts[0]);
        AtomsConcat(Operands(ts[0]), OperandsOfAll(ts[1..]));
      } else {
        AtomsConcat([ts[0]], OperandsOfAll(ts[1..]));
      }
    }
  }

  /** Operands that are not nests stay as they are. */
  lemma {:induction false} OperandsFixed(ts: seq<Tree>)
    requires forall i :: 0 <= i < |ts| ==> !IsNest(ts[i])
    ensures OperandsOfAll(ts) == ts
    decreases ts
  {
    if ts != [] {
      OperandsFixed(ts[1..]);
      assert ts == [ts[0]] + ts[1..];
    }
  }
}
