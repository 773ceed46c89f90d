/**
 Runs of the phase recovery: any number of preparing and reconciling transactions of any
 plans, each possibly aborted or unheard, mixed with every other writer's writes to the
 accounts. The log keeps every write to an account and the plan that made it, if one did.
 */
module PhaseRuns {
  import opened Outcomes
  import opened AccountWrites
  import opened RefreshChain
  import opened PhaseRecovery
  import opened PhaseTables

  datatype Entry = Entry(id: string, write: Write, source: Option<string>)

  datatype System = System(store: Store, log: seq<Entry>)

  datatype Action =
    | CallPrepare(scope: Scope, now: int, outcome: Outcome)
    | CallReconcile(scope: Scope, readOnly: bool, now: int, outcome: Outcome)
    | WriteAccount(id: string, write: Write)
    | ChangeGraph(graph: Graph)

  /** The compare-and-set as a write to the account. */
  function CasWrite(l: Live): Write {
    Dispose(Healthy, None, l.row.drainingAt, l.row.tombstonedAt)
  }

  /** After a reconciling transaction: its compare-and-set is logged when it restored. */
  function Logged(y: System, plan: string, t: Store): System {
    if plan in t.receipts && plan !in y.store.receipts && t.receipts[plan].status.Restored?
       && t.receipts[plan].account in y.store.accounts then
      var id := t.receipts[plan].account;
      System(t, y.log + [Entry(id, CasWrite(y.store.accounts[id]), Some(plan))])
    else System(t, y.log)
  }

  function Step(y: System, a: Action): System {
    match a
    case CallPrepare(c, now, outcome) => y.(store := Transact(y.store, Prepare(y.store, c, now), outcome).0)
    case CallReconcile(c, readOnly, now, outcome) =>
      Logged(y, c.plan, Transact(y.store, Reconcile(y.store, c, readOnly, now), outcome).0)
    case WriteAccount(id, w) =>
      if id in y.store.accounts && Can(y.store.accounts[id], w) then
        System(y.store.(accounts := y.store.accounts[id := Apply(y.store.accounts[id], w)]), y.log + [Entry(id, w, None)])
      else y
    case ChangeGraph(g) => y.(store := y.store.(graph := g))
  }

  function Exec(y: System, actions: seq<Action>): System
    decreases |actions|
  {
    if actions == [] then y else Step(Exec(y, actions[..|actions| - 1]), actions[|actions| - 1])
  }

  // ---------------------------------------------------------------- what one step can do

  /** What a reconciling transaction can do to the rows: nothing, or write one receipt for its
      prepared scope and, when restoring, move that receipt's account. */
  predicate Settled(s: Store, c: Scope, t: Store) {
    t == s ||
    (&& c.plan !in s.receipts && c.plan in s.prepared && s.prepared[c.plan].scope == c
     && t.graph == s.graph && t.prepared == s.prepared && c.plan in t.receipts
     && t.receipts == s.receipts[c.plan := t.receipts[c.plan]]
     && t.receipts[c.plan].scope == c && t.receipts[c.plan].status == StatusOf(c)
     && t.receipts[c.plan].account in s.accounts
     && t.accounts == (if StatusOf(c).Restored? then
                         s.accounts[t.receipts[c.plan].account := Restore(s.accounts[t.receipts[c.plan].account])]
                       else s.accounts))
  }

  lemma ReconcileSettles(s: Store, c: Scope, readOnly: bool, now: int, outcome: Outcome)
    ensures Settled(s, c, Transact(s, Reconcile(s, c, readOnly, now), outcome).0)
    ensures readOnly ==> Transact(s, Reconcile(s, c, readOnly, now), outcome).0 == s
  {}

  lemma RestoreIsWrite(l: Live)
    ensures Can(l, CasWrite(l)) && Apply(l, CasWrite(l)) == Restore(l)
  {}

  /** A step writes at most one account, by the write it logs, and keeps every audit row. */
  predicate StepEffect(y: System, z: System) {
    && (forall p :: p in y.store.prepared ==> p in z.store.prepared && z.store.prepared[p] == y.store.prepared[p])
    && (forall p :: p in y.store.receipts ==> p in z.store.receipts && z.store.receipts[p] == y.store.receipts[p])
    && ((z.log == y.log && z.store.accounts == y.store.accounts) ||
        (|z.log| == |y.log| + 1 && y.log <= z.log && Wrote(y.store, z.log[|y.log|], z.store)))
  }

  predicate Wrote(s: Store, e: Entry, t: Store) {
    && e.id in s.accounts && Can(s.accounts[e.id], e.write)
    && t.accounts == s.accounts[e.id := Apply(s.accounts[e.id], e.write)]
  }

  lemma LoggedDoes(y: System, c: Scope, t: Store)
    requires Settled(y.store, c, t)
    ensures StepEffect(y, Logged(y, c.plan, t))
  {
    if t != y.store && StatusOf(c).Restored? {
      RestoreIsWrite(y.store.accounts[t.receipts[c.plan].account]);
    }
  }

  lemma StepDoes(y: System, a: Action)
    ensures StepEffect(y, Step(y, a))
  {
    var z := Step(y, a);
    match a
    case CallPrepare(c, now, outcome) =>
    case CallReconcile(c, readOnly, now, outcome) =>
      ReconcileSettles(y.store, c, readOnly, now, outcome);
      LoggedDoes(y, c, z.store);
    case WriteAccount(id, w) =>
      if z != y { assert z.log == y.log + [Entry(id, w, None)]; }
    case ChangeGraph(g) =>
  }

  // ---------------------------------------------------------------- accounts follow the log

  /** The entries about one account. */
  function Of(log: seq<Entry>, id: string): seq<Entry>
    decreases |log|
  {
    if log == [] then []
    else Of(log[..|log| - 1], id) + (if log[|log| - 1].id == id then [log[|log| - 1]] else [])
  }

  function Writes(es: seq<Entry>): (ws: seq<Write>)
    ensures |ws| == |es| && forall i :: 0 <= i < |es| ==> ws[i] == es[i].write
  {
    seq(|es|, i requires 0 <= i < |es| => es[i].write)
  }

  /** From `y` to `z`: the log grew, audit rows stayed, and each account is what its logged
      writes made of it. */
  predicate Follows(y: System, z: System) {
    && y.log <= z.log
    && (forall p :: p in y.store.prepared ==> p in z.store.prepared && z.store.prepared[p] == y.store.prepared[p])
    && (forall p :: p in y.store.receipts ==> p in z.store.receipts && z.store.receipts[p] == y.store.receipts[p])
    && (forall id :: id in y.store.accounts ==> AccountFollows(y, z, id))
  }

  function Since(y: System, z: System, id: string): seq<Entry>
    requires y.log <= z.log
  {
    Of(z.log[|y.log|..], id)
  }

  predicate AccountFollows(y: System, z: System, id: string)
    requires y.log <= z.log && id in y.store.accounts
  {
    && id in z.store.accounts && Trace(y.store.accounts[id], Writes(Since(y, z, id)))
    && z.store.accounts[id] == Run(y.store.accounts[id], Writes(Since(y, z, id)))
  }

  lemma SinceGrows(y: System, z: System, x: System, id: string)
    requires y.log <= z.log
    ensures z.log == x.log ==> Since(y, x, id) == Since(y, z, id)
    ensures forall e :: x.log == z.log + [e] ==> y.log <= x.log
    ensures forall e :: x.log == z.log + [e] ==>
      Since(y, x, id) == Since(y, z, id) + (if e.id == id then [e] else [])
  {
    forall e | x.log == z.log + [e]
      ensures y.log <= x.log && Since(y, x, id) == Since(y, z, id) + (if e.id == id then [e] else [])
    {
      var t := x.log[|y.log|..];
      assert t[..|t| - 1] == z.log[|y.log|..] && t[|t| - 1] == e;
    }
  }

  lemma OneMore(l: Live, es: seq<Entry>, e: Entry)
    requires Trace(l, Writes(es)) && Can(Run(l, Writes(es)), e.write)
    ensures Trace(l, Writes(es + [e])) && Run(l, Writes(es + [e])) == Apply(Run(l, Writes(es)), e.write)
  {
    var m := Run(l, Writes(es));
    assert [e.write][1..] == [];
    assert Trace(m, [e.write]) && Run(m, [e.write]) == Apply(m, e.write);
    RunConcat(l, Writes(es), [e.write]);
    assert Writes(es + [e]) == Writes(es) + [e.write];
  }

  /** One more entry of an account is one more write of its run. */
  lemma FollowsWrite(y: System, z: System, x: System, id: string, e: Entry)
    requires y.log <= z.log && y.log <= x.log && id in y.store.accounts && AccountFollows(y, z, id)
    requires Since(y, x, id) == Since(y, z, id) + [e] && Can(z.store.accounts[id], e.write)
    requires id in x.store.accounts && x.store.accounts[id] == Apply(z.store.accounts[id], e.write)
    ensures AccountFollows(y, x, id)
  {
    OneMore(y.store.accounts[id], Since(y, z, id), e);
  }

  lemma FollowsStep(y: System, z: System, x: System)
    requires Follows(y, z) && StepEffect(z, x)
    ensures Follows(y, x)
  {
    forall id | id in y.store.accounts ensures y.log <= x.log && AccountFollows(y, x, id) {
      SinceGrows(y, z, x, id);
      assert AccountFollows(y, z, id);
      if x.log == z.log {
        assert Since(y, x, id) == Since(y, z, id);
      } else {
        var e := x.log[|z.log|];
        assert x.log == z.log + [e];
        if e.id == id {
          FollowsWrite(y, z, x, id, e);
        } else {
          assert Since(y, x, id) == Since(y, z, id);
        }
      }
    }
  }

  /** Every account of every reachable state is the run of its own logged writes. */
  lemma {:induction false} RunFollows(y: System, actions: seq<Action>)
    ensures Follows(y, Exec(y, actions))
    decreases |actions|
  {
    if actions == [] {
      assert y.log[|y.log|..] == [];
      assert forall id :: id in y.store.accounts ==> Since(y, y, id) == [];
    } else {
      var z := Exec(y, actions[..|actions| - 1]);
      RunFollows(y, actions[..|actions| - 1]);
      StepDoes(z, actions[|actions| - 1]);
      FollowsStep(y, z, Exec(y, actions));
    }
  }

  // ---------------------------------------------------------------- one firing per plan

  function Fires(log: seq<Entry>, plan: string): nat
    decreases |log|
  {
    if log == [] then 0
    else Fires(log[..|log| - 1], plan) + (if log[|log| - 1].source == Some(plan) then 1 else 0)
  }

  /** A plan's compare-and-set is in the log once if it has a restoring receipt, else never. */
  ghost predicate Accounted(y: System) {
    forall plan :: Fires(y.log, plan) ==
      (if plan in y.store.receipts && y.store.receipts[plan].status.Restored? then 1 else 0)
  }

  lemma FiresAppend(log: seq<Entry>, e: Entry, plan: string)
    ensures Fires(log + [e], plan) == Fires(log, plan) + (if e.source == Some(plan) then 1 else 0)
  {
    assert (log + [e])[..|log|] == log;
  }

  lemma LoggedAccounted(y: System, c: Scope, t: Store)
    requires Accounted(y) && Settled(y.store, c, t)
    ensures Accounted(Logged(y, c.plan, t))
  {
    var z := Logged(y, c.plan, t);
    forall plan ensures Fires(z.log, plan) ==
      (if plan in z.store.receipts && z.store.receipts[plan].status.Restored? then 1 else 0)
    {
      if z.log != y.log { FiresAppend(y.log, z.log[|y.log|], plan); }
    }
  }

  lemma StepAccounted(y: System, a: Action)
    requires Accounted(y)
    ensures Accounted(Step(y, a))
  {
    var z := Step(y, a);
    match a
    case CallPrepare(c, now, outcome) =>
    case CallReconcile(c, readOnly, now, outcome) =>
      ReconcileSettles(y.store, c, readOnly, now, outcome);
      LoggedAccounted(y, c, z.store);
    case WriteAccount(id, w) =>
      forall plan ensures Fires(z.log, plan) ==
        (if plan in z.store.receipts && z.store.receipts[plan].status.Restored? then 1 else 0)
      {
        if z != y { FiresAppend(y.log, Entry(id, w, None), plan); }
      }
    case ChangeGraph(g) =>
  }

  /** Across any run the restoring write of a plan happens at most once, and exactly when its
      one receipt exists. */
  lemma {:induction false} FiresOnce(y: System, actions: seq<Action>)
    requires Accounted(y)
    ensures Accounted(Exec(y, actions))
    decreases |actions|
  {
    if actions != [] {
      FiresOnce(y, actions[..|actions| - 1]);
      StepAccounted(Exec(y, actions[..|actions| - 1]), actions[|actions| - 1]);
    }
  }
}
