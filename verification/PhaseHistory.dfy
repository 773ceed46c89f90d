/**
 Which writes lie between a preparation and a reconciled phase: on the primary exactly the
 synthetic disposition and then this plan's own restoration, on the backup nothing or a
 proven refresh. Nothing else can have written either account.
 */
module PhaseHistory {
  import opened Outcomes
  import opened AccountWrites
  import opened RefreshChain
  import opened PhaseRecovery
  import opened PhaseTables
  import opened PhaseRuns
  import opened PhaseSafety

  /** With generation and credential unchanged, every write was a health compare-and-set. */
  lemma {:induction false} DisposeOnly(l: Live, ws: seq<Write>)
    requires Trace(l, ws) && WellFormed(l)
    requires Run(l, ws).row.generation == l.row.generation && Run(l, ws).row.credential == l.row.credential
    ensures Run(l, ws).row.health == l.row.health + |ws|
    ensures forall i :: 0 <= i < |ws| ==> ws[i].Dispose?
    decreases |ws|
  {
    if ws != [] {
      var m := Apply(l, ws[0]);
      HealthCounts(m, ws[1..]);
      VersionsStay(m, ws[1..], l.row.generation);
      DisposeOnly(m, ws[1..]);
    }
  }

  /** One health step to a given state is one write, and that write is known. */
  lemma OneDisposition(l: Live, ws: seq<Write>, state: State, cooldown: Option<int>)
    requires Trace(l, ws) && WellFormed(l)
    requires Run(l, ws).row == l.row.(health := l.row.health + 1, state := state, cooldown := cooldown)
    ensures ws == [Dispose(state, cooldown, l.row.drainingAt, l.row.tombstonedAt)]
  {
    DisposeOnly(l, ws);
    assert ws[1..] == [];
  }

  lemma OneDispositionDoes(l: Live, state: State, cooldown: Option<int>)
    ensures var ws := [Dispose(state, cooldown, l.row.drainingAt, l.row.tombstonedAt)];
      Trace(l, ws) && Run(l, ws).row == l.row.(health := l.row.health + 1, state := state, cooldown := cooldown)
  {
    var ws := [Dispose(state, cooldown, l.row.drainingAt, l.row.tombstonedAt)];
    assert ws[1..] == [];
  }

  // ---------------------------------------------------------------- the log's entries

  lemma {:induction false} OfIsPartOf(log: seq<Entry>, id: string)
    ensures forall i :: 0 <= i < |Of(log, id)| ==> Of(log, id)[i] in log && Of(log, id)[i].id == id
    decreases |log|
  {
    if log != [] {
      OfIsPartOf(log[..|log| - 1], id);
    }
  }

  lemma {:induction false} NoFires(log: seq<Entry>, plan: string)
    requires Fires(log, plan) == 0
    ensures forall i :: 0 <= i < |log| ==> log[i].source != Some(plan)
    decreases |log|
  {
    if log != [] {
      NoFires(log[..|log| - 1], plan);
    }
  }

  lemma SinceUnfired(y: System, z: System, id: string, plan: string)
    requires y.log <= z.log && Fires(z.log, plan) == 0
    ensures forall i :: 0 <= i < |Since(y, z, id)| ==> Since(y, z, id)[i].source != Some(plan) && Since(y, z, id)[i].id == id
  {
    NoFires(z.log, plan);
    OfIsPartOf(z.log[|y.log|..], id);
  }

  // ---------------------------------------------------------------- the restored primary

  /** `y` is the state right after the preparation of the plan. */
  predicate PreparedAt(y: System, c: Scope) {
    && c.plan in y.store.prepared && c.plan !in y.store.receipts
    && y.store.prepared[c.plan].scope == c && PreparedWell(y.store.prepared[c.plan])
    && c.first in y.store.accounts && c.second in y.store.accounts
    && WellFormed(y.store.accounts[c.first]) && WellFormed(y.store.accounts[c.second])
    && y.store.prepared[c.plan].inventory.accounts == RowsOf(y.store, c)
    && InService(y.store.accounts[c.first].row) && InService(y.store.accounts[c.second].row)
  }

  /** Neither draining nor removed. */
  predicate InService(a: Account) { a.drainingAt.None? && a.tombstonedAt.None? }

  /** A preparing transaction that committed leaves such a state. */
  lemma PreparingPrepares(s: Store, log: seq<Entry>, c: Scope, now: int)
    requires Prepare(s, c, now).1.Ok? && c.plan !in s.receipts
    requires forall id :: id in s.accounts ==> WellFormed(s.accounts[id]) && s.accounts[id].row.id == id
    ensures PreparedAt(System(Prepare(s, c, now).0, log), c)
  {
    var t := Prepare(s, c, now).0;
    assert ReadInventory(s, c, now).Ok?;
    var rows := RowsOf(s, c);
    assert rows.Keys == {c.first, c.second};
    assert rows[c.first].state == Healthy && rows[c.second].state == Healthy;
  }

  function Disposition(c: Scope, r: PhaseReceipt): Write {
    Dispose(FailedState(c), r.proof.cooldown, None, None)
  }

  /** The first two entries about the primary: the disposition, then this plan's restoration. */
  predicate DisposedThenRestored(es: seq<Entry>, c: Scope, r: PhaseReceipt) {
    && |es| >= 2 && es[0].write == Disposition(c, r) && es[0].source != Some(c.plan)
    && es[1] == Entry(r.account, Dispose(Healthy, None, None, None), Some(c.plan))
  }

  predicate RestoredInOrder(y: System, z: System, c: Scope)
    requires y.log <= z.log
  {
    c.plan in z.store.receipts && !c.phase.Dropped? ==>
      DisposedThenRestored(Since(y, z, z.store.receipts[c.plan].account), c, z.store.receipts[c.plan])
  }

  lemma SettlingSees(s: Store, c: Scope, readOnly: bool, p: Preparation, f: Findings)
    requires p.scope == c && PreparedWell(p) && c.first in s.accounts && c.second in s.accounts
    requires c.plan !in s.receipts && !c.phase.Dropped?
    requires f.proof.primary in {c.first, c.second} && f.inventory.accounts == RowsOf(s, c)
    requires f.refresh.Some? ==> f.refresh.value.id == Backup(c, f.proof.primary)
    requires c.plan in SettleRows(s, c, readOnly, p, f).0.receipts
    ensures var r := SettleRows(s, c, readOnly, p, f).0.receipts[c.plan];
      var a := p.inventory.accounts[f.proof.primary];
      && r.account == f.proof.primary && r.status.Restored? && r.proof == f.proof
      && s.accounts[r.account].row ==
           a.(health := a.health + 1, state := FailedState(c), cooldown := r.proof.cooldown)
  {
    DeltaRows(s, c, p.inventory.accounts, f.refresh, f.proof.primary, 1, FailedState(c), f.proof.cooldown);
  }

  lemma FiringSettles(s: Store, c: Scope, readOnly: bool, now: int, outcome: Outcome)
    requires c.plan !in s.receipts && c.plan in Transact(s, Reconcile(s, c, readOnly, now), outcome).0.receipts
    ensures Examine(s, c, now).Ok? && c.plan in s.prepared
    ensures var f, p := Examine(s, c, now).value, s.prepared[c.plan];
      && f.proof.primary in p.inventory.accounts && f.proof.primary in s.accounts
      && Transact(s, Reconcile(s, c, readOnly, now), outcome).0 == SettleRows(s, c, readOnly, p, f).0
  {}

  /** What the firing transaction saw: the primary one health step past its preparation. */
  lemma FiringSees(s: Store, c: Scope, readOnly: bool, now: int, outcome: Outcome)
    requires c.plan in s.prepared && PreparedWell(s.prepared[c.plan]) && c.plan !in s.receipts && !c.phase.Dropped?
    requires c.first in s.accounts && c.second in s.accounts
    requires s.accounts[c.first].row.id == c.first && s.accounts[c.second].row.id == c.second
    requires c.plan in Transact(s, Reconcile(s, c, readOnly, now), outcome).0.receipts
    ensures var r := Transact(s, Reconcile(s, c, readOnly, now), outcome).0.receipts[c.plan];
      var before := s.prepared[c.plan].inventory.accounts;
      && r.account in {c.first, c.second} && r.status.Restored? && r.account in before
      && s.accounts[r.account].row ==
           before[r.account].(health := before[r.account].health + 1, state := FailedState(c), cooldown := r.proof.cooldown)
  {
    FiringSettles(s, c, readOnly, now, outcome);
    Examined(s, c, now);
    RefreshIsBackups(s, c, now);
    SettlingSees(s, c, readOnly, s.prepared[c.plan], Examine(s, c, now).value);
  }

  /** The entries about the primary when its compare-and-set fires. */
  lemma FirstEntries(y: System, z: System, c: Scope, r: PhaseReceipt)
    requires PreparedAt(y, c) && Follows(y, z) && Fires(z.log, c.plan) == 0
    requires r.account in {c.first, c.second}
    requires var a := y.store.accounts[r.account].row;
      z.store.accounts[r.account].row ==
        a.(health := a.health + 1, state := FailedState(c), cooldown := r.proof.cooldown)
    ensures var es := Since(y, z, r.account); var a := y.store.accounts[r.account].row;
      && |es| == 1 && es[0].source != Some(c.plan)
      && es[0].write == Dispose(FailedState(c), r.proof.cooldown, a.drainingAt, a.tombstonedAt)
  {
    var l, es := y.store.accounts[r.account], Since(y, z, r.account);
    assert AccountFollows(y, z, r.account);
    OneDisposition(l, Writes(es), FailedState(c), r.proof.cooldown);
    SinceUnfired(y, z, r.account, c.plan);
  }

  lemma FiringInOrder(y: System, z: System, c: Scope, readOnly: bool, now: int, outcome: Outcome)
    requires PreparedAt(y, c) && Follows(y, z) && Accounted(z) && c.plan !in z.store.receipts
    requires !c.phase.Dropped?
    requires c.plan in Step(z, CallReconcile(c, readOnly, now, outcome)).store.receipts
    ensures y.log <= Step(z, CallReconcile(c, readOnly, now, outcome)).log
    ensures RestoredInOrder(y, Step(z, CallReconcile(c, readOnly, now, outcome)), c)
  {
    var t := Transact(z.store, Reconcile(z.store, c, readOnly, now), outcome).0;
    AccountsKept(y, z, c);
    FiringSees(z.store, c, readOnly, now, outcome);
    var r := t.receipts[c.plan];
    FirstEntries(y, z, c, r);
    LoggedInOrder(y, z, c, t);
  }

  /** The prepared accounts are still there, under their own ids. */
  lemma AccountsKept(y: System, z: System, c: Scope)
    requires PreparedAt(y, c) && Follows(y, z)
    ensures c.first in z.store.accounts && z.store.accounts[c.first].row.id == c.first
    ensures c.second in z.store.accounts && z.store.accounts[c.second].row.id == c.second
    ensures c.plan in z.store.prepared && z.store.prepared[c.plan] == y.store.prepared[c.plan]
  {
    assert AccountFollows(y, z, c.first) && AccountFollows(y, z, c.second);
    assert y.store.prepared[c.plan].inventory.accounts[c.first] == y.store.accounts[c.first].row;
    assert y.store.prepared[c.plan].inventory.accounts[c.second] == y.store.accounts[c.second].row;
    HealthCounts(y.store.accounts[c.first], Writes(Since(y, z, c.first)));
    HealthCounts(y.store.accounts[c.second], Writes(Since(y, z, c.second)));
  }

  lemma LoggedInOrder(y: System, z: System, c: Scope, t: Store)
    requires y.log <= z.log && c.plan !in z.store.receipts && c.plan in t.receipts && !c.phase.Dropped?
    requires var r := t.receipts[c.plan];
      && r.status.Restored? && r.account in z.store.accounts && |Since(y, z, r.account)| == 1
      && Since(y, z, r.account)[0].write == Disposition(c, r) && Since(y, z, r.account)[0].source != Some(c.plan)
      && z.store.accounts[r.account].row.drainingAt.None? && z.store.accounts[r.account].row.tombstonedAt.None?
    ensures y.log <= Logged(z, c.plan, t).log && RestoredInOrder(y, Logged(z, c.plan, t), c)
  {
    var r := t.receipts[c.plan];
    var x := Logged(z, c.plan, t);
    SinceGrows(y, z, x, r.account);
    var e := Entry(r.account, CasWrite(z.store.accounts[r.account]), Some(c.plan));
    assert x.log == z.log + [e];
  }

  /** Once restored in order, later steps only add entries. */
  lemma OrderKept(y: System, z: System, x: System, c: Scope)
    requires y.log <= z.log && StepEffect(z, x) && c.plan in z.store.receipts && RestoredInOrder(y, z, c)
    ensures y.log <= x.log && RestoredInOrder(y, x, c)
  {
    SinceGrows(y, z, x, z.store.receipts[c.plan].account);
    if x.log != z.log { assert x.log == z.log + [x.log[|z.log|]]; }
  }

  lemma InOrderStep(y: System, z: System, a: Action, c: Scope)
    requires PreparedAt(y, c) && Follows(y, z) && Accounted(z) && RestoredInOrder(y, z, c)
    ensures y.log <= Step(z, a).log && RestoredInOrder(y, Step(z, a), c)
  {
    var x := Step(z, a);
    StepDoes(z, a);
    if c.plan in z.store.receipts {
      OrderKept(y, z, x, c);
    } else if c.plan in x.store.receipts && !c.phase.Dropped? {
      FirstReceipt(y, z, a, c);
      FiringInOrder(y, z, c, a.readOnly, a.now, a.outcome);
    }
  }

  lemma PreparingKeepsReceipts(s: Store, c: Scope, now: int, outcome: Outcome)
    ensures Transact(s, Prepare(s, c, now), outcome).0.receipts == s.receipts
  {}

  lemma SettledPlan(s: Store, c: Scope, t: Store, plan: string)
    requires Settled(s, c, t) && plan !in s.receipts && plan in t.receipts
    ensures plan == c.plan && plan in s.prepared && s.prepared[plan].scope == c
  {}

  /** Only a reconciling transaction of the prepared scope writes a plan's receipt. */
  lemma FirstReceipt(y: System, z: System, a: Action, c: Scope)
    requires PreparedAt(y, c) && Follows(y, z) && c.plan !in z.store.receipts && c.plan in Step(z, a).store.receipts
    ensures a.CallReconcile? && a.scope == c
  {
    if a.CallReconcile? {
      ReconcileSettles(z.store, a.scope, a.readOnly, a.now, a.outcome);
      SettledPlan(z.store, a.scope, Step(z, a).store, c.plan);
    } else if a.CallPrepare? {
      PreparingKeepsReceipts(z.store, a.scope, a.now, a.outcome);
    }
  }

  lemma {:induction false} RunInOrder(y: System, actions: seq<Action>, c: Scope)
    requires PreparedAt(y, c) && Accounted(y)
    ensures y.log <= Exec(y, actions).log && RestoredInOrder(y, Exec(y, actions), c)
    decreases |actions|
  {
    if actions != [] {
      var before := actions[..|actions| - 1];
      RunInOrder(y, before, c);
      RunFollows(y, before);
      FiresOnce(y, before);
      InOrderStep(y, Exec(y, before), actions[|actions| - 1], c);
    }
  }

  // ---------------------------------------------------------------- the whole history

  /** The history a reconciled phase can have had. */
  predicate OnlyHistory(y: System, x: System, c: Scope, r: PhaseReceipt)
    requires PreparedAt(y, c) && y.log <= x.log && r.account in {c.first, c.second}
  {
    var primary, backup := Since(y, x, r.account), Since(y, x, Backup(c, r.account));
    var p := y.store.prepared[c.plan];
    && (if c.phase.Dropped? then primary == []
        else |primary| == 2 && DisposedThenRestored(primary, c, r))
    && (backup == [] ||
        (!c.phase.Dropped? && |r.proof.grant.attempts| == 2
         && OnlyRefreshes(Writes(backup), y.store.accounts[Backup(c, r.account)], p.createdAt,
                          r.proof.grant.attempts[1].createdAt)))
  }

  /** The number of writes on the primary is the health it gained. */
  lemma PrimaryCount(y: System, x: System, c: Scope, r: PhaseReceipt)
    requires PreparedAt(y, c) && Follows(y, x) && AsPrepared(x.store, y.store.prepared[c.plan], r)
    ensures r.account in {c.first, c.second} && |Since(y, x, r.account)| == if c.phase.Dropped? then 0 else 2
  {
    var l, ws := y.store.accounts[r.account], Writes(Since(y, x, r.account));
    assert y.store.prepared[c.plan].inventory.accounts[r.account] == l.row;
    assert AccountFollows(y, x, r.account);
    DisposeOnly(l, ws);
  }

  lemma BackupHistory(y: System, x: System, c: Scope, now: int)
    requires PreparedAt(y, c) && Follows(y, x) && Examine(x.store, c, now).Ok?
    requires var f := Examine(x.store, c, now).value; var b := Backup(c, f.proof.primary);
      f.refresh.None? && b in x.store.accounts ==>
        x.store.accounts[b].row == y.store.prepared[c.plan].inventory.accounts[b]
    ensures var f := Examine(x.store, c, now).value; var b := Backup(c, f.proof.primary);
      var p := y.store.prepared[c.plan];
      Since(y, x, b) == [] ||
        (!c.phase.Dropped? && |f.proof.grant.attempts| == 2
         && OnlyRefreshes(Writes(Since(y, x, b)), y.store.accounts[b], p.createdAt, f.proof.grant.attempts[1].createdAt))
  {
    var f := Examine(x.store, c, now).value;
    Examined(x.store, c, now);
    RefreshIsBackups(x.store, c, now);
    var b := Backup(c, f.proof.primary);
    var p := y.store.prepared[c.plan];
    assert AccountFollows(y, x, b) && x.store.prepared[c.plan] == p;
    var l, ws := y.store.accounts[b], Writes(Since(y, x, b));
    assert p.inventory.accounts[b] == l.row;
    if f.refresh.None? {
      UnchangedMeansUnwritten(l, ws);
    } else {
      TwoAttempts(x.store, c, now);
      RefreshProven(l, ws, p.createdAt, f.proof.grant.attempts[1].createdAt);
    }
  }

  lemma TwoAttempts(s: Store, c: Scope, now: int)
    requires Examine(s, c, now).Ok? && !c.phase.Dropped?
    ensures |Examine(s, c, now).value.proof.grant.attempts| == 2
  {
    assert PhaseProof(s, c, s.prepared[c.plan].createdAt, now).Ok?;
  }

  /** What a reconciliation settles, in terms of what it examined. */
  lemma SettledKeeps(s: Store, c: Scope, readOnly: bool, p: Preparation, f: Findings)
    requires f.proof.primary in p.inventory.accounts && f.proof.primary in s.accounts
    requires SettleRows(s, c, readOnly, p, f).1.Ok?
    ensures var (t, r) := SettleRows(s, c, readOnly, p, f);
      && r.value.account == f.proof.primary && r.value.proof == f.proof && r.value.refresh == f.refresh
      && forall id :: id in s.accounts && id != f.proof.primary ==> id in t.accounts && t.accounts[id] == s.accounts[id]
  {}

  lemma ExamineKept(z: System, x: System, c: Scope, readOnly: bool, now: int)
    requires x == Step(z, CallReconcile(c, readOnly, now, Commit)) && Reconcile(z.store, c, readOnly, now).1.Ok?
    ensures Examine(z.store, c, now).Ok?
    ensures var f := Examine(z.store, c, now).value;
      && Reconcile(z.store, c, readOnly, now).1.value.account == f.proof.primary
      && Reconcile(z.store, c, readOnly, now).1.value.proof == f.proof
      && Reconcile(z.store, c, readOnly, now).1.value.refresh == f.refresh
      && forall id :: id in z.store.accounts && id != f.proof.primary ==>
           id in x.store.accounts && x.store.accounts[id] == z.store.accounts[id]
  {
    ReconcileIsSettling(z.store, c, readOnly, now);
    SettledKeeps(z.store, c, readOnly, z.store.prepared[c.plan], Examine(z.store, c, now).value);
    LoggedPrimary(z, c, readOnly, now);
  }

  /** The step of a reconciliation leaves other accounts' histories alone. */
  lemma BackupUntouched(y: System, z: System, x: System, c: Scope, primary: string, id: string)
    requires y.log <= z.log && StepEffect(z, x) && id != primary
    requires x.log == z.log || x.log[|z.log|].id == primary
    ensures y.log <= x.log && Since(y, x, id) == Since(y, z, id)
  {
    SinceGrows(y, z, x, id);
    if x.log != z.log { assert x.log == z.log + [x.log[|z.log|]]; }
  }

  lemma LoggedPrimary(z: System, c: Scope, readOnly: bool, now: int)
    requires Reconcile(z.store, c, readOnly, now).1.Ok?
    ensures var x := Step(z, CallReconcile(c, readOnly, now, Commit));
      z.log <= x.log && (x.log == z.log || x.log[|z.log|].id == Reconcile(z.store, c, readOnly, now).1.value.account)
      && x.store == Reconcile(z.store, c, readOnly, now).0
  {}

  /**
   Exactly once: after a committed preparation and any run of calls, writes and failures, if a
   reconciliation returns normally then the primary was written by the synthetic disposition
   and by this plan's restoration, in that order and by nothing else (not at all for a dropped
   response), and the backup not at all or by a proven refresh.
   */
  lemma ExactlyOnce(y: System, actions: seq<Action>, c: Scope, readOnly: bool, now: int)
    requires PreparedAt(y, c) && Accounted(y)
    requires Reconcile(Exec(y, actions).store, c, readOnly, now).1.Ok?
    ensures var z := Exec(y, actions);
      var x := Step(z, CallReconcile(c, readOnly, now, Commit));
      var r := Reconcile(z.store, c, readOnly, now).1.value;
      && y.log <= x.log && r.account in {c.first, c.second} && OnlyHistory(y, x, c, r)
      && AsPrepared(x.store, y.store.prepared[c.plan], r)
  {
    var z := Exec(y, actions);
    var a := CallReconcile(c, readOnly, now, Commit);
    var x := Step(z, a);
    RunFollows(y, actions);
    FiresOnce(y, actions);
    RunInOrder(y, actions, c);
    StepDoes(z, a);
    FollowsStep(y, z, x);
    InOrderStep(y, z, a, c);
    AccountsKept(y, z, c);
    NormalReturn(z.store, c, readOnly, now);
    LoggedPrimary(z, c, readOnly, now);
    ExamineKept(z, x, c, readOnly, now);
    var r := Reconcile(z.store, c, readOnly, now).1.value;
    PrimaryCount(y, x, c, r);
    BackupHistory(y, z, c, now);
    BackupUntouched(y, z, x, c, r.account, Backup(c, r.account));
  }

  // ---------------------------------------------------------------- when a phase can be reconciled

  /** Everything a first reconciliation needs besides the two accounts' histories. */
  predicate Due(y: System, z: System, c: Scope, now: int)
    requires PreparedAt(y, c)
  {
    var p := y.store.prepared[c.plan];
    && ValidScope(c) && c.plan !in z.store.receipts && c.plan in z.store.prepared && z.store.prepared[c.plan] == p
    && InventoryReadable(z.store, c, now)
    && p.workspace == p.inventory.workspace
    && ReadInventory(z.store, c, now).value.(accounts := map[]) == p.inventory.(accounts := map[])
    && NoPendingEffects(z.store.graph, if c.phase.Dropped? && |z.store.graph.grants| == 1 then Some(z.store.graph.grants[0].id)
                                       else None)
    && PhaseProof(z.store, c, p.createdAt, now).Ok?
    && var proof := PhaseProof(z.store, c, p.createdAt, now).value;
       && GenerationsMatch(z.store, p, proof)
  }

  /** The effects ran on the prepared primary generation and on the backup's present one. */
  predicate GenerationsMatch(s: Store, p: Preparation, proof: Proof) {
    var effects := proof.grant.attempts;
    && proof.primary in p.inventory.accounts && |effects| >= 1
    && effects[0].generation == p.inventory.accounts[proof.primary].generation
    && (|effects| >= 2 ==>
          effects[1].account in s.accounts && effects[1].generation == s.accounts[effects[1].account].row.generation)
  }

  function DueProof(y: System, z: System, c: Scope, now: int): Proof
    requires PreparedAt(y, c) && Due(y, z, c, now)
  {
    PhaseProof(z.store, c, y.store.prepared[c.plan].createdAt, now).value
  }

  /** What a proven phase says about its grant. */
  lemma ProofTerms(s: Store, c: Scope, preparedAt: int, now: int)
    requires c.first in s.accounts && c.second in s.accounts && PhaseProof(s, c, preparedAt, now).Ok?
    ensures var proof := PhaseProof(s, c, preparedAt, now).value;
      && proof.primary in {c.first, c.second} && (!c.phase.RateLimited? ==> proof.cooldown.None?)
      && |proof.grant.attempts| == (if c.phase.Dropped? then 1 else 2)
      && (|proof.grant.attempts| == 2 ==> proof.grant.attempts[1].account == Backup(c, proof.primary))
  {}

  /** The histories that a first reconciliation accepts. */
  predicate DueHistory(y: System, z: System, c: Scope, proof: Proof)
    requires PreparedAt(y, c) && y.log <= z.log
  {
    var primary, backup := Writes(Since(y, z, proof.primary)), Writes(Since(y, z, Backup(c, proof.primary)));
    if c.phase.Dropped? then primary == [] && backup == []
    else
      && primary == [Dispose(FailedState(c), proof.cooldown, None, None)]
      && (backup == [] ||
          (|proof.grant.attempts| == 2
           && OnlyRefreshes(backup, y.store.accounts[Backup(c, proof.primary)], y.store.prepared[c.plan].createdAt,
                            proof.grant.attempts[1].createdAt)))
  }

  /** The backup check, once the generations match, is the refresh check on the backup. */
  lemma BackupFound(s: Store, p: Preparation, proof: Proof)
    requires GenerationsMatch(s, p, proof) && |proof.grant.attempts| == 2
    requires proof.grant.attempts[1].account in p.inventory.accounts
    ensures var b := proof.grant.attempts[1].account;
      BackupRefresh(s, p.inventory, proof, p.createdAt) ==
        Verdict(p.inventory.accounts[b], s.accounts[b].row, s.accounts[b].versions, s.accounts[b].row.generation,
                p.createdAt, proof.grant.attempts[1].createdAt)
  {}

  lemma VerdictIsCurrent(before: Account, current: Account, versions: map<nat, Version>, preparedAt: int, limit: int)
    ensures var found := Verdict(before, current, versions, current.generation, preparedAt, limit);
      && (found.Ok? && found.value.Some? ==> found == Ok(Some(current)))
      && (current == before ==> found == Ok(None))
  {}

  /** What the backup check finds, and whether the backup then matches, in terms of its writes. */
  lemma BackupDue(y: System, z: System, c: Scope, p: Preparation, proof: Proof, b: string)
    requires PreparedAt(y, c) && Follows(y, z) && p == y.store.prepared[c.plan] && b in {c.first, c.second}
    requires GenerationsMatch(z.store, p, proof) && |proof.grant.attempts| == 2 && proof.grant.attempts[1].account == b
    ensures var ws := Writes(Since(y, z, b)); var found := BackupRefresh(z.store, p.inventory, proof, p.createdAt);
      && b in z.store.accounts && b in p.inventory.accounts
      && ((found == Ok(None) && z.store.accounts[b].row == p.inventory.accounts[b]) <==> ws == [])
      && (found == Ok(Some(z.store.accounts[b].row)) <==>
          OnlyRefreshes(ws, y.store.accounts[b], p.createdAt, proof.grant.attempts[1].createdAt))
      && (found.Ok? && found.value.Some? ==> found == Ok(Some(z.store.accounts[b].row)))
  {
    assert AccountFollows(y, z, b) && p.inventory.accounts[b] == y.store.accounts[b].row;
    var l, m, ws, limit := y.store.accounts[b], z.store.accounts[b], Writes(Since(y, z, b)), proof.grant.attempts[1].createdAt;
    BackupFound(z.store, p, proof);
    VerdictIsCurrent(l.row, m.row, m.versions, p.createdAt, limit);
    UnchangedMeansUnwritten(l, ws);
    RefreshProven(l, ws, p.createdAt, limit);
  }

  /** The primary's row is as a first reconciliation expects it. */
  predicate PrimaryMoved(s: Store, c: Scope, p: Preparation, proof: Proof) {
    && proof.primary in s.accounts && proof.primary in p.inventory.accounts
    && var a := p.inventory.accounts[proof.primary];
       s.accounts[proof.primary].row ==
         if c.phase.Dropped? then a else a.(health := a.health + 1, state := FailedState(c), cooldown := proof.cooldown)
  }

  predicate BackupAsFound(s: Store, p: Preparation, b: string, refresh: Option<Account>) {
    && b in s.accounts && b in p.inventory.accounts
    && s.accounts[b].row == if refresh.Some? then refresh.value else p.inventory.accounts[b]
  }

  predicate RowsMoved(s: Store, c: Scope, p: Preparation, proof: Proof, refresh: Option<Account>) {
    PrimaryMoved(s, c, p, proof) && BackupAsFound(s, p, Backup(c, proof.primary), refresh)
  }

  /** The backup check passes and the backup matches it exactly for no writes or a proven refresh. */
  lemma BackupMatches(y: System, z: System, c: Scope, p: Preparation, proof: Proof, b: string)
    requires PreparedAt(y, c) && Follows(y, z) && p == y.store.prepared[c.plan] && b in {c.first, c.second}
    requires GenerationsMatch(z.store, p, proof) && |proof.grant.attempts| == 2 && proof.grant.attempts[1].account == b
    ensures var ws := Writes(Since(y, z, b)); var found := BackupRefresh(z.store, p.inventory, proof, p.createdAt);
      (found.Ok? && BackupAsFound(z.store, p, b, found.value))
        <==> ws == [] || OnlyRefreshes(ws, y.store.accounts[b], p.createdAt, proof.grant.attempts[1].createdAt)
  {
    BackupDue(y, z, c, p, proof, b);
  }

  lemma PrimaryMatches(y: System, z: System, c: Scope, p: Preparation, proof: Proof)
    requires PreparedAt(y, c) && Follows(y, z) && p == y.store.prepared[c.plan] && proof.primary in {c.first, c.second}
    ensures PrimaryMoved(z.store, c, p, proof) <==>
      Writes(Since(y, z, proof.primary)) ==
        if c.phase.Dropped? then [] else [Dispose(FailedState(c), proof.cooldown, None, None)]
  {
    PrimaryDue(y, z, c, proof.primary, proof.cooldown);
  }

  lemma DroppedDue(s: Store, p: Preparation, proof: Proof)
    requires GenerationsMatch(s, p, proof) && |proof.grant.attempts| == 1
    ensures BackupRefresh(s, p.inventory, proof, p.createdAt) == Ok(None)
  {}

  lemma PrimaryDue(y: System, z: System, c: Scope, primary: string, cooldown: Option<int>)
    requires PreparedAt(y, c) && Follows(y, z) && primary in {c.first, c.second}
    ensures var a, ws := y.store.accounts[primary].row, Writes(Since(y, z, primary));
      && primary in z.store.accounts && (z.store.accounts[primary].row == a <==> ws == [])
      && (ws == [Dispose(FailedState(c), cooldown, None, None)] <==>
          z.store.accounts[primary].row == a.(health := a.health + 1, state := FailedState(c), cooldown := cooldown))
  {
    var l, ws := y.store.accounts[primary], Writes(Since(y, z, primary));
    assert AccountFollows(y, z, primary);
    UnchangedMeansUnwritten(l, ws);
    OneDispositionDoes(l, FailedState(c), cooldown);
    if z.store.accounts[primary].row == l.row.(health := l.row.health + 1, state := FailedState(c), cooldown := cooldown) {
      OneDisposition(l, ws, FailedState(c), cooldown);
    }
  }

  lemma DueExamined(y: System, z: System, c: Scope, now: int)
    requires PreparedAt(y, c) && Due(y, z, c, now)
    ensures var p, proof := y.store.prepared[c.plan], DueProof(y, z, c, now);
      var found := BackupRefresh(z.store, p.inventory, proof, p.createdAt);
      Examine(z.store, c, now) ==
        if found.Ok? then Ok(Findings(ReadInventory(z.store, c, now).value, proof, found.value)) else Err(found.error)
  {}

  /** Settling a first reconciliation succeeds exactly when the rows moved as expected. */
  lemma SettlesWhen(s: Store, c: Scope, p: Preparation, f: Findings)
    requires p.scope == c && PreparedWell(p) && c.first in s.accounts && c.second in s.accounts
    requires c.plan !in s.receipts && f.proof.primary in {c.first, c.second} && f.inventory.accounts == RowsOf(s, c)
    requires f.refresh.Some? ==> f.refresh.value.id == Backup(c, f.proof.primary)
    requires InService(s.accounts[f.proof.primary].row) && (c.phase.Dropped? ==> f.proof.cooldown.None?)
    ensures SettleRows(s, c, false, p, f).1.Ok? <==> RowsMoved(s, c, p, f.proof, f.refresh)
  {
    var before := p.inventory.accounts;
    DeltaRows(s, c, before, f.refresh, f.proof.primary, 1, FailedState(c), f.proof.cooldown);
    DeltaRows(s, c, before, f.refresh, f.proof.primary, 0, Healthy, f.proof.cooldown);
  }

  lemma DueSettles(y: System, z: System, c: Scope, now: int, f: Findings)
    requires PreparedAt(y, c) && Due(y, z, c, now) && Examine(z.store, c, now) == Ok(f)
    requires f.proof.primary in {c.first, c.second}
    ensures Reconcile(z.store, c, false, now) == SettleRows(z.store, c, false, y.store.prepared[c.plan], f)
  {}

  /** A due phase is reconciled exactly when the backup check passes and the rows moved. */
  lemma DueReconciles(y: System, z: System, c: Scope, now: int)
    requires PreparedAt(y, c) && Follows(y, z) && Due(y, z, c, now)
    ensures c.first in z.store.accounts && c.second in z.store.accounts
    ensures var p, proof := y.store.prepared[c.plan], DueProof(y, z, c, now);
      var found := BackupRefresh(z.store, p.inventory, proof, p.createdAt);
      && proof.primary in {c.first, c.second}
      && (Reconcile(z.store, c, false, now).1.Ok? <==> found.Ok? && RowsMoved(z.store, c, p, proof, found.value))
  {
    var p, proof := y.store.prepared[c.plan], DueProof(y, z, c, now);
    var found := BackupRefresh(z.store, p.inventory, proof, p.createdAt);
    AccountsKept(y, z, c);
    ProofTerms(z.store, c, p.createdAt, now);
    DueExamined(y, z, c, now);
    if found.Ok? {
      var f := Findings(ReadInventory(z.store, c, now).value, proof, found.value);
      RefreshIsBackups(z.store, c, now);
      SettlesWhen(z.store, c, p, f);
      DueSettles(y, z, c, now, f);
    }
  }

  /** The rows of a due phase moved as expected exactly for the histories accepted. */
  lemma DroppedRows(y: System, z: System, c: Scope, p: Preparation, proof: Proof)
    requires PreparedAt(y, c) && Follows(y, z) && p == y.store.prepared[c.plan] && c.phase.Dropped?
    requires proof.primary in {c.first, c.second} && GenerationsMatch(z.store, p, proof) && |proof.grant.attempts| == 1
    requires c.first in z.store.accounts && c.second in z.store.accounts
    ensures var found := BackupRefresh(z.store, p.inventory, proof, p.createdAt);
      (found.Ok? && RowsMoved(z.store, c, p, proof, found.value)) <==> DueHistory(y, z, c, proof)
  {
    DroppedDue(z.store, p, proof);
    PrimaryDue(y, z, c, Backup(c, proof.primary), None);
    PrimaryMatches(y, z, c, p, proof);
  }

  lemma RestoredRows(y: System, z: System, c: Scope, p: Preparation, proof: Proof)
    requires PreparedAt(y, c) && Follows(y, z) && p == y.store.prepared[c.plan] && !c.phase.Dropped?
    requires proof.primary in {c.first, c.second} && GenerationsMatch(z.store, p, proof)
    requires |proof.grant.attempts| == 2 && proof.grant.attempts[1].account == Backup(c, proof.primary)
    requires c.first in z.store.accounts && c.second in z.store.accounts
    ensures var found := BackupRefresh(z.store, p.inventory, proof, p.createdAt);
      (found.Ok? && RowsMoved(z.store, c, p, proof, found.value)) <==> DueHistory(y, z, c, proof)
  {
    BackupMatches(y, z, c, p, proof, Backup(c, proof.primary));
    PrimaryMatches(y, z, c, p, proof);
  }

  /**
   A due phase is reconciled exactly when the primary's only write was the synthetic disposition
   and the backup's writes, if any, were a proven refresh; a dropped one exactly when neither
   account was written.
   */
  lemma ReconciledExactlyWhen(y: System, z: System, c: Scope, now: int)
    requires PreparedAt(y, c) && Follows(y, z) && Due(y, z, c, now)
    ensures Reconcile(z.store, c, false, now).1.Ok? <==> DueHistory(y, z, c, DueProof(y, z, c, now))
  {
    var p, proof := y.store.prepared[c.plan], DueProof(y, z, c, now);
    DueReconciles(y, z, c, now);
    ProofTerms(z.store, c, p.createdAt, now);
    if c.phase.Dropped? {
      DroppedRows(y, z, c, p, proof);
    } else {
      RestoredRows(y, z, c, p, proof);
    }
  }
}
