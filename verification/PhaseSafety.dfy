/**
 What a reconciled phase guarantees: the accounts it leaves, that repeating it writes nothing
 and answers the same, and exactly which writes the two accounts can have seen.
 */
module PhaseSafety {
  import opened Outcomes
  import opened AccountWrites
  import opened RefreshChain
  import opened PhaseRecovery
  import opened PhaseTables
  import opened PhaseRuns

  function Backup(c: Scope, primary: string): string {
    if primary == c.first then c.second else c.first
  }

  // ---------------------------------------------------------------- what was examined

  /** The examination's findings, in terms of the rows. */
  lemma Examined(s: Store, c: Scope, now: int)
    requires Examine(s, c, now).Ok?
    ensures var f := Examine(s, c, now).value; var p := s.prepared[c.plan];
      && c.plan in s.prepared && p.scope == c && InventoryReadable(s, c, now)
      && f.inventory.accounts == RowsOf(s, c) && p.inventory == f.inventory.(accounts := p.inventory.accounts)
      && f.proof.grant == s.graph.grants[0] && f.proof.primary == f.proof.grant.primary
      && f.proof.primary in {c.first, c.second} && f.proof.grant.backup == Some(Backup(c, f.proof.primary))
      && f.proof.grant.expiresAt > now && (!c.phase.RateLimited? ==> f.proof.cooldown.None?)
  {
    assert ReadInventory(s, c, now).Ok?;
    assert PhaseProof(s, c, s.prepared[c.plan].createdAt, now).Ok?;
  }

  /** The refresh that was proven, if any, is the backup account's own. */
  lemma RefreshIsBackups(s: Store, c: Scope, now: int)
    requires Examine(s, c, now).Ok?
    ensures var f := Examine(s, c, now).value; var p := s.prepared[c.plan]; var b := Backup(c, f.proof.primary);
      f.refresh.Some? ==>
        && !c.phase.Dropped? && b in p.inventory.accounts && b in s.accounts && f.refresh == Some(s.accounts[b].row)
        && Verdict(p.inventory.accounts[b], s.accounts[b].row, s.accounts[b].versions, s.accounts[b].row.generation,
                   p.createdAt, f.proof.grant.attempts[1].createdAt) == Ok(Some(s.accounts[b].row))
  {
    assert PhaseProof(s, c, s.prepared[c.plan].createdAt, now).Ok?;
    assert BackupRefresh(s, s.prepared[c.plan].inventory, Examine(s, c, now).value.proof, s.prepared[c.plan].createdAt).Ok?;
  }

  // ---------------------------------------------------------------- the rows of a normal return

  /** The accounts a normal return promises: the primary back as prepared with its health
      counted on, the backup as prepared or as its proven refresh left it. */
  predicate AsPrepared(t: Store, p: Preparation, r: PhaseReceipt) {
    var c := p.scope;
    var b := Backup(c, r.account);
    && p.inventory.accounts.Keys == {c.first, c.second} && r.account in {c.first, c.second}
    && c.first in t.accounts && c.second in t.accounts
    && t.accounts[r.account].row == p.inventory.accounts[r.account].(
         health := p.inventory.accounts[r.account].health + (if c.phase.Dropped? then 0 else 2),
         state := Healthy, cooldown := None)
    && t.accounts[b].row == (if r.refresh.Some? then r.refresh.value else p.inventory.accounts[b])
  }

  /** The preparation of a plan holds the two accounts of its scope, healthy. */
  predicate PreparedWell(p: Preparation) {
    var c := p.scope;
    && c.first != c.second && p.inventory.accounts.Keys == {c.first, c.second}
    && p.inventory.accounts[c.first].state == Healthy && p.inventory.accounts[c.second].state == Healthy
    && p.inventory.accounts[c.first].cooldown.None? && p.inventory.accounts[c.second].cooldown.None?
    && p.inventory.accounts[c.first].id == c.first && p.inventory.accounts[c.second].id == c.second
  }

  lemma DeltaRows(s: Store, c: Scope, before: map<string, Account>, refresh: Option<Account>, primary: string,
                  delta: nat, state: State, cooldown: Option<int>)
    requires c.first in s.accounts && c.second in s.accounts && c.first != c.second
    requires before.Keys == {c.first, c.second} && primary in {c.first, c.second}
    requires refresh.Some? ==> refresh.value.id == Backup(c, primary)
    ensures AccountDelta(Expected(before, refresh), RowsOf(s, c), primary, delta, state, cooldown) <==>
      && s.accounts[primary].row == before[primary].(health := before[primary].health + delta, state := state, cooldown := cooldown)
      && s.accounts[Backup(c, primary)].row == (if refresh.Some? then refresh.value else before[Backup(c, primary)])
  {
    var b, e, rows := Backup(c, primary), Expected(before, refresh), RowsOf(s, c);
    var moved := e[primary].(health := e[primary].health + delta, state := state, cooldown := cooldown);
    assert e.Keys == {c.first, c.second} && |e.Keys| == 2;
    assert rows.Keys == {c.first, c.second} && rows[primary] == s.accounts[primary].row && rows[b] == s.accounts[b].row;
    if rows[primary] == moved && rows[b] == e[b] {
      assert rows == e[primary := moved];
    }
    if rows == e[primary := moved] {
      assert rows[primary] == moved && rows[b] == e[b];
    }
  }

  /** A receipt found again: the rows are already as promised. */
  lemma FoundAgain(s: Store, c: Scope, p: Preparation, f: Findings)
    requires p.scope == c && PreparedWell(p) && c.first in s.accounts && c.second in s.accounts
    requires f.proof.primary in {c.first, c.second} && f.inventory.accounts == RowsOf(s, c)
    requires f.refresh.Some? ==> f.refresh.value.id == Backup(c, f.proof.primary)
    requires AccountDelta(Expected(p.inventory.accounts, f.refresh), f.inventory.accounts, f.proof.primary,
                          if c.phase.Dropped? then 0 else 2, Healthy, None)
    ensures AsPrepared(s, p, ReceiptFor(p, f.proof, f.refresh))
  {
    DeltaRows(s, c, p.inventory.accounts, f.refresh, f.proof.primary, if c.phase.Dropped? then 0 else 2, Healthy, None);
  }

  /** A first restoration: the compare-and-set turns the disposed row into the promised one. */
  lemma RestoredReturn(s: Store, c: Scope, p: Preparation, f: Findings)
    requires p.scope == c && PreparedWell(p) && c.first in s.accounts && c.second in s.accounts && !c.phase.Dropped?
    requires f.proof.primary in {c.first, c.second} && f.inventory.accounts == RowsOf(s, c)
    requires f.refresh.Some? ==> f.refresh.value.id == Backup(c, f.proof.primary)
    requires AccountDelta(Expected(p.inventory.accounts, f.refresh), f.inventory.accounts, f.proof.primary, 1,
                          FailedState(c), f.proof.cooldown)
    ensures var restored := s.accounts[f.proof.primary := Restore(s.accounts[f.proof.primary])];
      AsPrepared(s.(accounts := restored), p, ReceiptFor(p, f.proof, f.refresh))
  {
    DeltaRows(s, c, p.inventory.accounts, f.refresh, f.proof.primary, 1, FailedState(c), f.proof.cooldown);
  }

  lemma SettledReturn(s: Store, c: Scope, readOnly: bool, p: Preparation, f: Findings)
    requires p.scope == c && PreparedWell(p) && c.first in s.accounts && c.second in s.accounts
    requires f.proof.primary in {c.first, c.second} && f.inventory.accounts == RowsOf(s, c)
    requires f.refresh.Some? ==> f.refresh.value.id == Backup(c, f.proof.primary)
    requires c.phase.Dropped? ==> f.proof.cooldown.None?
    requires SettleRows(s, c, readOnly, p, f).1.Ok?
    ensures var (t, r) := SettleRows(s, c, readOnly, p, f);
      && r == Ok(ReceiptFor(p, f.proof, f.refresh)) && AsPrepared(t, p, r.value)
      && c.plan in t.receipts && t.receipts[c.plan] == r.value
  {
    if c.plan in s.receipts || c.phase.Dropped? {
      FoundAgain(s, c, p, f);
    } else {
      RestoredReturn(s, c, p, f);
    }
  }

  /** A successful reconciliation settles what it examined. */
  lemma ReconcileIsSettling(s: Store, c: Scope, readOnly: bool, now: int)
    requires Reconcile(s, c, readOnly, now).1.Ok?
    ensures Examine(s, c, now).Ok? && c.plan in s.prepared
    ensures var f := Examine(s, c, now).value; var p := s.prepared[c.plan];
      && f.proof.primary in p.inventory.accounts && f.proof.primary in s.accounts
      && Reconcile(s, c, readOnly, now) == SettleRows(s, c, readOnly, p, f)
  {}

  lemma SettlingFrames(s: Store, c: Scope, readOnly: bool, p: Preparation, f: Findings)
    requires f.proof.primary in p.inventory.accounts && f.proof.primary in s.accounts
    ensures var (t, r) := SettleRows(s, c, readOnly, p, f); t.graph == s.graph && t.prepared == s.prepared
  {}

  lemma NormalReturn(s: Store, c: Scope, readOnly: bool, now: int)
    requires c.plan in s.prepared && PreparedWell(s.prepared[c.plan])
    requires Reconcile(s, c, readOnly, now).1.Ok?
    requires c.first in s.accounts && c.second in s.accounts
    requires s.accounts[c.first].row.id == c.first && s.accounts[c.second].row.id == c.second
    ensures var (t, r) := Reconcile(s, c, readOnly, now);
      && AsPrepared(t, s.prepared[c.plan], r.value) && t.receipts[c.plan] == r.value && c.plan in t.receipts
      && t.graph == s.graph && t.prepared == s.prepared
  {
    ReconcileIsSettling(s, c, readOnly, now);
    Examined(s, c, now);
    RefreshIsBackups(s, c, now);
    SettledReturn(s, c, readOnly, s.prepared[c.plan], Examine(s, c, now).value);
    SettlingFrames(s, c, readOnly, s.prepared[c.plan], Examine(s, c, now).value);
  }

  // ---------------------------------------------------------------- repeating a reconciliation

  /** The grant and both credentials still hold at a later time. */
  predicate Unexpired(t: Store, c: Scope, later: int) {
    && |t.graph.grants| == 1 && t.graph.grants[0].expiresAt > later
    && c.first in t.accounts && c.second in t.accounts
    && Usable(t.accounts[c.first].row, later) && Usable(t.accounts[c.second].row, later)
  }

  /** What a successful transaction changed: at most the primary's row and this plan's receipt. */
  predicate Returned(s: Store, t: Store, c: Scope, f: Findings, p: Preparation) {
    && t.graph == s.graph && t.prepared == s.prepared && c.plan in s.prepared && s.prepared[c.plan] == p
    && f.proof.primary in p.inventory.accounts && f.proof.primary in s.accounts
    && c.plan in t.receipts && t.receipts[c.plan] == ReceiptFor(p, f.proof, f.refresh)
    && (t == s || (c.plan !in s.receipts && t.accounts == s.accounts) ||
        (c.plan !in s.receipts && !c.phase.Dropped? && s.accounts[f.proof.primary].row.cooldown == f.proof.cooldown
         && t.accounts == s.accounts[f.proof.primary := Restore(s.accounts[f.proof.primary])]))
  }

  lemma SettlingReturned(s: Store, c: Scope, readOnly: bool, p: Preparation, f: Findings)
    requires f.proof.primary in p.inventory.accounts && f.proof.primary in s.accounts
    requires c.plan in s.prepared && s.prepared[c.plan] == p && p.scope == c
    requires SettleRows(s, c, readOnly, p, f).1.Ok?
    ensures Returned(s, SettleRows(s, c, readOnly, p, f).0, c, f, p)
  {}

  lemma SettleReturned(s: Store, c: Scope, readOnly: bool, now: int)
    requires Reconcile(s, c, readOnly, now).1.Ok?
    ensures ValidScope(c) && Examine(s, c, now).Ok? && c.plan in s.prepared
    ensures Returned(s, Reconcile(s, c, readOnly, now).0, c, Examine(s, c, now).value, s.prepared[c.plan])
  {
    ReconcileIsSettling(s, c, readOnly, now);
    Examined(s, c, now);
    SettlingReturned(s, c, readOnly, s.prepared[c.plan], Examine(s, c, now).value);
  }

  lemma ProofAgain(s: Store, t: Store, c: Scope, f: Findings, p: Preparation, now: int, later: int)
    requires Returned(s, t, c, f, p) && c.first in s.accounts && c.second in s.accounts && Unexpired(t, c, later)
    requires PhaseProof(s, c, p.createdAt, now) == Ok(f.proof)
    ensures PhaseProof(t, c, p.createdAt, later) == Ok(f.proof)
  {}

  lemma RefreshAgain(s: Store, t: Store, c: Scope, f: Findings, p: Preparation, now: int)
    requires Returned(s, t, c, f, p) && c.first in s.accounts && c.second in s.accounts
    requires PhaseProof(s, c, p.createdAt, now) == Ok(f.proof)
    requires BackupRefresh(s, p.inventory, f.proof, p.createdAt) == Ok(f.refresh)
    ensures BackupRefresh(t, p.inventory, f.proof, p.createdAt) == Ok(f.refresh)
  {}

  lemma ExamineAgain(s: Store, t: Store, c: Scope, f: Findings, p: Preparation, now: int, later: int)
    requires Examine(s, c, now) == Ok(f) && Returned(s, t, c, f, p) && Unexpired(t, c, later)
    ensures Examine(t, c, later) == Ok(f.(inventory := f.inventory.(accounts := RowsOf(t, c))))
  {
    Examined(s, c, now);
    assert PhaseProof(s, c, p.createdAt, now) == Ok(f.proof);
    assert BackupRefresh(s, p.inventory, f.proof, p.createdAt) == Ok(f.refresh);
    ProofAgain(s, t, c, f, p, now, later);
    RefreshAgain(s, t, c, f, p, now);
    assert InventoryReadable(t, c, later);
    assert ReadInventory(t, c, later) == Ok(f.inventory.(accounts := RowsOf(t, c)));
  }

  lemma SettleAgain(t: Store, c: Scope, again: bool, p: Preparation, f: Findings)
    requires p.scope == c && PreparedWell(p) && c.first in t.accounts && c.second in t.accounts
    requires f.proof.primary in {c.first, c.second} && f.inventory.accounts == RowsOf(t, c)
    requires f.refresh.Some? ==> f.refresh.value.id == Backup(c, f.proof.primary)
    requires c.plan in t.receipts && t.receipts[c.plan] == ReceiptFor(p, f.proof, f.refresh)
    requires AsPrepared(t, p, t.receipts[c.plan])
    ensures SettleRows(t, c, again, p, f) == (t, Ok(t.receipts[c.plan]))
  {
    var before := p.inventory.accounts;
    DeltaRows(t, c, before, f.refresh, f.proof.primary, 2, Healthy, None);
    DeltaRows(t, c, before, f.refresh, f.proof.primary, 0, Healthy, None);
  }

  /** A repeated reconciliation, observing or not, returns the same receipt and writes nothing.
      Its cooldown comes from the receipt, the account's own having been cleared. */
  lemma RepeatReturnsSame(s: Store, c: Scope, readOnly: bool, now: int, again: bool, later: int)
    requires c.plan in s.prepared && PreparedWell(s.prepared[c.plan])
    requires c.first in s.accounts && c.second in s.accounts
    requires s.accounts[c.first].row.id == c.first && s.accounts[c.second].row.id == c.second
    requires Reconcile(s, c, readOnly, now).1.Ok? && Unexpired(Reconcile(s, c, readOnly, now).0, c, later)
    ensures var (t, r) := Reconcile(s, c, readOnly, now); Reconcile(t, c, again, later) == (t, r)
  {
    var f, p := Examine(s, c, now).value, s.prepared[c.plan];
    var t := Reconcile(s, c, readOnly, now).0;
    NormalReturn(s, c, readOnly, now);
    SettleReturned(s, c, readOnly, now);
    Examined(s, c, now);
    RefreshIsBackups(s, c, now);
    ExamineAgain(s, t, c, f, p, now, later);
    SettleAgain(t, c, again, p, f.(inventory := f.inventory.(accounts := RowsOf(t, c))));
  }

  /** A restoration whose commit went unheard is found by the observing transaction, once. */
  lemma LostResponseRecovered(s: Store, c: Scope, now: int, later: int)
    requires c.plan in s.prepared && PreparedWell(s.prepared[c.plan])
    requires c.first in s.accounts && c.second in s.accounts
    requires s.accounts[c.first].row.id == c.first && s.accounts[c.second].row.id == c.second
    requires Reconcile(s, c, false, now).1.Ok? && Unexpired(Reconcile(s, c, false, now).0, c, later)
    ensures ReconcileCall(s, c, Unheard, now, Commit, later) == Reconcile(s, c, false, now)
    ensures ReconcileCall(s, c, Commit, now, Abort, later) == Reconcile(s, c, false, now)
    ensures ReconcileCall(s, c, Abort, now, Commit, later).0 == s
  {
    RepeatReturnsSame(s, c, false, now, true, later);
    ReconcileSettles(s, c, true, later, Commit);
  }
}
