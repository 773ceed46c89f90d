/**
 The phase tables and the port operations on them. Each transaction commits, aborts, or
 commits without its response arriving; reconciling tries once and then only observes.
 */
module PhaseTables {
  import opened Outcomes
  import opened AccountWrites
  import opened RefreshChain
  import opened PhaseRecovery

  datatype Outcome = Commit | Abort | Unheard

  function Transact<R>(s: Store, t: (Store, Result<R>), outcome: Outcome): (Store, Result<R>) {
    match outcome
    case Commit => t
    case Abort => (s, Err("transaction_aborted"))
    case Unheard => (t.0, Err("connection_lost"))
  }

  /** `reconcileCanaryPhase`: one attempt, and after any failure one that writes nothing. */
  function ReconcileCall(s: Store, c: Scope, o0: Outcome, t0: int, o1: Outcome, t1: int): (Store, Result<PhaseReceipt>) {
    var tried := Transact(s, Reconcile(s, c, false, t0), o0);
    if tried.1.Ok? then tried
    else
      var observed := Transact(tried.0, Reconcile(tried.0, c, true, t1), o1);
      if observed.1.Ok? then observed else (observed.0, Err("hosted_pool_canary_phase_recovery_hold"))
  }

  class Tables {
    var accounts: map<string, Live>
    var graph: Graph
    var prepared: map<string, Preparation>
    var receipts: map<string, PhaseReceipt>

    constructor (s: Store)
      ensures Contents() == s
    {
      accounts, graph, prepared, receipts := s.accounts, s.graph, s.prepared, s.receipts;
    }

    function Contents(): Store
      reads this
    {
      Store(accounts, graph, prepared, receipts)
    }

    method PrepareCanaryPhase(c: Scope, now: int, outcome: Outcome) returns (r: Result<()>)
      modifies `prepared
      ensures (Contents(), r) == Transact(old(Contents()), Prepare(old(Contents()), c, now), outcome)
    {
      if outcome.Abort? {
        return Err("transaction_aborted");
      }
      var lost := if outcome.Unheard? then Err("connection_lost") else Ok(());
      if !ValidScope(c) {
        return if lost.Err? then lost else Err("scope_invalid");
      }
      if c.plan in prepared {
        return if lost.Err? then lost else Err("phase_already_prepared");
      }
      var read := ReadInventory(Contents(), c, now);
      if read.Err? {
        return if lost.Err? then lost else Err(read.error);
      }
      var inventory := read.value;
      if !(forall id <- inventory.accounts.Keys ::
             inventory.accounts[id].state == Healthy && inventory.accounts[id].cooldown.None?) {
        return if lost.Err? then lost else Err("pool_not_healthy");
      }
      if graph.grants != [] {
        return if lost.Err? then lost else Err("run_already_dispatched");
      }
      if !NoPendingEffects(graph, None) {
        return if lost.Err? then lost else Err("pending_effects");
      }
      prepared := prepared[c.plan := Preparation(inventory.workspace, c, inventory, now)];
      return lost;
    }

    /** One reconciling transaction that runs to its end. */
    method ReconcileOnce(c: Scope, readOnly: bool, now: int) returns (r: Result<PhaseReceipt>)
      modifies `accounts, `receipts
      ensures (Contents(), r) == Reconcile(old(Contents()), c, readOnly, now)
    {
      if !ValidScope(c) {
        return Err("scope_invalid");
      }
      var examined := Examine(Contents(), c, now);
      if examined.Err? {
        return Err(examined.error);
      }
      var p, f := prepared[c.plan], examined.value;
      if f.proof.primary !in p.inventory.accounts || f.proof.primary !in accounts {
        return Err("snapshot_invalid");
      }
      r := Settle(c, readOnly, p, f);
    }

    /** The end of a reconciling transaction: replay the receipt, or restore and write it. */
    method Settle(c: Scope, readOnly: bool, p: Preparation, f: Findings) returns (r: Result<PhaseReceipt>)
      requires f.proof.primary in p.inventory.accounts && f.proof.primary in accounts
      modifies `accounts, `receipts
      ensures (Contents(), r) == SettleRows(old(Contents()), c, readOnly, p, f)
    {
      var receipt := ReceiptFor(p, f.proof, f.refresh);
      var expected := Expected(p.inventory.accounts, f.refresh);
      var restored := !c.phase.Dropped?;
      var primary := f.proof.primary;
      if c.plan in receipts {
        if receipts[c.plan] != receipt {
          return Err("receipt_mismatch");
        }
        if !AccountDelta(expected, f.inventory.accounts, primary, if restored then 2 else 0, Healthy, None) {
          return Err("account_health_or_generation_drift");
        }
        return Ok(receipt);
      }
      if readOnly {
        return Err("reconciliation_outcome_unknown");
      }
      if !AccountDelta(expected, f.inventory.accounts, primary, if restored then 1 else 0,
                       if restored then FailedState(c) else Healthy, f.proof.cooldown) {
        return Err("account_health_or_generation_drift");
      }
      if restored {
        var l := accounts[primary];
        if !CasMatches(l, FailedState(c), f.proof.cooldown) {
          return Err("health_cas_conflict");
        }
        accounts := accounts[primary := l.(row := l.row.(state := Healthy, cooldown := None, health := l.row.health + 1))];
      }
      receipts := receipts[c.plan := receipt];
      return Ok(receipt);
    }

    method ReconcileCanaryPhase(c: Scope, o0: Outcome, t0: int, o1: Outcome, t1: int) returns (r: Result<PhaseReceipt>)
      modifies `accounts, `receipts
      ensures (Contents(), r) == ReconcileCall(old(Contents()), c, o0, t0, o1, t1)
    {
      if !o0.Abort? {
        r := ReconcileOnce(c, false, t0);
        if o0.Commit? && r.Ok? {
          return;
        }
      }
      if o1.Abort? {
        return Err("hosted_pool_canary_phase_recovery_hold");
      }
      r := ReconcileOnce(c, true, t1);
      if o1.Unheard? || r.Err? {
        return Err("hosted_pool_canary_phase_recovery_hold");
      }
    }
  }
}
