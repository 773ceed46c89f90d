/**
 The canary phase recovery transactions: preparing a phase, and reconciling it once, as
 functions on the stored rows and as methods that update them. A digest comparison is an
 equality of the values digested.
 */
module PhaseRecovery {
  import opened Outcomes
  import opened AccountWrites
  import opened RefreshChain

  datatype Phase = Unauthorized | RateLimited | Dropped

  datatype Scope = Scope(phase: Phase, plan: string, runId: int, repository: int, binding: string, revision: nat,
                         action: string, pool: string, first: string, second: string)

  const SafeInteger := 9_007_199_254_740_991

  predicate ValidScope(c: Scope) {
    && IsHex64(c.plan) && c.revision >= 1
    && |c.action| == 40 && (forall i :: 0 <= i < |c.action| ==> '0' <= c.action[i] <= '9' || 'a' <= c.action[i] <= 'f')
    && 0 < c.runId <= SafeInteger && 0 < c.repository <= SafeInteger
    && c.first != c.second && c.pool != "" && c.binding != "" && c.first != "" && c.second != ""
  }

  // ---------------------------------------------------------------- stored rows

  datatype Binding = Binding(id: string, workspace: string, revision: nat, stateVersion: nat, active: bool,
                             attestedRevision: nat, attestedRepository: int, workflowMatches: bool,
                             poolActive: bool, poolRevision: nat, poolEpoch: nat, poolLeaving: bool,
                             accounts: set<string>)

  datatype EffectState = Prepared | Dispatching | ResponseStarted | Succeeded | FailedNoEffect | TerminalUnknown | Other

  datatype Attempt = Attempt(account: string, generation: nat, state: EffectState, createdAt: int,
                             dispatchedAt: Option<int>, respondedAt: Option<int>, completedAt: Option<int>)

  datatype RequestStatus = RequestSucceeded | RequestUnknown | RequestOther

  datatype GrantStatus = Issued | Exhausted | Revoked | GrantOther

  /** A grant of the run's second attempt with its one request. `matches` says that every
      identifier, ordinal, error code and evidence hash in its graph is the expected one. */
  datatype Grant = Grant(id: string, matches: bool, primary: string, backup: Option<string>, active: string,
                         failovers: nat, issuedAt: int, expiresAt: int, status: GrantStatus, revokedAt: Option<int>,
                         capabilityRevoked: bool, inFlight: nat, requestCount: nat,
                         requestStatus: RequestStatus, completedAt: Option<int>, attempts: seq<Attempt>)

  datatype Consumption = Consumption(matches: bool, createdAt: int, expiresAt: int)

  datatype Staging = Staging(canceled: bool, createdAt: int)

  datatype Graph = Graph(bindings: seq<Binding>, restores: nat, pendingRequests: nat, liveEffects: nat,
                         unknownEffects: seq<string>, grants: seq<Grant>, consumptions: seq<Consumption>,
                         staged: seq<Staging>)

  datatype Inventory = Inventory(workspace: string, bindingRevision: nat, bindingStateVersion: nat,
                                 poolRevision: nat, poolEpoch: nat, accounts: map<string, Account>)

  datatype Preparation = Preparation(workspace: string, scope: Scope, inventory: Inventory, createdAt: int)

  datatype Proof = Proof(grant: Grant, consumption: Consumption, primary: string, cooldown: Option<int>)

  datatype Status = Restored | Unchanged

  datatype PhaseReceipt = PhaseReceipt(workspace: string, scope: Scope, preparation: Inventory, proof: Proof,
                             refresh: Option<Account>, account: string, generation: nat, preparedHealth: nat,
                             dispositionHealth: nat, reconciledHealth: nat, status: Status)

  /** Audit rows are kept by the hash of the fault plan they were written for. */
  datatype Store = Store(accounts: map<string, Live>, graph: Graph, prepared: map<string, Preparation>,
                         receipts: map<string, PhaseReceipt>)

  // ---------------------------------------------------------------- reading the inventory

  predicate BindingValid(b: Binding, c: Scope) {
    && b.id == c.binding && b.active && b.revision == c.revision && b.attestedRevision == b.revision
    && b.attestedRepository == c.repository && b.workflowMatches && b.poolActive && !b.poolLeaving
    && b.accounts == {c.first, c.second}
  }

  predicate Usable(a: Account, now: int) {
    && a.generation > 0 && a.credential.Some? && a.credential.value.generation == a.generation
    && a.drainingAt.None? && a.tombstonedAt.None?
    && (a.credential.value.expiresAt.Some? ==> a.credential.value.expiresAt.value > now)
  }

  function RowsOf(s: Store, c: Scope): map<string, Account>
    requires c.first in s.accounts && c.second in s.accounts
  {
    map[c.first := s.accounts[c.first].row, c.second := s.accounts[c.second].row]
  }

  predicate InventoryReadable(s: Store, c: Scope, now: int) {
    && |s.graph.bindings| == 1 && BindingValid(s.graph.bindings[0], c)
    && c.first in s.accounts && c.second in s.accounts
    && Usable(s.accounts[c.first].row, now) && Usable(s.accounts[c.second].row, now)
    && s.graph.restores == 0
  }

  function ReadInventory(s: Store, c: Scope, now: int): Result<Inventory> {
    if !InventoryReadable(s, c, now) then Err("inventory_invalid")
    else
      var b := s.graph.bindings[0];
      Ok(Inventory(b.workspace, b.revision, b.stateVersion, b.poolRevision, b.poolEpoch, RowsOf(s, c)))
  }

  predicate NoPendingEffects(g: Graph, allowed: Option<string>) {
    && g.pendingRequests == 0 && g.liveEffects == 0
    && forall i :: 0 <= i < |g.unknownEffects| ==> allowed == Some(g.unknownEffects[i])
  }

  // ---------------------------------------------------------------- preparing

  function Prepare(s: Store, c: Scope, now: int): (Store, Result<()>) {
    if !ValidScope(c) then (s, Err("scope_invalid"))
    else if c.plan in s.prepared then (s, Err("phase_already_prepared"))
    else match ReadInventory(s, c, now)
      case Err(e) => (s, Err(e))
      case Ok(inventory) =>
        if !(forall id :: id in inventory.accounts ==>
               inventory.accounts[id].state == Healthy && inventory.accounts[id].cooldown.None?) then
          (s, Err("pool_not_healthy"))
        else if s.graph.grants != [] then (s, Err("run_already_dispatched"))
        else if !NoPendingEffects(s.graph, None) then (s, Err("pending_effects"))
        else (s.(prepared := s.prepared[c.plan := Preparation(inventory.workspace, c, inventory, now)]), Ok(()))
  }

  // ---------------------------------------------------------------- the phase proof

  const CooldownPlan := 900_000

  predicate GrantGraphValid(g: Grant, c: Scope, preparedAt: int, now: int) {
    && g.matches && g.issuedAt >= preparedAt && g.expiresAt > now && g.inFlight == 0 && g.requestCount == 1
    && g.backup.Some? && g.primary in {c.first, c.second} && g.backup.value in {c.first, c.second}
    && g.primary != g.backup.value
    && g.completedAt.Some? && g.attempts != [] && g.attempts[0].account == g.primary && g.attempts[0].completedAt.Some?
  }

  predicate ConsumedExclusively(g: Graph, a: Attempt, preparedAt: int)
    requires a.completedAt.Some?
  {
    && |g.consumptions| == 1 && g.consumptions[0].matches
    && a.createdAt <= g.consumptions[0].createdAt <= a.completedAt.value
    && g.consumptions[0].expiresAt > g.consumptions[0].createdAt
    && |g.staged| == 1 && !g.staged[0].canceled
    && preparedAt <= g.staged[0].createdAt <= g.consumptions[0].createdAt
  }

  predicate DroppedOutcome(g: Grant)
    requires g.attempts != []
  {
    && g.status == Revoked && g.revokedAt.Some? && g.capabilityRevoked && g.active == g.primary && g.failovers == 0
    && g.requestStatus == RequestUnknown && |g.attempts| == 1 && g.attempts[0].state == TerminalUnknown
    && g.attempts[0].dispatchedAt.Some? && g.attempts[0].respondedAt.Some?
  }

  predicate SyntheticDisposition(g: Grant)
    requires g.attempts != [] && g.attempts[0].completedAt.Some? && g.backup.Some?
  {
    && (g.status == Exhausted || g.status == Issued) && g.revokedAt.None? && g.failovers == 1
    && g.active == g.backup.value && g.requestStatus == RequestSucceeded && |g.attempts| == 2
    && g.attempts[0].state == FailedNoEffect && g.attempts[0].dispatchedAt.None? && g.attempts[0].respondedAt.None?
    && g.attempts[1].account == g.backup.value && g.attempts[1].state == Succeeded
    && g.attempts[1].createdAt >= g.attempts[0].completedAt.value
    && g.attempts[1].dispatchedAt.Some? && g.attempts[1].respondedAt.Some? && g.attempts[1].completedAt.Some?
  }

  /** The synthetic cooldown: the account's own, or on a replay the one the receipt kept. */
  function SavedCooldown(s: Store, c: Scope, primary: string): Option<int>
    requires primary in s.accounts
  {
    if s.accounts[primary].row.cooldown.Some? then s.accounts[primary].row.cooldown
    else if c.plan in s.receipts then s.receipts[c.plan].proof.cooldown
    else None
  }

  predicate CooldownProved(cooldown: Option<int>, consumedAt: int, completedAt: int) {
    cooldown.Some? && consumedAt + CooldownPlan <= cooldown.value <= completedAt + CooldownPlan
  }

  function PhaseProof(s: Store, c: Scope, preparedAt: int, now: int): Result<Proof>
    requires c.first in s.accounts && c.second in s.accounts
  {
    if |s.graph.grants| != 1 || !GrantGraphValid(s.graph.grants[0], c, preparedAt, now) then Err("grant_graph_invalid")
    else
      var g := s.graph.grants[0];
      if !ConsumedExclusively(s.graph, g.attempts[0], preparedAt) then Err("authenticated_consumption_missing")
      else
        var event := s.graph.consumptions[0];
        if c.phase.Dropped? then
          if DroppedOutcome(g) then Ok(Proof(g, event, g.primary, None)) else Err("dropped_outcome_unproved")
        else if !SyntheticDisposition(g) then Err("synthetic_disposition_unproved")
        else if c.phase.RateLimited? then
          var cooldown := SavedCooldown(s, c, g.primary);
          if CooldownProved(cooldown, event.createdAt, g.attempts[0].completedAt.value) then
            Ok(Proof(g, event, g.primary, cooldown))
          else Err("synthetic_cooldown_unproved")
        else Ok(Proof(g, event, g.primary, None))
  }

  // ---------------------------------------------------------------- reconciling

  function BackupRefresh(s: Store, before: Inventory, proof: Proof, preparedAt: int): Result<Option<Account>> {
    var g := proof.grant;
    if |g.attempts| == 0 || proof.primary !in before.accounts
       || g.attempts[0].generation != before.accounts[proof.primary].generation then Err("effect_generation_mismatch")
    else if |g.attempts| == 1 then Ok(None)
    else
      var effect := g.attempts[1];
      if effect.account !in before.accounts || effect.account !in s.accounts then Err("effect_generation_mismatch")
      else
        var current := s.accounts[effect.account];
        Verdict(before.accounts[effect.account], current.row, current.versions, effect.generation,
                preparedAt, effect.createdAt)
  }

  function Expected(before: map<string, Account>, refresh: Option<Account>): map<string, Account> {
    if refresh.Some? then before[refresh.value.id := refresh.value] else before
  }

  /** `assertAccountDelta`: the prepared accounts, the primary moved by `delta` health steps. */
  predicate AccountDelta(before: map<string, Account>, after: map<string, Account>, primary: string, delta: nat,
                         state: State, cooldown: Option<int>)
  {
    && |before| == 2 && primary in before
    && var p := before[primary];
       after == before[primary := p.(health := p.health + delta, state := state, cooldown := cooldown)]
  }

  function StatusOf(c: Scope): Status { if c.phase.Dropped? then Unchanged else Restored }

  function FailedState(c: Scope): State { if c.phase.Unauthorized? then Quarantined else Cooldown }

  function ReceiptFor(p: Preparation, proof: Proof, refresh: Option<Account>): PhaseReceipt
    requires proof.primary in p.inventory.accounts
  {
    var a := p.inventory.accounts[proof.primary];
    var step := if StatusOf(p.scope).Restored? then 1 else 0;
    PhaseReceipt(p.workspace, p.scope, p.inventory, proof, refresh, proof.primary, a.generation, a.health,
            a.health + step, a.health + 2 * step, StatusOf(p.scope))
  }

  /** Everything a reconciliation proves before it looks at the receipt. */
  datatype Findings = Findings(inventory: Inventory, proof: Proof, refresh: Option<Account>)

  function Examine(s: Store, c: Scope, now: int): Result<Findings> {
    if c.plan !in s.prepared then Err("preparation_missing")
    else
      var p := s.prepared[c.plan];
      if p.scope != c then Err("preparation_scope_mismatch")
      else match ReadInventory(s, c, now)
        case Err(e) => Err(e)
        case Ok(inventory) =>
          if p.workspace != inventory.workspace
             || inventory.(accounts := map[]) != p.inventory.(accounts := map[]) then Err("binding_drift")
          else if !NoPendingEffects(s.graph, if c.phase.Dropped? && |s.graph.grants| == 1 then Some(s.graph.grants[0].id)
                                             else None) then Err("pending_effects")
          else match PhaseProof(s, c, p.createdAt, now)
            case Err(e) => Err(e)
            case Ok(proof) =>
              match BackupRefresh(s, p.inventory, proof, p.createdAt)
              case Err(e) => Err(e)
              case Ok(refresh) => Ok(Findings(inventory, proof, refresh))
  }

  /** The compare-and-set that returns the primary to service. */
  function Restore(l: Live): Live {
    l.(row := l.row.(state := Healthy, cooldown := None, health := l.row.health + 1))
  }

  predicate CasMatches(l: Live, state: State, cooldown: Option<int>) {
    l.row.state == state && l.row.cooldown == cooldown && l.row.drainingAt.None? && l.row.tombstonedAt.None?
  }

  /** The end of a reconciling transaction, once everything else is proven. */
  function SettleRows(s: Store, c: Scope, readOnly: bool, p: Preparation, f: Findings): (Store, Result<PhaseReceipt>)
    requires f.proof.primary in p.inventory.accounts && f.proof.primary in s.accounts
  {
    var primary := f.proof.primary;
    var receipt := ReceiptFor(p, f.proof, f.refresh);
    var expected := Expected(p.inventory.accounts, f.refresh);
    var restored := StatusOf(c).Restored?;
    if c.plan in s.receipts then
      if s.receipts[c.plan] != receipt then (s, Err("receipt_mismatch"))
      else if !AccountDelta(expected, f.inventory.accounts, primary, if restored then 2 else 0, Healthy, None) then
        (s, Err("account_health_or_generation_drift"))
      else (s, Ok(receipt))
    else if readOnly then (s, Err("reconciliation_outcome_unknown"))
    else if !AccountDelta(expected, f.inventory.accounts, primary, if restored then 1 else 0,
                          if restored then FailedState(c) else Healthy, f.proof.cooldown) then
      (s, Err("account_health_or_generation_drift"))
    else if restored then
      var l := s.accounts[primary];
      if !CasMatches(l, FailedState(c), f.proof.cooldown) then (s, Err("health_cas_conflict"))
      else (s.(accounts := s.accounts[primary := Restore(l)], receipts := s.receipts[c.plan := receipt]), Ok(receipt))
    else (s.(receipts := s.receipts[c.plan := receipt]), Ok(receipt))
  }

  function Reconcile(s: Store, c: Scope, readOnly: bool, now: int): (Store, Result<PhaseReceipt>) {
    if !ValidScope(c) then (s, Err("scope_invalid"))
    else match Examine(s, c, now)
      case Err(e) => (s, Err(e))
      case Ok(f) =>
        var p := s.prepared[c.plan];
        if f.proof.primary !in p.inventory.accounts || f.proof.primary !in s.accounts then (s, Err("snapshot_invalid"))
        else SettleRows(s, c, readOnly, p, f)
  }
}
