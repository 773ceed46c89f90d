/**
 The fault-plan ledger: audit events that stage, consume and cancel signed plans. A plan's
 target is the hash of its token, modelled as the token itself; whether its signature verifies
 and its claims have the expected shape are facts of the token.
 */
module FaultLedger {
  import opened Outcomes

  /** The longest a plan may live, and the clock skew its issuer is allowed, in milliseconds. */
  const MaxLifetime := 3_600_000
  const IssueSkew := 30_000

  datatype Fault = Unauthorized | RateLimited | DropAfterResponse

  datatype Terms = Terms(repository: nat, run: string, runAttempt: nat, action: string, binding: string, revision: nat,
                         request: nat, attempt: nat)

  datatype Claims = Claims(terms: Terms, fault: Fault, issuedAt: int, expiresAt: int)

  datatype Token = Token(authentic: bool, wellShaped: bool, claims: Claims)

  datatype Target = HashOf(token: Token) | OtherTarget(text: string)

  datatype Kind = Staged | Consumed | Canceled

  datatype Event = Event(kind: Kind, workspace: string, target: Target, token: Option<Token>, at: int)

  datatype Scope = Scope(workspace: string, terms: Terms, afterResponse: bool)

  /** The time checks of the verification, on a token that is otherwise in order. */
  predicate Verified(t: Token, now: int) {
    && t.authentic && t.wellShaped
    && t.claims.expiresAt > now && t.claims.issuedAt <= now + IssueSkew
    && t.claims.issuedAt < t.claims.expiresAt <= t.claims.issuedAt + MaxLifetime
  }

  predicate Matches(c: Claims, s: Scope) {
    c.terms == s.terms && s.afterResponse == c.fault.DropAfterResponse?
  }

  predicate Closed(ledger: seq<Event>, target: Target) {
    exists i :: 0 <= i < |ledger| && ledger[i].target == target && !ledger[i].kind.Staged?
  }

  predicate StagedIn(ledger: seq<Event>, workspace: string, target: Target) {
    exists i :: 0 <= i < |ledger| && ledger[i].target == target && ledger[i].kind.Staged? && ledger[i].workspace == workspace
  }

  /** Staged events since a time, newest first, of one workspace or of all. */
  function Recent(ledger: seq<Event>, workspace: Option<string>, since: int): (r: seq<Event>)
    ensures forall i :: 0 <= i < |r| ==> r[i] in ledger && r[i].kind.Staged? && r[i].at >= since
    ensures forall e :: e in ledger && e.kind.Staged? && e.at >= since && (workspace.None? || workspace == Some(e.workspace)) ==> e in r
  {
    if ledger == [] then []
    else
      var e := ledger[|ledger| - 1];
      var older := Recent(ledger[..|ledger| - 1], workspace, since);
      if e.kind.Staged? && e.at >= since && (workspace.None? || workspace == Some(e.workspace)) then [e] + older else older
  }

  // ---------------------------------------------------------------- resolving and consuming

  /** Whether a scan that finds this staged event open takes it. */
  predicate Takes(e: Event, s: Scope, now: int) {
    e.token.Some? && e.target == HashOf(e.token.value) && Verified(e.token.value, now) && Matches(e.token.value.claims, s)
  }

  function ScanLimit(): nat { 100 }

  function Candidates(ledger: seq<Event>, s: Scope, now: int): Result<seq<Event>> {
    var staged := Recent(ledger, Some(s.workspace), now - MaxLifetime - IssueSkew);
    if |staged| >= ScanLimit() then Err("hosted_codex_canary_fault_plan_scan_limit_exceeded") else Ok(staged)
  }

  function FirstOpen(ledger: seq<Event>, staged: seq<Event>, s: Scope, now: int): Option<Token> {
    if staged == [] then None
    else if !Closed(ledger, staged[0].target) && Takes(staged[0], s, now) then staged[0].token
    else FirstOpen(ledger, staged[1..], s, now)
  }

  function Resolve(ledger: seq<Event>, s: Scope, now: int): Result<Option<Token>> {
    match Candidates(ledger, s, now)
    case Err(e) => Err(e)
    case Ok(staged) => Ok(FirstOpen(ledger, staged, s, now))
  }

  /** A staged event the scan may take: of the workspace, recent, open, verified, matching. */
  predicate Takeable(ledger: seq<Event>, e: Event, s: Scope, now: int) {
    && e in ledger && e.kind.Staged? && e.workspace == s.workspace && e.at >= now - MaxLifetime - IssueSkew
    && !Closed(ledger, e.target) && Takes(e, s, now)
  }

  lemma {:induction false} FirstOpenFinds(ledger: seq<Event>, staged: seq<Event>, s: Scope, now: int)
    ensures var t := FirstOpen(ledger, staged, s, now);
      if t.Some? then exists e :: e in staged && !Closed(ledger, e.target) && Takes(e, s, now) && e.token == t
      else forall e :: e in staged ==> Closed(ledger, e.target) || !Takes(e, s, now)
  {
    if staged != [] && (Closed(ledger, staged[0].target) || !Takes(staged[0], s, now)) {
      FirstOpenFinds(ledger, staged[1..], s, now);
      assert staged == [staged[0]] + staged[1..];
      if FirstOpen(ledger, staged[1..], s, now).Some? {
        var e :| e in staged[1..] && !Closed(ledger, e.target) && Takes(e, s, now)
          && e.token == FirstOpen(ledger, staged[1..], s, now);
        assert e in staged;
      }
    } else if staged != [] {
      assert staged[0] in staged;
    }
  }

  /** Below the scan limit a token is resolved exactly when there is a takeable event, and it is
      the token of one. */
  lemma ResolveFinds(ledger: seq<Event>, s: Scope, now: int)
    requires Candidates(ledger, s, now).Ok?
    ensures Resolve(ledger, s, now).Ok?
    ensures var t := Resolve(ledger, s, now).value;
      if t.Some? then exists e :: Takeable(ledger, e, s, now) && e.token == t
      else forall e :: !Takeable(ledger, e, s, now)
  {
    var staged := Recent(ledger, Some(s.workspace), now - MaxLifetime - IssueSkew);
    RecentWorkspace(ledger, s.workspace, now - MaxLifetime - IssueSkew);
    FirstOpenFinds(ledger, staged, s, now);
    var t := FirstOpen(ledger, staged, s, now);
    if t.Some? {
      var e :| e in staged && !Closed(ledger, e.target) && Takes(e, s, now) && e.token == t;
      assert Takeable(ledger, e, s, now);
    }
  }

  lemma {:induction false} RecentWorkspace(ledger: seq<Event>, workspace: string, since: int)
    ensures forall e :: e in Recent(ledger, Some(workspace), since) ==> e.workspace == workspace
  {
    if ledger != [] {
      RecentWorkspace(ledger[..|ledger| - 1], workspace, since);
    }
  }

  /** The consuming transaction. */
  function ConsumeTx(ledger: seq<Event>, s: Scope, token: Token, at: int): Result<seq<Event>> {
    if Closed(ledger, HashOf(token)) then Err("hosted_codex_canary_fault_plan_replayed")
    else if !StagedIn(ledger, s.workspace, HashOf(token)) then Err("hosted_codex_canary_fault_plan_not_staged")
    else Ok(ledger + [Event(Consumed, s.workspace, HashOf(token), None, at)])
  }

  // ---------------------------------------------------------------- canceling

  /** One cancellation for each target not yet closed, in scan order. */
  function Cancellations(staged: seq<Event>, closed: set<Target>, at: int): seq<Event> {
    if staged == [] then []
    else if staged[0].target in closed then Cancellations(staged[1..], closed, at)
    else
      [Event(Canceled, staged[0].workspace, staged[0].target, None, at)]
      + Cancellations(staged[1..], closed + {staged[0].target}, at)
  }

  function ClosedTargets(ledger: seq<Event>): set<Target> {
    set e | e in ledger && !e.kind.Staged? :: e.target
  }

  function CancelTx(ledger: seq<Event>, now: int, at: int): Result<seq<Event>> {
    var staged := Recent(ledger, None, now - MaxLifetime);
    if |staged| > ScanLimit() then Err("hosted_pool_canary_fault_plan_cleanup_scan_limit_exceeded")
    else Ok(ledger + Cancellations(staged, ClosedTargets(ledger), at))
  }

  lemma CancelStep(events: seq<Event>, staged: seq<Event>, i: nat, closed: set<Target>, at: int)
    requires i < |staged|
    ensures events + Cancellations(staged[i..], closed, at) ==
      if staged[i].target in closed then events + Cancellations(staged[i + 1..], closed, at)
      else
        events + [Event(Canceled, staged[i].workspace, staged[i].target, None, at)]
        + Cancellations(staged[i + 1..], closed + {staged[i].target}, at)
  {
    assert staged[i..][1..] == staged[i + 1..];
  }

  class Ledger {
    var events: seq<Event>

    constructor (events: seq<Event>)
      ensures this.events == events
    {
      this.events := events;
    }

    /** `resolvePlan`, with no event arriving during the scan. */
    method ResolvePlan(s: Scope, now: int) returns (r: Result<Option<Token>>)
      ensures r == Resolve(events, s, now)
    {
      var staged := Recent(events, Some(s.workspace), now - MaxLifetime - IssueSkew);
      if |staged| >= 100 {
        return Err("hosted_codex_canary_fault_plan_scan_limit_exceeded");
      }
      for i := 0 to |staged|
        invariant FirstOpen(events, staged, s, now) == FirstOpen(events, staged[i..], s, now)
      {
        var e := staged[i];
        assert staged[i..][1..] == staged[i + 1..];
        if Closed(events, e.target) {
          continue;
        }
        if e.token.None? || HashOf(e.token.value) != e.target {
          continue;
        }
        if Verified(e.token.value, now) && Matches(e.token.value.claims, s) {
          return Ok(e.token);
        }
      }
      return Ok(None);
    }

    /** `consume`: the plan's fault, or none. */
    method Consume(s: Scope, now: int, at: int) returns (r: Result<Option<Fault>>)
      modifies this
      ensures var plan := Resolve(old(events), s, now);
        match plan
        case Err(e) => r == Err(e) && events == old(events)
        case Ok(None) => r == Ok(None) && events == old(events)
        case Ok(Some(token)) =>
          match ConsumeTx(old(events), s, token, at)
          case Err(e) => r == Err(e) && events == old(events)
          case Ok(after) => r == Ok(Some(token.claims.fault)) && events == after
    {
      var plan := ResolvePlan(s, now);
      if plan.Err? {
        return Err(plan.error);
      }
      if plan.value.None? {
        return Ok(None);
      }
      var token := plan.value.value;
      if Closed(events, HashOf(token)) {
        return Err("hosted_codex_canary_fault_plan_replayed");
      }
      if !StagedIn(events, s.workspace, HashOf(token)) {
        return Err("hosted_codex_canary_fault_plan_not_staged");
      }
      events := events + [Event(Consumed, s.workspace, HashOf(token), None, at)];
      return Ok(Some(token.claims.fault));
    }

    /** `cancelOpenStagedFaultPlans`: its transaction, which adds as it goes along. */
    method CancelOpenStagedFaultPlans(now: int, at: int) returns (r: Result<()>)
      modifies this
      ensures match CancelTx(old(events), now, at)
        case Err(e) => r == Err(e) && events == old(events)
        case Ok(after) => r == Ok(()) && events == after
    {
      var staged := Recent(events, None, now - MaxLifetime);
      if |staged| > 100 {
        return Err("hosted_pool_canary_fault_plan_cleanup_scan_limit_exceeded");
      }
      var closed := ClosedTargets(events);
      for i := 0 to |staged|
        invariant events + Cancellations(staged[i..], closed, at) ==
          old(events) + Cancellations(staged, ClosedTargets(old(events)), at)
      {
        CancelStep(events, staged, i, closed, at);
        if staged[i].target !in closed {
          events := events + [Event(Canceled, staged[i].workspace, staged[i].target, None, at)];
          closed := closed + {staged[i].target};
        }
      }
      assert staged[|staged|..] == [];
      return Ok(());
    }
  }
}
