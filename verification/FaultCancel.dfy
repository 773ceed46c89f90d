/**
 What a cancellation of all open plans promises, and exactly which plans staged before it can
 still be consumed afterwards: the consumable ones whose every staging is older than the
 cancellation's window. They are held by a scan from before the cancellation, or were issued
 after their staging.
 */
module FaultCancel {
  import opened Outcomes
  import opened FaultLedger
  import opened FaultRuns
  import opened FaultConsumable

  /** Every staging of the token happened at or after the time it says it was issued. */
  predicate StagedAfterIssue(ledger: seq<Event>, t: Token) {
    forall i :: 0 <= i < |ledger| && ledger[i].kind.Staged? && ledger[i].target == HashOf(t) ==>
      t.claims.issuedAt <= ledger[i].at
  }

  predicate EverStaged(ledger: seq<Event>, t: Token) {
    exists i :: 0 <= i < |ledger| && ledger[i].kind.Staged? && ledger[i].target == HashOf(t)
  }

  predicate StagedSince(ledger: seq<Event>, t: Token, since: int) {
    exists i :: 0 <= i < |ledger| && ledger[i].kind.Staged? && ledger[i].target == HashOf(t) && ledger[i].at >= since
  }

  /** After a committed cancellation a staged plan is open exactly when it was open and all its
      stagings are older than the cancellation's window. */
  lemma LeftOpenExactlyWhen(ledger: seq<Event>, now: int, at: int, t: Token)
    requires CancelTx(ledger, now, at).Ok?
    ensures Closed(CancelTx(ledger, now, at).value, HashOf(t)) <==>
      Closed(ledger, HashOf(t)) || StagedSince(ledger, t, now - MaxLifetime)
  {
    var after := CancelTx(ledger, now, at).value;
    CancelTxCloses(ledger, now, at, HashOf(t));
    ClosedCounts(ledger, HashOf(t));
    ClosedCounts(after, HashOf(t));
    if StagedSince(ledger, t, now - MaxLifetime) {
      var i :| 0 <= i < |ledger| && ledger[i].kind.Staged? && ledger[i].target == HashOf(t)
        && ledger[i].at >= now - MaxLifetime;
      assert ledger[i] in ledger;
    }
  }

  /** A token left open and staged no earlier than issued has expired by the cancellation. */
  lemma LeftOpenExpired(ledger: seq<Event>, now: int, at: int, t: Token, resolvedAt: int)
    requires CancelTx(ledger, now, at).Ok? && EverStaged(ledger, t) && StagedAfterIssue(ledger, t)
    requires !Closed(CancelTx(ledger, now, at).value, HashOf(t)) && Verified(t, resolvedAt)
    ensures t.claims.expiresAt < now && resolvedAt < now
  {
    LeftOpenExactlyWhen(ledger, now, at, t);
    var i :| 0 <= i < |ledger| && ledger[i].kind.Staged? && ledger[i].target == HashOf(t);
    assert t.claims.issuedAt <= ledger[i].at;
  }

  /**
   After a cancellation commits, a plan staged before it, no earlier than issued, can be consumed
   only by a caller whose scan had read the clock before the cancellation did, and only if the
   plan expired in between.
   */
  lemma CancelStops(y: System, k: Caller, actions: seq<Action>, t: Token, since: int)
    requires CallersFrom(y, since) && PcOf(y, k).Canceling? && CancelTx(y.ledger, PcOf(y, k).now, y.clock).Ok?
    requires EverStaged(y.ledger, t) && StagedAfterIssue(y.ledger, t)
    ensures var z := Exec(Step(y, Cancel(k)), actions);
      && y.uses <= z.uses
      && forall i :: |y.uses| <= i < |z.uses| && z.uses[i].token == t ==>
           z.uses[i].resolvedAt < t.claims.expiresAt < PcOf(y, k).now
  {
    var c := Step(y, Cancel(k));
    var z := Exec(c, actions);
    StepCallers(y, Cancel(k), since);
    UsesFrom(c, actions, since);
    if Closed(c.ledger, HashOf(t)) {
      ClosedForGood(c, actions, HashOf(t));
    } else {
      forall i | |y.uses| <= i < |z.uses| && z.uses[i].token == t
        ensures z.uses[i].resolvedAt < t.claims.expiresAt < PcOf(y, k).now
      {
        LeftOpenExpired(y.ledger, PcOf(y, k).now, y.clock, t, z.uses[i].resolvedAt);
      }
    }
  }

  /** With no scan in flight from before the cancellation, no such plan is ever consumed again. */
  lemma CancelIsFinal(y: System, k: Caller, actions: seq<Action>, t: Token)
    requires PcOf(y, k).Canceling? && CallersFrom(y, PcOf(y, k).now)
    requires CancelTx(y.ledger, PcOf(y, k).now, y.clock).Ok?
    requires EverStaged(y.ledger, t) && StagedAfterIssue(y.ledger, t)
    ensures var z := Exec(Step(y, Cancel(k)), actions);
      y.uses <= z.uses && forall i :: |y.uses| <= i < |z.uses| ==> z.uses[i].token != t
  {
    var now := PcOf(y, k).now;
    CancelStops(y, k, actions, t, now);
    StepCallers(y, Cancel(k), now);
    UsesFrom(Step(y, Cancel(k)), actions, now);
  }

  // ---------------------------------------------------------------- what a cancellation leaves

  lemma {:induction false} RecentUnmoved(ledger: seq<Event>, more: seq<Event>, workspace: Option<string>, since: int)
    requires ledger <= more && forall i :: |ledger| <= i < |more| ==> !more[i].kind.Staged?
    ensures Recent(more, workspace, since) == Recent(ledger, workspace, since)
    decreases |more|
  {
    if |ledger| < |more| {
      RecentUnmoved(ledger, more[..|more| - 1], workspace, since);
    } else {
      assert ledger == more;
    }
  }

  lemma CancelGrows(y: System, k: Caller, t: Token)
    requires PcOf(y, k).Canceling? && CancelTx(y.ledger, PcOf(y, k).now, y.clock).Ok?
    ensures var c := Step(y, Cancel(k));
      GrewWithout(y.ledger, c.ledger, t) && forall i :: |y.ledger| <= i < |c.ledger| ==> !c.ledger[i].kind.Staged?
  {
    CancellationsOnly(Recent(y.ledger, None, PcOf(y, k).now - MaxLifetime), ClosedTargets(y.ledger), y.clock);
  }

  lemma HoldsUnmoved(ledger: seq<Event>, more: seq<Event>, pc: Pc, t: Token)
    requires GrewWithout(ledger, more, t)
    ensures Holds(ledger, pc, t) <==> Holds(more, pc, t)
  {
    if pc.Chosen? || pc.Scanning? {
      if StagedIn(ledger, pc.scope.workspace, HashOf(t)) { StagedStays(ledger, more, pc.scope.workspace, t); }
      if StagedIn(more, pc.scope.workspace, HashOf(t)) { StagedBefore(ledger, more, pc.scope.workspace, t); }
    }
  }

  lemma ListsUnmoved(ledger: seq<Event>, more: seq<Event>, s: Scope, now: int, t: Token)
    requires ledger <= more && forall i :: |ledger| <= i < |more| ==> !more[i].kind.Staged?
    ensures ScanLists(ledger, s, now, t) <==> ScanLists(more, s, now, t)
  {
    RecentUnmoved(ledger, more, Some(s.workspace), now - MaxLifetime - IssueSkew);
  }

  /** The cancellation changes nothing about who holds or could list a token. */
  lemma ReasonUnmoved(y: System, k: Caller, t: Token)
    requires PcOf(y, k).Canceling? && CancelTx(y.ledger, PcOf(y, k).now, y.clock).Ok?
    ensures Reason(Step(y, Cancel(k)), t) <==> Reason(y, t)
  {
    var c := Step(y, Cancel(k));
    CancelGrows(y, k, t);
    forall j: Caller ensures Holds(y.ledger, PcOf(y, j), t) <==> Holds(c.ledger, PcOf(c, j), t) {
      HoldsUnmoved(y.ledger, c.ledger, PcOf(y, j), t);
      assert j != k ==> PcOf(c, j) == PcOf(y, j);
    }
    forall s, now ensures ScanLists(y.ledger, s, now, t) <==> ScanLists(c.ledger, s, now, t) {
      ListsUnmoved(y.ledger, c.ledger, s, now, t);
    }
  }

  /** After a committed cancellation some continuation without another staging consumes the plan
      exactly when it was consumable and all its stagings are older than the window. */
  lemma ConsumedAfterCancelExactlyWhen(y: System, k: Caller, t: Token)
    requires PcOf(y, k).Canceling? && CancelTx(y.ledger, PcOf(y, k).now, y.clock).Ok?
    ensures (exists actions :: NoStaging(actions, t) && UsedAfter(Step(y, Cancel(k)), actions, t)) <==>
      Consumable(y, t) && !StagedSince(y.ledger, t, PcOf(y, k).now - MaxLifetime)
  {
    ConsumableExactlyWhen(Step(y, Cancel(k)), t);
    ReasonUnmoved(y, k, t);
    LeftOpenExactlyWhen(y.ledger, PcOf(y, k).now, y.clock, t);
  }

  /** The first gap: a plan left open that a caller had chosen is consumed by its next step,
      expired or not. */
  lemma ChosenBeforeCancel(y: System, k: Caller, j: Caller, t: Token)
    requires PcOf(y, k).Canceling? && CancelTx(y.ledger, PcOf(y, k).now, y.clock).Ok?
    requires PcOf(y, j).Chosen? && Holds(y.ledger, PcOf(y, j), t)
    requires !Closed(y.ledger, HashOf(t)) && !StagedSince(y.ledger, t, PcOf(y, k).now - MaxLifetime)
    ensures Step(Step(y, Cancel(k)), Consume(j)).uses == y.uses + [Use(t, PcOf(y, j).now, y.clock)]
  {
    var c := Step(y, Cancel(k));
    LeftOpenExactlyWhen(y.ledger, PcOf(y, k).now, y.clock, t);
    StagedStays(y.ledger, c.ledger, PcOf(y, j).scope.workspace, t);
    assert PcOf(c, j) == PcOf(y, j);
    UseChosen(c, j, t);
  }

  /** The second gap: a scan begun after the cancellation can list a plan left open, and only if
      the plan was issued after each of its stagings. */
  lemma IssuedAfterStaging(y: System, k: Caller, s: Scope, later: int, t: Token)
    requires PcOf(y, k).Canceling? && CancelTx(y.ledger, PcOf(y, k).now, y.clock).Ok?
    requires PcOf(y, k).now <= y.clock <= later && ScanLists(y.ledger, s, later, t)
    requires !Closed(y.ledger, HashOf(t)) && !StagedSince(y.ledger, t, PcOf(y, k).now - MaxLifetime)
    ensures exists actions :: NoStaging(actions, t) && UsedAfter(Step(y, Cancel(k)), actions, t)
    ensures forall i :: 0 <= i < |y.ledger| && y.ledger[i].kind.Staged? && y.ledger[i].target == HashOf(t) ==>
      y.ledger[i].at < t.claims.issuedAt
  {
    ConsumedAfterCancelExactlyWhen(y, k, t);
    var staged := Candidates(y.ledger, s, later).value;
    var i :| 0 <= i < |staged| && staged[i].token == Some(t) && Takes(staged[i], s, later);
  }

  // ---------------------------------------------------------------- both gaps occur

  function SomeTerms(): Terms { Terms(1, "1", 1, "a", "b", 1, 1, 1) }

  function Plan(issuedAt: int): Token {
    Token(true, true, Claims(SomeTerms(), Unauthorized, issuedAt, issuedAt + MaxLifetime))
  }

  function SomeScope(): Scope { Scope("w", SomeTerms(), false) }

  function StagedLedger(t: Token): seq<Event> {
    [Event(Staged, "w", HashOf(t), Some(t), 0)]
  }

  /** A cancellation a little more than the longest lifetime after the staging. */
  function TooLate(t: Token, pcs: map<Caller, Pc>): System {
    System(StagedLedger(t), MaxLifetime + 1, pcs[2 := Canceling(MaxLifetime + 1)], [])
  }

  lemma LeftOpen(t: Token)
    ensures CancelTx(StagedLedger(t), MaxLifetime + 1, MaxLifetime + 1) == Ok(StagedLedger(t))
    ensures !Closed(StagedLedger(t), HashOf(t)) && StagedIn(StagedLedger(t), "w", HashOf(t))
    ensures !StagedSince(StagedLedger(t), t, 1)
  {
    assert StagedLedger(t)[..0] == [] && StagedLedger(t)[0].target == HashOf(t);
    assert Recent(StagedLedger(t), None, 1) == [];
    assert StagedLedger(t) + [] == StagedLedger(t);
  }

  /** The plan was chosen in time and has expired: the first gap. */
  lemma ChosenGapOccurs()
    ensures var t := Plan(0); var y := TooLate(t, map[1 := Chosen(SomeScope(), MaxLifetime - 1, t)]);
      && CallersFrom(y, MaxLifetime - 1) && StagedAfterIssue(y.ledger, t) && !Verified(t, y.clock)
      && Step(Step(y, Cancel(2)), Consume(1)).uses == [Use(t, MaxLifetime - 1, MaxLifetime + 1)]
  {
    var t := Plan(0);
    LeftOpen(t);
    assert StagedLedger(t)[0].target == HashOf(t);
    ChosenBeforeCancel(TooLate(t, map[1 := Chosen(SomeScope(), MaxLifetime - 1, t)]), 2, 1, t);
  }

  /** Issued after it was staged, within the allowed skew, with no scan in flight: the second gap. */
  lemma IssuedGapOccurs()
    ensures var t := Plan(IssueSkew); var y := TooLate(t, map[]);
      Verified(t, 0) && exists actions :: NoStaging(actions, t) && UsedAfter(Step(y, Cancel(2)), actions, t)
  {
    var t := Plan(IssueSkew);
    var l := StagedLedger(t);
    LeftOpen(t);
    assert l[0].target == HashOf(t) && l[..0] == [];
    assert Recent(l, Some("w"), 1 - IssueSkew) == [l[0]];
    assert [l[0]][0].token == Some(t) && Takes([l[0]][0], SomeScope(), MaxLifetime + 1);
    assert ScanLists(l, SomeScope(), MaxLifetime + 1, t);
    IssuedAfterStaging(TooLate(t, map[]), 2, SomeScope(), MaxLifetime + 1, t);
  }
}
