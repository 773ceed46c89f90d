/**
 Which plans can still be consumed: exactly those that are open and that a caller has chosen,
 a scan in flight lists, or a scan begun from now on would list, as long as nobody stages the
 plan again.
 */
module FaultConsumable {
  import opened Outcomes
  import opened FaultLedger
  import opened FaultRuns

  /** The list holds an event that a scan of this scope and time takes for the token. */
  predicate Lists(rest: seq<Event>, s: Scope, now: int, t: Token) {
    exists i :: 0 <= i < |rest| && rest[i].token == Some(t) && Takes(rest[i], s, now)
  }

  /** A caller has chosen the token, or its scan still lists it, where it is staged. */
  predicate Holds(ledger: seq<Event>, pc: Pc, t: Token) {
    match pc
    case Chosen(s, _, token) => token == t && StagedIn(ledger, s.workspace, HashOf(t))
    case Scanning(s, now, rest) => StagedIn(ledger, s.workspace, HashOf(t)) && Lists(rest, s, now, t)
    case _ => false
  }

  /** A scan of the ledger at this time stays below its limit and lists the token. */
  predicate ScanLists(ledger: seq<Event>, s: Scope, now: int, t: Token) {
    Candidates(ledger, s, now).Ok? && Lists(Candidates(ledger, s, now).value, s, now, t)
  }

  ghost predicate Reason(y: System, t: Token) {
    (exists j: Caller :: Holds(y.ledger, PcOf(y, j), t))
    || (exists s, now :: y.clock <= now && ScanLists(y.ledger, s, now, t))
  }

  ghost predicate Consumable(y: System, t: Token) {
    !Closed(y.ledger, HashOf(t)) && Reason(y, t)
  }

  predicate Stages(a: Action, t: Token) {
    a.Stage? && a.target == HashOf(t)
  }

  /** Nobody stages the token again. */
  predicate NoStaging(actions: seq<Action>, t: Token) {
    forall a :: a in actions ==> !Stages(a, t)
  }

  predicate UsedAfter(y: System, actions: seq<Action>, t: Token) {
    exists i :: |y.uses| <= i < |Exec(y, actions).uses| && Exec(y, actions).uses[i].token == t
  }

  // ---------------------------------------------------------------- runs

  lemma {:induction false} UsesGrow(y: System, actions: seq<Action>)
    ensures y.uses <= Exec(y, actions).uses
    decreases |actions|
  {
    if actions != [] {
      NewUse(y, actions[0]);
      UsesGrow(Step(y, actions[0]), actions[1..]);
    }
  }

  lemma StepFirst(y: System, a: Action, b: seq<Action>, t: Token)
    requires !Stages(a, t) && NoStaging(b, t) && UsedAfter(Step(y, a), b, t)
    ensures NoStaging([a] + b, t) && UsedAfter(y, [a] + b, t)
  {
    assert ([a] + b)[1..] == b;
    NewUse(y, a);
    var i :| |Step(y, a).uses| <= i < |Exec(Step(y, a), b).uses| && Exec(Step(y, a), b).uses[i].token == t;
    assert Exec(y, [a] + b).uses[i].token == t;
  }

  // ---------------------------------------------------------------- a reason is enough

  lemma UseChosen(y: System, j: Caller, t: Token)
    requires !Closed(y.ledger, HashOf(t)) && PcOf(y, j).Chosen? && Holds(y.ledger, PcOf(y, j), t)
    ensures NoStaging([Consume(j)], t) && UsedAfter(y, [Consume(j)], t)
    ensures Step(y, Consume(j)).uses == y.uses + [Use(t, PcOf(y, j).now, y.clock)]
  {
    var z := Step(y, Consume(j));
    assert [Consume(j)][1..] == [] && Exec(z, []) == z;
    assert Exec(y, [Consume(j)]).uses[|y.uses|].token == t;
  }

  /** A time later than every event. */
  function {:induction false} Latest(ledger: seq<Event>): (time: int)
    ensures forall i :: 0 <= i < |ledger| ==> ledger[i].at <= time
  {
    if ledger == [] then 0
    else
      var before := Latest(ledger[..|ledger| - 1]);
      assert forall i :: 0 <= i < |ledger| - 1 ==> ledger[..|ledger| - 1][i] == ledger[i];
      if ledger[|ledger| - 1].at > before then ledger[|ledger| - 1].at else before
  }

  lemma {:induction false} NothingRecent(ledger: seq<Event>, since: int)
    requires forall i :: 0 <= i < |ledger| ==> ledger[i].at < since
    ensures Recent(ledger, None, since) == []
  {
    if ledger != [] {
      NothingRecent(ledger[..|ledger| - 1], since);
    }
  }

  /** A cancellation that finds one recent staging closes that target and no other. */
  lemma CancelsOnly(ledger: seq<Event>, e: Event, now: int, t: Token)
    requires e.kind.Staged? && e.at == now && e.target != HashOf(t) && !Closed(ledger, HashOf(t))
    requires forall i :: 0 <= i < |ledger| ==> ledger[i].at < now - MaxLifetime
    ensures var tx := CancelTx(ledger + [e], now, now);
      tx.Ok? && Closed(tx.value, e.target) && !Closed(tx.value, HashOf(t))
  {
    var more := ledger + [e];
    assert more[..|more| - 1] == ledger;
    NothingRecent(ledger, now - MaxLifetime);
    assert Recent(more, None, now - MaxLifetime) == [e];
    var after := CancelTx(more, now, now).value;
    TerminalsAppend(ledger, [e], HashOf(t));
    assert [e][..0] == [];
    ClosedCounts(ledger, HashOf(t));
    ClosedCounts(more, HashOf(t));
    CancelTxCloses(more, now, now, HashOf(t));
    ClosedCounts(after, HashOf(t));
    assert more[|ledger|] == e;
    CancelTxCloses(more, now, now, e.target);
    ClosedCounts(more, e.target);
    ClosedCounts(after, e.target);
  }

  /** Another caller stages a plan and cancels all that are open. */
  function Cleaned(y: System, j: Caller, target: Target): System {
    Step(Step(Step(y, Stage("", target, None)), BeginCancel(j + 1)), Cancel(j + 1))
  }

  lemma CleanedCloses(y: System, j: Caller, target: Target, t: Token)
    requires target != HashOf(t) && !Closed(y.ledger, HashOf(t))
    requires forall i :: 0 <= i < |y.ledger| ==> y.ledger[i].at < y.clock - MaxLifetime
    ensures var z := Cleaned(y, j, target);
      && y.ledger <= z.ledger && PcOf(z, j) == PcOf(y, j)
      && Closed(z.ledger, target) && !Closed(z.ledger, HashOf(t))
  {
    CancelsOnly(y.ledger, Event(Staged, "", target, None, y.clock), y.clock, t);
  }

  lemma CleanFirst(y: System, j: Caller, target: Target, b: seq<Action>, t: Token) returns (a: seq<Action>)
    requires target != HashOf(t) && NoStaging(b, t) && UsedAfter(Cleaned(y, j, target), b, t)
    ensures NoStaging(a, t) && UsedAfter(y, a, t)
  {
    var y1 := Step(y, Stage("", target, None));
    var y2 := Step(y1, BeginCancel(j + 1));
    StepFirst(y2, Cancel(j + 1), b, t);
    StepFirst(y1, BeginCancel(j + 1), [Cancel(j + 1)] + b, t);
    StepFirst(y, Stage("", target, None), [BeginCancel(j + 1)] + ([Cancel(j + 1)] + b), t);
    a := [Stage("", target, None)] + ([BeginCancel(j + 1)] + ([Cancel(j + 1)] + b));
  }

  /** A pause after which every event is older than the longest lifetime. */
  function LongPause(y: System): (pause: nat)
    ensures forall i :: 0 <= i < |y.ledger| ==> y.ledger[i].at < y.clock + pause - MaxLifetime
  {
    if Latest(y.ledger) > y.clock then Latest(y.ledger) - y.clock + MaxLifetime + 1 else MaxLifetime + 1
  }

  lemma StagedStays(ledger: seq<Event>, more: seq<Event>, workspace: string, t: Token)
    requires ledger <= more && StagedIn(ledger, workspace, HashOf(t))
    ensures StagedIn(more, workspace, HashOf(t))
  {
    var i :| 0 <= i < |ledger| && ledger[i].target == HashOf(t) && ledger[i].kind.Staged? && ledger[i].workspace == workspace;
    assert more[i] == ledger[i];
  }

  /** A scan that lists the token can come to consume it: whatever it would take first is closed
      by others. */
  lemma {:induction false} ScanUses(y: System, j: Caller, t: Token) returns (a: seq<Action>)
    requires !Closed(y.ledger, HashOf(t)) && PcOf(y, j).Scanning? && Holds(y.ledger, PcOf(y, j), t)
    ensures NoStaging(a, t) && UsedAfter(y, a, t)
    decreases |PcOf(y, j).rest|, 1
  {
    var Scanning(s, now, rest) := PcOf(y, j);
    var i :| 0 <= i < |rest| && rest[i].token == Some(t) && Takes(rest[i], s, now);
    if rest[0].token != Some(t) && Takes(rest[0], s, now) {
      var v := Step(y, Tick(LongPause(y)));
      var z := Cleaned(v, j, rest[0].target);
      CleanedCloses(v, j, rest[0].target, t);
      StagedStays(y.ledger, z.ledger, s.workspace, t);
      var b := LookUses(z, j, t);
      var c := CleanFirst(v, j, rest[0].target, b, t);
      StepFirst(y, Tick(LongPause(y)), c, t);
      a := [Tick(LongPause(y))] + c;
    } else {
      a := LookUses(y, j, t);
    }
  }

  /** The next look takes the token, or passes over what comes before it. */
  lemma {:induction false} LookUses(y: System, j: Caller, t: Token) returns (a: seq<Action>)
    requires !Closed(y.ledger, HashOf(t)) && PcOf(y, j).Scanning? && Holds(y.ledger, PcOf(y, j), t)
    requires var Scanning(s, now, rest) := PcOf(y, j);
      rest != [] && (rest[0].token == Some(t) || !Takes(rest[0], s, now) || Closed(y.ledger, rest[0].target))
    ensures NoStaging(a, t) && UsedAfter(y, a, t)
    decreases |PcOf(y, j).rest|, 0
  {
    var Scanning(s, now, rest) := PcOf(y, j);
    var i :| 0 <= i < |rest| && rest[i].token == Some(t) && Takes(rest[i], s, now);
    var next, c := Step(y, Look(j)), [Consume(j)];
    if rest[0].token == Some(t) && Takes(rest[0], s, now) {
      UseChosen(next, j, t);
    } else {
      assert rest[1..][i - 1] == rest[i];
      c := ScanUses(next, j, t);
    }
    StepFirst(y, Look(j), c, t);
    a := [Look(j)] + c;
  }

  lemma StagedWhereListed(ledger: seq<Event>, s: Scope, now: int, t: Token)
    requires ScanLists(ledger, s, now, t)
    ensures StagedIn(ledger, s.workspace, HashOf(t))
  {
    var staged := Candidates(ledger, s, now).value;
    RecentWorkspace(ledger, s.workspace, now - MaxLifetime - IssueSkew);
    var i :| 0 <= i < |staged| && staged[i].token == Some(t) && Takes(staged[i], s, now);
    var k :| 0 <= k < |ledger| && ledger[k] == staged[i];
  }

  lemma FreshHolds(y: System, s: Scope, t: Token)
    requires ScanLists(y.ledger, s, y.clock, t)
    ensures var z := Step(y, BeginScan(0, s));
      z.ledger == y.ledger && PcOf(z, 0).Scanning? && Holds(z.ledger, PcOf(z, 0), t)
  {
    StagedWhereListed(y.ledger, s, y.clock, t);
  }

  lemma FreshUses(y: System, s: Scope, now: int, t: Token) returns (a: seq<Action>)
    requires !Closed(y.ledger, HashOf(t)) && y.clock <= now && ScanLists(y.ledger, s, now, t)
    ensures NoStaging(a, t) && UsedAfter(y, a, t)
  {
    var v := Step(y, Tick(now - y.clock));
    FreshHolds(v, s, t);
    var b := ScanUses(Step(v, BeginScan(0, s)), 0, t);
    StepFirst(v, BeginScan(0, s), b, t);
    StepFirst(y, Tick(now - y.clock), [BeginScan(0, s)] + b, t);
    a := [Tick(now - y.clock)] + ([BeginScan(0, s)] + b);
  }

  // ---------------------------------------------------------------- a reason is needed

  /** The ledger grew without another staging of the token. */
  predicate GrewWithout(ledger: seq<Event>, more: seq<Event>, t: Token) {
    && ledger <= more
    && forall i :: |ledger| <= i < |more| && more[i].kind.Staged? ==> more[i].target != HashOf(t)
  }

  ghost predicate Traced(y: System, z: System, t: Token) {
    && GrewWithout(y.ledger, z.ledger, t) && y.clock <= z.clock
    && forall j: Caller :: Holds(y.ledger, PcOf(z, j), t) ==> Reason(y, t)
  }

  lemma StagedBefore(ledger: seq<Event>, more: seq<Event>, workspace: string, t: Token)
    requires GrewWithout(ledger, more, t) && StagedIn(more, workspace, HashOf(t))
    ensures StagedIn(ledger, workspace, HashOf(t))
  {
    var i :| 0 <= i < |more| && more[i].target == HashOf(t) && more[i].kind.Staged? && more[i].workspace == workspace;
    assert i < |ledger| && ledger[i] == more[i];
  }

  lemma ClosedStays(ledger: seq<Event>, more: seq<Event>, target: Target)
    requires ledger <= more && Closed(ledger, target)
    ensures Closed(more, target)
  {
    var i :| 0 <= i < |ledger| && ledger[i].target == target && !ledger[i].kind.Staged?;
    assert more[i] == ledger[i];
  }

  lemma {:induction false} RecentGrows(ledger: seq<Event>, more: seq<Event>, workspace: Option<string>, since: int)
    requires ledger <= more
    ensures |Recent(ledger, workspace, since)| <= |Recent(more, workspace, since)|
    decreases |more|
  {
    if |ledger| < |more| {
      RecentGrows(ledger, more[..|more| - 1], workspace, since);
    } else {
      assert ledger == more;
    }
  }

  /** What a later scan lists for the token, a scan of the earlier ledger lists too. */
  lemma ListedBefore(ledger: seq<Event>, more: seq<Event>, s: Scope, now: int, t: Token)
    requires GrewWithout(ledger, more, t) && ScanLists(more, s, now, t)
    ensures ScanLists(ledger, s, now, t)
  {
    var since := now - MaxLifetime - IssueSkew;
    var staged := Recent(more, Some(s.workspace), since);
    RecentGrows(ledger, more, Some(s.workspace), since);
    RecentWorkspace(more, s.workspace, since);
    var i :| 0 <= i < |staged| && staged[i].token == Some(t) && Takes(staged[i], s, now);
    var e := staged[i];
    var k :| 0 <= k < |more| && more[k] == e;
    assert k < |ledger| && ledger[k] == e;
    assert e in ledger && e in Recent(ledger, Some(s.workspace), since);
    var m :| 0 <= m < |Recent(ledger, Some(s.workspace), since)| && Recent(ledger, Some(s.workspace), since)[m] == e;
  }

  lemma {:induction false} CancellationsOnly(staged: seq<Event>, closed: set<Target>, at: int)
    ensures forall i :: 0 <= i < |Cancellations(staged, closed, at)| ==> Cancellations(staged, closed, at)[i].kind.Canceled?
  {
    if staged != [] {
      if staged[0].target in closed {
        CancellationsOnly(staged[1..], closed, at);
      } else {
        CancellationsOnly(staged[1..], closed + {staged[0].target}, at);
      }
    }
  }

  lemma StepGrows(z: System, a: Action, t: Token)
    requires !Stages(a, t)
    ensures GrewWithout(z.ledger, Step(z, a).ledger, t) && z.clock <= Step(z, a).clock
  {
    if a.Cancel? && PcOf(z, a.caller).Canceling? {
      CancellationsOnly(Recent(z.ledger, None, PcOf(z, a.caller).now - MaxLifetime), ClosedTargets(z.ledger), z.clock);
    }
  }

  /** A caller holds the token after a step only if it did before, or its scan began just now. */
  lemma StepHolds(ledger: seq<Event>, z: System, a: Action, j: Caller, t: Token)
    requires Holds(ledger, PcOf(Step(z, a), j), t)
    ensures Holds(ledger, PcOf(z, j), t) || (a.BeginScan? && ScanLists(z.ledger, a.scope, z.clock, t))
  {
    if a.Look? && a.caller == j && PcOf(z, j).Scanning? && PcOf(z, j).rest != [] {
      var Scanning(s, now, rest) := PcOf(z, j);
      var after := PcOf(Step(z, a), j);
      if after.Scanning? {
        var i :| 0 <= i < |after.rest| && after.rest[i].token == Some(t) && Takes(after.rest[i], s, now);
        assert rest[i + 1] == after.rest[i];
      } else {
        assert rest[0].token == Some(t);
      }
    }
  }

  lemma StepTraced(y: System, z: System, a: Action, t: Token)
    requires Traced(y, z, t) && !Stages(a, t)
    ensures Traced(y, Step(z, a), t)
  {
    StepGrows(z, a, t);
    forall j: Caller | Holds(y.ledger, PcOf(Step(z, a), j), t) ensures Reason(y, t) {
      StepHolds(y.ledger, z, a, j, t);
      if !Holds(y.ledger, PcOf(z, j), t) {
        ListedBefore(y.ledger, z.ledger, a.scope, z.clock, t);
      }
    }
  }

  lemma {:induction false} UseHasReason(y: System, z: System, actions: seq<Action>, t: Token)
    requires Traced(y, z, t) && NoStaging(actions, t) && UsedAfter(z, actions, t)
    ensures Consumable(y, t)
    decreases |actions|
  {
    assert actions != [];
    var a, next := actions[0], Step(z, actions[0]);
    NewUse(z, a);
    if next.uses != z.uses && next.uses[|z.uses|].token == t {
      var pc := PcOf(z, a.caller);
      StagedBefore(y.ledger, z.ledger, pc.scope.workspace, t);
      assert Holds(y.ledger, pc, t);
      if Closed(y.ledger, HashOf(t)) { ClosedStays(y.ledger, z.ledger, HashOf(t)); }
    } else {
      StepTraced(y, z, a, t);
      var i :| |z.uses| <= i < |Exec(z, actions).uses| && Exec(z, actions).uses[i].token == t;
      UsesGrow(next, actions[1..]);
      assert i >= |next.uses|;
      UseHasReason(y, next, actions[1..], t);
    }
  }

  // ---------------------------------------------------------------- the condition

  /** Some continuation without another staging consumes the token exactly when it is open and
      chosen, listed by a scan in flight, or listed by some scan from now on. */
  lemma ConsumableExactlyWhen(y: System, t: Token)
    ensures (exists actions :: NoStaging(actions, t) && UsedAfter(y, actions, t)) <==> Consumable(y, t)
  {
    if exists actions :: NoStaging(actions, t) && UsedAfter(y, actions, t) {
      var actions :| NoStaging(actions, t) && UsedAfter(y, actions, t);
      UseHasReason(y, y, actions, t);
    }
    if Consumable(y, t) {
      var actions;
      if exists j: Caller :: Holds(y.ledger, PcOf(y, j), t) {
        var j: Caller :| Holds(y.ledger, PcOf(y, j), t);
        if PcOf(y, j).Chosen? {
          UseChosen(y, j, t);
          actions := [Consume(j)];
        } else {
          actions := ScanUses(y, j, t);
        }
      } else {
        var s, now :| y.clock <= now && ScanLists(y.ledger, s, now, t);
        actions := FreshUses(y, s, now, t);
      }
      assert NoStaging(actions, t) && UsedAfter(y, actions, t);
    }
  }
}
