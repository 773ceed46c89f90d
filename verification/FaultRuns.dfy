/**
 Stagings, scans, consumptions and cancellations of many callers on one ledger. A scan lists
 its candidates once and then looks at them one by one; a cancellation fixes its time before
 its transaction runs. Anything may happen in between.
 */
module FaultRuns {
  import opened Outcomes
  import opened FaultLedger

  type Caller = nat

  datatype Pc =
    | Resting
    | Scanning(scope: Scope, now: int, rest: seq<Event>)
    | Chosen(scope: Scope, now: int, token: Token)
    | Canceling(now: int)

  /** A consumption: the token, when its scan read the clock, and when it committed. */
  datatype Use = Use(token: Token, resolvedAt: int, at: int)

  datatype System = System(ledger: seq<Event>, clock: int, pcs: map<Caller, Pc>, uses: seq<Use>)

  datatype Action =
    | Tick(elapsed: nat)
    | Stage(workspace: string, target: Target, token: Option<Token>)
    | BeginScan(caller: Caller, scope: Scope)
    | Look(caller: Caller)
    | Consume(caller: Caller)
    | BeginCancel(caller: Caller)
    | Cancel(caller: Caller)

  function PcOf(y: System, k: Caller): Pc {
    if k in y.pcs then y.pcs[k] else Resting
  }

  function Goto(y: System, k: Caller, pc: Pc): System {
    y.(pcs := y.pcs[k := pc])
  }

  function Step(y: System, a: Action): System {
    match a
    case Tick(elapsed) => y.(clock := y.clock + elapsed)
    case Stage(workspace, target, token) => y.(ledger := y.ledger + [Event(Staged, workspace, target, token, y.clock)])
    case BeginScan(k, s) =>
      (match Candidates(y.ledger, s, y.clock)
       case Err(_) => Goto(y, k, Resting)
       case Ok(staged) => Goto(y, k, Scanning(s, y.clock, staged)))
    case Look(k) =>
      (match PcOf(y, k)
       case Scanning(s, now, rest) =>
         if rest == [] then Goto(y, k, Resting)
         else if !Closed(y.ledger, rest[0].target) && Takes(rest[0], s, now) then Goto(y, k, Chosen(s, now, rest[0].token.value))
         else Goto(y, k, Scanning(s, now, rest[1..]))
       case _ => y)
    case Consume(k) =>
      (match PcOf(y, k)
       case Chosen(s, now, token) =>
         (match ConsumeTx(y.ledger, s, token, y.clock)
          case Err(_) => Goto(y, k, Resting)
          case Ok(after) => Goto(y.(ledger := after, uses := y.uses + [Use(token, now, y.clock)]), k, Resting))
       case _ => y)
    case BeginCancel(k) => Goto(y, k, Canceling(y.clock))
    case Cancel(k) =>
      (match PcOf(y, k)
       case Canceling(now) =>
         (match CancelTx(y.ledger, now, y.clock)
          case Err(_) => Goto(y, k, Resting)
          case Ok(after) => Goto(y.(ledger := after), k, Resting))
       case _ => y)
  }

  function Exec(y: System, actions: seq<Action>): System
    decreases |actions|
  {
    if actions == [] then y else Exec(Step(y, actions[0]), actions[1..])
  }

  // ---------------------------------------------------------------- terminal events

  function Terminals(ledger: seq<Event>, target: Target): nat {
    if ledger == [] then 0
    else
      Terminals(ledger[..|ledger| - 1], target)
      + (if ledger[|ledger| - 1].target == target && !ledger[|ledger| - 1].kind.Staged? then 1 else 0)
  }

  lemma {:induction false} ClosedCounts(ledger: seq<Event>, target: Target)
    ensures Closed(ledger, target) <==> Terminals(ledger, target) >= 1
  {
    if ledger != [] {
      var front := ledger[..|ledger| - 1];
      ClosedCounts(front, target);
      assert forall i :: 0 <= i < |front| ==> front[i] == ledger[i];
      if Closed(front, target) {
        var i :| 0 <= i < |front| && front[i].target == target && !front[i].kind.Staged?;
        assert ledger[i].target == target;
      }
      if Closed(ledger, target) {
        var i :| 0 <= i < |ledger| && ledger[i].target == target && !ledger[i].kind.Staged?;
        if i < |front| { assert front[i].target == target; }
      }
    }
  }

  lemma {:induction false} TerminalsAppend(a: seq<Event>, b: seq<Event>, target: Target)
    ensures Terminals(a + b, target) == Terminals(a, target) + Terminals(b, target)
    decreases |b|
  {
    if b == [] {
      assert a + b == a;
    } else {
      TerminalsAppend(a, b[..|b| - 1], target);
      assert (a + b)[..|a + b| - 1] == a + b[..|b| - 1];
    }
  }

  /** A cancellation closes each scanned target once, unless it was closed already. */
  lemma {:induction false} CancelsOnce(staged: seq<Event>, closed: set<Target>, at: int, target: Target)
    ensures Terminals(Cancellations(staged, closed, at), target) ==
      (if target !in closed && (exists i :: 0 <= i < |staged| && staged[i].target == target) then 1 else 0)
  {
    if staged != [] {
      var rest, t := staged[1..], staged[0].target;
      var more := closed + {t};
      assert forall i :: 0 < i < |staged| ==> staged[i] == rest[i - 1];
      assert (exists i :: 0 <= i < |staged| && staged[i].target == target) <==>
        (t == target || exists i :: 0 <= i < |rest| && rest[i].target == target) by {
        if exists i :: 0 <= i < |rest| && rest[i].target == target {
          var i :| 0 <= i < |rest| && rest[i].target == target;
          assert staged[i + 1].target == target;
        }
      }
      if t in closed {
        CancelsOnce(rest, closed, at, target);
      } else {
        CancelsOnce(rest, more, at, target);
        var e := Event(Canceled, staged[0].workspace, t, None, at);
        TerminalsAppend([e], Cancellations(rest, more, at), target);
        assert [e][..0] == [];
      }
    }
  }

  ghost predicate OneTerminal(ledger: seq<Event>) {
    forall target :: Terminals(ledger, target) <= 1
  }

  lemma CancelTxCloses(ledger: seq<Event>, now: int, at: int, target: Target)
    requires CancelTx(ledger, now, at).Ok?
    ensures Terminals(CancelTx(ledger, now, at).value, target) == Terminals(ledger, target) +
      (if !Closed(ledger, target) && (exists e :: e in ledger && e.kind.Staged? && e.target == target && e.at >= now - MaxLifetime)
       then 1 else 0)
  {
    var staged := Recent(ledger, None, now - MaxLifetime);
    CancelsOnce(staged, ClosedTargets(ledger), at, target);
    TerminalsAppend(ledger, Cancellations(staged, ClosedTargets(ledger), at), target);
    assert target in ClosedTargets(ledger) <==> Closed(ledger, target);
    if exists e :: e in ledger && e.kind.Staged? && e.target == target && e.at >= now - MaxLifetime {
      var e :| e in ledger && e.kind.Staged? && e.target == target && e.at >= now - MaxLifetime;
      assert e in staged;
    }
  }

  /** A step appends to the ledger, and closes a target only if it was open. */
  lemma StepTerminals(y: System, a: Action, target: Target)
    ensures Terminals(y.ledger, target) <= Terminals(Step(y, a).ledger, target)
    ensures Terminals(Step(y, a).ledger, target) <= Terminals(y.ledger, target) + 1
    ensures Closed(y.ledger, target) ==> Terminals(Step(y, a).ledger, target) == Terminals(y.ledger, target)
  {
    match a
    case Stage(workspace, t, token) =>
      TerminalsAppend(y.ledger, [Event(Staged, workspace, t, token, y.clock)], target);
    case Consume(k) =>
      if PcOf(y, k).Chosen? {
        var e := Event(Consumed, PcOf(y, k).scope.workspace, HashOf(PcOf(y, k).token), None, y.clock);
        TerminalsAppend(y.ledger, [e], target);
        assert [e][..0] == [];
      }
    case Cancel(k) =>
      if PcOf(y, k).Canceling? && CancelTx(y.ledger, PcOf(y, k).now, y.clock).Ok? {
        CancelTxCloses(y.ledger, PcOf(y, k).now, y.clock, target);
      }
    case _ =>
  }

  /** In every interleaving each plan has at most one terminal event. */
  lemma {:induction false} AtMostOneTerminal(y: System, actions: seq<Action>)
    requires OneTerminal(y.ledger)
    ensures OneTerminal(Exec(y, actions).ledger)
    decreases |actions|
  {
    if actions != [] {
      forall target ensures Terminals(Step(y, actions[0]).ledger, target) <= 1 {
        StepTerminals(y, actions[0], target);
        ClosedCounts(y.ledger, target);
      }
      AtMostOneTerminal(Step(y, actions[0]), actions[1..]);
    }
  }

  /** A closed plan is never opened, canceled or consumed again. */
  lemma {:induction false} ClosedForGood(y: System, actions: seq<Action>, target: Target)
    requires Closed(y.ledger, target)
    ensures Closed(Exec(y, actions).ledger, target)
    ensures Terminals(Exec(y, actions).ledger, target) == Terminals(y.ledger, target)
    ensures var z := Exec(y, actions);
      y.uses <= z.uses && forall i :: |y.uses| <= i < |z.uses| ==> HashOf(z.uses[i].token) != target
    decreases |actions|
  {
    if actions != [] {
      var z := Step(y, actions[0]);
      StepTerminals(y, actions[0], target);
      ClosedCounts(y.ledger, target);
      ClosedCounts(z.ledger, target);
      ClosedForGood(z, actions[1..], target);
      NewUse(y, actions[0]);
    }
  }

  /** A step uses at most one token, which was open and is one its caller had chosen. */
  lemma NewUse(y: System, a: Action)
    ensures var z := Step(y, a);
      z.uses == y.uses ||
      (a.Consume? && PcOf(y, a.caller).Chosen? && !Closed(y.ledger, HashOf(PcOf(y, a.caller).token))
       && z.uses == y.uses + [Use(PcOf(y, a.caller).token, PcOf(y, a.caller).now, y.clock)])
  {}

  // ---------------------------------------------------------------- what callers hold

  /** Scans and choices were made at or after `since`; chosen tokens verified when scanned. */
  predicate PcFrom(pc: Pc, since: int, clock: int) {
    match pc
    case Scanning(_, now, _) => since <= now <= clock
    case Chosen(_, now, token) => since <= now <= clock && Verified(token, now)
    case Canceling(now) => now <= clock
    case Resting => true
  }

  predicate CallersFrom(y: System, since: int) {
    since <= y.clock && forall k :: k in y.pcs ==> PcFrom(y.pcs[k], since, y.clock)
  }

  lemma GotoCallers(y: System, k: Caller, pc: Pc, since: int)
    requires CallersFrom(y, since) && PcFrom(pc, since, y.clock)
    ensures CallersFrom(Goto(y, k, pc), since)
  {}

  lemma LookCallers(y: System, k: Caller, since: int)
    requires CallersFrom(y, since)
    ensures CallersFrom(Step(y, Look(k)), since)
  {
    if k in y.pcs && y.pcs[k].Scanning? {
      var Scanning(s, now, rest) := y.pcs[k];
      GotoCallers(y, k, Resting, since);
      if rest != [] {
        GotoCallers(y, k, Scanning(s, now, rest[1..]), since);
        if Takes(rest[0], s, now) { GotoCallers(y, k, Chosen(s, now, rest[0].token.value), since); }
      }
    }
  }

  lemma BeginCallers(y: System, k: Caller, s: Scope, since: int)
    requires CallersFrom(y, since)
    ensures CallersFrom(Step(y, BeginScan(k, s)), since)
  {
    match Candidates(y.ledger, s, y.clock)
    case Err(_) => GotoCallers(y, k, Resting, since);
    case Ok(staged) => GotoCallers(y, k, Scanning(s, y.clock, staged), since);
  }

  lemma EndCallers(y: System, a: Action, k: Caller, since: int)
    requires CallersFrom(y, since) && (a == Consume(k) || a == Cancel(k))
    ensures CallersFrom(Step(y, a), since)
  {}

  lemma StepCallers(y: System, a: Action, since: int)
    requires CallersFrom(y, since)
    ensures CallersFrom(Step(y, a), since)
  {
    match a
    case Look(k) => LookCallers(y, k, since);
    case BeginScan(k, s) => BeginCallers(y, k, s, since);
    case Tick(_) =>
    case Stage(_, _, _) =>
    case BeginCancel(k) => GotoCallers(y, k, Canceling(y.clock), since);
    case Consume(k) => EndCallers(y, a, k, since);
    case Cancel(k) => EndCallers(y, a, k, since);
  }

  /** Every later use was resolved at or after `since`, by a token verified then. */
  lemma {:induction false} UsesFrom(y: System, actions: seq<Action>, since: int)
    requires CallersFrom(y, since)
    ensures var z := Exec(y, actions);
      && y.uses <= z.uses && CallersFrom(z, since)
      && forall i :: |y.uses| <= i < |z.uses| ==>
           since <= z.uses[i].resolvedAt <= z.uses[i].at && Verified(z.uses[i].token, z.uses[i].resolvedAt)
    decreases |actions|
  {
    if actions != [] {
      StepCallers(y, actions[0], since);
      UsesFrom(Step(y, actions[0]), actions[1..], since);
      NewUse(y, actions[0]);
    }
  }
}
