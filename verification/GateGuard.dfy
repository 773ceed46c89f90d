/**
 The database's own guard on closure records: it refuses to complete a closure whose barrier
 stands or whose deadline has not passed. From the migration's start it never has to; from a
 start without that record it is what keeps the quarantine.
 */
module GateGuard {
  import opened Outcomes
  import opened RuntimeGate
  import opened GateProtocol
  import opened GateSafety

  /** The completing update of this gate's record would be refused. */
  predicate Refuses(s: System, gate: Gate) {
    && gate.revision in s.store.closures
    && var c := s.store.closures[gate.revision]; !c.complete && (c.barrier || s.clock < c.unsafeUntil)
  }

  /** A refused update makes the call throw without effect. */
  function Guarded(s: System, a: Action): Action {
    if a.Act? && PcOf(s, a.op).FinishClosure? && Refuses(s, PcOf(s, a.op).gate)
       && (a.choice.Succeed? || a.choice.LoseResponse?) then Act(a.op, Refuse)
    else a
  }

  function GuardedExec(s: System, actions: seq<Action>): System
    decreases |actions|
  {
    if actions == [] then s else GuardedExec(Next(s, Guarded(s, actions[0])), actions[1..])
  }

  /** Every complete closure was acknowledged and is past its deadline. */
  predicate CompleteInTime(s: System) {
    forall r :: r in s.store.closures && s.store.closures[r].complete ==>
      !s.store.closures[r].barrier && s.store.closures[r].unsafeUntil <= s.clock
  }

  lemma EffectInTime(s: System, op: Operator, choice: Choice, done: (Store, bool), entry: seq<Entry>, ok: Pc, failed: Pc)
    requires CompleteInTime(s) && (choice.Succeed? || choice.LoseResponse? ==> CompleteInTime(s.(store := done.0)))
    ensures CompleteInTime(Effect(s, op, choice, done, entry, ok, failed))
  {}

  lemma SwitchInTime(s: System, op: Operator, choice: Choice, expected: nat, active: bool, ok: Pc, failed: Pc)
    requires CompleteInTime(s)
    ensures CompleteInTime(SwitchGate(s, op, choice, expected, active, ok, failed))
  {
    var t := Transition(s.store, expected, active, s.clock, op.actor);
    EffectInTime(s, op, choice, (t.0, t.1.Ok?),
                 if t.0 != s.store then [Won(op, expected, active, s.clock)] else [], ok, failed);
  }

  lemma CloseInTime(s: System, op: Operator, choice: Choice)
    requires CompleteInTime(s) && PcOf(s, op).CloseApply? && !choice.GiveUp?
    ensures CompleteInTime(Advance(s, op, choice))
  {
    var CloseApply(before, command) := PcOf(s, op);
    if before.active {
      SwitchInTime(s, op, choice, before.revision, false, AfterClose(command), AfterFailure(command));
    } else {
      var e := EnsureClosure(s.store, before, op.actor);
      EffectInTime(s, op, choice, (e.0, e.1.Ok?), [], AfterClose(command), AfterFailure(command));
    }
  }

  lemma FinishInTime(s: System, op: Operator, choice: Choice)
    requires CompleteInTime(s) && PcOf(s, op).FinishClosure?
    ensures CompleteInTime(Next(s, Guarded(s, Act(op, choice))))
  {
    var gate := PcOf(s, op).gate;
    var t := CompleteClosure(s.store, gate);
    EffectInTime(s, op, Guarded(s, Act(op, choice)).choice, (t.0, t.1.Ok?),
                 if t.0 != s.store then [Completed(op, gate.revision, s.clock)] else [], Resting, Resting);
  }

  lemma AckInTime(s: System, op: Operator, choice: Choice)
    requires CompleteInTime(s) && PcOf(s, op).AckApply? && !choice.GiveUp?
    ensures CompleteInTime(Advance(s, op, choice))
  {
    var gate := PcOf(s, op).gate;
    var t := Acknowledge(s.store, gate, s.clock);
    EffectInTime(s, op, choice, (t.0, t.1.Ok?),
                 if t.0 != s.store then [Acked(op, gate.revision, s.clock)] else [], Poll(true), Resting);
  }

  lemma ReadInTime(s: System, op: Operator, choice: Choice)
    requires CompleteInTime(s)
    requires var pc := PcOf(s, op);
      choice.GiveUp? || (!pc.ActivateSwitch? && !pc.CloseApply? && !pc.FinishClosure? && !pc.AckApply?)
    ensures CompleteInTime(Advance(s, op, choice))
  {}

  lemma GuardedKeeps(s: System, a: Action)
    requires CompleteInTime(s)
    ensures CompleteInTime(Next(s, Guarded(s, a)))
  {
    if a.Act? {
      var op, choice := a.op, a.choice;
      if choice.GiveUp? {
        ReadInTime(s, op, choice);
      } else {
        match PcOf(s, op)
        case ActivateSwitch(closed) => SwitchInTime(s, op, choice, closed.revision, true, Resting, Resting);
        case CloseApply(_, _) => CloseInTime(s, op, choice);
        case FinishClosure(_) => FinishInTime(s, op, choice);
        case AckApply(_) => AckInTime(s, op, choice);
        case _ => ReadInTime(s, op, choice);
      }
    }
  }

  /** The guarded runs complete no closure behind its barrier or before its deadline, whether the
      gate they start from has a record or not. */
  lemma {:induction false} GuardedRunsInTime(s: System, actions: seq<Action>)
    requires CompleteInTime(s)
    ensures CompleteInTime(GuardedExec(s, actions))
    decreases |actions|
  {
    if actions != [] {
      GuardedKeeps(s, actions[0]);
      GuardedRunsInTime(Next(s, Guarded(s, actions[0])), actions[1..]);
    }
  }

  /** From a recorded start the guard never refuses anything: the programs keep it unaided. */
  lemma GuardIdle(init: System, actions: seq<Action>)
    requires Initial(init)
    ensures GuardedExec(init, actions) == Exec(init, actions)
  {
    InitialOk(init);
    GuardIdleFrom(init, actions, init.store.gate.revision, init.store.gate.epoch - init.store.gate.revision);
  }

  lemma {:induction false} GuardIdleFrom(s: System, actions: seq<Action>, first: nat, offset: int)
    requires Invariant(s, first, offset)
    ensures GuardedExec(s, actions) == Exec(s, actions)
    decreases |actions|
  {
    if actions != [] {
      if actions[0].Act? { PcHolds(s, actions[0].op, first, offset); }
      assert Guarded(s, actions[0]) == actions[0];
      NextKeeps(s, actions[0], first, offset);
      GuardIdleFrom(Next(s, actions[0]), actions[1..], first, offset);
    }
  }
}
