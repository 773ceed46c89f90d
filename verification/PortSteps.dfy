/**
 The calls of a run on the control port are steps of the gate protocol's machine: each call does
 to the gate tables what the machine's step does there, and leads to the same program point. So
 a run interleaved with other operators' steps is a run of the machine, and what is proved of
 every run of the machine holds of it.
 */
module PortSteps {
  import opened Outcomes
  import opened RuntimeGate
  import opened GateProtocol
  import opened GateSafety
  import opened ControlPort
  import opened MachinePath

  /** What the port promises of a call made in the world `v`, and the world it leaves. */
  predicate Performed(v: World, c: Call, actor: Actor, outcome: Outcome, x: World) {
    match c
    case GateRead(r) => x == v && r == if outcome.Works? then Ok(v.store.gate) else Err("read_gate")
    case ClosureRead(gate, r, at) =>
      x == v && at == v.now && r == if outcome.Works? then Ok(ReadClosure(v.store, gate)) else Err("read_closure")
    case CountsRead(r) => x == v && r == if outcome.Works? then Ok(v.counts) else Err("counts")
    case GrantsReconciled(r) => x == v && (r.Ok? <==> outcome.Works?)
    case GateSwitched(expected, active, r) =>
      Effected(v, Transition(v.store, expected, active, v.now, actor), outcome, "transition", r, x)
    case ClosureEnsured(gate, r) => Effected(v, EnsureClosure(v.store, gate, actor), outcome, "ensure", r, x)
    case DrainAcknowledged(gate, r) => Effected(v, Acknowledge(v.store, gate, v.now), outcome, "acknowledge", r, x)
    case ClosureCompleted(gate, r) => Effected(v, CompleteClosure(v.store, gate), outcome, "complete", r, x)
    case _ => false
  }

  predicate Effected<T(==)>(v: World, t: (Store, Result<T>), outcome: Outcome, error: string, r: Result<T>, x: World) {
    && x == (if outcome.Fails? then v else v.(store := t.0))
    && r == (if outcome.Works? then t.1 else Err(error))
  }

  // ---------------------------------------------------------------- the port performs its calls

  method SwitchPerforms(port: Port, expected: nat, active: bool, actor: Actor) returns (r: Result<Gate>)
    modifies port
    ensures var d := port.script(old(port.calls));
      Performed(Before(old(port.world), d), GateSwitched(expected, active, r), actor, d.outcome, port.world)
    ensures port.trace == old(port.trace) + [GateSwitched(expected, active, r)]
  {
    r := port.TransitionRuntimeGate(expected, active, actor);
  }

  method EnsurePerforms(port: Port, gate: Gate, actor: Actor) returns (r: Result<()>)
    modifies port
    ensures var d := port.script(old(port.calls));
      Performed(Before(old(port.world), d), ClosureEnsured(gate, r), actor, d.outcome, port.world)
    ensures port.trace == old(port.trace) + [ClosureEnsured(gate, r)]
  {
    r := port.EnsureRuntimeClosure(gate, actor);
  }

  method AcknowledgePerforms(port: Port, gate: Gate, actor: Actor) returns (r: Result<()>)
    modifies port
    ensures var d := port.script(old(port.calls));
      Performed(Before(old(port.world), d), DrainAcknowledged(gate, r), actor, d.outcome, port.world)
    ensures port.trace == old(port.trace) + [DrainAcknowledged(gate, r)]
  {
    r := port.AcknowledgeLegacyIssuerDrain(gate);
  }

  method CompletePerforms(port: Port, gate: Gate, actor: Actor) returns (r: Result<()>)
    modifies port
    ensures var d := port.script(old(port.calls));
      Performed(Before(old(port.world), d), ClosureCompleted(gate, r), actor, d.outcome, port.world)
    ensures port.trace == old(port.trace) + [ClosureCompleted(gate, r)]
  {
    r := port.CompleteRuntimeClosure(gate);
  }

  method GateReadPerforms(port: Port, actor: Actor) returns (r: Result<Gate>)
    modifies port
    ensures var d := port.script(old(port.calls));
      Performed(Before(old(port.world), d), GateRead(r), actor, d.outcome, port.world)
    ensures port.trace == old(port.trace) + [GateRead(r)]
  {
    r := port.ReadRuntimeGate();
  }

  method ClosureReadPerforms(port: Port, gate: Gate, actor: Actor) returns (r: Result<Option<Closure>>)
    modifies port
    ensures var d := port.script(old(port.calls));
      Performed(Before(old(port.world), d), ClosureRead(gate, r, port.world.now), actor, d.outcome, port.world)
    ensures port.trace == old(port.trace) + [ClosureRead(gate, r, port.world.now)]
  {
    r := port.ReadRuntimeClosure(gate);
  }

  method CountsPerform(port: Port, actor: Actor) returns (reconciled: Result<()>, r: Result<Counts>)
    modifies port
    ensures var d0, d1 := port.script(old(port.calls)), port.script(old(port.calls) + 1);
      var v := Before(old(port.world), d0);
      && Performed(v, GrantsReconciled(reconciled), actor, d0.outcome, v)
      && Performed(Before(v, d1), CountsRead(r), actor, d1.outcome, port.world)
    ensures port.trace == old(port.trace) + [GrantsReconciled(reconciled), CountsRead(r)]
  {
    reconciled := port.ReconcileExpiredGrants();
    r := port.ReadCounts();
  }

  // ---------------------------------------------------------------- one call, one step

  function ChoiceOf(outcome: Outcome): Choice {
    match outcome
    case Works => Succeed
    case Fails => Refuse
    case Unheard => LoseResponse
  }

  /** The machine's steps for one call. */
  function Steps(op: Operator, c: Call, outcome: Outcome): seq<Action> {
    match c
    case GrantsReconciled(r) => if r.Ok? then [] else [Act(op, Refuse)]
    case CountsRead(r) => if r.Ok? then [Act(op, Observe(r.value))] else [Act(op, Refuse)]
    case GateRead(r) => [Act(op, if r.Ok? then Succeed else Refuse)]
    case ClosureRead(_, r, _) => if r.Ok? then [Act(op, Succeed), Act(op, Succeed)] else [Act(op, Refuse)]
    case _ => [Act(op, ChoiceOf(outcome))]
  }

  /** The machine stands in this world. */
  predicate Stands(s: System, w: World) { s.store == w.store && s.clock == w.now }

  predicate OthersRest(s: System, t: System, op: Operator, pc: Pc) {
    t.pcs == s.pcs[op := pc]
  }

  lemma ExecOne(s: System, a: Action)
    ensures Exec(s, [a]) == Next(s, a)
  {
    assert [a][1..] == [];
    assert Exec(Next(s, a), []) == Next(s, a);
  }

  lemma ExecTwo(s: System, a: Action, b: Action)
    ensures Exec(s, [a, b]) == Next(Next(s, a), b)
  {
    assert [a, b][1..] == [b];
    ExecOne(Next(s, a), b);
  }

  lemma ReadIsStep(s: System, op: Operator, v: World, c: Call, outcome: Outcome, x: World)
    requires op in s.pcs && Stands(s, v) && Performed(v, c, op.actor, outcome, x) && NextPc(s.pcs[op], c).Some?
    requires c.GateRead? || c.CountsRead? || c.GrantsReconciled?
    ensures var t := Exec(s, Steps(op, c, outcome));
      Stands(t, x) && OthersRest(s, t, op, NextPc(s.pcs[op], c).value)
  {
    var steps := Steps(op, c, outcome);
    if steps != [] { ExecOne(s, steps[0]); }
  }

  lemma ClosureReadIsStep(s: System, op: Operator, v: World, c: Call, outcome: Outcome, x: World)
    requires op in s.pcs && Stands(s, v) && Performed(v, c, op.actor, outcome, x) && NextPc(s.pcs[op], c).Some?
    requires c.ClosureRead?
    ensures var t := Exec(s, Steps(op, c, outcome));
      Stands(t, x) && OthersRest(s, t, op, NextPc(s.pcs[op], c).value)
  {
    if c.closure.Ok? {
      ExecTwo(s, Act(op, Succeed), Act(op, Succeed));
    } else {
      ExecOne(s, Act(op, Refuse));
    }
  }

  lemma ClosingIsStep(s: System, op: Operator, v: World, c: Call, outcome: Outcome, x: World)
    requires op in s.pcs && Stands(s, v) && Performed(v, c, op.actor, outcome, x) && NextPc(s.pcs[op], c).Some?
    requires c.GateSwitched? || c.ClosureEnsured?
    ensures var t := Exec(s, Steps(op, c, outcome));
      Stands(t, x) && OthersRest(s, t, op, NextPc(s.pcs[op], c).value)
  {
    ExecOne(s, Act(op, ChoiceOf(outcome)));
  }

  lemma ClosureIsStep(s: System, op: Operator, v: World, c: Call, outcome: Outcome, x: World)
    requires op in s.pcs && Stands(s, v) && Performed(v, c, op.actor, outcome, x) && NextPc(s.pcs[op], c).Some?
    requires c.DrainAcknowledged? || c.ClosureCompleted?
    ensures var t := Exec(s, Steps(op, c, outcome));
      Stands(t, x) && OthersRest(s, t, op, NextPc(s.pcs[op], c).value)
  {
    ExecOne(s, Act(op, ChoiceOf(outcome)));
  }

  /** A performed call that the machine makes at its program point is the machine's own step. */
  lemma CallIsStep(s: System, op: Operator, v: World, c: Call, outcome: Outcome, x: World)
    requires op in s.pcs && Stands(s, v) && Performed(v, c, op.actor, outcome, x) && NextPc(s.pcs[op], c).Some?
    ensures var t := Exec(s, Steps(op, c, outcome));
      Stands(t, x) && OthersRest(s, t, op, NextPc(s.pcs[op], c).value)
  {
    if c.GateRead? || c.CountsRead? || c.GrantsReconciled? {
      ReadIsStep(s, op, v, c, outcome, x);
    } else if c.ClosureRead? {
      ClosureReadIsStep(s, op, v, c, outcome, x);
    } else if c.GateSwitched? || c.ClosureEnsured? {
      ClosingIsStep(s, op, v, c, outcome, x);
    } else {
      ClosureIsStep(s, op, v, c, outcome, x);
    }
  }

  // ---------------------------------------------------------------- a run among others

  /** One call, after whatever other operators and the clock did before it. `found` and `left`
      are the worlds it was made in and left. */
  datatype Turn = Turn(others: seq<Action>, found: World, call: Call, outcome: Outcome, left: World)

  predicate ByOthers(op: Operator, actions: seq<Action>) {
    forall a :: a in actions && a.Act? ==> a.op != op
  }

  function Calls(turns: seq<Turn>): (calls: seq<Call>)
    ensures |calls| == |turns| && forall i :: 0 <= i < |turns| ==> calls[i] == turns[i].call
  {
    seq(|turns|, i requires 0 <= i < |turns| => turns[i].call)
  }

  function Actions(op: Operator, turns: seq<Turn>): seq<Action>
    decreases |turns|
  {
    if turns == [] then []
    else
      var last := turns[|turns| - 1];
      Actions(op, turns[..|turns| - 1]) + (last.others + Steps(op, last.call, last.outcome))
  }

  /** Every turn finds the world the machine has reached, and the port performs its call. */
  predicate Played(s: System, op: Operator, turns: seq<Turn>)
    decreases |turns|
  {
    turns == [] ||
    var last := turns[|turns| - 1];
    && Played(s, op, turns[..|turns| - 1]) && ByOthers(op, last.others)
    && Stands(Exec(s, Actions(op, turns[..|turns| - 1]) + last.others), last.found)
    && Performed(last.found, last.call, op.actor, last.outcome, last.left)
  }

  predicate Untouched(s: System, t: System, op: Operator) {
    op in s.pcs ==> op in t.pcs && t.pcs[op] == s.pcs[op]
  }

  lemma EffectKeepsOthers(s: System, o: Operator, choice: Choice, done: (Store, bool), entry: seq<Entry>, ok: Pc,
                          failed: Pc, op: Operator)
    requires o != op
    ensures Untouched(s, Effect(s, o, choice, done, entry, ok, failed), op)
  {}

  lemma ReadKeepsOthers(s: System, o: Operator, choice: Choice, op: Operator)
    requires o != op
    requires var pc := PcOf(s, o);
      choice.GiveUp? || (!pc.ActivateSwitch? && !pc.CloseApply? && !pc.FinishClosure? && !pc.AckApply?)
    ensures Untouched(s, Advance(s, o, choice), op)
  {}

  lemma StepKeepsOthers(s: System, o: Operator, choice: Choice, op: Operator)
    requires o != op
    ensures Untouched(s, Advance(s, o, choice), op)
  {
    if choice.GiveUp? {
      ReadKeepsOthers(s, o, choice, op);
      return;
    }
    match PcOf(s, o)
    case ActivateSwitch(closed) =>
      var t := Transition(s.store, closed.revision, true, s.clock, o.actor);
      EffectKeepsOthers(s, o, choice, (t.0, t.1.Ok?),
                        if t.0 != s.store then [Won(o, closed.revision, true, s.clock)] else [], Resting, Resting, op);
    case CloseApply(before, command) =>
      var t := Transition(s.store, before.revision, false, s.clock, o.actor);
      EffectKeepsOthers(s, o, choice, (t.0, t.1.Ok?),
                        if t.0 != s.store then [Won(o, before.revision, false, s.clock)] else [],
                        AfterClose(command), AfterFailure(command), op);
      var e := EnsureClosure(s.store, before, o.actor);
      EffectKeepsOthers(s, o, choice, (e.0, e.1.Ok?), [], AfterClose(command), AfterFailure(command), op);
    case FinishClosure(gate) =>
      var t := CompleteClosure(s.store, gate);
      EffectKeepsOthers(s, o, choice, (t.0, t.1.Ok?),
                        if t.0 != s.store then [Completed(o, gate.revision, s.clock)] else [], Resting, Resting, op);
    case AckApply(gate) =>
      var t := Acknowledge(s.store, gate, s.clock);
      EffectKeepsOthers(s, o, choice, (t.0, t.1.Ok?),
                        if t.0 != s.store then [Acked(o, gate.revision, s.clock)] else [], Poll(true), Resting, op);
    case _ => ReadKeepsOthers(s, o, choice, op);
  }

  lemma {:induction false} OthersKeepPc(s: System, op: Operator, actions: seq<Action>)
    requires ByOthers(op, actions)
    ensures op in s.pcs ==> op in Exec(s, actions).pcs && Exec(s, actions).pcs[op] == s.pcs[op]
    decreases |actions|
  {
    if actions != [] {
      assert actions[0] in actions;
      if actions[0].Act? { StepKeepsOthers(s, actions[0].op, actions[0].choice, op); }
      OthersKeepPc(Next(s, actions[0]), op, actions[1..]);
    }
  }

  /** One turn: the others' steps, then the machine's steps for the call. */
  lemma TurnIsSteps(y: System, op: Operator, turn: Turn)
    requires op in y.pcs && ByOthers(op, turn.others) && Stands(Exec(y, turn.others), turn.found)
    requires Performed(turn.found, turn.call, op.actor, turn.outcome, turn.left) && NextPc(y.pcs[op], turn.call).Some?
    ensures var t := Exec(y, turn.others + Steps(op, turn.call, turn.outcome));
      Stands(t, turn.left) && op in t.pcs && t.pcs[op] == NextPc(y.pcs[op], turn.call).value
  {
    OthersKeepPc(y, op, turn.others);
    CallIsStep(Exec(y, turn.others), op, turn.found, turn.call, turn.outcome, turn.left);
    ExecAppend(y, turn.others, Steps(op, turn.call, turn.outcome));
  }

  /**
   A run whose calls are a path of the machine is, with all that others do in between, a run of
   the machine: it ends at the point the path leads to, in the world the last call left.
   */
  lemma {:induction false} RunIsMachineRun(s: System, op: Operator, turns: seq<Turn>)
    requires op in s.pcs && Played(s, op, turns) && Path(s.pcs[op], Calls(turns)).Some?
    ensures var t := Exec(s, Actions(op, turns));
      && op in t.pcs && t.pcs[op] == Path(s.pcs[op], Calls(turns)).value
      && (turns != [] ==> Stands(t, turns[|turns| - 1].left))
    decreases |turns|
  {
    if turns != [] {
      var front, last := turns[..|turns| - 1], turns[|turns| - 1];
      assert Calls(turns)[..|turns| - 1] == Calls(front);
      RunIsMachineRun(s, op, front);
      var before := Actions(op, front);
      var steps := Steps(op, last.call, last.outcome);
      ExecAppend(s, before, last.others);
      ExecAppend(s, before, last.others + steps);
      TurnIsSteps(Exec(s, before), op, last);
    }
  }
}
