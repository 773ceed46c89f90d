/**
 Safety of the gate protocol over every interleaving of operator runs.
 */
module GateSafety {
  import opened Outcomes
  import opened RuntimeGate
  import opened GateProtocol

  // ---------------------------------------------------------------- how the store moves

  lemma EvolvesTransitive(s: System, t: System, u: System)
    requires Evolves(s, t) && Evolves(t, u)
    ensures Evolves(s, u)
  {
    assert u.log[..|s.log|] == u.log[..|t.log|][..|s.log|];
  }

  lemma EffectMoves(s: System, op: Operator, choice: Choice, done: (Store, bool), entry: seq<Entry>, ok: Pc, failed: Pc)
    requires Moves(s, s.(store := done.0, log := s.log + entry))
    ensures Moves(s, Effect(s, op, choice, done, entry, ok, failed))
  {
    assert s.log[..|s.log|] == s.log;
  }

  lemma SwitchMoves(s: System, op: Operator, choice: Choice, gate: Gate, active: bool, ok: Pc, failed: Pc,
                      first: nat, offset: int)
    requires Invariant(s, first, offset) && Snapshot(gate, s.store, offset) && gate.active != active
    requires active ==> s.store.closures[gate.revision].complete
    ensures Moves(s, SwitchGate(s, op, choice, gate.revision, active, ok, failed))
  {
    var t := Transition(s.store, gate.revision, active, s.clock, op.actor);
    var entry := if t.0 != s.store then [Won(op, gate.revision, active, s.clock)] else [];
    if t.0 != s.store {
      SwitchKeeps(s, op, gate.revision, active, first, offset);
    } else {
      assert s.log + [] == s.log && s.log[..|s.log|] == s.log;
    }
    EffectMoves(s, op, choice, (t.0, t.1.Ok?), entry, ok, failed);
  }

  /** The gate was activated from a closure that had been completed. */
  predicate ActiveOk(s: Store) {
    s.gate.active ==>
      s.gate.revision > 0 && s.gate.revision - 1 in s.closures && s.closures[s.gate.revision - 1].complete
  }

  /** The store moves along `Evolves`, and a gate that becomes active has its closure. */
  predicate Moves(s: System, t: System) {
    Evolves(s, t) && (ActiveOk(s.store) ==> ActiveOk(t.store))
  }

  lemma SameStoreMoves(s: System, t: System)
    requires t.store == s.store && t.clock == s.clock && |s.log| <= |t.log| && t.log[..|s.log|] == s.log
    ensures Moves(s, t)
  {}

  lemma ReadingMoves(s: System, op: Operator, choice: Choice)
    requires PcOf(s, op).Resting? || PcOf(s, op).ActivateRead? || PcOf(s, op).ActivateAssert? || PcOf(s, op).CloseRead?
    ensures Moves(s, Advance(s, op, choice))
  {
    assert s.log[..|s.log|] == s.log;
    SameStoreMoves(s, Advance(s, op, choice));
  }

  lemma PollingMoves(s: System, op: Operator, choice: Choice)
    requires PcOf(s, op).Poll? || PcOf(s, op).PollGate? || PcOf(s, op).PollClosure? || PcOf(s, op).PollDecide?
      || PcOf(s, op).AckRead?
    ensures Moves(s, Advance(s, op, choice))
  {
    assert s.log[..|s.log|] == s.log;
    SameStoreMoves(s, Advance(s, op, choice));
  }

  lemma GiveUpMoves(s: System, op: Operator, choice: Choice)
    requires choice.GiveUp?
    ensures Moves(s, Advance(s, op, choice))
  {
    assert s.log[..|s.log|] == s.log;
    SameStoreMoves(s, Advance(s, op, choice));
  }

  lemma ClosingMoves(s: System, op: Operator, choice: Choice, before: Gate, command: Command, first: nat, offset: int)
    requires Invariant(s, first, offset) && PcOf(s, op) == CloseApply(before, command) && !choice.GiveUp?
    ensures Moves(s, Advance(s, op, choice))
  {
    PcHolds(s, op, first, offset);
    if before.active {
      SwitchMoves(s, op, choice, before, false, AfterClose(command), AfterFailure(command), first, offset);
    } else {
      assert EnsureClosure(s.store, before, op.actor).0 == s.store;
      assert s.log + [] == s.log && s.log[..|s.log|] == s.log;
      SameStoreMoves(s, Advance(s, op, choice));
    }
  }

  lemma AdvanceMoves(s: System, op: Operator, choice: Choice, first: nat, offset: int)
    requires Invariant(s, first, offset)
    ensures Moves(s, Advance(s, op, choice))
  {
    if choice.GiveUp? {
      GiveUpMoves(s, op, choice);
      return;
    }
    PcHolds(s, op, first, offset);
    match PcOf(s, op)
    case ActivateSwitch(closed) => SwitchMoves(s, op, choice, closed, true, Resting, Resting, first, offset);
    case CloseApply(before, command) => ClosingMoves(s, op, choice, before, command, first, offset);
    case FinishClosure(gate) => FinishMoves(s, op, choice, gate, first, offset);
    case AckApply(gate) => AckMoves(s, op, choice, gate, first, offset);
    case Resting => ReadingMoves(s, op, choice);
    case ActivateRead => ReadingMoves(s, op, choice);
    case ActivateAssert(_) => ReadingMoves(s, op, choice);
    case CloseRead(_) => ReadingMoves(s, op, choice);
    case _ => PollingMoves(s, op, choice);
  }

  lemma FinishMoves(s: System, op: Operator, choice: Choice, gate: Gate, first: nat, offset: int)
    requires Invariant(s, first, offset) && SawZero(s.log, op, |s.log|) && MayFinish(s, gate)
    ensures var t := CompleteClosure(s.store, gate);
      Moves(s, Effect(s, op, choice, (t.0, t.1.Ok?),
        if t.0 != s.store then [Completed(op, gate.revision, s.clock)] else [], Resting, Resting))
  {
    var t := CompleteClosure(s.store, gate);
    var entry := if t.0 != s.store then [Completed(op, gate.revision, s.clock)] else [];
    if t.0 != s.store {
      CompleteKeeps(s, op, gate, first, offset);
    } else {
      assert s.log + [] == s.log && s.log[..|s.log|] == s.log;
    }
    EffectMoves(s, op, choice, (t.0, t.1.Ok?), entry, Resting, Resting);
  }

  lemma AckMoves(s: System, op: Operator, choice: Choice, gate: Gate, first: nat, offset: int)
    requires Invariant(s, first, offset) && SawZero(s.log, op, |s.log|)
    ensures var t := Acknowledge(s.store, gate, s.clock);
      Moves(s, Effect(s, op, choice, (t.0, t.1.Ok?),
        if t.0 != s.store then [Acked(op, gate.revision, s.clock)] else [], Poll(true), Resting))
  {
    var t := Acknowledge(s.store, gate, s.clock);
    var entry := if t.0 != s.store then [Acked(op, gate.revision, s.clock)] else [];
    if t.0 != s.store {
      AckKeeps(s, op, gate, first, offset);
    } else {
      assert s.log + [] == s.log && s.log[..|s.log|] == s.log;
    }
    EffectMoves(s, op, choice, (t.0, t.1.Ok?), entry, Poll(true), Resting);
  }

  lemma {:induction false} ExecMoves(s: System, actions: seq<Action>, first: nat, offset: int)
    requires Invariant(s, first, offset)
    ensures Moves(s, Exec(s, actions))
    decreases |actions|
  {
    assert s.log[..|s.log|] == s.log;
    if actions != [] {
      var n := Next(s, actions[0]);
      NextKeeps(s, actions[0], first, offset);
      if actions[0].Act? { AdvanceMoves(s, actions[0].op, actions[0].choice, first, offset); }
      ExecMoves(n, actions[1..], first, offset);
      EvolvesTransitive(s, n, Exec(n, actions[1..]));
    }
  }

  lemma {:induction false} ExecAppend(s: System, a: seq<Action>, b: seq<Action>)
    ensures Exec(s, a + b) == Exec(Exec(s, a), b)
    decreases |a|
  {
    if a == [] {
      assert a + b == b;
    } else {
      assert (a + b)[1..] == a[1..] + b;
      ExecAppend(Next(s, a[0]), a[1..], b);
    }
  }

  lemma {:induction false} WinsMonotone(log: seq<Entry>, i: nat, j: nat)
    requires i <= j <= |log|
    ensures Wins(log[..i]) <= Wins(log[..j])
    ensures i < j && log[i].Won? ==> Wins(log[..i]) < Wins(log[..j])
    decreases j - i
  {
    if i < j {
      WinsMonotone(log, i, j - 1);
      assert log[..j][..j - 1] == log[..j - 1];
    }
  }

  // ---------------------------------------------------------------- theorems

  /** Revision and epoch rise together, by one for each won transition and by nothing else. */
  lemma RevisionCountsWins(init: System, actions: seq<Action>)
    requires Initial(init)
    ensures var t := Exec(init, actions);
      && t.store.gate.revision == init.store.gate.revision + Wins(t.log)
      && t.store.gate.epoch == init.store.gate.epoch + Wins(t.log)
  {
    InitialOk(init);
    ExecKeeps(init, actions, init.store.gate.revision, init.store.gate.epoch - init.store.gate.revision);
  }

  /** No expected revision is won twice, by whichever operators. */
  lemma OneWinPerRevision(init: System, actions: seq<Action>, j: nat, k: nat)
    requires Initial(init)
    requires j < k < |Exec(init, actions).log|
    requires Exec(init, actions).log[j].Won? && Exec(init, actions).log[k].Won?
    ensures Exec(init, actions).log[j].expected < Exec(init, actions).log[k].expected
  {
    InitialOk(init);
    ExecKeeps(init, actions, init.store.gate.revision, init.store.gate.epoch - init.store.gate.revision);
    WinsMonotone(Exec(init, actions).log, j, k);
  }

  /** A closed gate always has its closure record; an active gate at revision n + 1 has a
      completed closure n, acknowledged a full quarantine period ago. */
  lemma GateHasItsClosure(init: System, actions: seq<Action>)
    requires Initial(init)
    ensures var t := Exec(init, actions);
      && (!t.store.gate.active ==>
            t.store.gate.revision in t.store.closures
            && t.store.closures[t.store.gate.revision].closedEpoch == t.store.gate.epoch)
      && (t.store.gate.active ==>
            ActiveOk(t.store) && QuarantinePassed(t.log, t.store.gate.revision - 1, |t.log|, t.clock))
  {
    InitialOk(init);
    var first, offset := init.store.gate.revision, init.store.gate.epoch - init.store.gate.revision;
    ExecKeeps(init, actions, first, offset);
    ExecMoves(init, actions, first, offset);
  }

  /** Quarantine: the run that completes a closure has itself seen all four counts at zero, and
      the closure was acknowledged at least 61 minutes and 1 second before. */
  lemma CompletionAfterQuarantine(init: System, actions: seq<Action>, j: nat)
    requires Initial(init)
    requires j < |Exec(init, actions).log| && Exec(init, actions).log[j].Completed?
    ensures var log := Exec(init, actions).log;
      && SawZero(log, log[j].op, j)
      && QuarantinePassed(log, log[j].revision, j, log[j].at)
  {
    InitialOk(init);
    ExecKeeps(init, actions, init.store.gate.revision, init.store.gate.epoch - init.store.gate.revision);
    assert Justified(Exec(init, actions).log, j);
  }

  /** A run is past the point where it could still switch the gate. */
  predicate PastSwitch(pc: Pc) {
    !pc.ActivateRead? && !pc.ActivateAssert? && !pc.ActivateSwitch? && !pc.CloseRead? && !pc.CloseApply?
  }

  predicate Started(s: System, op: Operator) {
    op in s.pcs && PastSwitch(s.pcs[op])
  }

  /** Every poll belongs to a run past its switch, and comes after all that run has switched. */
  predicate PollsLast(s: System) {
    && (forall i :: 0 <= i < |s.log| && s.log[i].Polled? ==> Started(s, s.log[i].op))
    && forall i, j :: 0 <= i < |s.log| && 0 <= j < |s.log| && s.log[i].Polled? && s.log[j].Won? ==>
         s.log[i].op == s.log[j].op ==> j < i
  }

  /** What one step of a run adds to the log. */
  ghost predicate Adds(s: System, op: Operator, t: System) {
    && (t.log == s.log || (|t.log| == |s.log| + 1 && t.log == s.log + [t.log[|s.log|]] && t.log[|s.log|].op == op))
    && (t.log != s.log && t.log[|s.log|].Won? ==> !PastSwitch(PcOf(s, op)))
    && (t.log != s.log && t.log[|s.log|].Polled? ==> Started(t, op))
    && (Started(s, op) ==> Started(t, op))
    && (forall o :: o != op ==> (Started(s, o) <==> Started(t, o)))
  }

  lemma EffectAdds(s: System, op: Operator, choice: Choice, done: (Store, bool), entry: seq<Entry>, ok: Pc, failed: Pc)
    requires |entry| <= 1 && (entry != [] ==> entry[0].op == op && !entry[0].Polled?)
    requires entry != [] && entry[0].Won? ==> !PastSwitch(PcOf(s, op))
    requires PastSwitch(ok) && PastSwitch(failed)
    ensures Adds(s, op, Effect(s, op, choice, done, entry, ok, failed))
  {
    assert s.log + [] == s.log;
  }

  lemma SwitchAdds(s: System, op: Operator, choice: Choice, expected: nat, active: bool, ok: Pc, failed: Pc)
    requires !PastSwitch(PcOf(s, op)) && PastSwitch(ok) && PastSwitch(failed)
    ensures Adds(s, op, SwitchGate(s, op, choice, expected, active, ok, failed))
  {
    var t := Transition(s.store, expected, active, s.clock, op.actor);
    EffectAdds(s, op, choice, (t.0, t.1.Ok?),
               if t.0 != s.store then [Won(op, expected, active, s.clock)] else [], ok, failed);
  }

  lemma CloseAdds(s: System, op: Operator, choice: Choice)
    requires PcOf(s, op).CloseApply? && !choice.GiveUp?
    ensures Adds(s, op, Advance(s, op, choice))
  {
    var CloseApply(before, command) := PcOf(s, op);
    if before.active {
      SwitchAdds(s, op, choice, before.revision, false, AfterClose(command), AfterFailure(command));
    } else {
      var e := EnsureClosure(s.store, before, op.actor);
      EffectAdds(s, op, choice, (e.0, e.1.Ok?), [], AfterClose(command), AfterFailure(command));
    }
  }

  /** Steps without an effect on the store add a poll or nothing. */
  lemma ReadAdds(s: System, op: Operator, choice: Choice)
    requires var pc := PcOf(s, op);
      choice.GiveUp? || (!pc.ActivateSwitch? && !pc.CloseApply? && !pc.FinishClosure? && !pc.AckApply?)
    ensures Adds(s, op, Advance(s, op, choice))
  {
    assert s.log + [] == s.log;
  }

  lemma AdvanceAdds(s: System, op: Operator, choice: Choice)
    ensures Adds(s, op, Advance(s, op, choice))
  {
    if choice.GiveUp? {
      ReadAdds(s, op, choice);
      return;
    }
    match PcOf(s, op)
    case ActivateSwitch(closed) => SwitchAdds(s, op, choice, closed.revision, true, Resting, Resting);
    case CloseApply(_, _) => CloseAdds(s, op, choice);
    case FinishClosure(gate) =>
      var t := CompleteClosure(s.store, gate);
      EffectAdds(s, op, choice, (t.0, t.1.Ok?),
                 if t.0 != s.store then [Completed(op, gate.revision, s.clock)] else [], Resting, Resting);
    case AckApply(gate) =>
      var t := Acknowledge(s.store, gate, s.clock);
      EffectAdds(s, op, choice, (t.0, t.1.Ok?),
                 if t.0 != s.store then [Acked(op, gate.revision, s.clock)] else [], Poll(true), Resting);
    case _ => ReadAdds(s, op, choice);
  }

  lemma AdvancePollsLast(s: System, op: Operator, choice: Choice)
    requires PollsLast(s)
    ensures PollsLast(Advance(s, op, choice))
  {
    var t := Advance(s, op, choice);
    AdvanceAdds(s, op, choice);
    assert forall i :: 0 <= i < |s.log| ==> t.log[i] == s.log[i];
  }

  lemma {:induction false} ExecPollsLast(s: System, actions: seq<Action>)
    requires PollsLast(s)
    ensures PollsLast(Exec(s, actions))
    decreases |actions|
  {
    if actions != [] {
      if actions[0].Act? { AdvancePollsLast(s, actions[0].op, actions[0].choice); }
      ExecPollsLast(Next(s, actions[0]), actions[1..]);
    }
  }

  /** A run that closed the gate itself polled, and so acknowledged or completed, only after that. */
  lemma PollsFollowOwnClose(init: System, actions: seq<Action>, i: nat, j: nat)
    requires Initial(init)
    requires i < |Exec(init, actions).log| && j < |Exec(init, actions).log|
    requires var log := Exec(init, actions).log; log[i].Polled? && log[j].Won? && log[i].op == log[j].op
    ensures j < i
  {
    ExecPollsLast(init, actions);
  }

  /** Reactivation of a gate closed at revision n waits for the quarantine of closure n. */
  lemma ReactivationAfterQuarantine(init: System, actions: seq<Action>, j: nat)
    requires Initial(init)
    requires j < |Exec(init, actions).log| && Exec(init, actions).log[j].Won? && Exec(init, actions).log[j].active
    ensures var log := Exec(init, actions).log;
      CompletedBefore(log, log[j].expected, j, log[j].at) && QuarantinePassed(log, log[j].expected, j, log[j].at)
  {
    InitialOk(init);
    ExecKeeps(init, actions, init.store.gate.revision, init.store.gate.epoch - init.store.gate.revision);
    var log := Exec(init, actions).log;
    assert Justified(log, j);
    var i :| 0 <= i < j && log[i].Completed? && log[i].revision == log[j].expected && log[i].at <= log[j].at;
    assert Justified(log, i);
    var a :| 0 <= a < i && log[a].Acked? && log[a].revision == log[i].revision && log[a].at + Quarantine <= log[i].at;
  }

  /** The deadline is set at most once: each revision is acknowledged at most once, and only
      after its acknowledger saw all four counts at zero. */
  lemma AcknowledgedOnce(init: System, actions: seq<Action>, j: nat, k: nat)
    requires Initial(init)
    requires j < k < |Exec(init, actions).log|
    requires Exec(init, actions).log[j].Acked? && Exec(init, actions).log[k].Acked?
    ensures Exec(init, actions).log[j].revision != Exec(init, actions).log[k].revision
    ensures SawZero(Exec(init, actions).log, Exec(init, actions).log[k].op, k)
  {
    InitialOk(init);
    ExecKeeps(init, actions, init.store.gate.revision, init.store.gate.epoch - init.store.gate.revision);
    assert Justified(Exec(init, actions).log, k);
  }

  /** Whatever happens next: closure records are never removed, "complete" is absorbing, the
      barrier never comes back, and a deadline once set is never moved. */
  lemma ClosuresOnlyAdvance(init: System, actions: seq<Action>, more: seq<Action>, r: nat)
    requires Initial(init) && r in Exec(init, actions).store.closures
    ensures var c, later := Exec(init, actions).store.closures[r], Exec(init, actions + more).store.closures;
      && r in later
      && (c.complete ==> later[r].complete)
      && (!c.barrier ==> !later[r].barrier && later[r].unsafeUntil == c.unsafeUntil)
  {
    InitialOk(init);
    var first, offset := init.store.gate.revision, init.store.gate.epoch - init.store.gate.revision;
    ExecKeeps(init, actions, first, offset);
    ExecMoves(Exec(init, actions), more, first, offset);
    ExecAppend(init, actions, more);
  }

  // ---------------------------------------------------------------- the initial record matters

  /** A closed gate without a closure record: the case `ensureRuntimeClosure` repairs. */
  predicate Unrecorded(s: System) {
    && !s.store.gate.active && s.store.gate.revision !in s.store.closures
    && s.pcs == map[] && s.log == []
  }

  function One(): Operator { Operator(1, 0) }

  function Two(): Operator { Operator(2, 0) }

  /** From such a start the programs alone do not keep the quarantine. A rollback whose own
      closing call was refused reads no record, another operator's kill switch then creates
      the record, and the rollback completes it with its barrier still up. */
  lemma UnrecordedGateIsUnsafe(s: System)
    requires Unrecorded(s)
    ensures exists actions: seq<Action> ::
      var t := Exec(s, actions);
      s.store.gate.revision in t.store.closures && t.store.closures[s.store.gate.revision].complete
      && t.store.closures[s.store.gate.revision].barrier && NeverAcked(t.log, s.store.gate.revision, |t.log|)
  {
    var zero, g := Counts(0, 0, 0, 0), s.store.gate;
    var actions := [Act(One(), StartClose(Rollback)), Act(One(), Refuse), Act(One(), Observe(zero)), Act(One(), Succeed),
                    Act(One(), Succeed), Act(One(), Succeed), Act(Two(), StartClose(KillSwitch)), Act(Two(), Succeed),
                    Act(Two(), Succeed), Act(One(), Succeed)];
    var s5 := Goto(s.(log := [Polled(One(), zero)]), One(), PollDecide(g, None, false));
    StaleRead(s, s5);
    var s9 := s5.(pcs := map[One() := FinishClosure(g), Two() := Resting],
                  store := s.store.(closures := s.store.closures[g.revision := NewClosure(g.epoch, Two().actor)]));
    LateRecord(s5, s9, g);
    LateCompletion(s9, g);
    ExecSteps(s, actions, s5, s9, Next(s9, Act(One(), Succeed)));
  }

  lemma LateCompletion(s9: System, g: Gate)
    requires s9.store.gate == g && !g.active && PcOf(s9, One()) == FinishClosure(g)
    requires g.revision in s9.store.closures && s9.store.closures[g.revision] == NewClosure(g.epoch, Two().actor)
    requires NeverAcked(s9.log, g.revision, |s9.log|)
    ensures var t := Next(s9, Act(One(), Succeed));
      && g.revision in t.store.closures && t.store.closures[g.revision].complete
      && t.store.closures[g.revision].barrier && NeverAcked(t.log, g.revision, |t.log|)
  {}

  lemma StaleRead(s: System, s5: System)
    requires Unrecorded(s)
    requires s5 == Goto(s.(log := [Polled(One(), Counts(0, 0, 0, 0))]), One(), PollDecide(s.store.gate, None, false))
    ensures Next(Next(Next(Next(Next(s, Act(One(), StartClose(Rollback))), Act(One(), Refuse)),
      Act(One(), Observe(Counts(0, 0, 0, 0)))), Act(One(), Succeed)), Act(One(), Succeed)) == s5
  {
    var zero := Counts(0, 0, 0, 0);
    var s1 := Next(s, Act(One(), StartClose(Rollback)));
    assert s1 == Goto(s, One(), CloseRead(Rollback));
    var s2 := Next(s1, Act(One(), Refuse));
    assert s2 == Goto(s, One(), Poll(false));
    var s3 := Next(s2, Act(One(), Observe(zero)));
    assert s.log + [Polled(One(), zero)] == [Polled(One(), zero)];
    assert s3 == Goto(s.(log := [Polled(One(), zero)]), One(), PollGate(false));
    var s4 := Next(s3, Act(One(), Succeed));
    assert s4 == Goto(s.(log := [Polled(One(), zero)]), One(), PollClosure(s.store.gate, false));
  }

  lemma LateRecord(s5: System, s9: System, g: Gate)
    requires g == s5.store.gate && !g.active && g.revision !in s5.store.closures
    requires s5.pcs == map[One() := PollDecide(g, None, false)]
    requires s9 == s5.(pcs := map[One() := FinishClosure(g), Two() := Resting],
                  store := s5.store.(closures := s5.store.closures[g.revision := NewClosure(g.epoch, Two().actor)]))
    ensures Next(Next(Next(Next(s5, Act(One(), Succeed)), Act(Two(), StartClose(KillSwitch))), Act(Two(), Succeed)),
      Act(Two(), Succeed)) == s9
  {
    var s6 := Next(s5, Act(One(), Succeed));
    assert s6 == s5.(pcs := map[One() := FinishClosure(g)]);
    var s7 := Next(s6, Act(Two(), StartClose(KillSwitch)));
    assert s7 == s5.(pcs := map[One() := FinishClosure(g), Two() := CloseRead(KillSwitch)]);
    var s8 := Next(s7, Act(Two(), Succeed));
    assert s8 == s5.(pcs := map[One() := FinishClosure(g), Two() := CloseApply(g, KillSwitch)]);
    assert s8.log + [] == s8.log;
  }

  lemma ExecSteps(s: System, a: seq<Action>, s5: System, s9: System, s10: System)
    requires |a| == 10
    requires s5 == Next(Next(Next(Next(Next(s, a[0]), a[1]), a[2]), a[3]), a[4])
    requires s9 == Next(Next(Next(Next(s5, a[5]), a[6]), a[7]), a[8]) && s10 == Next(s9, a[9])
    ensures Exec(s, a) == s10
  {
    assert a == a[..5] + a[5..];
    ExecAppend(s, a[..5], a[5..]);
    ExecFive(s, a[..5]);
    ExecFive(s5, a[5..]);
  }

  lemma ExecFive(s: System, a: seq<Action>)
    requires |a| == 5
    ensures Exec(s, a) == Next(Next(Next(Next(Next(s, a[0]), a[1]), a[2]), a[3]), a[4])
  {
    var s1 := Next(s, a[0]);
    var s2 := Next(s1, a[1]);
    var s3 := Next(s2, a[2]);
    var s4 := Next(s3, a[3]);
    assert a[1..][1..] == a[2..] && a[2..][1..] == a[3..] && a[3..][1..] == a[4..] && a[4..][1..] == [];
    assert Exec(s4, a[4..]) == Next(s4, a[4]);
    assert Exec(s3, a[3..]) == Exec(s4, a[4..]);
    assert Exec(s2, a[2..]) == Exec(s3, a[3..]);
    assert Exec(s1, a[1..]) == Exec(s2, a[2..]);
  }
}
