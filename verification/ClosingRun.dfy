/**
 The drain and rollback commands of `executeHostedPoolControl`: a run against a port whose
 calls may fail, lose their response, or find the world changed by others. What a run has
 done is read off its port's call trace.
 */
module ClosingRun {
  import opened Outcomes
  import opened RuntimeGate
  import opened GateProtocol
  import opened ControlPort
  import opened CallHistory
  import opened MachinePath
  import opened RollbackEvidence
  import opened ClosingWorld

  /** The observation was made by the three calls from `k` on, the last of the trace. */
  predicate Observed(t: seq<Call>, k: nat, event: Event) {
    && |t| == k + 3 && event.gate.Some? && event.counts.Some? && |event.services| == 2
    && t[k] == FlagsRead(Ok(event.services))
    && t[k + 1] == GateRead(Ok(event.gate.value))
    && t[k + 2] == CountsRead(Ok(event.counts.value))
  }

  lemma ThreeReads(rollback: bool, t: seq<Call>, since: nat, flags: Result<seq<Service>>, gate: Result<Gate>,
                   counts: Result<Counts>)
    requires OrderOk(rollback, t, since)
    ensures OrderOk(rollback, t + [FlagsRead(flags)] + [GateRead(gate)] + [CountsRead(counts)], since)
  {
    FreeCall(rollback, t, since, FlagsRead(flags));
    FreeCall(rollback, t + [FlagsRead(flags)], since, GateRead(gate));
    FreeCall(rollback, t + [FlagsRead(flags)] + [GateRead(gate)], since, CountsRead(counts));
  }

  /** The gate this run closed, or recorded as closed, at `p` is the one observed next. */
  lemma ClosedNow(u: seq<Call>, p: nat, t: seq<Call>, closed: Gate, seen: Event)
    requires p < |u| && u <= t && ClosedAt(u, p, closed.revision) && Observed(t, |u|, seen)
    requires !seen.gate.value.active && seen.gate.value.revision == closed.revision
    ensures GateSeenClosed(t, p)
  {
    assert t[p] == u[p] && ClosedRead(t, |u| + 1) && ClosedAt(t, p, t[|u| + 1].gate.value.revision);
  }

  // ---------------------------------------------------------------- what the script decides

  /** The next two calls read a gate and a standing barrier of its closure. */
  predicate BarrierRead(script: nat -> Disturbance, c: nat, w: World) {
    var v := Before(w, script(c));
    && script(c).outcome.Works? && script(c + 1).outcome.Works?
    && Standing(ReadClosure(Before(v, script(c + 1)).store, v.store.gate))
  }

  /** The next four calls poll zero counts and then read a gate behind a standing barrier. */
  predicate BarrierAtPoll(script: nat -> Disturbance, c: nat, w: World) {
    var v := Before(Before(w, script(c)), script(c + 1));
    && script(c).outcome.Works? && script(c + 1).outcome.Works? && Drained(v.counts)
    && BarrierRead(script, c + 2, v)
  }

  /** The world after four calls that change nothing themselves. */
  function AfterFour(script: nat -> Disturbance, c: nat, w: World): World {
    Before(Before(Before(Before(w, script(c)), script(c + 1)), script(c + 2)), script(c + 3))
  }

  /** The next two calls read a gate and acknowledge its drain. */
  predicate Acknowledges(script: nat -> Disturbance, c: nat, w: World) {
    && script(c).outcome.Works? && script(c + 1).outcome.Works?
    && AcknowledgmentResult(w, script(c), script(c + 1)).Ok?
  }

  function AcknowledgedWorld(script: nat -> Disturbance, c: nat, w: World): World {
    AfterAcknowledgment(w, script(c), script(c + 1))
  }

  lemma CalmlyAcknowledged(script: nat -> Disturbance, c: nat, w: World)
    requires Calm(script(c)) && Calm(script(c + 1)) && !w.store.gate.active && BarrierUp(w.store, w.store.gate.revision)
    ensures Acknowledges(script, c, w) && AckOutcome(w, AcknowledgedWorld(script, c, w))
  {}

  /** Where the machine's drain loop stands after an answer. */
  function WaitEnd(final: bool, r: Result<Wait>): Pc {
    if r == Ok(WaitLegacyReady) && !final then AckRead else Resting
  }

  function PollEnd(final: bool, r: Result<Option<Wait>>): Pc {
    if r == Ok(None) && !final then Poll(false) else if r == Ok(Some(WaitLegacyReady)) && !final then AckRead else Resting
  }

  function Answered(r: Result<Option<Wait>>): Result<Wait>
    requires r.Ok? ==> r.value.Some?
  {
    match r
    case Ok(wait) => Ok(wait.value)
    case Err(e) => Err(e)
  }

  class Run {
    const port: Port
    const rollback: bool
    const actor: Actor
    ghost const since: nat
    var events: seq<Event>
    var failures: seq<string>

    /** A run on a port; its own calls are those of the port's trace from `since` on. */
    constructor (port: Port, rollback: bool, actor: Actor)
      ensures this.port == port && this.rollback == rollback && this.actor == actor
      ensures events == [] && failures == [] && since == |port.trace|
    {
      this.port, this.rollback, this.actor, this.since := port, rollback, actor, |port.trace|;
      events, failures := [], [];
    }

    /** The machine's command this run carries out. */
    function Closing(): Command { if rollback then Rollback else Drain }

    /** Every call of the run so far was made when it might be. */
    ghost predicate Ordered()
      reads this, port
    {
      since <= |port.trace| && OrderOk(rollback, port.trace, since)
    }

    /** And as long as no failure is recorded, every call returned. */
    ghost predicate Valid()
      reads this, port
    {
      Ordered() && (failures == [] ==> AllFine(port.trace, since))
    }

    /** Every call since the trace was `t` returned. */
    ghost predicate FineSince(t: seq<Call>)
      reads port
    {
      t <= port.trace && AllFine(port.trace, |t|)
    }

    /** `rollbackFailures.push(error)`, which a drain replaces by throwing. */
    method Record(error: string)
      requires Ordered()
      modifies `failures
      ensures Valid() && failures == old(failures) + [error]
    {
      failures := failures + [error];
    }

    method Observe(phase: Phase) returns (r: Result<Event>)
      requires Ordered()
      modifies `events, port
      ensures port.world.now >= old(port.world.now)
      ensures Ordered() && port.calls == old(port.calls) + 3 && old(port.trace) <= port.trace
      ensures r.Ok? ==> FineSince(old(port.trace)) && Observed(port.trace, |old(port.trace)|, r.value)
      ensures r.Ok? ==> r.value.phase == phase && events == old(events) + [r.value]
      ensures r.Err? ==> events == old(events)
      ensures port.CalmFrom(old(port.calls)) && Ready(old(port.world)) && rollback ==>
        OnlyTime(old(port.world), port.world) && r.Ok?
        && r.value.services == port.world.services && r.value.counts == Some(port.world.counts)
        && r.value.gate == Some(port.world.store.gate)
    {
      ghost var t := port.trace;
      var flags := port.ReadFlags();
      var gate := port.ReadRuntimeGate();
      var counts := port.ReadCounts();
      ThreeReads(rollback, t, since, flags, gate, counts);
      if flags.Err? || gate.Err? || counts.Err? {
        return Err("observe");
      }
      if !ValidFlags(flags.value, rollback) {
        return Err("flags");
      }
      if !ValidGate(gate.value) {
        return Err("hosted_pool_runtime_gate_invalid");
      }
      var event := Event(phase, flags.value, Some(counts.value), Some(gate.value));
      events := events + [event];
      return Ok(event);
    }

    /** `assertObservedPatch(await observe(phase), patch)`. */
    method ObserveOff(phase: Phase, name: FlagName) returns (r: Result<()>)
      requires Ordered()
      modifies `events, port
      ensures port.world.now >= old(port.world.now)
      ensures Ordered() && old(port.trace) <= port.trace && old(events) <= events
      ensures |events| <= |old(events)| + 1
      ensures |events| > |old(events)| ==> events[|old(events)|].phase == phase
      ensures r.Ok? ==> |events| == |old(events)| + 1 && BothOff(events[|old(events)|], name)
      ensures r.Ok? ==> FineSince(old(port.trace)) && OffAt(port.trace, |old(port.trace)|, name)
      ensures port.calls == old(port.calls) + 3
      ensures port.CalmFrom(old(port.calls)) && Ready(old(port.world)) && rollback ==>
        OnlyTime(old(port.world), port.world) &&
        (r.Ok? <==> Get(port.world.services[0], name) == Off && Get(port.world.services[1], name) == Off)
    {
      var seen := Observe(phase);
      if seen.Err? {
        return Err(seen.error);
      }
      if !BothOff(seen.value, name) {
        return Err("hosted_pool_control_flag_not_active");
      }
      return Ok(());
    }

    /** The `setFlags` call of one closing phase, its failure recorded. */
    method PatchOff(name: FlagName)
      requires Valid() && rollback && MayPatch(rollback, port.trace, since, name)
      modifies `failures, port
      ensures port.world.now >= old(port.world.now) && port.calls == old(port.calls) + 1
      ensures Valid() && old(failures) <= failures
      ensures old(port.trace) <= port.trace && PatchedAt(port.trace, |old(port.trace)|, name)
      ensures Calm(port.script(old(port.calls))) ==>
        && failures == old(failures)
        && OnlyTime(old(port.world).(services := AllServicesOff(old(port.world).services, name)), port.world)
    {
      ghost var t := port.trace;
      var patched := port.SetFlagOff(name);
      CallMade(rollback, t, since, FlagPatched(name, patched));
      if patched.Err? {
        Record(patched.error);
      }
    }

    /** One closing phase of a rollback: `setFlags` and the re-read, failures recorded. */
    method CloseFlag(phase: Phase, name: FlagName)
      requires Valid() && rollback && MayPatch(rollback, port.trace, since, name)
      modifies `events, `failures, port
      ensures port.world.now >= old(port.world.now)
      ensures Valid() && old(port.trace) <= port.trace && old(events) <= events && old(failures) <= failures
      ensures |events| <= |old(events)| + 1
      ensures |events| > |old(events)| ==> events[|old(events)|].phase == phase
      ensures failures == old(failures) ==> |events| == |old(events)| + 1 && BothOff(events[|old(events)|], name)
      ensures failures == old(failures) ==> SeenOff(port.trace, since, name)
      ensures port.calls == old(port.calls) + 4
      ensures port.CalmFrom(old(port.calls)) && Ready(old(port.world)) ==>
        && failures == old(failures) && Ready(port.world)
        && OnlyTime(old(port.world).(services := AllServicesOff(old(port.world).services, name)), port.world)
    {
      ghost var t := port.trace;
      PatchOff(name);
      ghost var u := port.trace;
      var seen := ObserveOff(phase, name);
      if seen.Err? {
        Record(seen.error);
      } else {
        if failures == [] { FineBefore(u, port.trace, since); }
        PatchSeen(port.trace, since, |t|, |u|, name);
      }
    }

    /** Appending an event that is not an observation. */
    method Push(phase: Phase)
      modifies `events
      ensures events == old(events) + [Event(phase, [], None, None)]
    {
      events := events + [Event(phase, [], None, None)];
    }

    /** `waitForDrain`. `read` is the gate row it based its answer on. Whatever happens around
        it, each answer rests on the last calls made. */
    method WaitForDrain(maxPolls: nat, ghost final: bool) returns (r: Result<Wait>, ghost read: Gate)
      requires Ordered() && (final ==> maxPolls <= 1)
      modifies `events, port
      ensures port.calls >= old(port.calls)
      ensures old(events) <= events && Unwatched(events, |old(events)|)
      ensures Ordered() && old(port.trace) <= port.trace
      ensures Walks(Poll(final), old(port.trace), port.trace)
      ensures r.Ok? ==> Leads(Poll(final), old(port.trace), port.trace, WaitEnd(final, r))
      ensures r.Ok? ==> FineSince(old(port.trace)) && WaitProven(port.trace, |old(port.trace)|, r.value, read)
      ensures StoreEvolves(old(port.world).store, port.world.store)
      ensures r == Ok(WaitLegacyReady) ==> BarrierUp(port.world.store, read.revision)
      ensures maxPolls == 1 ==>
        (r == Ok(WaitLegacyReady) <==> BarrierAtPoll(port.script, old(port.calls), old(port.world)))
      ensures maxPolls == 1 && r == Ok(WaitLegacyReady) ==>
        port.calls == old(port.calls) + 4 && port.world == AfterFour(port.script, old(port.calls), old(port.world))
      ensures port.CalmFrom(old(port.calls)) && Drained(old(port.world).counts) && maxPolls >= 1 ==>
        WaitOutcome(old(port.world), r, port.world)
    {
      read := port.world.store.gate;
      ghost var start := port.calls;
      LeadsNowhere(Poll(final), port.trace);
      for poll := 0 to maxPolls
        invariant old(events) <= events && Unwatched(events, |old(events)|)
        invariant Ordered() && FineSince(old(port.trace))
        invariant Leads(Poll(final), old(port.trace), port.trace, if poll > 0 && final then Resting else Poll(final))
        invariant StoreEvolves(old(port.world).store, port.world.store)
        invariant port.calls >= start
        invariant poll == 0 ==> port.world == old(port.world) && port.calls == start
        invariant poll > 0 ==> !(port.CalmFrom(start) && Drained(old(port.world).counts))
        invariant poll > 0 && maxPolls == 1 ==> !BarrierAtPoll(port.script, start, old(port.world))
      {
        ghost var s, t := port.world.store, port.trace;
        var answer;
        answer, read := OnePoll(final);
        EvolvesOn(old(port.world).store, s, port.world.store);
        if answer.Ok? { FineJoins(old(port.trace), t, port.trace); }
        LeadsOn(Poll(final), old(port.trace), t, Poll(final), port.trace);
        if answer != Ok(None) {
          return Answered(answer), read;
        }
      }
      return Err("hosted_pool_admission_drain_timeout"), read;
    }

    /** One turn of the drain loop: its answer, or none while something is left to drain. */
    method OnePoll(ghost final: bool) returns (r: Result<Option<Wait>>, ghost read: Gate)
      requires Ordered()
      modifies `events, port
      ensures port.calls >= old(port.calls)
      ensures old(events) <= events && Unwatched(events, |old(events)|)
      ensures Ordered() && old(port.trace) <= port.trace
      ensures Leads(Poll(final), old(port.trace), port.trace, PollEnd(final, r))
      ensures r.Ok? ==> FineSince(old(port.trace))
      ensures r.Ok? && r.value.Some? ==> WaitProven(port.trace, |old(port.trace)|, r.value.value, read)
      ensures StoreEvolves(old(port.world).store, port.world.store)
      ensures r == Ok(Some(WaitLegacyReady)) ==> BarrierUp(port.world.store, read.revision)
      ensures r == Ok(Some(WaitLegacyReady)) <==> BarrierAtPoll(port.script, old(port.calls), old(port.world))
      ensures r == Ok(Some(WaitLegacyReady)) ==>
        port.calls == old(port.calls) + 4 && port.world == AfterFour(port.script, old(port.calls), old(port.world))
      ensures port.CalmFrom(old(port.calls)) && Drained(old(port.world).counts) ==>
        r != Ok(None) && WaitOutcome(old(port.world), Answered(r), port.world)
    {
      read := port.world.store.gate;
      ghost var c, w, t := port.calls, port.world, port.trace;
      var counts := PollCounts(final);
      if counts.Err? {
        return Err(counts.error), read;
      }
      Push(DrainPoll);
      if !Drained(counts.value) {
        return Ok(None), read;
      }
      ghost var v, u := port.world, port.trace;
      var wait;
      wait, read := AfterPoll(final);
      EvolvesOn(w.store, v.store, port.world.store);
      if wait.Ok? { FineJoins(t, u, port.trace); }
      LeadsOn(Poll(final), t, u, PollGate(final), port.trace);
      if port.CalmFrom(c) { LaterWait(w, v, wait, port.world); }
      r := if wait.Ok? then Ok(Some(wait.value)) else Err(wait.error);
    }

    /** Expiry reconciliation and the counts after it. */
    method PollCounts(ghost final: bool) returns (r: Result<Counts>)
      requires Ordered()
      modifies port
      ensures port.calls >= old(port.calls)
      ensures Ordered() && old(port.trace) <= port.trace
      ensures Leads(Poll(final), old(port.trace), port.trace,
        if r.Ok? && Drained(r.value) then PollGate(final) else if r.Err? || final then Resting else Poll(false))
      ensures r.Ok? ==> FineSince(old(port.trace)) && |port.trace| == |old(port.trace)| + 2
      ensures r.Ok? && Drained(r.value) ==> PolledZero(port.trace, since)
      ensures StoreEvolves(old(port.world).store, port.world.store)
      ensures var d0, d1 := port.script(old(port.calls)), port.script(old(port.calls) + 1);
        && (r.Ok? <==> d0.outcome.Works? && d1.outcome.Works?)
        && (r.Ok? ==> port.calls == old(port.calls) + 2)
        && (r.Ok? ==> port.world == Before(Before(old(port.world), d0), d1) && r.value == port.world.counts)
      ensures port.CalmFrom(old(port.calls)) ==> r == Ok(old(port.world).counts) && OnlyTime(old(port.world), port.world)
    {
      ghost var t := port.trace;
      var reconciled := port.ReconcileExpiredGrants();
      FreeCall(rollback, t, since, GrantsReconciled(reconciled));
      LeadsNowhere(Poll(final), t);
      LeadsByCall(Poll(final), t, t, Poll(final), GrantsReconciled(reconciled));
      if reconciled.Err? {
        return Err(reconciled.error);
      }
      ghost var s, u := port.world.store, port.trace;
      r := port.ReadCounts();
      FreeCall(rollback, u, since, CountsRead(r));
      LeadsByCall(Poll(final), t, u, Poll(final), CountsRead(r));
      EvolvesOn(old(port.world).store, s, port.world.store);
    }

    /** The rest of the loop body once all four counts are zero. */
    method AfterPoll(ghost final: bool) returns (r: Result<Wait>, ghost read: Gate)
      requires Ordered() && PolledZero(port.trace, since)
      modifies `events, port
      ensures port.calls >= old(port.calls)
      ensures old(events) <= events && Unwatched(events, |old(events)|)
      ensures Ordered() && old(port.trace) <= port.trace
      ensures Leads(PollGate(final), old(port.trace), port.trace, WaitEnd(final, r))
      ensures r.Ok? ==> FineSince(old(port.trace)) && WaitProven(port.trace, |old(port.trace)| - 2, r.value, read)
      ensures StoreEvolves(old(port.world).store, port.world.store)
      ensures r == Ok(WaitLegacyReady) ==> BarrierUp(port.world.store, read.revision)
      ensures r == Ok(WaitLegacyReady) <==> BarrierRead(port.script, old(port.calls), old(port.world))
      ensures r == Ok(WaitLegacyReady) ==>
        && port.calls == old(port.calls) + 2
        && port.world == Before(Before(old(port.world), port.script(old(port.calls))), port.script(old(port.calls) + 1))
      ensures port.CalmFrom(old(port.calls)) ==> WaitOutcome(old(port.world), r, port.world)
    {
      ghost var s0 := port.world.store;
      read := s0.gate;
      var seen := ReadGateAndClosure(final);
      if seen.Err? {
        return Err(seen.error), read;
      }
      var (gate, closure) := seen.value;
      read := gate;
      ghost var t, s, at := port.trace, port.world.store, port.world.now;
      r := Conclude(gate, closure, final);
      EvolvesOn(s0, s, port.world.store);
      if r.Ok? { FineJoins(old(port.trace), t, port.trace); }
      LeadsOn(PollGate(final), old(port.trace), t, Decide(gate, closure, final, at), port.trace);
    }

    /** What the closure read last calls for: acknowledgment, waiting, or completion. */
    method Conclude(gate: Gate, closure: Option<Closure>, ghost final: bool) returns (r: Result<Wait>)
      requires Ordered() && |port.trace| >= since + 4 && ZeroPoll(port.trace, |port.trace| - 4)
      requires port.trace[|port.trace| - 2].gate.value == gate
      requires port.trace[|port.trace| - 1] == ClosureRead(gate, Ok(closure), port.world.now)
      modifies `events, port
      ensures port.calls >= old(port.calls)
      ensures old(events) <= events && Unwatched(events, |old(events)|)
      ensures Ordered() && old(port.trace) <= port.trace
      ensures Leads(Decide(gate, closure, final, old(port.world).now), old(port.trace), port.trace, WaitEnd(final, r))
      ensures r.Ok? ==> FineSince(old(port.trace)) && WaitProven(port.trace, |old(port.trace)| - 4, r.value, gate)
      ensures StoreEvolves(old(port.world).store, port.world.store)
      ensures Standing(closure) <==> r == Ok(WaitLegacyReady)
      ensures Waits(closure, old(port.world).now) <==> r == Ok(WaitQuarantine)
      ensures Standing(closure) || Waits(closure, old(port.world).now) ==>
        port.calls == old(port.calls) && port.world == old(port.world)
      ensures var w := Before(old(port.world), port.script(old(port.calls))); var t := CompleteClosure(w.store, gate);
        Calm(port.script(old(port.calls))) && !Standing(closure) && !Waits(closure, old(port.world).now) ==>
          r == (if t.1.Ok? then Ok(WaitComplete) else Err(t.1.error)) && port.world == w.(store := t.0)
    {
      LeadsNowhere(Decide(gate, closure, final, port.world.now), port.trace);
      if closure.Some? && !closure.value.complete {
        if closure.value.barrier {
          return Ok(WaitLegacyReady);
        }
        if closure.value.unsafeUntil > port.world.now {
          Push(QuarantineWaiting);
          return Ok(WaitQuarantine);
        }
      }
      ghost var t := port.trace;
      var done := port.CompleteRuntimeClosure(gate);
      CallMade(rollback, t, since, ClosureCompleted(gate, done));
      LeadsByCall(FinishClosure(gate), t, t, FinishClosure(gate), ClosureCompleted(gate, done));
      if done.Err? {
        return Err(done.error);
      }
      CertifiedNow(t, gate, done);
      return Ok(WaitComplete);
    }

    /** The gate, and the closure record of that gate. */
    method ReadGateAndClosure(ghost final: bool) returns (r: Result<(Gate, Option<Closure>)>)
      requires Ordered() && PolledZero(port.trace, since)
      modifies port
      ensures port.calls >= old(port.calls)
      ensures Ordered() && old(port.trace) <= port.trace
      ensures Leads(PollGate(final), old(port.trace), port.trace,
        if r.Ok? then Decide(r.value.0, r.value.1, final, port.world.now) else Resting)
      ensures r.Ok? ==>
        && port.trace == old(port.trace) + [GateRead(Ok(r.value.0)), ClosureRead(r.value.0, Ok(r.value.1), port.world.now)]
        && FineSince(old(port.trace)) && ZeroPoll(port.trace, |port.trace| - 4)
      ensures StoreEvolves(old(port.world).store, port.world.store)
      ensures var d0, d1 := port.script(old(port.calls)), port.script(old(port.calls) + 1);
        var w := Before(old(port.world), d0);
        && (r.Ok? <==> d0.outcome.Works? && d1.outcome.Works?)
        && (r.Ok? ==> port.calls == old(port.calls) + 2 && port.world == Before(w, d1))
        && (r.Ok? ==> r.value == (w.store.gate, ReadClosure(port.world.store, w.store.gate)))
    {
      ghost var s0, t := port.world.store, port.trace;
      var gate := port.ReadRuntimeGate();
      FreeCall(rollback, t, since, GateRead(gate));
      LeadsNowhere(PollGate(final), t);
      LeadsByCall(PollGate(final), t, t, PollGate(final), GateRead(gate));
      if gate.Err? {
        return Err(gate.error);
      }
      ghost var s1, u := port.world.store, port.trace;
      var closure := port.ReadRuntimeClosure(gate.value);
      FreeCall(rollback, u, since, ClosureRead(gate.value, closure, port.world.now));
      LeadsByCall(PollGate(final), t, u, PollClosure(gate.value, final), ClosureRead(gate.value, closure, port.world.now));
      EvolvesOn(s0, s1, port.world.store);
      return if closure.Ok? then Ok((gate.value, closure.value)) else Err(closure.error);
    }

    /** The drain block: wait, acknowledge the legacy issuer once, wait again. `Ok(false)`
        means the run must stop and be resumed after the quarantine. */
    method DrainPhase(maxPolls: nat) returns (r: Result<bool>)
      requires Valid() && (rollback || SeenOff(port.trace, since, Admission))
      modifies `events, port
      ensures port.calls >= old(port.calls)
      ensures Ordered() && old(port.trace) <= port.trace
      ensures Walks(Poll(false), old(port.trace), port.trace)
      ensures r.Ok? ==> FineSince(old(port.trace))
      ensures old(events) <= events && Unwatched(events, |old(events)|)
      ensures r == Ok(true) ==> DrainSeen(port.trace, since)
      ensures port.CalmFrom(old(port.calls)) && Ready(old(port.world)) && maxPolls >= 1 ==>
        DrainOutcome(old(port.world), r, port.world)
    {
      ghost var calm := port.CalmFrom(port.calls) && Ready(port.world) && maxPolls >= 1;
      ghost var t := port.trace;
      var wait, read := WaitForDrain(maxPolls, false);
      StillSeen(t, port.trace, since);
      if wait == Ok(WaitLegacyReady) {
        ghost var v, u := port.world, port.trace;
        WaitShows(u, since, |t|, WaitLegacyReady, read);
        r := AcknowledgeAndWait();
        if r.Ok? { FineJoins(t, u, port.trace); }
        LeadsOn(Poll(false), t, u, AckRead, port.trace);
        if calm { LaterDrain(old(port.world), v, r, port.world); }
      } else {
        if calm { CalmWait(old(port.world), wait, port.world); }
        if wait == Ok(WaitComplete) { WaitShows(port.trace, since, |t|, WaitComplete, read); }
        r := SecondAnswer(wait);
      }
    }

    /** The body of `if (drain === "legacy_ready")` and what its second answer leads to. In every
        world the block answers `true` after its second poll read a standing barrier, and that
        gate is then not the acknowledged one; it answers `true` otherwise only when certified. */
    method AcknowledgeAndWait() returns (r: Result<bool>)
      requires Ordered() && MayAcknowledge(rollback, port.trace, since)
      modifies `events, port
      ensures port.calls >= old(port.calls)
      ensures Ordered() && old(port.trace) <= port.trace
      ensures Walks(AckRead, old(port.trace), port.trace)
      ensures r.Ok? ==> FineSince(old(port.trace))
      ensures old(events) <= events && Unwatched(events, |old(events)|)
      ensures r == Ok(true) ==> DrainSeen(port.trace, since)
      ensures r == Ok(true) ==> EndsCertified(port.trace) || EndsBehindOther(port.trace, since)
      ensures var c, w := old(port.calls), old(port.world);
        var barrier := BarrierAtPoll(port.script, c + 2, AcknowledgedWorld(port.script, c, w));
        Acknowledges(port.script, c, w) ==> (r == Ok(true) && EndsBehindOther(port.trace, since) <==> barrier)
      ensures var w := old(port.world);
        port.CalmFrom(old(port.calls)) && Ready(w) && BarrierUp(w.store, w.store.gate.revision) ==>
          DrainOutcome(w, r, port.world)
    {
      ghost var t, w := port.trace, port.world;
      var acknowledged := ReadAndAcknowledge();
      if acknowledged.Err? {
        return Err(acknowledged.error);
      }
      Push(LegacyDrainAcknowledged);
      ghost var u, a := port.trace, port.world;
      var wait, read := WaitForDrain(1, true);
      LeadsOn(AckRead, t, u, Poll(true), port.trace);
      r := SecondAnswer(wait);
      assert RecordKept(a.store, port.world.store, acknowledged.value);
      if port.CalmFrom(old(port.calls)) && Ready(w) && BarrierUp(w.store, w.store.gate.revision) {
        CalmAcknowledgment(w, a, wait, port.world);
      }
      if wait.Ok? {
        FineJoins(t, u, port.trace);
        WaitShows(port.trace, since, |u|, wait.value, read);
        if wait.value == WaitLegacyReady { OtherShows(u, port.trace, since, acknowledged.value, read); }
      }
    }

    /** Reads the gate and acknowledges the drain of its revision. */
    method ReadAndAcknowledge() returns (r: Result<nat>)
      requires Ordered() && MayAcknowledge(rollback, port.trace, since)
      modifies port
      ensures port.calls >= old(port.calls)
      ensures Ordered() && old(port.trace) <= port.trace
      ensures Leads(AckRead, old(port.trace), port.trace, if r.Ok? then Poll(true) else Resting)
      ensures r.Ok? ==> FineSince(old(port.trace)) && AckedLast(port.trace, since, r.value)
      ensures r.Ok? ==> BarrierDown(port.world.store, r.value)
      ensures r.Ok? ==> Acknowledges(port.script, old(port.calls), old(port.world))
      ensures Acknowledges(port.script, old(port.calls), old(port.world)) ==>
        r.Ok? && port.calls == old(port.calls) + 2
        && port.world == AcknowledgedWorld(port.script, old(port.calls), old(port.world))
      ensures var w := old(port.world);
        port.CalmFrom(old(port.calls)) && BarrierUp(w.store, w.store.gate.revision) && !w.store.gate.active ==>
          r.Ok? && AckOutcome(w, port.world)
    {
      ghost var w, c := port.world, port.calls;
      r := TwoAcknowledgingCalls();
      if port.CalmFrom(c) && BarrierUp(w.store, w.store.gate.revision) && !w.store.gate.active {
        CalmlyAcknowledged(port.script, c, w);
      }
    }

    method TwoAcknowledgingCalls() returns (r: Result<nat>)
      requires Ordered() && MayAcknowledge(rollback, port.trace, since)
      modifies port
      ensures port.calls >= old(port.calls)
      ensures Ordered() && old(port.trace) <= port.trace
      ensures Leads(AckRead, old(port.trace), port.trace, if r.Ok? then Poll(true) else Resting)
      ensures r.Ok? ==> FineSince(old(port.trace)) && AckedLast(port.trace, since, r.value)
      ensures r.Ok? ==> BarrierDown(port.world.store, r.value)
      ensures r.Ok? ==> Acknowledges(port.script, old(port.calls), old(port.world))
      ensures Acknowledges(port.script, old(port.calls), old(port.world)) ==>
        r.Ok? && port.calls == old(port.calls) + 2
        && port.world == AcknowledgedWorld(port.script, old(port.calls), old(port.world))
    {
      ghost var t := port.trace;
      var closed := port.ReadRuntimeGate();
      FreeCall(rollback, t, since, GateRead(closed));
      AckPath(t, closed);
      if closed.Err? {
        return Err(closed.error);
      }
      var acknowledged := port.AcknowledgeLegacyIssuerDrain(closed.value);
      AcknowledgesInOrder(rollback, t, since, GateRead(closed), closed.value, acknowledged);
      return if acknowledged.Ok? then Ok(closed.value.revision) else Err(acknowledged.error);
    }

    /** `closeRuntimeGate`. */
    method ApplyClose(before: Gate) returns (r: Result<Gate>)
      requires Ordered() && ValidGate(before)
      modifies port
      ensures port.calls == old(port.calls) + 1
      ensures Ordered() && old(port.trace) <= port.trace && |port.trace| == |old(port.trace)| + 1
      ensures NextPc(CloseApply(before, Closing()), port.trace[|old(port.trace)|]).Some?
      ensures r.Ok? ==> FineSince(old(port.trace)) && ClosedAt(port.trace, |old(port.trace)|, r.value.revision)
      ensures var w := old(port.world);
        Calm(port.script(old(port.calls))) && GateRecorded(w.store) && before == w.store.gate ==>
          r == Ok(port.world.store.gate) && ClosedFrom(w, actor, port.world)
      ensures r.Ok? && !before.active ==> r.value == before
    {
      ghost var t := port.trace;
      if before.active {
        r := port.TransitionRuntimeGate(before.revision, false, actor);
        FreeCall(rollback, t, since, GateSwitched(before.revision, false, r));
      } else {
        var ensured := port.EnsureRuntimeClosure(before, actor);
        FreeCall(rollback, t, since, ClosureEnsured(before, ensured));
        r := if ensured.Ok? then Ok(before) else Err(ensured.error);
      }
    }

    /** `closeRuntimeGate` and `assertGateTransitionOrClosed` on the next observation. Without an
        error this run closed the gate, or recorded a closed one, and then read it closed. */
    method CloseGate() returns (r: Result<()>)
      requires Ordered()
      modifies `events, port
      ensures port.calls >= old(port.calls)
      ensures Ordered() && old(port.trace) <= port.trace
      ensures ClosesBy(Closing(), old(port.trace), port.trace)
      ensures r.Ok? ==> FineSince(old(port.trace)) && GateSeenClosed(port.trace, |old(port.trace)|)
      ensures old(events) <= events && Unwatched(events, |old(events)|)
      ensures port.CalmFrom(old(port.calls)) && Ready(old(port.world)) && rollback ==>
        GateOutcome(old(port.world), actor, r, port.world)
    {
      ghost var t := port.trace;
      var before := port.ReadRuntimeGate();
      FreeCall(rollback, t, since, GateRead(before));
      ReadOnly(Closing(), t, before);
      if before.Err? {
        return Err(before.error);
      }
      if !ValidGate(before.value) {
        return Err("hosted_pool_runtime_gate_invalid");
      }
      ghost var w, u := port.world, port.trace;
      r := CloseAndSee(before.value);
      assert t + [GateRead(Ok(before.value))] == u && u + [port.trace[|u|]] <= port.trace;
      ReadAndClosed(Closing(), t, before.value, port.trace[|u|], port.trace);
      if r.Ok? { FineJoins(t, u, port.trace); }
      if GateOutcome(w, actor, r, port.world) { LaterGate(old(port.world), w, actor, r, port.world); }
    }

    method CloseAndSee(before: Gate) returns (r: Result<()>)
      requires Ordered() && ValidGate(before)
      modifies `events, port
      ensures port.calls >= old(port.calls)
      ensures Ordered() && old(port.trace) < port.trace
      ensures NextPc(CloseApply(before, Closing()), port.trace[|old(port.trace)|]).Some?
      ensures r.Ok? ==> FineSince(old(port.trace)) && GateSeenClosed(port.trace, |old(port.trace)|)
      ensures old(events) <= events && Unwatched(events, |old(events)|)
      ensures var w := old(port.world);
        port.CalmFrom(old(port.calls)) && Ready(w) && rollback && before == w.store.gate ==>
          GateOutcome(w, actor, r, port.world)
    {
      ghost var w, t := port.world, port.trace;
      var closed := ApplyClose(before);
      if closed.Err? {
        return Err(closed.error);
      }
      ghost var v, u := port.world, port.trace;
      var seen := Observe(GateClosedFirst);
      r := if seen.Err? then Err(seen.error) else CheckClosed(before, closed.value, seen.value.gate.value, actor);
      if r.Ok? { ClosedNow(u, |t|, port.trace, closed.value, seen.value); }
      if port.CalmFrom(old(port.calls)) && Ready(w) && rollback && GateRecorded(w.store) && before == w.store.gate {
        ClosedAndSeen(w, w, v, port.world, actor);
      }
    }

    /** The reversible closures: failover, then relay, whatever failed before. */
    method CloseReversible()
      requires Valid() && rollback
      modifies `events, `failures, port
      ensures port.world.now >= old(port.world.now)
      ensures Valid() && old(port.trace) <= port.trace && old(events) <= events && old(failures) <= failures
      ensures port.calls >= old(port.calls)
      ensures failures == old(failures) ==> |events| == |old(events)| + 2
      ensures failures == old(failures) ==>
        var e0, e1 := events[|old(events)|], events[|old(events)| + 1];
        e0.phase == FailoverClosed && BothOff(e0, Failover) && e1.phase == RelayClosed && BothOff(e1, Relay)
      ensures failures == old(failures) ==> SeenOff(port.trace, since, Failover) && SeenOff(port.trace, since, Relay)
      ensures port.CalmFrom(old(port.calls)) && Ready(old(port.world)) ==>
        && failures == old(failures) && Ready(port.world)
        && OnlyTime(old(port.world).(services := ReversibleClosed(old(port.world).services)), port.world)
    {
      CloseFlag(FailoverClosed, Failover);
      ghost var t := port.trace;
      CloseFlag(RelayClosed, Relay);
      StillSeen(t, port.trace, since);
    }

    /** The irreversible closures: custody, then the pool, stopping at the first failure. */
    method CloseIrreversible()
      requires Valid() && rollback && failures == [] && CustodyMayClose(port.trace, since)
      modifies `events, `failures, port
      ensures port.world.now >= old(port.world.now) && port.calls >= old(port.calls)
      ensures Valid() && old(port.trace) <= port.trace && old(events) <= events
      ensures failures == [] ==> |events| == |old(events)| + 2
      ensures failures == [] ==>
        var e0, e1 := events[|old(events)|], events[|old(events)| + 1];
        e0.phase == CustodyClosed && BothOff(e0, Custody) && e1.phase == PoolClosed && BothOff(e1, Pool)
      ensures failures == [] ==> CustodyMayClose(port.trace, since)
      ensures failures == [] ==> SeenOff(port.trace, since, Custody) && SeenOff(port.trace, since, Pool)
      ensures port.CalmFrom(old(port.calls)) && Ready(old(port.world)) ==>
        && failures == [] && Ready(port.world)
        && OnlyTime(old(port.world).(services := IrreversibleClosed(old(port.world).services)), port.world)
    {
      ghost var t := port.trace;
      CloseFlag(CustodyClosed, Custody);
      if failures == [] {
        ghost var u := port.trace;
        StillSeen(t, u, since);
        CloseFlag(PoolClosed, Pool);
        StillSeen(u, port.trace, since);
      }
    }

    /** The final re-read: every flag off on both services and nothing left to drain. */
    method RereadAll()
      requires Valid() && rollback
      modifies `events, `failures, port
      ensures port.world.now >= old(port.world.now)
      ensures Valid() && old(port.trace) <= port.trace && old(events) <= events && old(failures) <= failures
      ensures failures == old(failures) ==> |events| == |old(events)| + 1 && FinalSeen(port.trace)
      ensures failures == old(failures) ==>
        var e := events[|old(events)|];
        e.phase == FinalReread && AllOff(e) && DrainProven(e)
      ensures port.CalmFrom(old(port.calls)) && Ready(old(port.world)) && old(port.world).services == EverythingOff() ==>
        failures == old(failures) && OnlyTime(old(port.world), port.world)
    {
      var final := Observe(FinalReread);
      if final.Err? {
        Record(final.error);
        return;
      }
      if !AllOff(final.value) {
        Record("hosted_pool_control_flag_not_active");
      } else if !Drained(final.value.counts.value) {
        Record("hosted_pool_rollback_final_drain_incomplete");
      }
    }

    method CloseForGood()
      requires Valid() && rollback && failures == [] && CustodyMayClose(port.trace, since)
      modifies `events, `failures, port
      ensures port.world.now >= old(port.world.now)
      ensures Valid() && old(port.trace) <= port.trace && old(events) <= events
      ensures failures == [] ==> |events| == |old(events)| + 3 && TailProven(events, |old(events)|)
      ensures failures == [] ==> RollbackShown(port.trace, since)
      ensures var closed := IrreversibleClosed(old(port.world).services);
        port.CalmFrom(old(port.calls)) && Ready(old(port.world)) && closed == EverythingOff() ==>
          failures == [] && OnlyTime(old(port.world).(services := closed), port.world)
    {
      CloseIrreversible();
      ghost var e, t := events, port.trace;
      RereadAll();
      if failures == [] {
        TailJoins(e, events, |e| - 2);
        NowShown(t, port.trace, since);
      }
    }

    /** The irreversible part, on a log `e` followed by the reversible closures. */
    method CloseProven(ghost e: seq<Event>, ghost n1: nat)
      requires Valid() && rollback && failures == [] && CustodyMayClose(port.trace, since)
      requires n1 <= |e| && e <= events && AdmissionProven(e[..n1]) && Unwatched(e, n1) && |events| == |e| + 2
      requires events[|e|].phase == FailoverClosed && BothOff(events[|e|], Failover)
      requires events[|e| + 1].phase == RelayClosed && BothOff(events[|e| + 1], Relay)
      modifies `events, `failures, port
      ensures port.world.now >= old(port.world.now) && Valid() && old(port.trace) <= port.trace
      ensures failures == [] ==> RollbackShown(port.trace, since) && exists at: seq<int> :: Proof(events, at)
      ensures var closed := IrreversibleClosed(old(port.world).services);
        port.CalmFrom(old(port.calls)) && Ready(old(port.world)) && closed == EverythingOff() ==>
          failures == [] && OnlyTime(old(port.world).(services := closed), port.world)
    {
      ghost var closed := events;
      CloseForGood();
      if failures == [] { JoinProof(e, closed, events, n1); }
    }

    /** Everything a rollback does after the drain block. `drained` is `drainComplete`; the
        first `n1` events are those up to the re-read of admission. */
    method FinishRollback(drained: bool, ghost n1: nat)
      requires Valid() && rollback && n1 <= |events|
      requires failures == [] ==> drained && AdmissionClosedAndDrained(port.trace, since)
      requires failures == [] ==> AdmissionProven(events[..n1]) && Unwatched(events, n1)
      modifies `events, `failures, port
      ensures port.world.now >= old(port.world.now) && Valid() && old(port.trace) <= port.trace
      ensures failures == [] ==> RollbackShown(port.trace, since) && exists at: seq<int> :: Proof(events, at)
      ensures old(failures) == [] || failures != []
      ensures var w := old(port.world); var reversed := ReversibleClosed(w.services);
        port.CalmFrom(old(port.calls)) && Ready(w) && ReversibleOff(reversed) && old(failures) == [] ==>
          failures == [] && OnlyTime(w.(services := IrreversibleClosed(reversed)), port.world)
    {
      ghost var e2, t := events, port.trace;
      CloseReversible();
      if drained && failures == [] {
        StillSeen(t, port.trace, since);
        NothingLeftOn(port.world.services);
        CloseProven(e2, n1);
      }
    }

    /** The drain or rollback branch of `executeHostedPoolControl`. Whatever fails or interferes,
        every call was made only when `MayCall` allows it. A run that ends executed made no call
        that failed, and saw the gate closed, admission off and the drain; an executed rollback
        also saw every other flag off and nothing left to drain, and its log has a proof. */
    method Execute(maxPolls: nat) returns (v: Verdict)
      requires events == [] && failures == [] && since == |port.trace|
      modifies `events, `failures, port
      ensures old(port.trace) <= port.trace && OrderOk(rollback, port.trace, since)
      ensures v.Executed? ==> AllFine(port.trace, since) && DrainSeen(port.trace, since)
      ensures v.Executed? ==> GateSeenClosed(port.trace, since) && SeenOff(port.trace, since, Admission)
      ensures rollback && v.Executed? ==> RollbackShown(port.trace, since)
      ensures rollback && v.Executed? ==> exists at: seq<int> :: Proof(events, at)
      ensures var w := old(port.world);
        port.CalmFrom(old(port.calls)) && Ready(w) && rollback && GateRecorded(w.store) && maxPolls >= 1 ==>
          RunOutcome(w, v, port.world)
    {
      ghost var w := port.world;
      var ok := CloseAdmission();
      if !ok {
        return Threw;
      }
      v := DrainAndEnd(maxPolls, w);
    }

    /** Everything after the re-read of admission. `w` is the world the run began in. */
    method DrainAndEnd(maxPolls: nat, ghost w: World) returns (v: Verdict)
      requires Valid() && (!rollback ==> failures == [])
      requires failures == [] ==> GateSeenClosed(port.trace, since) && SeenOff(port.trace, since, Admission)
      requires rollback && failures == [] ==> PlanSeen(port.trace, since) && AdmissionProven(events)
      modifies `events, `failures, port
      ensures Ordered() && old(port.trace) <= port.trace
      ensures v.Executed? ==> AllFine(port.trace, since) && DrainSeen(port.trace, since)
      ensures v.Executed? ==> GateSeenClosed(port.trace, since) && SeenOff(port.trace, since, Admission)
      ensures rollback && v.Executed? ==> RollbackShown(port.trace, since) && exists at: seq<int> :: Proof(events, at)
      ensures var w1 := old(port.world);
        var calm := port.CalmFrom(old(port.calls)) && Ready(w) && GateRecorded(w.store) && Ready(w1);
        calm && rollback && maxPolls >= 1 && old(failures) == [] && AdmissionOutcome(w, actor, w1) ==>
          RunOutcome(w, v, port.world)
    {
      ghost var w1, e, t := port.world, events, port.trace;
      ghost var calm := port.CalmFrom(port.calls) && Ready(w) && GateRecorded(w.store) && Ready(w1) && rollback
        && maxPolls >= 1 && failures == [] && AdmissionOutcome(w, actor, w1);
      var drained := DrainPhase(maxPolls);
      ghost var w2 := port.world;
      StillSeen(t, port.trace, since);
      if drained.Ok? && failures == [] { FineBefore(t, port.trace, since); }
      if drained == Ok(false) {
        if calm { RunWaits(w, w1, actor, w2); }
        return Waiting;
      }
      assert drained.Ok? ==> drained.value && drained == Ok(true);
      if !rollback {
        return if drained.Ok? then Executed else Threw;
      }
      assert events[..|e|] == e;
      v := EndRollback(drained, |e|);
      if calm { RunEnds(w, w1, w2, actor, drained, v, port.world); }
    }

    /** The rest of a rollback, and how it ends: `drained` is what the drain block came to. */
    method EndRollback(drained: Result<bool>, ghost n1: nat) returns (v: Verdict)
      requires Ordered() && rollback && n1 <= |events|
      requires drained.Ok? ==> Valid()
      requires drained.Ok? && failures == [] ==> AdmissionClosedAndDrained(port.trace, since)
      requires drained.Ok? && failures == [] ==> AdmissionProven(events[..n1]) && Unwatched(events, n1)
      modifies `events, `failures, port
      ensures port.world.now >= old(port.world.now) && Ordered() && old(port.trace) <= port.trace
      ensures v.Executed? ==> RollbackShown(port.trace, since) && exists at: seq<int> :: Proof(events, at)
      ensures var w := old(port.world); var reversed := ReversibleClosed(w.services);
        port.CalmFrom(old(port.calls)) && Ready(w) && ReversibleOff(reversed) && old(failures) == [] && drained.Ok? ==>
          v == Executed && OnlyTime(w.(services := IrreversibleClosed(reversed)), port.world)
    {
      if drained.Err? {
        Record(drained.error);
      }
      FinishRollback(drained.Ok?, n1);
      v := if failures == [] then Executed else Threw;
    }

    /** Initial observation, gate, fault plan, admission. Returns false when the run threw. */
    method CloseAdmission() returns (ok: bool)
      requires Valid() && events == [] && failures == []
      modifies `events, `failures, port
      ensures port.calls >= old(port.calls)
      ensures Ordered() && (ok ==> Valid()) && old(port.trace) <= port.trace
      ensures ok && !rollback ==> failures == []
      ensures ok && failures == [] ==> GateSeenClosed(port.trace, since) && SeenOff(port.trace, since, Admission)
      ensures ok && rollback && failures == [] ==> PlanSeen(port.trace, since) && AdmissionProven(events)
      ensures port.CalmFrom(old(port.calls)) && Ready(old(port.world)) && rollback && GateRecorded(old(port.world).store) ==>
        ok && failures == [] && Ready(port.world) && AdmissionOutcome(old(port.world), actor, port.world)
    {
      ok := CloseGateAndPlan();
      if !ok {
        return;
      }
      ghost var w, t := port.world, port.trace;
      ok := CloseAdmissionFlag();
      StillSeen(t, port.trace, since);
      if port.CalmFrom(old(port.calls)) && Ready(old(port.world)) && rollback && GateRecorded(old(port.world).store) {
        LaterAdmission(old(port.world), w, port.world, actor);
      }
    }

    /** Without a failure this run saw the gate closed and, rolling back, closed the fault plan. */
    method CloseGateAndPlan() returns (ok: bool)
      requires Valid() && events == [] && failures == []
      modifies `events, `failures, port
      ensures port.calls >= old(port.calls)
      ensures Ordered() && (ok ==> Valid()) && old(port.trace) <= port.trace
      ensures ok && !rollback ==> failures == []
      ensures ok && failures == [] ==> GateSeenClosed(port.trace, since)
      ensures ok && rollback && failures == [] ==>
        PlanSeen(port.trace, since) && events != [] && events[|events| - 1].phase == FaultPlanClosed
      ensures forall i :: 0 <= i < |events| - 1 ==> !Watched(events[i].phase)
      ensures port.CalmFrom(old(port.calls)) && Ready(old(port.world)) && rollback && GateRecorded(old(port.world).store) ==>
        ok && failures == [] && Ready(port.world)
        && ClosedFrom(old(port.world).(faultPlanOpen := false), actor, port.world)
    {
      var initial := Observe(InitialObservation);
      if initial.Err? {
        return false;
      }
      ghost var w1, t1 := port.world, port.trace;
      FineBefore(old(port.trace), t1, since);
      var closed := CloseGate();
      if closed.Err? {
        if !rollback {
          return false;
        }
        Record(closed.error);
      } else {
        FineBefore(t1, port.trace, since);
      }
      if rollback {
        ghost var w2, t2 := port.world, port.trace;
        ClosePlan();
        StillSeen(t2, port.trace, since);
        if port.CalmFrom(old(port.calls)) && Ready(old(port.world)) && GateRecorded(old(port.world).store) {
          LaterPlan(old(port.world), w1, w2, port.world, actor);
        }
      }
      return true;
    }

    /** The `setFaultPlan(null)` call of a rollback, its failure recorded. */
    method ClosePlan()
      requires Valid() && rollback
      modifies `events, `failures, port
      ensures Valid() && port.calls == old(port.calls) + 1 && old(port.trace) <= port.trace && old(failures) <= failures
      ensures failures == old(failures) ==> PlanSeen(port.trace, since) && events == old(events) + [Event(FaultPlanClosed, [], None, None)]
      ensures failures != old(failures) ==> events == old(events)
      ensures Calm(port.script(old(port.calls))) ==>
        failures == old(failures) && OnlyTime(old(port.world).(faultPlanOpen := false), port.world)
    {
      ghost var t := port.trace;
      var plan := port.CloseFaultPlan();
      FreeCall(rollback, t, since, PlanClosed(plan));
      if plan.Ok? {
        assert port.trace[|t|] == PlanClosed(plan);
        Push(FaultPlanClosed);
      } else {
        Record(plan.error);
      }
    }

    method CloseAdmissionFlag() returns (ok: bool)
      requires Valid() && (!rollback ==> failures == [])
      modifies `events, `failures, port
      ensures port.calls >= old(port.calls)
      ensures Ordered() && (ok ==> Valid()) && old(port.trace) <= port.trace
      ensures old(events) <= events && old(failures) <= failures && (ok && !rollback ==> failures == old(failures))
      ensures |events| <= |old(events)| + 1
      ensures ok && failures == old(failures) ==> SeenOff(port.trace, since, Admission) && |events| == |old(events)| + 1
      ensures ok && failures == old(failures) ==>
        events[|old(events)|].phase == AdmissionClosed && BothOff(events[|old(events)|], Admission)
      ensures port.CalmFrom(old(port.calls)) && Ready(old(port.world)) && rollback ==>
        ok && failures == old(failures) && Ready(port.world)
        && OnlyTime(old(port.world).(services := AllServicesOff(old(port.world).services, Admission)), port.world)
    {
      ghost var t := port.trace;
      var patched := port.SetFlagOff(Admission);
      FreeCall(rollback, t, since, FlagPatched(Admission, patched));
      if patched.Err? {
        if !rollback {
          return false;
        }
        Record(patched.error);
      }
      ghost var u := port.trace;
      var seen := ObserveOff(AdmissionClosed, Admission);
      if seen.Err? {
        if !rollback {
          return false;
        }
        Record(seen.error);
      } else {
        if failures == [] { FineBefore(u, port.trace, since); }
        PatchSeen(port.trace, since, |t|, |u|, Admission);
      }
      return true;
    }
  }
}
