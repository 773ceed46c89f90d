/**
 What a drain or rollback run checks, and what it comes to in a calm world: one in which
 nobody else acts and no call fails.
 */
module ClosingWorld {
  import opened Outcomes
  import opened RuntimeGate
  import opened GateProtocol
  import opened ControlPort
  import opened CallHistory
  import opened RollbackEvidence

  // ---------------------------------------------------------------- observation checks

  predicate Known(s: Setting) { s.Off? || s.On? }

  predicate KnownFlags(s: Service) {
    Known(s.pool) && Known(s.custody) && Known(s.admission) && Known(s.relay) && Known(s.failover)
  }

  /** Custody needs the pool, admission and relay need custody, failover needs relay. */
  predicate DependenciesHold(s: Service) {
    && (s.custody.On? ==> s.pool.On?) && (s.admission.On? ==> s.custody.On?)
    && (s.relay.On? ==> s.custody.On?) && (s.failover.On? ==> s.relay.On?)
  }

  predicate ValidFlags(services: seq<Service>, allowDependencyDrift: bool) {
    |services| == 2 && forall i :: 0 <= i < 2 ==>
      KnownFlags(services[i]) && (allowDependencyDrift || DependenciesHold(services[i]))
  }

  predicate ValidGate(g: Gate) { g.revision >= 1 && g.epoch >= 1 }

  /** Phases the evidence verifier looks for. */
  predicate Watched(p: Phase) {
    p in {FaultPlanClosed, AdmissionClosed, FailoverClosed, RelayClosed, CustodyClosed, PoolClosed, FinalReread}
  }

  predicate Unwatched(events: seq<Event>, from: nat) {
    forall i :: from <= i < |events| ==> !Watched(events[i].phase)
  }

  // ---------------------------------------------------------------- calm worlds

  predicate OnlyTime(w: World, v: World) {
    v == w.(now := v.now) && w.now <= v.now
  }

  /** Two services with readable flags, a valid gate row, nothing left to drain. */
  predicate Ready(w: World) {
    ValidFlags(w.services, true) && ValidGate(w.store.gate) && Drained(w.counts)
  }

  function AllServicesOff(services: seq<Service>, name: FlagName): seq<Service> {
    SetService(SetService(services, 0, name, Works), 1, name, Works)
  }

  datatype Verdict = Waiting | Executed | Threw

  /** What the drain loop answers at its first poll in a calm, drained world. The clock may
      advance between its reads, so near the deadline either answer is possible. */
  predicate WaitOutcome(w: World, r: Result<Wait>, v: World) {
    var c := ReadClosure(w.store, w.store.gate);
    var t := CompleteClosure(w.store, w.store.gate);
    if c.Some? && !c.value.complete && c.value.barrier then r == Ok(WaitLegacyReady) && OnlyTime(w, v)
    else if c.Some? && !c.value.complete && c.value.unsafeUntil > v.now then r == Ok(WaitQuarantine) && OnlyTime(w, v)
    else
      var passed := c.None? || c.value.complete || c.value.unsafeUntil <= w.now;
      || (r == (if t.1.Ok? then Ok(WaitComplete) else Err(t.1.error)) && OnlyTime(w.(store := t.0), v))
      || (!passed && r == Ok(WaitQuarantine) && OnlyTime(w, v))
  }

  predicate BarrierUp(s: Store, revision: nat) {
    revision in s.closures && !s.closures[revision].complete && s.closures[revision].barrier
  }

  /** What the drain block answers in a calm, drained world with a closed gate. */
  predicate DrainOutcome(w: World, r: Result<bool>, v: World) {
    var g := w.store.gate;
    var c := ReadClosure(w.store, g);
    !g.active && c.Some? ==>
      if !c.value.complete && c.value.barrier then
        v.now < w.now + Quarantine ==>
          r == Ok(false) && v.now >= w.now &&
          exists at :: w.now <= at <= v.now && OnlyTime(w.(store := Acknowledge(w.store, g, at).0), v)
      else if !c.value.complete && c.value.unsafeUntil > v.now then
        r == Ok(false) && OnlyTime(w, v)
      else
        c.value.complete || c.value.unsafeUntil <= w.now ==>
          r == Ok(true) && OnlyTime(w.(store := CompleteClosure(w.store, g).0), v)
  }

  /** The world after the gate was read and its drain acknowledged, each at its own call. */
  function AfterAcknowledgment(w: World, d0: Disturbance, d1: Disturbance): World {
    var u := Before(w, d0);
    var v := Before(u, d1);
    v.(store := Acknowledge(v.store, u.store.gate, v.now).0)
  }

  /** The gate of a calm world is acknowledged. */
  predicate AckOutcome(w: World, v: World) {
    w.now <= v.now && v == w.(store := Acknowledge(w.store, w.store.gate, v.now).0, now := v.now)
  }

  function AcknowledgmentResult(w: World, d0: Disturbance, d1: Disturbance): Result<()> {
    var u := Before(w, d0);
    var v := Before(u, d1);
    Acknowledge(v.store, u.store.gate, v.now).1
  }

  /** The source reads every answer of the second wait but "waiting" as a completed drain. */
  function SecondAnswer(r: Result<Wait>): Result<bool> {
    match r
    case Ok(wait) => Ok(wait != WaitQuarantine)
    case Err(e) => Err(e)
  }

  /** A closed gate has its record, and no record belongs to a later revision. */
  predicate GateRecorded(s: Store) {
    (forall r :: r in s.closures ==> r <= s.gate.revision) && (!s.gate.active ==> s.gate.revision in s.closures)
  }

  predicate GateOutcome(w: World, actor: Actor, r: Result<()>, v: World) {
    GateRecorded(w.store) ==> r.Ok? && ClosedFrom(w, actor, v)
  }

  /** The gate is closed: as it was, or by this run's own transition. */
  predicate ClosedFrom(w: World, actor: Actor, v: World) {
    if w.store.gate.active then
      w.now <= v.now &&
      exists at :: w.now <= at <= v.now
        && OnlyTime(w.(store := Transition(w.store, w.store.gate.revision, false, at, actor).0), v)
    else OnlyTime(w, v)
  }

  /** The world after gate, fault plan and admission were closed. */
  predicate AdmissionOutcome(w: World, actor: Actor, v: World) {
    ClosedFrom(w.(services := AllServicesOff(w.services, Admission), faultPlanOpen := false), actor, v)
  }

  /** The first two watched events of the log: fault plan closed, admission seen off. */
  predicate AdmissionProven(events: seq<Event>) {
    && |events| >= 2 && events[|events| - 2].phase == FaultPlanClosed
    && events[|events| - 1].phase == AdmissionClosed && BothOff(events[|events| - 1], Admission)
    && forall i :: 0 <= i < |events| - 2 ==> !Watched(events[i].phase)
  }

  lemma LaterPlan(w0: World, w1: World, w2: World, v: World, actor: Actor)
    requires OnlyTime(w0, w1) && ClosedFrom(w1, actor, w2) && OnlyTime(w2.(faultPlanOpen := false), v)
    ensures ClosedFrom(w0.(faultPlanOpen := false), actor, v)
  {
    var u := w0.(faultPlanOpen := false);
    if w0.store.gate.active {
      var rev := w0.store.gate.revision;
      var at :| w1.now <= at <= w2.now && OnlyTime(w1.(store := Transition(w1.store, rev, false, at, actor).0), w2);
      assert OnlyTime(u.(store := Transition(u.store, rev, false, at, actor).0), v);
    }
  }

  lemma LaterAdmission(w0: World, w: World, v: World, actor: Actor)
    requires ClosedFrom(w0.(faultPlanOpen := false), actor, w)
    requires OnlyTime(w.(services := AllServicesOff(w.services, Admission)), v)
    ensures AdmissionOutcome(w0, actor, v)
  {
    var u := w0.(faultPlanOpen := false);
    var x := w0.(services := AllServicesOff(w0.services, Admission), faultPlanOpen := false);
    if w0.store.gate.active {
      var rev := w0.store.gate.revision;
      var at :| u.now <= at <= w.now && OnlyTime(u.(store := Transition(u.store, rev, false, at, actor).0), w);
      assert OnlyTime(x.(store := Transition(x.store, rev, false, at, actor).0), v);
    }
  }

  predicate ReversibleOff(services: seq<Service>) {
    |services| == 2 && forall i :: 0 <= i < 2 ==>
      services[i].admission == Off && services[i].relay == Off && services[i].failover == Off
  }

  /** The last three events: custody and pool seen off, then the final re-read. */
  predicate TailProven(events: seq<Event>, k: nat) {
    && k + 3 <= |events|
    && events[k].phase == CustodyClosed && BothOff(events[k], Custody)
    && events[k + 1].phase == PoolClosed && BothOff(events[k + 1], Pool)
    && events[k + 2].phase == FinalReread && AllOff(events[k + 2]) && DrainProven(events[k + 2])
  }

  function EverythingOff(): seq<Service> {
    [Service(Off, Off, Off, Off, Off), Service(Off, Off, Off, Off, Off)]
  }

  /** Closed and acknowledged: only admission was patched, and the deadline is recorded. */
  predicate Parked(w: World, v: World) {
    var g, h := w.store.gate, v.store.gate;
    && v.services == AllServicesOff(w.services, Admission) && v.counts == w.counts && !v.faultPlanOpen && w.now <= v.now
    && !h.active && h.revision == g.revision + (if g.active then 1 else 0) && ValidGate(h) && GateRecorded(v.store)
    && BarrierDown(v.store, h.revision) && !v.store.closures[h.revision].complete
    && w.now + Quarantine <= v.store.closures[h.revision].unsafeUntil <= v.now + Quarantine
  }

  /** What a whole rollback comes to in a calm, drained world. */
  predicate RunOutcome(w: World, v: Verdict, x: World)
    requires GateRecorded(w.store)
  {
    var g := w.store.gate;
    var begun := w.(services := AllServicesOff(w.services, Admission), faultPlanOpen := false);
    if g.active || BarrierUp(w.store, g.revision) then
      x.now < w.now + Quarantine ==> v == Waiting && Parked(w, x)
    else
      var c := w.store.closures[g.revision];
      if !c.complete && c.unsafeUntil > x.now then v == Waiting && OnlyTime(begun, x)
      else
        c.complete || c.unsafeUntil <= w.now ==>
          v == Executed &&
          OnlyTime(begun.(services := EverythingOff(), store := CompleteClosure(w.store, g).0), x)
  }

  lemma RunWaits(w0: World, w1: World, actor: Actor, v: World)
    requires Ready(w0) && GateRecorded(w0.store) && AdmissionOutcome(w0, actor, w1) && DrainOutcome(w1, Ok(false), v)
    ensures RunOutcome(w0, Waiting, v)
  {
    var g := w0.store.gate;
    if (g.active || BarrierUp(w0.store, g.revision)) && v.now < w0.now + Quarantine {
      var h := w1.store.gate;
      assert BarrierUp(w1.store, h.revision) && !h.active;
      var at :| w1.now <= at <= v.now && OnlyTime(w1.(store := Acknowledge(w1.store, h, at).0), v);
    }
  }

  function ReversibleClosed(services: seq<Service>): seq<Service> {
    AllServicesOff(AllServicesOff(services, Failover), Relay)
  }

  function IrreversibleClosed(services: seq<Service>): seq<Service> {
    AllServicesOff(AllServicesOff(services, Custody), Pool)
  }

  /** A standing barrier makes the drain block stop, unless the whole quarantine passed inside it. */
  lemma BarrierStops(w: World, drained: Result<bool>, v: World)
    requires DrainOutcome(w, drained, v) && BarrierUp(w.store, w.store.gate.revision) && !w.store.gate.active
    requires drained != Ok(false)
    ensures v.now >= w.now + Quarantine
  {}

  lemma RunEnds(w0: World, w1: World, w2: World, actor: Actor, drained: Result<bool>, verdict: Verdict, x: World)
    requires Ready(w0) && GateRecorded(w0.store) && AdmissionOutcome(w0, actor, w1)
    requires drained != Ok(false) && DrainOutcome(w1, drained, w2) && w2.now <= x.now
    requires Ready(w2) && ReversibleOff(ReversibleClosed(w2.services)) && drained == Ok(true) ==>
      verdict == Executed && OnlyTime(w2.(services := IrreversibleClosed(ReversibleClosed(w2.services))), x)
    ensures RunOutcome(w0, verdict, x)
  {
    var g := w0.store.gate;
    if g.active || BarrierUp(w0.store, g.revision) {
      BarrierStops(w1, drained, w2);
    } else {
      var c := w0.store.closures[g.revision];
      assert w1.store == w0.store;
      if c.complete || c.unsafeUntil <= w0.now {
        assert drained == Ok(true) && Ready(w2);
        assert x.services == EverythingOff();
      }
    }
  }

  /** The events of an executed rollback, put in the verifier's terms. */
  lemma AssembleProof(events: seq<Event>, n1: nat, n2: nat)
    requires n1 <= n2 && |events| == n2 + 5 && AdmissionProven(events[..n1])
    requires forall i :: n1 <= i < n2 ==> !Watched(events[i].phase)
    requires events[n2].phase == FailoverClosed && BothOff(events[n2], Failover)
    requires events[n2 + 1].phase == RelayClosed && BothOff(events[n2 + 1], Relay)
    requires TailProven(events, n2 + 2)
    ensures exists at: seq<int> :: Proof(events, at)
  {
    var at := [n1 - 2, n1 - 1, n2, n2 + 1, n2 + 2, n2 + 3, n2 + 4];
    assert forall i :: 0 <= i < n1 ==> events[..n1][i] == events[i];
    assert forall i :: 0 <= i < n2 && i != n1 - 2 && i != n1 - 1 ==> !Watched(events[i].phase);
    assert FirstAfter(events, -1, FaultPlanClosed, at[0]);
    assert ClosureReread(events, at[0], 0, at[1]);
    assert ClosureReread(events, at[1], 1, at[2]);
    assert ClosureReread(events, at[2], 2, at[3]);
    assert ClosureReread(events, at[3], 3, at[4]);
    assert ClosureReread(events, at[4], 4, at[5]);
    assert FirstAfter(events, at[5], FinalReread, at[6]);
    assert Proof(events, at);
  }

  lemma TailJoins(e: seq<Event>, events: seq<Event>, k: nat)
    requires k + 2 <= |e| && e <= events && k + 3 <= |events|
    requires e[k].phase == CustodyClosed && BothOff(e[k], Custody)
    requires e[k + 1].phase == PoolClosed && BothOff(e[k + 1], Pool)
    requires events[k + 2].phase == FinalReread && AllOff(events[k + 2]) && DrainProven(events[k + 2])
    ensures TailProven(events, k)
  {
    assert events[k] == e[k] && events[k + 1] == e[k + 1];
  }

  lemma JoinProof(e2: seq<Event>, e3: seq<Event>, events: seq<Event>, n1: nat)
    requires n1 <= |e2| && e2 <= e3 <= events && AdmissionProven(e2[..n1]) && Unwatched(e2, n1)
    requires |e3| == |e2| + 2 && |events| == |e3| + 3 && TailProven(events, |e3|)
    requires e3[|e2|].phase == FailoverClosed && BothOff(e3[|e2|], Failover)
    requires e3[|e2| + 1].phase == RelayClosed && BothOff(e3[|e2| + 1], Relay)
    ensures exists at: seq<int> :: Proof(events, at)
  {
    assert events[..n1] == e2[..n1];
    assert forall i :: 0 <= i < |e2| ==> events[i] == e2[i];
    AssembleProof(events, n1, |e2|);
  }

  lemma NothingLeftOn(services: seq<Service>)
    ensures ReversibleOff(services) ==> IrreversibleClosed(services) == EverythingOff()
  {}

  /** `assertGateTransitionOrClosed`. */
  function CheckClosed(before: Gate, closed: Gate, seen: Gate, actor: Actor): Result<()> {
    if seen.active || seen.revision != closed.revision then Err("hosted_pool_runtime_gate_close_not_observed")
    else if before.active
            && !(seen.epoch == before.epoch + 1 && seen.revision == before.revision + 1 && seen.actor == actor) then
      Err("hosted_pool_runtime_gate_transition_invalid")
    else Ok(())
  }

  /** In a calm world the closed gate is the one observed next. */
  lemma ClosedAndSeen(w0: World, w1: World, w2: World, v: World, actor: Actor)
    requires Ready(w0) && GateRecorded(w0.store) && OnlyTime(w0, w1) && ClosedFrom(w1, actor, w2) && OnlyTime(w2, v)
    ensures ClosedFrom(w0, actor, v) && Ready(w2)
    ensures CheckClosed(w0.store.gate, w2.store.gate, v.store.gate, actor) == Ok(())
  {
    if w0.store.gate.active {
      var rev := w0.store.gate.revision;
      var at :| w1.now <= at <= w2.now && OnlyTime(w1.(store := Transition(w1.store, rev, false, at, actor).0), w2);
      assert OnlyTime(w0.(store := Transition(w0.store, rev, false, at, actor).0), v);
    }
  }

  lemma LaterGate(w0: World, w: World, actor: Actor, r: Result<()>, v: World)
    requires GateOutcome(w, actor, r, v)
    ensures OnlyTime(w0, w) ==> GateOutcome(w0, actor, r, v)
  {
    if OnlyTime(w0, w) && GateRecorded(w.store) && w0.store.gate.active {
      var rev := w0.store.gate.revision;
      var at :| w.now <= at <= v.now && OnlyTime(w.(store := Transition(w.store, rev, false, at, actor).0), v);
      assert OnlyTime(w0.(store := Transition(w0.store, rev, false, at, actor).0), v);
    }
  }

  lemma LaterDrain(w0: World, w: World, r: Result<bool>, v: World)
    requires OnlyTime(w0, w) && DrainOutcome(w, r, v) && BarrierUp(w.store, w.store.gate.revision)
    ensures DrainOutcome(w0, r, v)
  {
    var g := w.store.gate;
    if !g.active && v.now < w0.now + Quarantine {
      var at :| w.now <= at <= v.now && OnlyTime(w.(store := Acknowledge(w.store, g, at).0), v);
      assert OnlyTime(w0.(store := Acknowledge(w0.store, g, at).0), v);
    }
  }

  lemma LaterWait(w0: World, w: World, wait: Result<Wait>, v: World)
    requires OnlyTime(w0, w) && WaitOutcome(w, wait, v)
    ensures WaitOutcome(w0, wait, v)
  {}

  lemma CalmWait(w: World, wait: Result<Wait>, v: World)
    requires WaitOutcome(w, wait, v) && wait != Ok(WaitLegacyReady)
    ensures DrainOutcome(w, SecondAnswer(wait), v)
  {}

  /** Acknowledged in a calm world, the second wait stops for the quarantine. */
  lemma CalmAcknowledgment(w: World, a: World, wait: Result<Wait>, v: World)
    requires Ready(w) && BarrierUp(w.store, w.store.gate.revision)
    requires !w.store.gate.active ==> AckOutcome(w, a) && WaitOutcome(a, wait, v)
    ensures DrainOutcome(w, SecondAnswer(wait), v)
  {
    var g := w.store.gate;
    if !g.active && v.now < w.now + Quarantine {
      assert OnlyTime(w.(store := Acknowledge(w.store, g, a.now).0), v);
    }
  }
}
