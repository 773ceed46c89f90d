/**
 The runtime gate and its closure records: the database operations of the control port,
 each one transaction, as functions on the stored rows and as methods that update them.
 */
module RuntimeGate {
  import opened Outcomes

  /** Quarantine after an acknowledged drain: 61 minutes and 1 second, in milliseconds. */
  const Quarantine := 3_661_000

  type Actor = nat

  datatype Gate = Gate(active: bool, revision: nat, epoch: nat, changedAt: int, actor: Actor)

  datatype Closure = Closure(complete: bool, barrier: bool, unsafeUntil: int, closedEpoch: nat, actor: Actor)

  datatype Store = Store(gate: Gate, closures: map<nat, Closure>)

  function NewClosure(epoch: nat, actor: Actor): Closure {
    Closure(false, true, 0, epoch, actor)
  }

  /** The rows a transaction locks must still be the closed gate the caller read. */
  predicate StillClosed(s: Store, gate: Gate) {
    !s.gate.active && s.gate.revision == gate.revision && s.gate.epoch == gate.epoch
  }

  function Max(a: int, b: int): int { if a < b then b else a }

  /** The gate row after a won transition. */
  function Switched(g: Gate, active: bool, now: int, actor: Actor): Gate {
    Gate(active, g.revision + 1, g.epoch + 1, Max(now, g.changedAt + 1), actor)
  }

  /** Compare-and-set on the revision; a closing transition writes its closure record in the
      same statement. A lost race reads the gate back, and accepts it when it is the caller's
      own earlier transition. */
  function Transition(s: Store, expected: nat, active: bool, now: int, actor: Actor): (Store, Result<Gate>) {
    if s.gate.revision == expected then
      var g := Switched(s.gate, active, now, actor);
      var closures := if !active && g.revision !in s.closures then s.closures[g.revision := NewClosure(g.epoch, actor)]
                      else s.closures;
      (Store(g, closures), Ok(g))
    else if s.gate.active == active && s.gate.revision == expected + 1 && s.gate.actor == actor then (s, Ok(s.gate))
    else (s, Err("hosted_pool_runtime_gate_revision_conflict"))
  }

  function EnsureClosure(s: Store, gate: Gate, actor: Actor): (Store, Result<()>) {
    if !StillClosed(s, gate) then (s, Err("hosted_pool_runtime_closure_gate_mismatch"))
    else if gate.revision in s.closures then (s, Ok(()))
    else (s.(closures := s.closures[gate.revision := NewClosure(gate.epoch, actor)]), Ok(()))
  }

  function Acknowledge(s: Store, gate: Gate, now: int): (Store, Result<()>) {
    if !StillClosed(s, gate) then (s, Err("hosted_pool_runtime_closure_gate_mismatch"))
    else if gate.revision !in s.closures || s.closures[gate.revision].complete then
      (s, Err("hosted_pool_runtime_closure_legacy_ack_conflict"))
    else
      var c := s.closures[gate.revision];
      if c.barrier then
        (s.(closures := s.closures[gate.revision := c.(barrier := false, unsafeUntil := now + Quarantine)]), Ok(()))
      else (s, Ok(()))
  }

  function CompleteClosure(s: Store, gate: Gate): (Store, Result<()>) {
    if !StillClosed(s, gate) then (s, Err("hosted_pool_runtime_closure_gate_mismatch"))
    else if gate.revision !in s.closures then (s, Err("hosted_pool_runtime_closure_completion_conflict"))
    else if s.closures[gate.revision].complete then (s, Ok(()))
    else (s.(closures := s.closures[gate.revision := s.closures[gate.revision].(complete := true)]), Ok(()))
  }

  function ReadClosure(s: Store, gate: Gate): Option<Closure> {
    if gate.revision in s.closures then Some(s.closures[gate.revision]) else None
  }

  function AssertClosureComplete(s: Store, gate: Gate): Result<()> {
    if gate.revision in s.closures && s.closures[gate.revision].complete then Ok(())
    else Err("hosted_pool_runtime_closure_incomplete")
  }

  /** The rows themselves, and the statements that change them. */
  class GateTables {
    var gate: Gate
    var closures: map<nat, Closure>

    constructor (s: Store)
      ensures Rows() == s
    {
      gate, closures := s.gate, s.closures;
    }

    ghost function Rows(): Store
      reads this
    {
      Store(gate, closures)
    }

    method TransitionRuntimeGate(expected: nat, active: bool, now: int, actor: Actor) returns (r: Result<Gate>)
      modifies this
      ensures (Rows(), r) == Transition(old(Rows()), expected, active, now, actor)
    {
      if gate.revision == expected {
        gate := Gate(active, gate.revision + 1, gate.epoch + 1, Max(now, gate.changedAt + 1), actor);
        if !active && gate.revision !in closures {
          closures := closures[gate.revision := NewClosure(gate.epoch, actor)];
        }
        return Ok(gate);
      }
      if gate.active == active && gate.revision == expected + 1 && gate.actor == actor {
        return Ok(gate);
      }
      return Err("hosted_pool_runtime_gate_revision_conflict");
    }

    method EnsureRuntimeClosure(observed: Gate, actor: Actor) returns (r: Result<()>)
      modifies `closures
      ensures (Rows(), r) == EnsureClosure(old(Rows()), observed, actor)
    {
      if gate.active || gate.revision != observed.revision || gate.epoch != observed.epoch {
        return Err("hosted_pool_runtime_closure_gate_mismatch");
      }
      if observed.revision !in closures {
        closures := closures[observed.revision := NewClosure(observed.epoch, actor)];
      }
      return Ok(());
    }

    method AcknowledgeLegacyIssuerDrain(observed: Gate, now: int) returns (r: Result<()>)
      modifies `closures
      ensures (Rows(), r) == Acknowledge(old(Rows()), observed, now)
    {
      if gate.active || gate.revision != observed.revision || gate.epoch != observed.epoch {
        return Err("hosted_pool_runtime_closure_gate_mismatch");
      }
      if observed.revision in closures && !closures[observed.revision].complete && closures[observed.revision].barrier {
        var c := closures[observed.revision];
        closures := closures[observed.revision := c.(barrier := false, unsafeUntil := now + Quarantine)];
        return Ok(());
      }
      if observed.revision !in closures || closures[observed.revision].complete || closures[observed.revision].barrier {
        return Err("hosted_pool_runtime_closure_legacy_ack_conflict");
      }
      return Ok(());
    }

    method CompleteRuntimeClosure(observed: Gate) returns (r: Result<()>)
      modifies `closures
      ensures (Rows(), r) == CompleteClosure(old(Rows()), observed)
    {
      if gate.active || gate.revision != observed.revision || gate.epoch != observed.epoch {
        return Err("hosted_pool_runtime_closure_gate_mismatch");
      }
      if observed.revision in closures && !closures[observed.revision].complete {
        closures := closures[observed.revision := closures[observed.revision].(complete := true)];
      } else if observed.revision !in closures {
        return Err("hosted_pool_runtime_closure_completion_conflict");
      }
      return Ok(());
    }
  }

  /** A transition repeated after its response was lost changes nothing and reports success. */
  lemma RetryAddsNothing(s: Store, expected: nat, active: bool, now: int, later: int, actor: Actor)
    requires Transition(s, expected, active, now, actor).1.Ok?
    ensures var t := Transition(s, expected, active, now, actor).0;
      Transition(t, expected, active, later, actor) == (t, Ok(t.gate))
  {}

  /** Of two callers that expect the same revision, only one changes the gate. */
  lemma OneWinner(s: Store, expected: nat, a1: bool, a2: bool, now: int, later: int, x: Actor, y: Actor)
    ensures var t := Transition(s, expected, a1, now, x).0;
      t.gate != s.gate ==> Transition(t, expected, a2, later, y).0 == t
  {}
}
