/**
 The control port an operator's run calls, and the world behind it: the gate tables, the
 flags of the two services, the drain counts and the clock. Before any call other actors
 may have changed the world, and any call may throw, before or after taking effect.
 */
module ControlPort {
  import opened Outcomes
  import opened RuntimeGate
  import opened GateProtocol

  datatype FlagName = Pool | Custody | Admission | Relay | Failover

  /** A flag's value: "0", "1", or anything else that was read. */
  datatype Setting = Off | On | Other

  datatype Service = Service(pool: Setting, custody: Setting, admission: Setting, relay: Setting, failover: Setting)

  function Get(s: Service, name: FlagName): Setting {
    match name
    case Pool => s.pool
    case Custody => s.custody
    case Admission => s.admission
    case Relay => s.relay
    case Failover => s.failover
  }

  function SetOff(s: Service, name: FlagName): Service {
    match name
    case Pool => s.(pool := Off)
    case Custody => s.(custody := Off)
    case Admission => s.(admission := Off)
    case Relay => s.(relay := Off)
    case Failover => s.(failover := Off)
  }

  datatype World = World(store: Store, services: seq<Service>, counts: Counts, now: int, faultPlanOpen: bool)

  datatype Outcome = Works | Fails | Unheard

  /** What happens around one port call. `second` is the outcome for the second service. */
  datatype Disturbance = Disturbance(elapsed: nat, others: Option<World>, outcome: Outcome, second: Outcome)

  predicate RecordKept(s: Store, t: Store, revision: nat) {
    revision in s.closures ==> revision in t.closures && Older(s.closures[revision], t.closures[revision])
  }

  /** What other operators can do to the gate tables meanwhile: see `ClosuresOnlyAdvance`. */
  predicate StoreEvolves(s: Store, t: Store) {
    && s.gate.revision <= t.gate.revision
    && (s.gate.revision == t.gate.revision ==> s.gate.active == t.gate.active)
    && (forall r {:trigger RecordKept(s, t, r)} :: r in s.closures ==> RecordKept(s, t, r))
  }

  /** The world a call finds: as others left it, or as it was with time passed. */
  function Before(w: World, d: Disturbance): (v: World)
    ensures w.now <= v.now && StoreEvolves(w.store, v.store)
  {
    match d.others
    case Some(v) =>
      if StoreEvolves(w.store, v.store) && w.now <= v.now then v else w.(now := w.now + d.elapsed)
    case None => w.(now := w.now + d.elapsed)
  }

  lemma EvolvesOn(s: Store, t: Store, u: Store)
    requires StoreEvolves(s, t) && StoreEvolves(t, u)
    ensures StoreEvolves(s, u)
  {
    forall r | r in s.closures ensures RecordKept(s, u, r) { assert RecordKept(s, t, r) && RecordKept(t, u, r); }
  }

  /** Every operation of the port is itself such a move, and an acknowledged barrier is down. */
  lemma OperationsEvolve(s: Store, gate: Gate, expected: nat, active: bool, now: int, actor: Actor)
    ensures StoreEvolves(s, Transition(s, expected, active, now, actor).0)
    ensures StoreEvolves(s, EnsureClosure(s, gate, actor).0)
    ensures StoreEvolves(s, CompleteClosure(s, gate).0)
    ensures StoreEvolves(s, Acknowledge(s, gate, now).0)
    ensures Acknowledge(s, gate, now).1.Ok? ==> BarrierDown(Acknowledge(s, gate, now).0, gate.revision)
  {}

  predicate BarrierDown(s: Store, revision: nat) {
    revision in s.closures && !s.closures[revision].barrier
  }

  /** Nobody else acts and nothing fails; only time passes. */
  predicate Calm(d: Disturbance) {
    d.others.None? && d.outcome.Works? && d.second.Works?
  }

  function SetService(services: seq<Service>, k: nat, name: FlagName, outcome: Outcome): seq<Service> {
    if k < |services| && !outcome.Fails? then services[k := SetOff(services[k], name)] else services
  }

  /** One call of the port, with its arguments and what the caller got back. */
  datatype Call =
    | FlagsRead(flags: Result<seq<Service>>)
    | GateRead(gate: Result<Gate>)
    | ClosureRead(closureOf: Gate, closure: Result<Option<Closure>>, at: int)
    | CountsRead(counts: Result<Counts>)
    | GrantsReconciled(reconciled: Result<()>)
    | PlanClosed(plan: Result<()>)
    | FlagPatched(name: FlagName, patched: Result<()>)
    | GateSwitched(expected: nat, active: bool, switched: Result<Gate>)
    | ClosureEnsured(ensuredOf: Gate, ensured: Result<()>)
    | DrainAcknowledged(acknowledgedOf: Gate, acknowledged: Result<()>)
    | ClosureCompleted(completedOf: Gate, completed: Result<()>)

  class Port {
    const script: nat -> Disturbance
    var world: World
    var calls: nat
    ghost var trace: seq<Call>

    constructor (script: nat -> Disturbance, world: World)
      ensures this.script == script && this.world == world && calls == 0 && trace == []
    {
      this.script, this.world, calls, trace := script, world, 0, [];
    }

    ghost predicate CalmFrom(k: nat) {
      forall i :: k <= i ==> Calm(script(i))
    }

    /** One more call is made. */
    method Begin() returns (d: Disturbance)
      modifies `world, `calls
      ensures calls == old(calls) + 1 && d == script(old(calls)) && world == Before(old(world), d)
    {
      d := script(calls);
      world := Before(world, d);
      calls := calls + 1;
    }

    /** Time passes with nobody calling. */
    method Idle(pause: nat)
      modifies `world
      ensures world == old(world).(now := old(world).now + pause)
    {
      world := world.(now := world.now + pause);
    }

    method ReadFlags() returns (r: Result<seq<Service>>)
      modifies this
      ensures trace == old(trace) + [FlagsRead(r)]
      ensures calls == old(calls) + 1 && world == Before(old(world), script(old(calls)))
      ensures r == if script(old(calls)).outcome.Works? then Ok(world.services) else Err("read_flags")
    {
      var d := Begin();
      r := if d.outcome.Works? then Ok(world.services) else Err("read_flags");
      trace := trace + [FlagsRead(r)];
    }

    method ReadRuntimeGate() returns (r: Result<Gate>)
      modifies this
      ensures trace == old(trace) + [GateRead(r)]
      ensures calls == old(calls) + 1 && world == Before(old(world), script(old(calls)))
      ensures r == if script(old(calls)).outcome.Works? then Ok(world.store.gate) else Err("read_gate")
    {
      var d := Begin();
      r := if d.outcome.Works? then Ok(world.store.gate) else Err("read_gate");
      trace := trace + [GateRead(r)];
    }

    method ReadRuntimeClosure(gate: Gate) returns (r: Result<Option<Closure>>)
      modifies this
      ensures trace == old(trace) + [ClosureRead(gate, r, world.now)]
      ensures calls == old(calls) + 1 && world == Before(old(world), script(old(calls)))
      ensures r == if script(old(calls)).outcome.Works? then Ok(ReadClosure(world.store, gate)) else Err("read_closure")
    {
      var d := Begin();
      r := if d.outcome.Works? then Ok(ReadClosure(world.store, gate)) else Err("read_closure");
      trace := trace + [ClosureRead(gate, r, world.now)];
    }

    method ReadCounts() returns (r: Result<Counts>)
      modifies this
      ensures trace == old(trace) + [CountsRead(r)]
      ensures calls == old(calls) + 1 && world == Before(old(world), script(old(calls)))
      ensures r == if script(old(calls)).outcome.Works? then Ok(world.counts) else Err("counts")
    {
      var d := Begin();
      r := if d.outcome.Works? then Ok(world.counts) else Err("counts");
      trace := trace + [CountsRead(r)];
    }

    /** Expiry reconciliation: its effect on the counts is part of what others do. */
    method ReconcileExpiredGrants() returns (r: Result<()>)
      modifies this
      ensures trace == old(trace) + [GrantsReconciled(r)]
      ensures calls == old(calls) + 1 && world == Before(old(world), script(old(calls)))
      ensures r.Ok? <==> script(old(calls)).outcome.Works?
    {
      var d := Begin();
      r := if d.outcome.Works? then Ok(()) else Err("reconcile");
      trace := trace + [GrantsReconciled(r)];
    }

    method CloseFaultPlan() returns (r: Result<()>)
      modifies this
      ensures trace == old(trace) + [PlanClosed(r)]
      ensures calls == old(calls) + 1
      ensures var d := script(old(calls)); var w := Before(old(world), d);
        world == (if d.outcome.Fails? then w else w.(faultPlanOpen := false)) && (r.Ok? <==> d.outcome.Works?)
    {
      var d := Begin();
      if !d.outcome.Fails? {
        world := world.(faultPlanOpen := false);
      }
      r := if d.outcome.Works? then Ok(()) else Err("fault_plan");
      trace := trace + [PlanClosed(r)];
    }

    /** Both services in turn; the failures of both are collected before throwing. */
    method SetFlagOff(name: FlagName) returns (r: Result<()>)
      modifies this
      ensures trace == old(trace) + [FlagPatched(name, r)]
      ensures calls == old(calls) + 1
      ensures var d := script(old(calls)); var w := Before(old(world), d);
        && world == w.(services := SetService(SetService(w.services, 0, name, d.outcome), 1, name, d.second))
        && (r.Ok? <==> d.outcome.Works? && d.second.Works?)
    {
      var d := Begin();
      world := world.(services := SetService(world.services, 0, name, d.outcome));
      world := world.(services := SetService(world.services, 1, name, d.second));
      r := if d.outcome.Works? && d.second.Works? then Ok(()) else Err("hosted_pool_render_mutation_failed");
      trace := trace + [FlagPatched(name, r)];
    }

    method TransitionRuntimeGate(expected: nat, active: bool, actor: Actor) returns (r: Result<Gate>)
      modifies this
      ensures trace == old(trace) + [GateSwitched(expected, active, r)]
      ensures calls == old(calls) + 1
      ensures var d := script(old(calls)); var w := Before(old(world), d);
        var t := Transition(w.store, expected, active, w.now, actor);
        && world == (if d.outcome.Fails? then w else w.(store := t.0))
        && r == (if d.outcome.Works? then t.1 else Err("transition"))
      ensures StoreEvolves(old(world).store, world.store)
    {
      var d := Begin();
      OperationsEvolve(world.store, world.store.gate, expected, active, world.now, actor);
      EvolvesOn(old(world).store, world.store, Transition(world.store, expected, active, world.now, actor).0);
      var t := Transition(world.store, expected, active, world.now, actor);
      if !d.outcome.Fails? {
        world := world.(store := t.0);
      }
      r := if d.outcome.Works? then t.1 else Err("transition");
      trace := trace + [GateSwitched(expected, active, r)];
    }

    method EnsureRuntimeClosure(gate: Gate, actor: Actor) returns (r: Result<()>)
      modifies this
      ensures trace == old(trace) + [ClosureEnsured(gate, r)]
      ensures calls == old(calls) + 1
      ensures var d := script(old(calls)); var w := Before(old(world), d); var t := EnsureClosure(w.store, gate, actor);
        && world == (if d.outcome.Fails? then w else w.(store := t.0))
        && r == (if d.outcome.Works? then t.1 else Err("ensure"))
      ensures StoreEvolves(old(world).store, world.store)
    {
      var d := Begin();
      OperationsEvolve(world.store, gate, 0, true, world.now, actor);
      EvolvesOn(old(world).store, world.store, EnsureClosure(world.store, gate, actor).0);
      var t := EnsureClosure(world.store, gate, actor);
      if !d.outcome.Fails? {
        world := world.(store := t.0);
      }
      r := if d.outcome.Works? then t.1 else Err("ensure");
      trace := trace + [ClosureEnsured(gate, r)];
    }

    method AcknowledgeLegacyIssuerDrain(gate: Gate) returns (r: Result<()>)
      modifies this
      ensures trace == old(trace) + [DrainAcknowledged(gate, r)]
      ensures calls == old(calls) + 1
      ensures var d := script(old(calls)); var w := Before(old(world), d); var t := Acknowledge(w.store, gate, w.now);
        && world == (if d.outcome.Fails? then w else w.(store := t.0))
        && r == (if d.outcome.Works? then t.1 else Err("acknowledge"))
      ensures StoreEvolves(old(world).store, world.store)
      ensures r.Ok? ==> BarrierDown(world.store, gate.revision)
    {
      var d := Begin();
      OperationsEvolve(world.store, gate, 0, true, world.now, 0);
      EvolvesOn(old(world).store, world.store, Acknowledge(world.store, gate, world.now).0);
      var t := Acknowledge(world.store, gate, world.now);
      if !d.outcome.Fails? {
        world := world.(store := t.0);
      }
      r := if d.outcome.Works? then t.1 else Err("acknowledge");
      trace := trace + [DrainAcknowledged(gate, r)];
    }

    method CompleteRuntimeClosure(gate: Gate) returns (r: Result<()>)
      modifies this
      ensures trace == old(trace) + [ClosureCompleted(gate, r)]
      ensures calls == old(calls) + 1
      ensures var d := script(old(calls)); var w := Before(old(world), d); var t := CompleteClosure(w.store, gate);
        && world == (if d.outcome.Fails? then w else w.(store := t.0))
        && r == (if d.outcome.Works? then t.1 else Err("complete"))
      ensures StoreEvolves(old(world).store, world.store)
    {
      var d := Begin();
      OperationsEvolve(world.store, gate, 0, true, world.now, 0);
      EvolvesOn(old(world).store, world.store, CompleteClosure(world.store, gate).0);
      var t := CompleteClosure(world.store, gate);
      if !d.outcome.Fails? {
        world := world.(store := t.0);
      }
      r := if d.outcome.Works? then t.1 else Err("complete");
      trace := trace + [ClosureCompleted(gate, r)];
    }
  }
}
