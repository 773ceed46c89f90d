/**
 Rollbacks run one after another. The first closes an active gate and stops at the
 quarantine; runs before the recorded deadline change nothing; runs after it end executed.
 */
module Resumption {
  import opened Outcomes
  import opened RuntimeGate
  import opened GateProtocol
  import opened ControlPort
  import opened CallHistory
  import opened ClosingWorld
  import opened ClosingRun
  import opened RollbackEvidence

  /** Whatever fails or changes around it, a rollback that ends executed leaves a log that the
      independent verifier accepts. */
  method RollBackAndVerify(port: Port, actor: Actor, maxPolls: nat) returns (v: Verdict, accepted: bool)
    modifies port
    ensures v == Executed ==> accepted
  {
    var run := new Run(port, true, actor);
    v := run.Execute(maxPolls);
    accepted := VerifyRollbackEvidence(run.events);
  }

  /** Parked behind a deadline: only custody and pool, relay and failover are left as they were. */
  predicate Waits(w: World, revision: nat, deadline: int) {
    && Ready(w) && GateRecorded(w.store) && !w.store.gate.active && w.store.gate.revision == revision
    && revision in w.store.closures && !w.store.closures[revision].barrier
    && !w.store.closures[revision].complete && w.store.closures[revision].unsafeUntil == deadline
  }

  /** A rollback can end: the closure is complete, or its deadline has passed. */
  predicate Ripe(w: World) {
    && Ready(w) && GateRecorded(w.store) && !w.store.gate.active
    && var c := w.store.closures[w.store.gate.revision];
       c.complete || (!c.barrier && c.unsafeUntil <= w.now)
  }

  /** Rolled back: every flag off on both services, the closure of the closed gate complete. */
  predicate RolledBack(w: World) {
    && Ripe(w) && w.services == EverythingOff() && w.store.closures[w.store.gate.revision].complete && !w.faultPlanOpen
  }

  lemma EarlyRun(w: World, v: Verdict, x: World, deadline: int)
    requires GateRecorded(w.store) && Waits(w, w.store.gate.revision, deadline)
    requires RunOutcome(w, v, x) && x.now < deadline
    ensures v == Waiting && x.services == AllServicesOff(w.services, Admission)
    ensures Waits(x, w.store.gate.revision, deadline) && w.now <= x.now
  {}

  lemma RipeRun(w: World, v: Verdict, x: World)
    requires Ripe(w) && RunOutcome(w, v, x)
    ensures v == Executed && RolledBack(x) && x.store == CompleteClosure(w.store, w.store.gate).0
  {
    var c := w.store.closures[w.store.gate.revision];
    assert c.complete || c.unsafeUntil <= w.now;
  }

  lemma ParkedWaits(w: World, x: World)
    requires Ready(w) && Parked(w, x)
    ensures Waits(x, x.store.gate.revision, x.store.closures[x.store.gate.revision].unsafeUntil)
  {}

  /** Any number of rollbacks that end before the deadline change no flag but admission. */
  method RunEarly(port: Port, actors: seq<Actor>, maxPolls: nat, deadline: int)
      returns (verdicts: seq<Verdict>, ends: seq<int>)
    requires port.CalmFrom(0) && maxPolls >= 1 && Waits(port.world, port.world.store.gate.revision, deadline)
    requires port.world.services == AllServicesOff(port.world.services, Admission)
    modifies port
    ensures |verdicts| == |ends| == |actors|
    ensures (forall i :: 0 <= i < |ends| ==> ends[i] < deadline) ==>
      && (forall i :: 0 <= i < |verdicts| ==> verdicts[i] == Waiting)
      && Waits(port.world, old(port.world.store.gate.revision), deadline)
      && port.world.services == old(port.world.services)
  {
    verdicts, ends := [], [];
    ghost var early := true;
    for i := 0 to |actors|
      invariant |verdicts| == |ends| == i
      invariant early <==> forall j :: 0 <= j < i ==> ends[j] < deadline
      invariant early ==> forall j :: 0 <= j < i ==> verdicts[j] == Waiting
      invariant early ==> Waits(port.world, old(port.world.store.gate.revision), deadline)
      invariant early ==> port.world.services == old(port.world.services)
    {
      ghost var w, was := port.world, ends;
      var run := new Run(port, true, actors[i]);
      var v := run.Execute(maxPolls);
      if early && port.world.now < deadline { EarlyRun(w, v, port.world, deadline); }
      early := early && port.world.now < deadline;
      verdicts, ends := verdicts + [v], ends + [port.world.now];
      assert ends[..i] == was && ends[i] == port.world.now;
    }
  }

  /** Once the deadline has passed every rollback ends executed, and stays there. */
  method RunLate(port: Port, actors: seq<Actor>, maxPolls: nat) returns (verdicts: seq<Verdict>)
    requires port.CalmFrom(0) && maxPolls >= 1 && Ripe(port.world)
    modifies port
    ensures |verdicts| == |actors| && forall i :: 0 <= i < |verdicts| ==> verdicts[i] == Executed
    ensures |actors| > 0 ==> RolledBack(port.world)
    ensures port.world.store == old(port.world).store
      || port.world.store == CompleteClosure(old(port.world).store, old(port.world).store.gate).0
  {
    verdicts := [];
    for i := 0 to |actors|
      invariant |verdicts| == i && forall j :: 0 <= j < i ==> verdicts[j] == Executed
      invariant Ripe(port.world)
      invariant i > 0 ==> RolledBack(port.world)
      invariant port.world.store == old(port.world).store
        || port.world.store == CompleteClosure(old(port.world).store, old(port.world).store.gate).0
    {
      ghost var w := port.world;
      var run := new Run(port, true, actors[i]);
      var v := run.Execute(maxPolls);
      RipeRun(w, v, port.world);
      verdicts := verdicts + [v];
    }
  }

  /** The recorded end of the quarantine of the closed gate. */
  function Deadline(w: World): int {
    if w.store.gate.revision in w.store.closures then w.store.closures[w.store.gate.revision].unsafeUntil else 0
  }

  datatype Clocks = Clocks(parked: World, ends: seq<int>, resumed: World)

  /** The first run took less than the quarantine, the early ones ended before the deadline,
      and the later ones start after it. */
  predicate InTime(w: World, c: Clocks) {
    && c.parked.now < w.now + Quarantine
    && (forall i :: 0 <= i < |c.ends| ==> c.ends[i] < Deadline(c.parked))
    && Deadline(c.parked) <= c.resumed.now
  }

  predicate AllAre(verdicts: seq<Verdict>, v: Verdict) {
    forall i :: 0 <= i < |verdicts| ==> verdicts[i] == v
  }

  /**
   A first rollback closes an active gate, `early` rollbacks follow, then time passes, then
   `late` rollbacks follow. Stops, claiming nothing, only where the clock was not as intended.
   */
  method RollBackInParts(port: Port, first: Actor, early: seq<Actor>, pause: nat, late: seq<Actor>, maxPolls: nat)
      returns (verdicts: seq<Verdict>, clocks: Clocks)
    requires port.CalmFrom(0) && maxPolls >= 1 && |late| > 0
    requires Ready(port.world) && GateRecorded(port.world.store) && port.world.store.gate.active
    modifies port
    ensures InTime(old(port.world), clocks) ==>
      && Parked(old(port.world), clocks.parked) && clocks.resumed.services == clocks.parked.services
      && |verdicts| == 1 + |early| + |late|
      && AllAre(verdicts[..1 + |early|], Waiting) && AllAre(verdicts[1 + |early|..], Executed)
      && RolledBack(port.world) && port.world.store.gate.revision == old(port.world).store.gate.revision + 1
  {
    var start := port.world;
    var run := new Run(port, true, first);
    var v0 := run.Execute(maxPolls);
    var parked := port.world;
    if parked.now >= start.now + Quarantine {
      return [v0], Clocks(parked, [], parked);
    }
    ParkedWaits(start, parked);
    var v1, ends := RunEarly(port, early, maxPolls, Deadline(parked));
    port.Idle(pause);
    var resumed := port.world;
    clocks := Clocks(parked, ends, resumed);
    if (exists i :: 0 <= i < |ends| && ends[i] >= Deadline(parked)) || resumed.now < Deadline(parked) {
      return [v0] + v1, clocks;
    }
    var v2 := RunLate(port, late, maxPolls);
    verdicts := [v0] + v1 + v2;
    assert verdicts[..1 + |early|] == [v0] + v1 && verdicts[1 + |early|..] == v2;
  }

  /** A store in which others replaced gate 5 by gate 7 while a run acknowledged gate 5. */
  function Replaced(): World {
    World(Store(Gate(false, 7, 7, 0, 9),
                map[5 := Closure(true, false, Quarantine, 5, 9), 7 := Closure(false, true, 0, 7, 9)]),
          EverythingOff(), Counts(0, 0, 0, 0), 2 * Quarantine, false)
  }

  function BeforeReplacement(): World {
    World(Store(Gate(false, 5, 5, 0, 9), map[5 := Closure(false, true, 0, 5, 9)]),
          EverythingOff(), Counts(0, 0, 0, 0), 0, false)
  }

  /** The first poll makes calls 0 to 3, the acknowledgment calls 4 and 5. */
  function ReplacementScript(k: nat): Disturbance {
    Disturbance(0, if k == 6 then Some(Replaced()) else None, Works, Works)
  }

  /** The world once the barrier of the closed gate is acknowledged. */
  function Lowered(w: World): World
    requires w.store.gate.revision in w.store.closures
  {
    var revision := w.store.gate.revision;
    var lowered := w.store.closures[revision].(barrier := false, unsafeUntil := w.now + Quarantine);
    w.(store := w.store.(closures := w.store.closures[revision := lowered]))
  }

  lemma Lowers(script: nat -> Disturbance, c: nat, w: World)
    requires script(c).outcome.Works? && Before(w, script(c)) == w
    requires script(c + 1).outcome.Works? && Before(w, script(c + 1)) == w
    requires !w.store.gate.active && BarrierUp(w.store, w.store.gate.revision)
    ensures Acknowledges(script, c, w) && AcknowledgedWorld(script, c, w) == Lowered(w)
  {}

  lemma Untouched(w: World, k: nat)
    requires k != 6
    ensures Before(w, ReplacementScript(k)) == w && ReplacementScript(k).outcome.Works?
  {}

  lemma FiveRead()
    ensures BarrierAtPoll(ReplacementScript, 0, BeforeReplacement())
    ensures AfterFour(ReplacementScript, 0, BeforeReplacement()) == BeforeReplacement()
  {
    var w := BeforeReplacement();
    Untouched(w, 0); Untouched(w, 1); Untouched(w, 2); Untouched(w, 3);
    assert BarrierRead(ReplacementScript, 2, w);
  }

  lemma SevenRead()
    ensures BarrierAtPoll(ReplacementScript, 6, Lowered(BeforeReplacement()))
  {
    var w := Lowered(BeforeReplacement());
    assert RecordKept(w.store, Replaced().store, 5);
    assert Before(w, ReplacementScript(6)) == Replaced();
    Untouched(Replaced(), 7); Untouched(Replaced(), 8); Untouched(Replaced(), 9);
    assert BarrierRead(ReplacementScript, 8, Replaced());
  }

  /** A first poll behind a barrier, then the acknowledgment, then a second poll behind a barrier. */
  predicate BarrierTwice(script: nat -> Disturbance, c: nat, w: World) {
    var v := AfterFour(script, c, w);
    && BarrierAtPoll(script, c, w) && Acknowledges(script, c + 4, v)
    && BarrierAtPoll(script, c + 6, AcknowledgedWorld(script, c + 4, v))
  }

  /** It can happen: others replace the gate while the run acknowledges it. */
  lemma BarrierTwiceHappens()
    ensures BarrierTwice(ReplacementScript, 0, BeforeReplacement())
  {
    FiveRead();
    Untouched(BeforeReplacement(), 4);
    Untouched(BeforeReplacement(), 5);
    Lowers(ReplacementScript, 4, BeforeReplacement());
    SevenRead();
  }

  /**
   The drain block takes a second "legacy_ready" for a completed drain: whenever it meets a
   barrier twice it reports completion, though the gate it ends with is still behind a barrier
   and is not the one it acknowledged.
   */
  method SecondBarrierTakenForDrained(port: Port, actor: Actor) returns (r: Result<bool>)
    requires BarrierTwice(port.script, port.calls, port.world)
    modifies port
    ensures r == Ok(true) && EndsBehindOther(port.trace, |old(port.trace)|)
  {
    var run := new Run(port, true, actor);
    ghost var from := |port.trace|;
    var wait, read := run.WaitForDrain(1, true);
    WaitShows(port.trace, from, from, WaitLegacyReady, read);
    r := run.AcknowledgeAndWait();
  }
}
