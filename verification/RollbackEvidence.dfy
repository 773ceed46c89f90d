/**
 The event log of an operator's run, and the independent verifier of a rollback's log.
 */
module RollbackEvidence {
  import opened Outcomes
  import opened RuntimeGate
  import opened GateProtocol
  import opened ControlPort

  datatype Phase =
    | InitialObservation | GateClosedFirst | FaultPlanClosed | AdmissionClosed
    | DrainPoll | QuarantineWaiting | LegacyDrainAcknowledged
    | FailoverClosed | RelayClosed | CustodyClosed | PoolClosed | FinalReread

  /** `services` is empty, and `counts` and `gate` absent, for events without an observation. */
  datatype Event = Event(phase: Phase, services: seq<Service>, counts: Option<Counts>, gate: Option<Gate>)

  const Closures: seq<(Phase, FlagName)> :=
    [(AdmissionClosed, Admission), (FailoverClosed, Failover), (RelayClosed, Relay),
     (CustodyClosed, Custody), (PoolClosed, Pool)]

  predicate BothOff(e: Event, name: FlagName) {
    |e.services| == 2 && Get(e.services[0], name) == Off && Get(e.services[1], name) == Off
  }

  predicate AllOff(e: Event) {
    BothOff(e, Pool) && BothOff(e, Custody) && BothOff(e, Admission) && BothOff(e, Relay) && BothOff(e, Failover)
  }

  /** The verifier's drain test: it does not look at unresolved mint attempts. */
  predicate DrainProven(e: Event) {
    e.counts.Some? && e.counts.value.inFlight == 0 && e.counts.value.issuedGrants == 0
    && e.counts.value.unresolvedRequests == 0
  }

  /** `i` is the first index after `prior` whose event has the phase. */
  predicate FirstAfter(events: seq<Event>, prior: int, phase: Phase, i: int) {
    prior < i && 0 <= i < |events| && events[i].phase == phase
    && forall j :: 0 <= j < i && prior < j ==> events[j].phase != phase
  }

  predicate NoneAfter(events: seq<Event>, prior: int, phase: Phase) {
    forall j :: 0 <= j < |events| && prior < j ==> events[j].phase != phase
  }

  /** The first observation of the k-th closure after `prior`, at `i`, shows its flag off. */
  predicate ClosureReread(events: seq<Event>, prior: int, k: nat, i: int)
    requires k < 5
  {
    FirstAfter(events, prior, Closures[k].0, i) && BothOff(events[i], Closures[k].1)
  }

  /** What an accepted log looks like: at these positions the fault plan was closed, then each
      flag was re-read off on both services in the fixed order, then came the final re-read. */
  predicate Proof(events: seq<Event>, at: seq<int>) {
    && |at| == 7
    && FirstAfter(events, -1, FaultPlanClosed, at[0])
    && (forall k :: 0 <= k < 5 ==> ClosureReread(events, at[k], k, at[k + 1]))
    && FirstAfter(events, at[5], FinalReread, at[6])
    && at[6] == |events| - 1 && AllOff(events[at[6]]) && DrainProven(events[at[6]])
  }

  lemma ProofStep(events: seq<Event>, at: seq<int>, k: nat)
    requires k < 5
    ensures Proof(events, at) ==> |at| == 7 && ClosureReread(events, at[k], k, at[k + 1])
  {}

  method FindIndex(events: seq<Event>, prior: int, phase: Phase) returns (i: int)
    requires -1 <= prior
    ensures i == -1 || FirstAfter(events, prior, phase, i)
    ensures i == -1 <==> NoneAfter(events, prior, phase)
  {
    i := 0;
    while i < |events|
      invariant 0 <= i <= |events|
      invariant forall j :: 0 <= j < i && prior < j ==> events[j].phase != phase
    {
      if i > prior && events[i].phase == phase {
        return;
      }
      i := i + 1;
    }
    i := -1;
  }

  /** `verifyHostedPoolRollbackEvidence`: accepts exactly the logs that have such a proof. */
  method VerifyRollbackEvidence(events: seq<Event>) returns (accepted: bool)
    ensures accepted <==> exists at: seq<int> :: Proof(events, at)
  {
    var prior := FindIndex(events, -1, FaultPlanClosed);
    if prior < 0 {
      return false;
    }
    ghost var found := [prior];
    for k := 0 to 5
      invariant |found| == k + 1 && found[k] == prior && -1 <= prior < |events|
      invariant FirstAfter(events, -1, FaultPlanClosed, found[0])
      invariant forall j :: 0 <= j < k ==> ClosureReread(events, found[j], j, found[j + 1])
      invariant forall at: seq<int> :: Proof(events, at) ==> found <= at
    {
      var index := FindIndex(events, prior, Closures[k].0);
      if index < 0 {
        forall at: seq<int> ensures !Proof(events, at) { ProofStep(events, at, k); }
        return false;
      }
      if !BothOff(events[index], Closures[k].1) {
        forall at: seq<int> ensures !Proof(events, at) { ProofStep(events, at, k); }
        return false;
      }
      forall at: seq<int> | Proof(events, at) ensures found + [index] <= at {
        assert ClosureReread(events, at[k], k, at[k + 1]);
      }
      found := found + [index];
      prior := index;
    }
    var last := FindIndex(events, prior, FinalReread);
    if last < 0 || last != |events| - 1 || !AllOff(events[last]) || !DrainProven(events[last]) {
      forall at: seq<int> ensures !Proof(events, at) { ProofStep(events, at, 4); }
      return false;
    }
    assert Proof(events, found + [last]);
    return true;
  }

  // ---------------------------------------------------------------- unresolved mints are not seen

  /** The same log, with this many unresolved mint attempts in its final event. */
  function WithMints(events: seq<Event>, mints: nat): seq<Event>
    requires events != [] && events[|events| - 1].counts.Some?
  {
    var last := events[|events| - 1];
    events[|events| - 1 := last.(counts := Some(last.counts.value.(unresolvedMints := mints)))]
  }

  /** An accepted log stays accepted whatever number of unresolved mints its final event shows. */
  lemma MintsIgnored(events: seq<Event>, at: seq<int>, mints: nat)
    requires Proof(events, at)
    ensures Proof(WithMints(events, mints), at)
  {
    var u := WithMints(events, mints);
    assert forall i :: 0 <= i < |events| ==>
      u[i].phase == events[i].phase && u[i].services == events[i].services;
    forall k | 0 <= k < 5 ensures ClosureReread(u, at[k], k, at[k + 1]) {
      assert ClosureReread(events, at[k], k, at[k + 1]);
    }
  }

  function OffService(): Service { Service(Off, Off, Off, Off, Off) }

  function Seen(phase: Phase): Event {
    Event(phase, [OffService(), OffService()], Some(Counts(0, 0, 0, 0)), None)
  }

  function QuietLog(): seq<Event> {
    [Seen(FaultPlanClosed), Seen(AdmissionClosed), Seen(FailoverClosed), Seen(RelayClosed), Seen(CustodyClosed),
     Seen(PoolClosed), Seen(FinalReread)]
  }

  /** So the verifier accepts a log whose final event has a mint left unresolved. */
  lemma AcceptedWithMint()
    ensures exists at: seq<int> :: Proof(WithMints(QuietLog(), 1), at)
    ensures var e := WithMints(QuietLog(), 1)[6]; e.counts.Some? && !Drained(e.counts.value)
  {
    var l, at := QuietLog(), [0, 1, 2, 3, 4, 5, 6];
    assert FirstAfter(l, -1, FaultPlanClosed, 0);
    forall k | 0 <= k < 5 ensures ClosureReread(l, at[k], k, at[k + 1]) {
      assert l[k + 1].phase == Closures[k].0;
    }
    assert FirstAfter(l, 5, FinalReread, 6);
    MintsIgnored(l, at, 1);
  }
}
