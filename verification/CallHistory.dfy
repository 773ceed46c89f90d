/**
 What the calls of one operator's run show, and when each call may be made. A run starts at
 position `since` of its port's call trace; every predicate looks at the trace alone, so nothing
 a run says about itself counts.
 */
module CallHistory {
  import opened Outcomes
  import opened RuntimeGate
  import opened GateProtocol
  import opened ControlPort

  /** The call returned without throwing. */
  predicate Fine(c: Call) {
    match c
    case FlagsRead(r) => r.Ok?
    case GateRead(r) => r.Ok?
    case ClosureRead(_, r, _) => r.Ok?
    case CountsRead(r) => r.Ok?
    case GrantsReconciled(r) => r.Ok?
    case PlanClosed(r) => r.Ok?
    case FlagPatched(_, r) => r.Ok?
    case GateSwitched(_, _, r) => r.Ok?
    case ClosureEnsured(_, r) => r.Ok?
    case DrainAcknowledged(_, r) => r.Ok?
    case ClosureCompleted(_, r) => r.Ok?
  }

  predicate AllFine(t: seq<Call>, since: nat) {
    forall i {:trigger Fine(t[i])} :: since <= i < |t| ==> Fine(t[i])
  }

  // ---------------------------------------------------------------- what was seen

  /** Four calls in a row: expired grants reconciled, all four counts read as zero, then the
      gate and its closure read. */
  predicate ZeroPoll(t: seq<Call>, k: nat) {
    && k + 4 <= |t|
    && t[k].GrantsReconciled? && t[k].reconciled.Ok?
    && t[k + 1].CountsRead? && t[k + 1].counts.Ok? && Drained(t[k + 1].counts.value)
    && t[k + 2].GateRead? && t[k + 2].gate.Ok?
    && t[k + 3].ClosureRead? && t[k + 3].closure.Ok? && t[k + 3].closureOf == t[k + 2].gate.value
  }

  predicate Standing(c: Option<Closure>) {
    c.Some? && !c.value.complete && c.value.barrier
  }

  /** The closure waits for its deadline. */
  predicate Waits(c: Option<Closure>, at: int) {
    c.Some? && !c.value.complete && !c.value.barrier && c.value.unsafeUntil > at
  }

  /** A zero poll of a gate with neither barrier nor running deadline, then its closure completed. */
  predicate Certified(t: seq<Call>, k: nat) {
    && ZeroPoll(t, k) && k + 5 <= |t|
    && !Standing(t[k + 3].closure.value) && !Waits(t[k + 3].closure.value, t[k + 3].at)
    && t[k + 4].ClosureCompleted? && t[k + 4].completed.Ok? && t[k + 4].completedOf == t[k + 2].gate.value
  }

  /** A zero poll of a gate whose barrier stands. */
  predicate Behind(t: seq<Call>, k: nat) {
    ZeroPoll(t, k) && Standing(t[k + 3].closure.value)
  }

  predicate Quarantined(t: seq<Call>, k: nat) {
    ZeroPoll(t, k) && Waits(t[k + 3].closure.value, t[k + 3].at)
  }

  predicate AcknowledgedOther(t: seq<Call>, since: nat, k: nat)
    requires k + 3 <= |t| && t[k + 2].GateRead? && t[k + 2].gate.Ok?
  {
    exists a :: since <= a < k && t[a].DrainAcknowledged? && t[a].acknowledged.Ok?
      && t[a].acknowledgedOf.revision != t[k + 2].gate.value.revision
  }

  /** The evidence for a drain at `k`: a certified one, or the case the source lets pass, a zero
      poll behind the barrier of another revision than the one acknowledged before. */
  predicate DrainAt(t: seq<Call>, since: nat, k: nat) {
    Certified(t, k) || (Behind(t, k) && AcknowledgedOther(t, since, k))
  }

  predicate DrainSeen(t: seq<Call>, since: nat) {
    exists k :: since <= k < |t| && DrainAt(t, since, k)
  }

  predicate BehindSeen(t: seq<Call>, since: nat) {
    exists k :: since <= k < |t| && Behind(t, k)
  }

  predicate PlanSeen(t: seq<Call>, since: nat) {
    exists i :: since <= i < |t| && t[i].PlanClosed? && t[i].plan.Ok?
  }

  /** At `p` this run closed the gate, or ensured the record of a gate already closed. */
  predicate ClosedAt(t: seq<Call>, p: nat, revision: nat) {
    && p < |t|
    && ((t[p].GateSwitched? && !t[p].active && t[p].switched.Ok? && t[p].switched.value.revision == revision)
        || (t[p].ClosureEnsured? && t[p].ensured.Ok? && !t[p].ensuredOf.active && t[p].ensuredOf.revision == revision))
  }

  predicate ClosedRead(t: seq<Call>, q: nat) {
    q < |t| && t[q].GateRead? && t[q].gate.Ok? && !t[q].gate.value.active
  }

  /** The gate was closed and then read closed at that revision. */
  predicate GateSeenClosed(t: seq<Call>, since: nat) {
    exists p, q :: since <= p < q < |t| && ClosedRead(t, q) && ClosedAt(t, p, t[q].gate.value.revision)
  }

  predicate OffAt(t: seq<Call>, q: nat, name: FlagName) {
    && q < |t| && t[q].FlagsRead? && t[q].flags.Ok? && |t[q].flags.value| == 2
    && Get(t[q].flags.value[0], name) == Off && Get(t[q].flags.value[1], name) == Off
  }

  predicate PatchedAt(t: seq<Call>, p: nat, name: FlagName) {
    p < |t| && t[p].FlagPatched? && t[p].name == name
  }

  /** The flag was patched and then read off on both services. */
  predicate SeenOff(t: seq<Call>, since: nat, name: FlagName) {
    exists p, q :: since <= p < q < |t| && PatchedAt(t, p, name) && OffAt(t, q, name)
  }

  predicate AllOffAt(t: seq<Call>, q: nat) {
    OffAt(t, q, Pool) && OffAt(t, q, Custody) && OffAt(t, q, Admission) && OffAt(t, q, Relay) && OffAt(t, q, Failover)
  }

  /** The last three calls read every flag off on both services, the gate, and four zero counts. */
  predicate FinalSeen(t: seq<Call>) {
    && |t| >= 3
    && AllOffAt(t, |t| - 3)
    && t[|t| - 2].GateRead? && t[|t| - 2].gate.Ok?
    && t[|t| - 1].CountsRead? && t[|t| - 1].counts.Ok? && Drained(t[|t| - 1].counts.value)
  }

  // ---------------------------------------------------------------- when a call may be made

  predicate AdmissionClosedAndDrained(t: seq<Call>, since: nat) {
    GateSeenClosed(t, since) && PlanSeen(t, since) && SeenOff(t, since, Admission) && DrainSeen(t, since)
  }

  /** Everything a rollback must have seen before custody is disabled. */
  predicate CustodyMayClose(t: seq<Call>, since: nat) {
    && AllFine(t, since) && AdmissionClosedAndDrained(t, since)
    && SeenOff(t, since, Failover) && SeenOff(t, since, Relay)
  }

  predicate MayPatch(rollback: bool, t: seq<Call>, since: nat, name: FlagName) {
    match name
    case Custody => rollback && CustodyMayClose(t, since)
    case Pool => rollback && CustodyMayClose(t, since) && SeenOff(t, since, Custody)
    case _ => true
  }

  /** Whether a run may make a call, given all its calls before it. */
  predicate MayCall(rollback: bool, t: seq<Call>, since: nat, c: Call) {
    match c
    case FlagPatched(name, _) => MayPatch(rollback, t, since, name)
    case DrainAcknowledged(_, _) => BehindSeen(t, since) && (rollback || SeenOff(t, since, Admission))
    case ClosureCompleted(gate, _) =>
      |t| >= since + 4 && ZeroPoll(t, |t| - 4) && t[|t| - 2].gate.value == gate
      && !Standing(t[|t| - 1].closure.value) && !Waits(t[|t| - 1].closure.value, t[|t| - 1].at)
    case _ => true
  }

  predicate OrderOk(rollback: bool, t: seq<Call>, since: nat) {
    forall i {:trigger MayCall(rollback, t[..i], since, t[i])} :: since <= i < |t| ==> MayCall(rollback, t[..i], since, t[i])
  }

  lemma CallMade(rollback: bool, t: seq<Call>, since: nat, c: Call)
    requires OrderOk(rollback, t, since) && MayCall(rollback, t, since, c)
    ensures OrderOk(rollback, t + [c], since)
  {
    var u := t + [c];
    forall i | since <= i < |u| ensures MayCall(rollback, u[..i], since, u[i]) {
      if i < |t| { assert u[..i] == t[..i]; } else { assert u[..i] == t; }
    }
  }

  /** A call that may be made at any time. */
  predicate Free(c: Call) {
    !c.DrainAcknowledged? && !c.ClosureCompleted? && (c.FlagPatched? ==> c.name != Custody && c.name != Pool)
  }

  lemma FreeCall(rollback: bool, t: seq<Call>, since: nat, c: Call)
    requires OrderOk(rollback, t, since) && Free(c)
    ensures OrderOk(rollback, t + [c], since)
  {
    CallMade(rollback, t, since, c);
  }

  // ---------------------------------------------------------------- what stays seen

  lemma PollGrows(t: seq<Call>, u: seq<Call>, k: nat)
    requires t <= u && k + 4 <= |t|
    ensures ZeroPoll(t, k) ==> ZeroPoll(u, k)
    ensures Behind(t, k) ==> Behind(u, k)
    ensures Certified(t, k) ==> Certified(u, k)
  {}

  lemma DrainGrows(t: seq<Call>, u: seq<Call>, since: nat)
    requires t <= u
    ensures DrainSeen(t, since) ==> DrainSeen(u, since)
    ensures BehindSeen(t, since) ==> BehindSeen(u, since)
  {
    if DrainSeen(t, since) {
      var k :| since <= k < |t| && DrainAt(t, since, k);
      PollGrows(t, u, k);
      if !Certified(t, k) {
        var a :| since <= a < k && t[a].DrainAcknowledged? && t[a].acknowledged.Ok?
          && t[a].acknowledgedOf.revision != t[k + 2].gate.value.revision;
        assert u[a] == t[a];
      }
      assert DrainAt(u, since, k);
    }
    if BehindSeen(t, since) {
      var k :| since <= k < |t| && Behind(t, k);
      PollGrows(t, u, k);
    }
  }

  lemma OffGrows(t: seq<Call>, u: seq<Call>, since: nat, name: FlagName)
    requires t <= u && SeenOff(t, since, name)
    ensures SeenOff(u, since, name)
  {
    var p, q :| since <= p < q < |t| && PatchedAt(t, p, name) && OffAt(t, q, name);
    assert PatchedAt(u, p, name) && OffAt(u, q, name);
  }

  lemma ClosedGrows(t: seq<Call>, u: seq<Call>, since: nat)
    requires t <= u
    ensures GateSeenClosed(t, since) ==> GateSeenClosed(u, since)
    ensures PlanSeen(t, since) ==> PlanSeen(u, since)
  {
    if GateSeenClosed(t, since) {
      var p, q :| since <= p < q < |t| && ClosedRead(t, q) && ClosedAt(t, p, t[q].gate.value.revision);
      assert ClosedRead(u, q) && ClosedAt(u, p, u[q].gate.value.revision);
    }
    if PlanSeen(t, since) {
      var i :| since <= i < |t| && t[i].PlanClosed? && t[i].plan.Ok?;
      assert u[i] == t[i];
    }
  }

  /** What a longer trace still shows. */
  predicate Keeps(t: seq<Call>, u: seq<Call>, since: nat) {
    && t <= u
    && (DrainSeen(t, since) ==> DrainSeen(u, since)) && (BehindSeen(t, since) ==> BehindSeen(u, since))
    && (GateSeenClosed(t, since) ==> GateSeenClosed(u, since)) && (PlanSeen(t, since) ==> PlanSeen(u, since))
    && (forall name :: SeenOff(t, since, name) ==> SeenOff(u, since, name))
  }

  lemma StillSeen(t: seq<Call>, u: seq<Call>, since: nat)
    requires t <= u
    ensures Keeps(t, u, since)
  {
    DrainGrows(t, u, since);
    ClosedGrows(t, u, since);
    forall name | SeenOff(t, since, name) ensures SeenOff(u, since, name) { OffGrows(t, u, since, name); }
  }

  // ---------------------------------------------------------------- what an answer of the drain rests on

  datatype Wait = WaitComplete | WaitQuarantine | WaitLegacyReady

  /** The last calls behind each answer of the drain loop, none of them made before `from`.
      `read` is the gate they read. */
  predicate WaitProven(t: seq<Call>, from: nat, wait: Wait, read: Gate) {
    match wait
    case WaitComplete => from + 5 <= |t| && Certified(t, |t| - 5) && t[|t| - 3].gate.value == read
    case WaitQuarantine => from + 4 <= |t| && Quarantined(t, |t| - 4) && t[|t| - 2].gate.value == read
    case WaitLegacyReady => from + 4 <= |t| && Behind(t, |t| - 4) && t[|t| - 2].gate.value == read
  }

  /** The trace ends with the reconciliation of expired grants and four zero counts. */
  predicate PolledZero(t: seq<Call>, since: nat) {
    && |t| >= since + 2
    && t[|t| - 2].GrantsReconciled? && t[|t| - 2].reconciled.Ok?
    && t[|t| - 1].CountsRead? && t[|t| - 1].counts.Ok? && Drained(t[|t| - 1].counts.value)
  }

  predicate EndsCertified(t: seq<Call>) {
    |t| >= 5 && Certified(t, |t| - 5)
  }

  /** The trace ends with a zero poll behind the barrier of another revision than was acknowledged. */
  predicate EndsBehindOther(t: seq<Call>, since: nat) {
    |t| >= 4 && Behind(t, |t| - 4) && AcknowledgedOther(t, since, |t| - 4)
  }

  /** The trace ends with the acknowledged drain of this revision. */
  predicate AckedLast(t: seq<Call>, since: nat, revision: nat) {
    && |t| > since && t[|t| - 1].DrainAcknowledged? && t[|t| - 1].acknowledged.Ok?
    && t[|t| - 1].acknowledgedOf.revision == revision
  }

  lemma CertifiedNow(t: seq<Call>, gate: Gate, done: Result<()>)
    requires done.Ok? && |t| >= 4 && ZeroPoll(t, |t| - 4) && t[|t| - 2].gate.value == gate
    requires !Standing(t[|t| - 1].closure.value) && !Waits(t[|t| - 1].closure.value, t[|t| - 1].at)
    ensures Certified(t + [ClosureCompleted(gate, done)], |t| - 4)
  {}

  lemma WaitShows(t: seq<Call>, since: nat, from: nat, wait: Wait, read: Gate)
    requires since <= from && WaitProven(t, from, wait, read)
    ensures wait == WaitComplete ==> DrainSeen(t, since) && EndsCertified(t) && !EndsBehindOther(t, since)
    ensures wait == WaitLegacyReady ==> BehindSeen(t, since)
  {
    if wait == WaitComplete { assert DrainAt(t, since, |t| - 5); }
  }

  lemma OtherShows(u: seq<Call>, t: seq<Call>, since: nat, acknowledged: nat, read: Gate)
    requires u <= t && AckedLast(u, since, acknowledged)
    requires WaitProven(t, |u|, WaitLegacyReady, read) && read.revision != acknowledged
    ensures DrainSeen(t, since) && EndsBehindOther(t, since)
  {
    assert t[|u| - 1] == u[|u| - 1];
    assert DrainAt(t, since, |t| - 4);
  }

  lemma FineJoins(t: seq<Call>, u: seq<Call>, v: seq<Call>)
    requires t <= u <= v && AllFine(u, |t|) && AllFine(v, |u|)
    ensures AllFine(v, |t|)
  {
    assert forall i :: |t| <= i < |u| ==> v[i] == u[i];
  }

  lemma FineBefore(t: seq<Call>, u: seq<Call>, since: nat)
    requires t <= u && AllFine(t, since) && AllFine(u, |t|)
    ensures AllFine(u, since)
  {
    assert forall i :: 0 <= i < |t| ==> u[i] == t[i];
  }

  lemma PatchSeen(t: seq<Call>, since: nat, p: nat, q: nat, name: FlagName)
    requires since <= p < q && PatchedAt(t, p, name) && OffAt(t, q, name)
    ensures SeenOff(t, since, name)
  {}

  /** Everything an executed rollback's calls show. */
  predicate RollbackShown(t: seq<Call>, since: nat) {
    CustodyMayClose(t, since) && SeenOff(t, since, Custody) && SeenOff(t, since, Pool) && FinalSeen(t)
  }

  lemma NowShown(t: seq<Call>, u: seq<Call>, since: nat)
    requires t <= u && CustodyMayClose(t, since) && SeenOff(t, since, Custody) && SeenOff(t, since, Pool)
    requires AllFine(u, since) && FinalSeen(u)
    ensures RollbackShown(u, since)
  {
    StillSeen(t, u, since);
  }

  predicate MayAcknowledge(rollback: bool, t: seq<Call>, since: nat) {
    BehindSeen(t, since) && (rollback || SeenOff(t, since, Admission))
  }

  lemma AcknowledgesInOrder(rollback: bool, t: seq<Call>, since: nat, read: Call, gate: Gate, r: Result<()>)
    requires OrderOk(rollback, t, since) && MayAcknowledge(rollback, t, since) && Free(read)
    ensures OrderOk(rollback, t + [read], since)
    ensures OrderOk(rollback, t + [read] + [DrainAcknowledged(gate, r)], since)
  {
    FreeCall(rollback, t, since, read);
    StillSeen(t, t + [read], since);
    CallMade(rollback, t + [read], since, DrainAcknowledged(gate, r));
  }
}
