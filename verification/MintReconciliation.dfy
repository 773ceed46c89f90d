/**
 The four updates by which expiry reconciliation moves comment-token mints forward. Each update
 reads the clock anew for each row; `Clock` gives those readings, and they never run backwards.
 */
module MintReconciliation {
  import opened Outcomes

  /** One minute, in milliseconds: the skew added to a token's expiry. */
  const ExpirySkew := 60_000

  datatype State = Prepared | Dispatching | OutcomeUnknown | Issued | RevokePending | FailedNoToken | Revoked | Expired

  datatype Mint = Mint(state: State, revision: nat, leaseExpiresAt: int, unsafeUntil: Option<int>,
                       tokenExpiresAt: Option<int>, secret: bool, completedAt: Option<int>)

  predicate Unresolved(m: Mint) {
    m.state in {Prepared, Dispatching, OutcomeUnknown, Issued, RevokePending}
  }

  /** `<=` against a column that may be null. */
  predicate Passed(time: Option<int>, now: int) { time.Some? && time.value <= now }

  /** `GREATEST`, which ignores nulls. */
  function Greatest(a: Option<int>, b: Option<int>): Option<int> {
    match (a, b)
    case (Some(x), Some(y)) => Some(if x < y then y else x)
    case (None, _) => b
    case (_, None) => a
  }

  function TokenHorizon(m: Mint): Option<int> {
    Greatest(if m.tokenExpiresAt.Some? then Some(m.tokenExpiresAt.value + ExpirySkew) else None, m.unsafeUntil)
  }

  function Moved(m: Mint, state: State): Mint { m.(state := state, revision := m.revision + 1) }

  function Update(k: nat, m: Mint, gateClosed: bool, now: int): Mint {
    match k
    case 0 =>
      if m.state.Prepared? && (m.leaseExpiresAt <= now || gateClosed) then
        Moved(m, FailedNoToken).(completedAt := Some(now)) else m
    case 1 => if m.state.Dispatching? && Passed(m.unsafeUntil, now) then Moved(m, OutcomeUnknown) else m
    case 2 =>
      if m.state.OutcomeUnknown? && Passed(m.unsafeUntil, now) then Moved(m, Expired).(completedAt := Some(now)) else m
    case _ =>
      if (m.state.Issued? || m.state.RevokePending?) && Passed(TokenHorizon(m), now) then
        Moved(m, Expired).(completedAt := Some(now), secret := false) else m
  }

  /** The clock reading of update `k` at row `i`. */
  type Clock = (nat, nat) -> int

  ghost predicate Forward(clock: Clock, start: int) {
    forall k: nat, i: nat :: start <= clock(k, i) <= clock(k + 1, i)
  }

  function UpdateAll(k: nat, rows: seq<Mint>, gateClosed: bool, clock: Clock): seq<Mint> {
    seq(|rows|, i requires 0 <= i < |rows| => Update(k, rows[i], gateClosed, clock(k, i)))
  }

  /** What one row goes through in a pass. */
  function Passage(m: Mint, gateClosed: bool, clock: Clock, i: nat): Mint {
    var m1 := Update(0, m, gateClosed, clock(0, i));
    var m2 := Update(1, m1, gateClosed, clock(1, i));
    var m3 := Update(2, m2, gateClosed, clock(2, i));
    Update(3, m3, gateClosed, clock(3, i))
  }

  predicate PassedThrough(rows: seq<Mint>, after: seq<Mint>, gateClosed: bool, clock: Clock) {
    |after| == |rows| && forall i :: 0 <= i < |rows| ==> after[i] == Passage(rows[i], gateClosed, clock, i)
  }

  class Mints {
    var rows: seq<Mint>

    constructor (rows: seq<Mint>)
      ensures this.rows == rows
    {
      this.rows := rows;
    }

    /** The transaction of `reconcileExpiredGrants`, up to the grants it reconciles afterwards. */
    method Reconcile(gateClosed: bool, clock: Clock, ghost start: int)
      requires Forward(clock, start)
      modifies this
      ensures |rows| == |old(rows)|
      ensures forall i :: 0 <= i < |rows| ==> Advanced(old(rows)[i], rows[i])
      ensures Count(rows) <= Count(old(rows))
      ensures gateClosed && (forall i :: 0 <= i < |rows| ==> HorizonPassed(old(rows)[i], start)) ==> Count(rows) == 0
      ensures forall i :: 0 <= i < |rows| && (rows[i].state.Dispatching? || rows[i].state.OutcomeUnknown?) ==>
        !Passed(rows[i].unsafeUntil, start)
    {
      ghost var was := rows;
      rows := UpdateAll(0, rows, gateClosed, clock);
      rows := UpdateAll(1, rows, gateClosed, clock);
      rows := UpdateAll(2, rows, gateClosed, clock);
      rows := UpdateAll(3, rows, gateClosed, clock);
      assert PassedThrough(was, rows, gateClosed, clock);
      PassAdvances(was, rows, gateClosed, clock);
      PassSettles(was, rows, gateClosed, clock, start);
    }
  }

  // ---------------------------------------------------------------- one row

  function Rank(s: State): nat {
    match s
    case Prepared => 0
    case Dispatching => 1
    case OutcomeUnknown => 2
    case Issued => 2
    case RevokePending => 2
    case _ => 3
  }

  /** The row is as it was, or further on with a later revision; its horizons never move, a
      settled row never changes, and a secret is given up only by expiring. */
  predicate Advanced(m: Mint, n: Mint) {
    && (n == m || (Rank(m.state) < Rank(n.state) && m.revision < n.revision))
    && n.leaseExpiresAt == m.leaseExpiresAt && n.unsafeUntil == m.unsafeUntil && n.tokenExpiresAt == m.tokenExpiresAt
    && (!Unresolved(m) ==> n == m)
    && (Unresolved(m) && !Unresolved(n) ==> n.completedAt.Some? && (n.state.FailedNoToken? <==> m.state.Prepared?))
    && (m.secret && !n.secret ==> n.state.Expired?)
  }

  /** Nothing about the row is still running at this time. */
  predicate HorizonPassed(m: Mint, now: int) {
    match m.state
    case Dispatching => Passed(m.unsafeUntil, now)
    case OutcomeUnknown => Passed(m.unsafeUntil, now)
    case Issued => Passed(TokenHorizon(m), now)
    case RevokePending => Passed(TokenHorizon(m), now)
    case _ => true
  }

  /** A row is resolved by a pass exactly when it was, or its time had come when it was read. */
  lemma ResolvedExactlyWhen(m: Mint, gateClosed: bool, clock: Clock, i: nat, start: int)
    requires Forward(clock, start)
    ensures Advanced(m, Passage(m, gateClosed, clock, i))
    ensures !Unresolved(Passage(m, gateClosed, clock, i)) <==>
      match m.state
      case Prepared => gateClosed || m.leaseExpiresAt <= clock(0, i)
      case Dispatching => Passed(m.unsafeUntil, clock(1, i))
      case OutcomeUnknown => Passed(m.unsafeUntil, clock(2, i))
      case Issued => Passed(TokenHorizon(m), clock(3, i))
      case RevokePending => Passed(TokenHorizon(m), clock(3, i))
      case _ => true
  {
    assert start <= clock(0, i) <= clock(0 + 1, i) && clock(1, i) <= clock(1 + 1, i) && clock(2, i) <= clock(2 + 1, i);
  }

  // ---------------------------------------------------------------- all rows

  function Count(rows: seq<Mint>): nat {
    if rows == [] then 0 else Count(rows[..|rows| - 1]) + (if Unresolved(rows[|rows| - 1]) then 1 else 0)
  }

  lemma {:induction false} CountFalls(rows: seq<Mint>, after: seq<Mint>)
    requires |after| == |rows| && forall i :: 0 <= i < |rows| && Unresolved(after[i]) ==> Unresolved(rows[i])
    ensures Count(after) <= Count(rows)
    ensures Count(after) == Count(rows) <==> forall i :: 0 <= i < |rows| ==> (Unresolved(after[i]) <==> Unresolved(rows[i]))
  {
    if rows != [] {
      var n := |rows| - 1;
      CountFalls(rows[..n], after[..n]);
    }
  }

  lemma {:induction false} CountZero(rows: seq<Mint>)
    ensures Count(rows) == 0 <==> forall i :: 0 <= i < |rows| ==> !Unresolved(rows[i])
  {
    if rows != [] {
      CountZero(rows[..|rows| - 1]);
    }
  }

  /** One pass only moves mints forward and never raises the unresolved count. */
  lemma PassAdvances(rows: seq<Mint>, after: seq<Mint>, gateClosed: bool, clock: Clock)
    requires PassedThrough(rows, after, gateClosed, clock) && exists start :: Forward(clock, start)
    ensures forall i :: 0 <= i < |rows| ==> Advanced(rows[i], after[i])
    ensures Count(after) <= Count(rows)
  {
    var start :| Forward(clock, start);
    forall i | 0 <= i < |rows| ensures Advanced(rows[i], after[i]) {
      ResolvedExactlyWhen(rows[i], gateClosed, clock, i, start);
    }
    CountFalls(rows, after);
  }

  /** No mint past its horizon is left dispatching or of unknown outcome, and once the gate is
      closed and every horizon has passed none is left unresolved. */
  lemma PassSettles(rows: seq<Mint>, after: seq<Mint>, gateClosed: bool, clock: Clock, start: int)
    requires PassedThrough(rows, after, gateClosed, clock) && Forward(clock, start)
    ensures forall i :: 0 <= i < |rows| && (after[i].state.Dispatching? || after[i].state.OutcomeUnknown?) ==>
      !Passed(after[i].unsafeUntil, start)
    ensures gateClosed && (forall i :: 0 <= i < |rows| ==> HorizonPassed(rows[i], start)) ==> Count(after) == 0
  {
    forall i | 0 <= i < |rows|
      ensures after[i].state.Dispatching? || after[i].state.OutcomeUnknown? ==> !Passed(after[i].unsafeUntil, start)
      ensures gateClosed && HorizonPassed(rows[i], start) ==> !Unresolved(after[i])
    {
      ResolvedExactlyWhen(rows[i], gateClosed, clock, i, start);
      assert start <= clock(0, i) <= clock(0 + 1, i) && clock(1, i) <= clock(1 + 1, i) && clock(2, i) <= clock(2 + 1, i);
    }
    CountZero(after);
  }
}
