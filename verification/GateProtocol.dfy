/**
 Operators run activate, kill-switch, drain and rollback at the same time against one gate.
 Every port call is an atomic step that may be refused, may commit with its response lost,
 or may be followed by any delay; the steps of different operators interleave freely.
 Flag deployments and observations appear only as steps at which a command may give up.
 */
module GateProtocol {
  import opened Outcomes
  import opened RuntimeGate

  /** One run of one command: the same actor may start any number of them. */
  datatype Operator = Operator(actor: Actor, run: nat)

  datatype Counts = Counts(inFlight: nat, issuedGrants: nat, unresolvedRequests: nat, unresolvedMints: nat)

  predicate Drained(c: Counts) {
    c.inFlight == 0 && c.issuedGrants == 0 && c.unresolvedRequests == 0 && c.unresolvedMints == 0
  }

  /** What follows the closing step: nothing, a drain, or a rollback that presses on. */
  datatype Command = KillSwitch | Drain | Rollback

  datatype Pc =
    | Resting
    | ActivateRead
    | ActivateAssert(closed: Gate)
    | ActivateSwitch(closed: Gate)
    | CloseRead(command: Command)
    | CloseApply(before: Gate, command: Command)
    | Poll(final: bool)
    | PollGate(final: bool)
    | PollClosure(gate: Gate, final: bool)
    | PollDecide(gate: Gate, closure: Option<Closure>, final: bool)
    | FinishClosure(gate: Gate)
    | AckRead
    | AckApply(gate: Gate)

  /** How the environment treats the next port call. */
  datatype Choice =
    | StartActivate
    | StartClose(command: Command)
    | Succeed
    | Refuse            // the call throws before it has any effect
    | LoseResponse      // the call takes effect, then throws
    | GiveUp            // a flag or observation step in between throws, or the process dies
    | Observe(counts: Counts)

  datatype Entry =
    | Polled(op: Operator, counts: Counts)
    | Won(op: Operator, expected: nat, active: bool, at: int)
    | Acked(op: Operator, revision: nat, at: int)
    | Completed(op: Operator, revision: nat, at: int)

  datatype System = System(store: Store, clock: int, pcs: map<Operator, Pc>, log: seq<Entry>)

  datatype Action = Tick(elapsed: nat) | Act(op: Operator, choice: Choice)

  function PcOf(s: System, op: Operator): Pc {
    if op in s.pcs then s.pcs[op] else Resting
  }

  function Goto(s: System, op: Operator, pc: Pc): System {
    s.(pcs := s.pcs[op := pc])
  }

  /** Where a command continues when a call throws: only a rollback presses on. */
  function AfterFailure(command: Command): Pc {
    if command.Rollback? then Poll(false) else Resting
  }

  function AfterClose(command: Command): Pc {
    if command.KillSwitch? then Resting else Poll(false)
  }

  /** A call with an effect on the store: refused, performed, or performed unheard. */
  function Effect(s: System, op: Operator, choice: Choice, done: (Store, bool), entry: seq<Entry>,
                  ok: Pc, failed: Pc): System {
    match choice
    case Refuse => Goto(s, op, failed)
    case LoseResponse => Goto(s.(store := done.0, log := s.log + entry), op, failed)
    case Succeed => Goto(s.(store := done.0, log := s.log + entry), op, if done.1 then ok else failed)
    case _ => s
  }

  function SwitchGate(s: System, op: Operator, choice: Choice, expected: nat, active: bool, ok: Pc, failed: Pc): System {
    var t := Transition(s.store, expected, active, s.clock, op.actor);
    Effect(s, op, choice, (t.0, t.1.Ok?),
           if t.0 != s.store then [Won(op, expected, active, s.clock)] else [], ok, failed)
  }

  function Advance(s: System, op: Operator, choice: Choice): System {
    var pc := PcOf(s, op);
    if choice.GiveUp? then
      match pc
      case CloseRead(command) => Goto(s, op, AfterFailure(command))
      case CloseApply(_, command) => Goto(s, op, AfterFailure(command))
      case _ => Goto(s, op, Resting)
    else match pc
    case Resting =>
      if op in s.pcs then s
      else if choice.StartActivate? then Goto(s, op, ActivateRead)
      else if choice.StartClose? then Goto(s, op, CloseRead(choice.command))
      else s
    case ActivateRead =>
      if choice.Succeed? then Goto(s, op, if s.store.gate.active then Resting else ActivateAssert(s.store.gate))
      else if choice.Refuse? then Goto(s, op, Resting) else s
    case ActivateAssert(closed) =>
      if choice.Succeed? then
        Goto(s, op, if AssertClosureComplete(s.store, closed).Ok? then ActivateSwitch(closed) else Resting)
      else if choice.Refuse? then Goto(s, op, Resting) else s
    case ActivateSwitch(closed) => SwitchGate(s, op, choice, closed.revision, true, Resting, Resting)
    case CloseRead(command) =>
      if choice.Succeed? then Goto(s, op, CloseApply(s.store.gate, command))
      else if choice.Refuse? then Goto(s, op, AfterFailure(command)) else s
    case CloseApply(before, command) =>
      if before.active then
        SwitchGate(s, op, choice, before.revision, false, AfterClose(command), AfterFailure(command))
      else
        var t := EnsureClosure(s.store, before, op.actor);
        Effect(s, op, choice, (t.0, t.1.Ok?), [], AfterClose(command), AfterFailure(command))
    case Poll(final) =>
      (match choice
       case Observe(counts) =>
         Goto(s.(log := s.log + [Polled(op, counts)]), op,
              if Drained(counts) then PollGate(final) else if final then Resting else Poll(false))
       case Refuse => Goto(s, op, Resting)
       case _ => s)
    case PollGate(final) =>
      if choice.Succeed? then Goto(s, op, PollClosure(s.store.gate, final))
      else if choice.Refuse? then Goto(s, op, Resting) else s
    case PollClosure(gate, final) =>
      if choice.Succeed? then Goto(s, op, PollDecide(gate, ReadClosure(s.store, gate), final))
      else if choice.Refuse? then Goto(s, op, Resting) else s
    case PollDecide(gate, closure, final) => Goto(s, op, Decide(gate, closure, final, s.clock))
    case FinishClosure(gate) =>
      var t := CompleteClosure(s.store, gate);
      Effect(s, op, choice, (t.0, t.1.Ok?),
             if t.0 != s.store then [Completed(op, gate.revision, s.clock)] else [], Resting, Resting)
    case AckRead =>
      if choice.Succeed? then Goto(s, op, AckApply(s.store.gate))
      else if choice.Refuse? then Goto(s, op, Resting) else s
    case AckApply(gate) =>
      var t := Acknowledge(s.store, gate, s.clock);
      Effect(s, op, choice, (t.0, t.1.Ok?),
             if t.0 != s.store then [Acked(op, gate.revision, s.clock)] else [], Poll(true), Resting)
  }

  /** The tail of the drain loop, once all four counts were seen at zero. */
  function Decide(gate: Gate, closure: Option<Closure>, final: bool, now: int): Pc {
    if closure.Some? && !closure.value.complete && closure.value.barrier then
      (if final then Resting else AckRead)
    else if closure.Some? && !closure.value.complete && closure.value.unsafeUntil > now then Resting
    else FinishClosure(gate)
  }

  function Next(s: System, a: Action): System {
    match a
    case Tick(elapsed) => s.(clock := s.clock + elapsed)
    case Act(op, choice) => Advance(s, op, choice)
  }

  function Exec(s: System, actions: seq<Action>): System
    decreases |actions|
  {
    if actions == [] then s else Exec(Next(s, actions[0]), actions[1..])
  }

  // ---------------------------------------------------------------- invariants

  /** The migration leaves the gate closed, with a draining closure record behind its barrier. */
  predicate Initial(s: System) {
    && !s.store.gate.active && s.store.gate.revision >= 1 && s.store.gate.epoch >= 1
    && s.store.gate.revision in s.store.closures && s.store.closures.Keys == {s.store.gate.revision}
    && !s.store.closures[s.store.gate.revision].complete && s.store.closures[s.store.gate.revision].barrier
    && s.store.closures[s.store.gate.revision].closedEpoch == s.store.gate.epoch
    && s.pcs == map[] && s.log == []
  }

  /** `offset` is the constant difference of epoch and revision. */
  predicate StoreOk(s: Store, offset: int) {
    && s.gate.epoch == s.gate.revision + offset
    && (s.gate.revision in s.closures <==> !s.gate.active)
    && (forall r :: r in s.closures ==> r <= s.gate.revision && s.closures[r].closedEpoch == r + offset)
    && (forall r :: r in s.closures && s.closures[r].complete ==> !s.closures[r].barrier)
  }

  /** A gate row read earlier: a past row, or the present one. */
  predicate Snapshot(g: Gate, s: Store, offset: int) {
    && g.revision <= s.gate.revision && g.epoch == g.revision + offset
    && (g.revision == s.gate.revision ==> g.active == s.gate.active)
    && (g.revision in s.closures <==> !g.active)
  }

  /** A closure row read earlier, seen against the present row. */
  predicate Older(c: Closure, d: Closure) {
    && (c.complete ==> d.complete)
    && (!c.barrier ==> !d.barrier && d.unsafeUntil == c.unsafeUntil)
  }

  predicate SawZero(log: seq<Entry>, op: Operator, below: nat)
    requires below <= |log|
  {
    exists i :: 0 <= i < below && log[i].Polled? && log[i].op == op && Drained(log[i].counts)
  }

  /** The drain loop's decision, still true of the present closure row. */
  predicate MayFinish(s: System, gate: Gate) {
    gate.revision in s.store.closures ==>
      var c := s.store.closures[gate.revision];
      c.complete || (!c.barrier && c.unsafeUntil <= s.clock)
  }

  predicate PcOk(pc: Pc, op: Operator, s: System, offset: int) {
    match pc
    case ActivateAssert(closed) => Snapshot(closed, s.store, offset) && !closed.active
    case ActivateSwitch(closed) =>
      Snapshot(closed, s.store, offset) && !closed.active && s.store.closures[closed.revision].complete
    case CloseApply(before, _) => Snapshot(before, s.store, offset)
    case PollGate(_) => SawZero(s.log, op, |s.log|)
    case PollClosure(gate, _) => Snapshot(gate, s.store, offset) && SawZero(s.log, op, |s.log|)
    case PollDecide(gate, closure, _) =>
      && Snapshot(gate, s.store, offset) && SawZero(s.log, op, |s.log|)
      && (closure.Some? <==> gate.revision in s.store.closures)
      && (closure.Some? ==> Older(closure.value, s.store.closures[gate.revision]))
    case FinishClosure(gate) =>
      && Snapshot(gate, s.store, offset) && SawZero(s.log, op, |s.log|)
      && MayFinish(s, gate)
    case AckRead => SawZero(s.log, op, |s.log|)
    case AckApply(gate) => Snapshot(gate, s.store, offset) && SawZero(s.log, op, |s.log|)
    case _ => true
  }

  predicate AckedBefore(log: seq<Entry>, revision: nat, below: nat, at: int)
    requires below <= |log|
  {
    exists i :: 0 <= i < below && log[i].Acked? && log[i].revision == revision && log[i].at == at
  }

  /** Acknowledged at least the quarantine period before `at`. */
  predicate QuarantinePassed(log: seq<Entry>, revision: nat, below: nat, at: int)
    requires below <= |log|
  {
    exists i :: 0 <= i < below && log[i].Acked? && log[i].revision == revision && log[i].at + Quarantine <= at
  }

  predicate CompletedBefore(log: seq<Entry>, revision: nat, below: nat, at: int)
    requires below <= |log|
  {
    exists i :: 0 <= i < below && log[i].Completed? && log[i].revision == revision && log[i].at <= at
  }

  /** Why an entry was allowed, from the entries before it. */
  predicate Justified(log: seq<Entry>, j: nat)
    requires j < |log|
  {
    match log[j]
    case Polled(_, _) => true
    case Acked(op, revision, _) => SawZero(log, op, j) && NeverAcked(log, revision, j)
    case Completed(op, revision, at) =>
      SawZero(log, op, j) && QuarantinePassed(log, revision, j, at)
    case Won(_, expected, active, at) => active ==> CompletedBefore(log, expected, j, at)
  }

  predicate NeverAcked(log: seq<Entry>, revision: nat, below: nat)
    requires below <= |log|
  {
    forall i :: 0 <= i < below && log[i].Acked? ==> log[i].revision != revision
  }

  /** The number of won transitions, which is how far the revision has moved. */
  function Wins(log: seq<Entry>): nat {
    if log == [] then 0 else Wins(log[..|log| - 1]) + (if log[|log| - 1].Won? then 1 else 0)
  }

  /** Wins follow one another: each expects the revision its predecessor produced. */
  predicate WinsInOrder(log: seq<Entry>, first: nat) {
    forall j :: 0 <= j < |log| && log[j].Won? ==> log[j].expected == first + Wins(log[..j])
  }

  predicate ClosuresOk(s: System) {
    forall r :: r in s.store.closures ==>
      var c := s.store.closures[r];
      && (c.barrier ==> NeverAcked(s.log, r, |s.log|))
      && (!c.barrier ==> AckedBefore(s.log, r, |s.log|, c.unsafeUntil - Quarantine))
      && (c.complete ==> CompletedBefore(s.log, r, |s.log|, s.clock) && QuarantinePassed(s.log, r, |s.log|, s.clock))
  }

  predicate LogOk(s: System, first: nat) {
    && (forall j :: 0 <= j < |s.log| ==> Justified(s.log, j))
    && WinsInOrder(s.log, first) && s.store.gate.revision == first + Wins(s.log)
    && (forall j :: 0 <= j < |s.log| && s.log[j].Acked? ==> s.log[j].revision <= s.store.gate.revision)
  }

  predicate CoreOk(s: System, first: nat, offset: int) {
    StoreOk(s.store, offset) && ClosuresOk(s) && LogOk(s, first)
  }

  predicate Invariant(s: System, first: nat, offset: int) {
    && CoreOk(s, first, offset)
    && forall op :: op in s.pcs ==> PcOk(s.pcs[op], op, s, offset)
  }

  // ---------------------------------------------------------------- what can change

  /** Everything that can happen to the store, the clock and the log. */
  predicate Evolves(s: System, t: System) {
    && |s.log| <= |t.log| && t.log[..|s.log|] == s.log && s.clock <= t.clock
    && s.store.gate.revision <= t.store.gate.revision
    && (s.store.gate.revision == t.store.gate.revision ==> s.store.gate.active == t.store.gate.active)
    && (forall r :: 0 <= r <= s.store.gate.revision ==> (r in s.store.closures <==> r in t.store.closures))
    && (forall r :: r in s.store.closures ==> r in t.store.closures && Older(s.store.closures[r], t.store.closures[r]))
  }

  lemma SawZeroGrows(a: seq<Entry>, b: seq<Entry>, op: Operator, below: nat)
    requires below <= |a| <= |b| && b[..|a|] == a && SawZero(a, op, below)
    ensures SawZero(b, op, below) && SawZero(b, op, |b|)
  {
    var i :| 0 <= i < below && a[i].Polled? && a[i].op == op && Drained(a[i].counts);
    assert b[i] == a[i];
  }

  lemma PcStable(pc: Pc, op: Operator, s: System, t: System, offset: int)
    requires PcOk(pc, op, s, offset) && StoreOk(s.store, offset) && StoreOk(t.store, offset) && Evolves(s, t)
    ensures PcOk(pc, op, t, offset)
  {
    if SawZero(s.log, op, |s.log|) { SawZeroGrows(s.log, t.log, op, |s.log|); }
  }

  lemma PcsStable(s: System, t: System, first: nat, offset: int)
    requires Invariant(s, first, offset) && CoreOk(t, first, offset) && Evolves(s, t) && t.pcs == s.pcs
    ensures Invariant(t, first, offset)
  {
    forall op | op in t.pcs ensures PcOk(t.pcs[op], op, t, offset) {
      PcStable(s.pcs[op], op, s, t, offset);
    }
  }

  lemma GotoKeeps(t: System, op: Operator, pc: Pc, first: nat, offset: int)
    requires Invariant(t, first, offset) && PcOk(pc, op, t, offset)
    ensures Invariant(Goto(t, op, pc), first, offset)
  {
    var u := Goto(t, op, pc);
    forall o | o in u.pcs ensures PcOk(u.pcs[o], o, u, offset) {
      PcStable(if o == op then pc else t.pcs[o], o, t, u, offset);
    }
  }

  // ---------------------------------------------------------------- appending to the log

  lemma JustifiedGrows(log: seq<Entry>, e: Entry)
    requires forall j :: 0 <= j < |log| ==> Justified(log, j)
    ensures forall j :: 0 <= j < |log| ==> Justified(log + [e], j)
  {
    var longer := log + [e];
    forall j | 0 <= j < |log| ensures Justified(longer, j) {
      assert Justified(log, j);
      assert forall i :: 0 <= i <= j ==> longer[i] == log[i];
    }
  }

  lemma WinsGrows(log: seq<Entry>, e: Entry, first: nat)
    requires WinsInOrder(log, first) && (e.Won? ==> e.expected == first + Wins(log))
    ensures WinsInOrder(log + [e], first) && Wins(log + [e]) == Wins(log) + (if e.Won? then 1 else 0)
  {
    var longer := log + [e];
    assert longer[..|log|] == log;
    forall j | 0 <= j < |longer| && longer[j].Won? ensures longer[j].expected == first + Wins(longer[..j]) {
      assert longer[..j] == log[..j];
      if j == |log| { assert log[..j] == log; }
    }
  }

  lemma LogGrows(s: System, t: System, e: Entry, first: nat)
    requires LogOk(s, first) && t.log == s.log + [e] && Justified(t.log, |s.log|)
    requires e.Won? ==> e.expected == s.store.gate.revision
    requires t.store.gate.revision == s.store.gate.revision + (if e.Won? then 1 else 0)
    requires e.Acked? ==> e.revision <= s.store.gate.revision
    ensures LogOk(t, first)
  {
    JustifiedGrows(s.log, e);
    WinsGrows(s.log, e, first);
  }

  /** What was true of a closure stays true of it when an unrelated entry is appended. */
  lemma ClosureFactsGrow(log: seq<Entry>, e: Entry, r: nat, at: int)
    ensures NeverAcked(log, r, |log|) && (e.Acked? ==> e.revision != r) ==> NeverAcked(log + [e], r, |log| + 1)
    ensures AckedBefore(log, r, |log|, at) ==> AckedBefore(log + [e], r, |log| + 1, at)
    ensures CompletedBefore(log, r, |log|, at) ==> CompletedBefore(log + [e], r, |log| + 1, at)
    ensures QuarantinePassed(log, r, |log|, at) ==> QuarantinePassed(log + [e], r, |log| + 1, at)
  {
    var longer := log + [e];
    assert forall i :: 0 <= i < |log| ==> longer[i] == log[i];
    if AckedBefore(log, r, |log|, at) {
      var i :| 0 <= i < |log| && log[i].Acked? && log[i].revision == r && log[i].at == at;
      assert longer[i].Acked?;
    }
    if CompletedBefore(log, r, |log|, at) {
      var i :| 0 <= i < |log| && log[i].Completed? && log[i].revision == r && log[i].at <= at;
      assert longer[i].Completed?;
    }
    if QuarantinePassed(log, r, |log|, at) {
      var i :| 0 <= i < |log| && log[i].Acked? && log[i].revision == r && log[i].at + Quarantine <= at;
      assert longer[i].Acked?;
    }
  }

  predicate FactsKept(s: System, log: seq<Entry>, r: nat)
    requires r in s.store.closures
  {
    var c := s.store.closures[r];
    && (AckedBefore(s.log, r, |s.log|, c.unsafeUntil - Quarantine) ==> AckedBefore(log, r, |log|, c.unsafeUntil - Quarantine))
    && (CompletedBefore(s.log, r, |s.log|, s.clock) ==> CompletedBefore(log, r, |log|, s.clock))
    && (QuarantinePassed(s.log, r, |s.log|, s.clock) ==> QuarantinePassed(log, r, |log|, s.clock))
  }

  lemma AllClosureFactsGrow(s: System, e: Entry)
    ensures forall r :: r in s.store.closures ==> FactsKept(s, s.log + [e], r)
    ensures forall r :: r in s.store.closures && NeverAcked(s.log, r, |s.log|) && (e.Acked? ==> e.revision != r) ==>
      NeverAcked(s.log + [e], r, |s.log| + 1)
  {
    forall r | r in s.store.closures ensures FactsKept(s, s.log + [e], r) {
      ClosureFactsGrow(s.log, e, r, s.store.closures[r].unsafeUntil - Quarantine);
      ClosureFactsGrow(s.log, e, r, s.clock);
    }
  }

  // ---------------------------------------------------------------- the effects

  lemma PolledKeeps(s: System, op: Operator, counts: Counts, first: nat, offset: int)
    requires CoreOk(s, first, offset)
    ensures var t := s.(log := s.log + [Polled(op, counts)]);
      CoreOk(t, first, offset) && Evolves(s, t) && (Drained(counts) ==> SawZero(t.log, op, |t.log|))
  {
    var e := Polled(op, counts);
    var t := s.(log := s.log + [e]);
    LogGrows(s, t, e, first);
    AllClosureFactsGrow(s, e);
    assert t.log[|s.log|] == e;
  }

  lemma SwitchStore(s: Store, op: Operator, expected: nat, active: bool, now: int, offset: int)
    requires StoreOk(s, offset) && s.gate.revision == expected && s.gate.active != active
    ensures var t := Transition(s, expected, active, now, op.actor).0;
      && StoreOk(t, offset) && t.gate.revision == expected + 1 && t.gate.active == active
      && (if active then t.closures == s.closures
          else expected + 1 !in s.closures && t.closures == s.closures[expected + 1 := NewClosure(t.gate.epoch, op.actor)])
  {}

  lemma SwitchKeeps(s: System, op: Operator, expected: nat, active: bool, first: nat, offset: int)
    requires CoreOk(s, first, offset) && s.store.gate.revision == expected && s.store.gate.active != active
    requires active ==> s.store.closures[expected].complete
    ensures var t := s.(store := Transition(s.store, expected, active, s.clock, op.actor).0,
                        log := s.log + [Won(op, expected, active, s.clock)]);
      CoreOk(t, first, offset) && Evolves(s, t)
  {
    var e := Won(op, expected, active, s.clock);
    var t := s.(store := Transition(s.store, expected, active, s.clock, op.actor).0, log := s.log + [e]);
    SwitchStore(s.store, op, expected, active, s.clock, offset);
    WonJustified(s.log, e);
    LogGrows(s, t, e, first);
    AllClosureFactsGrow(s, e);
    SwitchClosures(s, t, e);
    SwitchEvolves(s, t, e, NewClosure(t.store.gate.epoch, op.actor), offset);
  }

  lemma SwitchEvolves(s: System, t: System, e: Entry, c: Closure, offset: int)
    requires StoreOk(s.store, offset) && t.log == s.log + [e] && t.clock == s.clock
    requires t.store.gate.revision == s.store.gate.revision + 1
    requires t.store.closures == s.store.closures || t.store.closures == s.store.closures[s.store.gate.revision + 1 := c]
    requires s.store.gate.revision + 1 !in s.store.closures
    ensures Evolves(s, t)
  {}

  lemma WonJustified(log: seq<Entry>, e: Entry)
    requires e.Won? && (e.active ==> CompletedBefore(log, e.expected, |log|, e.at))
    ensures Justified(log + [e], |log|)
  {
    var longer := log + [e];
    assert longer[|log|] == e && forall i :: 0 <= i < |log| ==> longer[i] == log[i];
    if e.active {
      var i :| 0 <= i < |log| && log[i].Completed? && log[i].revision == e.expected && log[i].at <= e.at;
      assert longer[i].Completed?;
    }
  }

  lemma SwitchClosures(s: System, t: System, e: Entry)
    requires ClosuresOk(s) && t.log == s.log + [e] && t.clock == s.clock && e.Won?
    requires forall r :: r in s.store.closures ==> FactsKept(s, t.log, r)
    requires forall r :: r in s.store.closures ==> r in t.store.closures && t.store.closures[r] == s.store.closures[r]
    requires forall r :: r in s.store.closures && NeverAcked(s.log, r, |s.log|) ==> NeverAcked(t.log, r, |t.log|)
    requires forall r :: r in t.store.closures && r !in s.store.closures ==>
      t.store.closures[r].barrier && !t.store.closures[r].complete
    requires forall j, r :: 0 <= j < |s.log| && s.log[j].Acked? && r in t.store.closures && r !in s.store.closures ==>
      s.log[j].revision != r
    ensures ClosuresOk(t)
  {}

  lemma AckKeeps(s: System, op: Operator, gate: Gate, first: nat, offset: int)
    requires CoreOk(s, first, offset) && SawZero(s.log, op, |s.log|)
    requires Acknowledge(s.store, gate, s.clock).0 != s.store
    ensures var t := s.(store := Acknowledge(s.store, gate, s.clock).0,
                        log := s.log + [Acked(op, gate.revision, s.clock)]);
      CoreOk(t, first, offset) && Evolves(s, t)
  {
    var e := Acked(op, gate.revision, s.clock);
    var t := s.(store := Acknowledge(s.store, gate, s.clock).0, log := s.log + [e]);
    AckStore(s.store, gate, s.clock, offset);
    assert s.store.closures[gate.revision].barrier && NeverAcked(s.log, gate.revision, |s.log|);
    AckJustified(s.log, e);
    LogGrows(s, t, e, first);
    AllClosureFactsGrow(s, e);
    AckClosures(s, t, e);
    AckEvolves(s, t, e);
  }

  lemma AckStore(s: Store, gate: Gate, now: int, offset: int)
    requires StoreOk(s, offset) && Acknowledge(s, gate, now).0 != s
    ensures var t := Acknowledge(s, gate, now).0;
      && StoreOk(t, offset) && t.gate == s.gate && gate.revision == s.gate.revision && gate.revision in s.closures
      && s.closures[gate.revision].barrier && !s.closures[gate.revision].complete
      && t.closures == s.closures[gate.revision :=
           s.closures[gate.revision].(barrier := false, unsafeUntil := now + Quarantine)]
  {}

  lemma AckJustified(log: seq<Entry>, e: Entry)
    requires e.Acked? && SawZero(log, e.op, |log|) && NeverAcked(log, e.revision, |log|)
    ensures Justified(log + [e], |log|) && AckedBefore(log + [e], e.revision, |log| + 1, e.at)
  {
    var longer := log + [e];
    assert longer[|log|] == e && forall i :: 0 <= i < |log| ==> longer[i] == log[i];
    SawZeroGrows(log, longer, e.op, |log|);
  }

  lemma AckClosures(s: System, t: System, e: Entry)
    requires ClosuresOk(s) && t.log == s.log + [e] && t.clock == s.clock && e.Acked? && e.at == s.clock
    requires e.revision in s.store.closures && !s.store.closures[e.revision].complete
    requires t.store.closures == s.store.closures[e.revision :=
      s.store.closures[e.revision].(barrier := false, unsafeUntil := s.clock + Quarantine)]
    requires forall r :: r in s.store.closures ==> FactsKept(s, t.log, r)
    requires forall r :: r in s.store.closures && NeverAcked(s.log, r, |s.log|) && e.revision != r ==>
      NeverAcked(t.log, r, |t.log|)
    requires AckedBefore(t.log, e.revision, |t.log|, e.at)
    ensures ClosuresOk(t)
  {}

  lemma AckEvolves(s: System, t: System, e: Entry)
    requires e.Acked? && t.log == s.log + [e] && t.clock == s.clock && t.store.gate == s.store.gate
    requires e.revision in s.store.closures && s.store.closures[e.revision].barrier
    requires t.store.closures == s.store.closures[e.revision :=
      s.store.closures[e.revision].(barrier := false, unsafeUntil := s.clock + Quarantine)]
    ensures Evolves(s, t)
  {}

  lemma CompleteKeeps(s: System, op: Operator, gate: Gate, first: nat, offset: int)
    requires CoreOk(s, first, offset) && SawZero(s.log, op, |s.log|) && MayFinish(s, gate)
    requires CompleteClosure(s.store, gate).0 != s.store
    ensures var t := s.(store := CompleteClosure(s.store, gate).0,
                        log := s.log + [Completed(op, gate.revision, s.clock)]);
      CoreOk(t, first, offset) && Evolves(s, t)
  {
    var e := Completed(op, gate.revision, s.clock);
    var t := s.(store := CompleteClosure(s.store, gate).0, log := s.log + [e]);
    CompletionDue(s, gate);
    CompleteStore(s.store, gate, offset);
    CompletedJustified(s.log, e);
    LogGrows(s, t, e, first);
    AllClosureFactsGrow(s, e);
    CompleteClosures(s, t, e);
    CompleteEvolves(s, t, e, gate.revision);
  }

  lemma CompleteEvolves(s: System, t: System, e: Entry, r: nat)
    requires t.log == s.log + [e] && t.clock == s.clock && t.store.gate == s.store.gate
    requires r in s.store.closures
    requires t.store.closures == s.store.closures[r := s.store.closures[r].(complete := true)]
    ensures Evolves(s, t)
  {}

  lemma CompletedJustified(log: seq<Entry>, e: Entry)
    requires e.Completed? && SawZero(log, e.op, |log|) && QuarantinePassed(log, e.revision, |log|, e.at)
    ensures Justified(log + [e], |log|) && CompletedBefore(log + [e], e.revision, |log| + 1, e.at)
  {
    var longer := log + [e];
    assert forall i :: 0 <= i < |log| ==> longer[i] == log[i];
    SawZeroGrows(log, longer, e.op, |log|);
    var i :| 0 <= i < |log| && log[i].Acked? && log[i].revision == e.revision && log[i].at + Quarantine <= e.at;
    assert longer[i] == log[i];
    assert longer[|log|] == e;
  }

  lemma CompleteStore(s: Store, gate: Gate, offset: int)
    requires StoreOk(s, offset) && CompleteClosure(s, gate).0 != s
    requires gate.revision in s.closures && !s.closures[gate.revision].barrier
    ensures var t := CompleteClosure(s, gate).0;
      && StoreOk(t, offset) && t.gate == s.gate
      && t.closures == s.closures[gate.revision := s.closures[gate.revision].(complete := true)]
  {}

  /** A closure about to be completed was acknowledged a full quarantine period ago. */
  lemma CompletionDue(s: System, gate: Gate)
    requires ClosuresOk(s) && MayFinish(s, gate)
    requires CompleteClosure(s.store, gate).0 != s.store
    ensures gate.revision in s.store.closures && !s.store.closures[gate.revision].complete
    ensures !s.store.closures[gate.revision].barrier
    ensures QuarantinePassed(s.log, gate.revision, |s.log|, s.clock)
  {
    var c := s.store.closures[gate.revision];
    assert AckedBefore(s.log, gate.revision, |s.log|, c.unsafeUntil - Quarantine);
    var i :| 0 <= i < |s.log| && s.log[i].Acked? && s.log[i].revision == gate.revision
      && s.log[i].at == c.unsafeUntil - Quarantine;
  }

  lemma CompleteClosures(s: System, t: System, e: Entry)
    requires ClosuresOk(s) && t.log == s.log + [e] && t.clock == s.clock && e.Completed?
    requires e.revision in s.store.closures && !s.store.closures[e.revision].barrier
    requires t.store.closures == s.store.closures[e.revision := s.store.closures[e.revision].(complete := true)]
    requires forall r :: r in s.store.closures ==> FactsKept(s, t.log, r)
    requires forall r :: r in s.store.closures && NeverAcked(s.log, r, |s.log|) ==> NeverAcked(t.log, r, |t.log|)
    requires CompletedBefore(t.log, e.revision, |t.log|, s.clock)
    requires QuarantinePassed(s.log, e.revision, |s.log|, s.clock)
    ensures ClosuresOk(t)
  {}

  // ---------------------------------------------------------------- every step

  lemma PcHolds(s: System, op: Operator, first: nat, offset: int)
    requires Invariant(s, first, offset)
    ensures PcOk(PcOf(s, op), op, s, offset)
  {}

  lemma PollStepKeeps(s: System, op: Operator, counts: Counts, final: bool, first: nat, offset: int)
    requires Invariant(s, first, offset)
    ensures Invariant(Goto(s.(log := s.log + [Polled(op, counts)]), op,
      if Drained(counts) then PollGate(final) else if final then Resting else Poll(false)), first, offset)
  {
    var t := s.(log := s.log + [Polled(op, counts)]);
    PolledKeeps(s, op, counts, first, offset);
    PcsStable(s, t, first, offset);
    GotoKeeps(t, op, if Drained(counts) then PollGate(final) else if final then Resting else Poll(false), first, offset);
  }

  lemma WonKeeps(s: System, op: Operator, gate: Gate, active: bool, first: nat, offset: int)
    requires Invariant(s, first, offset) && Snapshot(gate, s.store, offset) && gate.active != active
    requires active ==> s.store.closures[gate.revision].complete
    requires Transition(s.store, gate.revision, active, s.clock, op.actor).0 != s.store
    ensures Invariant(s.(store := Transition(s.store, gate.revision, active, s.clock, op.actor).0,
                         log := s.log + [Won(op, gate.revision, active, s.clock)]), first, offset)
  {
    var u := s.(store := Transition(s.store, gate.revision, active, s.clock, op.actor).0,
                log := s.log + [Won(op, gate.revision, active, s.clock)]);
    SwitchKeeps(s, op, gate.revision, active, first, offset);
    PcsStable(s, u, first, offset);
  }

  /** A performed transition, given that the caller read the other status at that revision. */
  lemma SwitchStepKeeps(s: System, op: Operator, choice: Choice, gate: Gate, active: bool, ok: Pc, failed: Pc,
                        first: nat, offset: int)
    requires Invariant(s, first, offset) && Snapshot(gate, s.store, offset) && gate.active != active
    requires active ==> s.store.closures[gate.revision].complete
    requires (ok.Resting? || ok.Poll?) && (failed.Resting? || failed.Poll?)
    ensures Invariant(SwitchGate(s, op, choice, gate.revision, active, ok, failed), first, offset)
  {
    var t := Transition(s.store, gate.revision, active, s.clock, op.actor);
    var entry := if t.0 != s.store then [Won(op, gate.revision, active, s.clock)] else [];
    if t.0 != s.store {
      WonKeeps(s, op, gate, active, first, offset);
    } else {
      assert s.(store := t.0, log := s.log + entry) == s;
    }
    EffectKeeps(s, op, choice, (t.0, t.1.Ok?), entry, ok, failed, first, offset);
  }

  /** An effectful call: whatever its outcome, if the performed effect keeps the invariant. */
  lemma EffectKeeps(s: System, op: Operator, choice: Choice, done: (Store, bool), entry: seq<Entry>, ok: Pc, failed: Pc,
                    first: nat, offset: int)
    requires Invariant(s, first, offset) && (ok.Resting? || ok.Poll?) && (failed.Resting? || failed.Poll?)
    requires Invariant(s.(store := done.0, log := s.log + entry), first, offset)
    ensures Invariant(Effect(s, op, choice, done, entry, ok, failed), first, offset)
  {
    var u := s.(store := done.0, log := s.log + entry);
    GotoKeeps(s, op, failed, first, offset);
    GotoKeeps(u, op, ok, first, offset);
    GotoKeeps(u, op, failed, first, offset);
  }

  lemma AckStepKeeps(s: System, op: Operator, choice: Choice, gate: Gate, first: nat, offset: int)
    requires Invariant(s, first, offset) && SawZero(s.log, op, |s.log|)
    ensures var t := Acknowledge(s.store, gate, s.clock);
      Invariant(Effect(s, op, choice, (t.0, t.1.Ok?),
        if t.0 != s.store then [Acked(op, gate.revision, s.clock)] else [], Poll(true), Resting), first, offset)
  {
    var t := Acknowledge(s.store, gate, s.clock);
    var entry := if t.0 != s.store then [Acked(op, gate.revision, s.clock)] else [];
    var u := s.(store := t.0, log := s.log + entry);
    if t.0 != s.store {
      AckKeeps(s, op, gate, first, offset);
      PcsStable(s, u, first, offset);
    } else {
      assert u == s;
    }
    EffectKeeps(s, op, choice, (t.0, t.1.Ok?), entry, Poll(true), Resting, first, offset);
  }

  lemma FinishStepKeeps(s: System, op: Operator, choice: Choice, gate: Gate, first: nat, offset: int)
    requires Invariant(s, first, offset) && SawZero(s.log, op, |s.log|) && MayFinish(s, gate)
    ensures var t := CompleteClosure(s.store, gate);
      Invariant(Effect(s, op, choice, (t.0, t.1.Ok?),
        if t.0 != s.store then [Completed(op, gate.revision, s.clock)] else [], Resting, Resting), first, offset)
  {
    var t := CompleteClosure(s.store, gate);
    var entry := if t.0 != s.store then [Completed(op, gate.revision, s.clock)] else [];
    var u := s.(store := t.0, log := s.log + entry);
    if t.0 != s.store {
      CompleteKeeps(s, op, gate, first, offset);
      PcsStable(s, u, first, offset);
    } else {
      assert u == s;
    }
    EffectKeeps(s, op, choice, (t.0, t.1.Ok?), entry, Resting, Resting, first, offset);
  }

  lemma CloseStepKeeps(s: System, op: Operator, choice: Choice, before: Gate, command: Command, first: nat, offset: int)
    requires Invariant(s, first, offset) && PcOf(s, op) == CloseApply(before, command)
    ensures Invariant(Advance(s, op, choice), first, offset)
  {
    PcHolds(s, op, first, offset);
    GotoKeeps(s, op, AfterFailure(command), first, offset);
    if before.active {
      SwitchStepKeeps(s, op, choice, before, false, AfterClose(command), AfterFailure(command), first, offset);
    } else {
      assert EnsureClosure(s.store, before, op.actor).0 == s.store;
      assert s.log + [] == s.log;
      GotoKeeps(s, op, AfterClose(command), first, offset);
    }
  }

  lemma PollingStepKeeps(s: System, op: Operator, choice: Choice, first: nat, offset: int)
    requires Invariant(s, first, offset)
    requires PcOf(s, op).Poll? || PcOf(s, op).PollGate? || PcOf(s, op).PollClosure? || PcOf(s, op).PollDecide?
      || PcOf(s, op).AckRead?
    ensures Invariant(Advance(s, op, choice), first, offset)
  {
    PcHolds(s, op, first, offset);
    GotoKeeps(s, op, Resting, first, offset);
    match PcOf(s, op)
    case Poll(final) =>
      if choice.Observe? { PollStepKeeps(s, op, choice.counts, final, first, offset); }
    case PollGate(final) => GotoKeeps(s, op, PollClosure(s.store.gate, final), first, offset);
    case PollClosure(gate, final) => GotoKeeps(s, op, PollDecide(gate, ReadClosure(s.store, gate), final), first, offset);
    case PollDecide(gate, closure, final) => GotoKeeps(s, op, Decide(gate, closure, final, s.clock), first, offset);
    case AckRead => GotoKeeps(s, op, AckApply(s.store.gate), first, offset);
  }

  lemma ReadingStepKeeps(s: System, op: Operator, choice: Choice, first: nat, offset: int)
    requires Invariant(s, first, offset)
    requires PcOf(s, op).Resting? || PcOf(s, op).ActivateRead? || PcOf(s, op).ActivateAssert? || PcOf(s, op).CloseRead?
    ensures Invariant(Advance(s, op, choice), first, offset)
  {
    PcHolds(s, op, first, offset);
    GotoKeeps(s, op, Resting, first, offset);
    match PcOf(s, op)
    case Resting =>
      GotoKeeps(s, op, ActivateRead, first, offset);
      if choice.StartClose? { GotoKeeps(s, op, CloseRead(choice.command), first, offset); }
    case ActivateRead =>
      if !s.store.gate.active { GotoKeeps(s, op, ActivateAssert(s.store.gate), first, offset); }
    case ActivateAssert(closed) =>
      if AssertClosureComplete(s.store, closed).Ok? { GotoKeeps(s, op, ActivateSwitch(closed), first, offset); }
    case CloseRead(command) =>
      GotoKeeps(s, op, CloseApply(s.store.gate, command), first, offset);
      GotoKeeps(s, op, AfterFailure(command), first, offset);
  }

  lemma AdvanceKeeps(s: System, op: Operator, choice: Choice, first: nat, offset: int)
    requires Invariant(s, first, offset)
    ensures Invariant(Advance(s, op, choice), first, offset)
  {
    PcHolds(s, op, first, offset);
    GotoKeeps(s, op, Resting, first, offset);
    match PcOf(s, op)
    case ActivateSwitch(closed) =>
      SwitchStepKeeps(s, op, choice, closed, true, Resting, Resting, first, offset);
    case CloseApply(before, command) => CloseStepKeeps(s, op, choice, before, command, first, offset);
    case FinishClosure(gate) => FinishStepKeeps(s, op, choice, gate, first, offset);
    case AckApply(gate) => AckStepKeeps(s, op, choice, gate, first, offset);
    case Resting => ReadingStepKeeps(s, op, choice, first, offset);
    case ActivateRead => ReadingStepKeeps(s, op, choice, first, offset);
    case ActivateAssert(_) => ReadingStepKeeps(s, op, choice, first, offset);
    case CloseRead(_) => ReadingStepKeeps(s, op, choice, first, offset);
    case _ => PollingStepKeeps(s, op, choice, first, offset);
  }

  lemma NextKeeps(s: System, a: Action, first: nat, offset: int)
    requires Invariant(s, first, offset)
    ensures Invariant(Next(s, a), first, offset)
  {
    match a
    case Tick(elapsed) => TickKeeps(s, elapsed, first, offset);
    case Act(op, choice) => AdvanceKeeps(s, op, choice, first, offset);
  }

  lemma TickKeeps(s: System, elapsed: nat, first: nat, offset: int)
    requires Invariant(s, first, offset)
    ensures Invariant(s.(clock := s.clock + elapsed), first, offset)
  {
    var t := s.(clock := s.clock + elapsed);
    forall r | r in t.store.closures && t.store.closures[r].complete
      ensures CompletedBefore(t.log, r, |t.log|, t.clock) && QuarantinePassed(t.log, r, |t.log|, t.clock)
    {
      var i :| 0 <= i < |s.log| && s.log[i].Completed? && s.log[i].revision == r && s.log[i].at <= s.clock;
      assert t.log[i].at <= t.clock;
      var j :| 0 <= j < |s.log| && s.log[j].Acked? && s.log[j].revision == r && s.log[j].at + Quarantine <= s.clock;
      assert t.log[j].at + Quarantine <= t.clock;
    }
    assert CoreOk(t, first, offset);
    PcsStable(s, t, first, offset);
  }

  lemma InitialOk(s: System)
    requires Initial(s)
    ensures Invariant(s, s.store.gate.revision, s.store.gate.epoch - s.store.gate.revision)
  {}

  lemma {:induction false} ExecKeeps(s: System, actions: seq<Action>, first: nat, offset: int)
    requires Invariant(s, first, offset)
    ensures Invariant(Exec(s, actions), first, offset)
    decreases |actions|
  {
    if actions != [] {
      NextKeeps(s, actions[0], first, offset);
      ExecKeeps(Next(s, actions[0]), actions[1..], first, offset);
    }
  }
}
