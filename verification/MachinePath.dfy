/**
 The calls of one operator's run, read as steps of the gate protocol's machine: which program
 point a call with its result leads to, and which point a stretch of calls leads to.
 */
module MachinePath {
  import opened Outcomes
  import opened RuntimeGate
  import opened GateProtocol
  import opened ControlPort

  /** Where a call on the gate tables or the counts leads; none where the machine makes no such
      call. The drain's two statements, and a closure read with its decision, are one step each. */
  function NextPc(pc: Pc, c: Call): Option<Pc> {
    match pc
    case CloseRead(command) =>
      (match c
       case GateRead(r) => Some(if r.Ok? then CloseApply(r.value, command) else AfterFailure(command))
       case _ => None)
    case CloseApply(before, command) =>
      (match c
       case GateSwitched(expected, active, r) =>
         if before.active && expected == before.revision && !active then
           Some(if r.Ok? then AfterClose(command) else AfterFailure(command))
         else None
       case ClosureEnsured(gate, r) =>
         if !before.active && gate == before then Some(if r.Ok? then AfterClose(command) else AfterFailure(command))
         else None
       case _ => None)
    case Poll(final) =>
      (match c
       case GrantsReconciled(r) => Some(if r.Ok? then pc else Resting)
       case CountsRead(r) =>
         Some(if r.Ok? && Drained(r.value) then PollGate(final) else if r.Err? || final then Resting else Poll(false))
       case _ => None)
    case PollGate(final) =>
      (match c
       case GateRead(r) => Some(if r.Ok? then PollClosure(r.value, final) else Resting)
       case _ => None)
    case PollClosure(gate, final) =>
      (match c
       case ClosureRead(read, r, at) =>
         if read == gate then Some(if r.Ok? then Decide(gate, r.value, final, at) else Resting) else None
       case _ => None)
    case FinishClosure(gate) =>
      (match c
       case ClosureCompleted(of, _) => if of == gate then Some(Resting) else None
       case _ => None)
    case AckRead =>
      (match c
       case GateRead(r) => Some(if r.Ok? then AckApply(r.value) else Resting)
       case _ => None)
    case AckApply(gate) =>
      (match c
       case DrainAcknowledged(of, r) => if of == gate then Some(if r.Ok? then Poll(true) else Resting) else None
       case _ => None)
    case _ => None
  }

  function Path(pc: Pc, calls: seq<Call>): Option<Pc>
    decreases |calls|
  {
    if calls == [] then Some(pc)
    else
      match Path(pc, calls[..|calls| - 1])
      case None => None
      case Some(p) => NextPc(p, calls[|calls| - 1])
  }

  /** From `t` on, the trace `u` is a path of the machine from `pc` to `next`. */
  predicate Leads(pc: Pc, t: seq<Call>, u: seq<Call>, next: Pc) {
    t <= u && Path(pc, u[|t|..]) == Some(next)
  }

  /** From `t` on, the trace `u` is a path of the machine from `pc`. */
  predicate Walks(pc: Pc, t: seq<Call>, u: seq<Call>) {
    t <= u && Path(pc, u[|t|..]).Some?
  }

  lemma LeadsNowhere(pc: Pc, t: seq<Call>)
    ensures Leads(pc, t, t, pc)
  {
    assert t[|t|..] == [];
  }

  lemma LeadsByCall(pc: Pc, t: seq<Call>, u: seq<Call>, mid: Pc, c: Call)
    requires Leads(pc, t, u, mid) && NextPc(mid, c).Some?
    ensures Leads(pc, t, u + [c], NextPc(mid, c).value)
  {
    var s := (u + [c])[|t|..];
    assert s[..|s| - 1] == u[|t|..] && s[|s| - 1] == c;
  }

  lemma {:induction false} PathJoins(pc: Pc, a: seq<Call>, b: seq<Call>)
    requires Path(pc, a).Some?
    ensures Path(pc, a + b) == Path(Path(pc, a).value, b)
    decreases |b|
  {
    if b == [] {
      assert a + b == a;
    } else {
      PathJoins(pc, a, b[..|b| - 1]);
      assert (a + b)[..|a + b| - 1] == a + b[..|b| - 1];
    }
  }

  lemma LeadsOn(pc: Pc, t: seq<Call>, u: seq<Call>, mid: Pc, v: seq<Call>)
    requires Leads(pc, t, u, mid) && Walks(mid, u, v)
    ensures Walks(pc, t, v) && Path(pc, v[|t|..]) == Path(mid, v[|u|..])
  {
    assert v[|t|..] == u[|t|..] + v[|u|..];
    PathJoins(pc, u[|t|..], v[|u|..]);
  }

  /** The acknowledgment: a gate read, then the acknowledgment of that gate. */
  lemma AckPath(t: seq<Call>, read: Result<Gate>)
    ensures Leads(AckRead, t, t + [GateRead(read)], if read.Ok? then AckApply(read.value) else Resting)
    ensures forall r :: read.Ok? ==>
      Leads(AckRead, t, t + [GateRead(read)] + [DrainAcknowledged(read.value, r)], if r.Ok? then Poll(true) else Resting)
  {
    LeadsNowhere(AckRead, t);
    LeadsByCall(AckRead, t, t, AckRead, GateRead(read));
    if read.Ok? {
      var u := t + [GateRead(read)];
      forall r ensures Leads(AckRead, t, u + [DrainAcknowledged(read.value, r)], if r.Ok? then Poll(true) else Resting) {
        LeadsByCall(AckRead, t, u, AckApply(read.value), DrainAcknowledged(read.value, r));
      }
    }
  }

  /** The first two calls since `t` are the closing calls of a command: the gate is read, and
      then switched, or the record of a closed gate ensured. */
  predicate ClosesBy(command: Command, t: seq<Call>, u: seq<Call>) {
    t < u && Walks(CloseRead(command), t, if |u| < |t| + 2 then u else u[..|t| + 2])
  }

  lemma ReadOnly(command: Command, t: seq<Call>, read: Result<Gate>)
    ensures ClosesBy(command, t, t + [GateRead(read)])
  {
    LeadsNowhere(CloseRead(command), t);
    LeadsByCall(CloseRead(command), t, t, CloseRead(command), GateRead(read));
  }

  lemma ReadAndClosed(command: Command, t: seq<Call>, before: Gate, c: Call, u: seq<Call>)
    requires NextPc(CloseApply(before, command), c).Some?
    requires t + [GateRead(Ok(before))] + [c] <= u
    ensures ClosesBy(command, t, u)
  {
    var v := t + [GateRead(Ok(before))];
    LeadsNowhere(CloseRead(command), t);
    LeadsByCall(CloseRead(command), t, t, CloseRead(command), GateRead(Ok(before)));
    LeadsByCall(CloseRead(command), t, v, CloseApply(before, command), c);
    assert u[..|t| + 2] == v + [c];
  }
}
