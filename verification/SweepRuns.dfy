/**
 Whole sweeps: windows chained through their checkpoints. Whatever the answers, an accepted
 chain has scanned exactly as many distinct runs as the list announced, and selected from them
 as one scan would; against a fixed list every chain that is long enough is accepted.
 */
module SweepRuns {
  import opened Outcomes
  import opened SweepCheckpoint
  import opened RecoverySweep

  predicate Below(runs: seq<WorkflowRun>, last: Option<nat>) {
    last.Some? ==> forall i :: 0 <= i < |runs| ==> HasId(runs[i]) && runs[i].id.value < last.value
  }

  function LastId(runs: seq<WorkflowRun>, last: Option<nat>): Option<nat>
    requires DescendingRuns(runs)
  {
    if runs == [] then last else Some(runs[|runs| - 1].id.value)
  }

  /** The id check accepts exactly the descending pages that lie below what was seen. */
  lemma {:induction false} CheckIdsMeans(runs: seq<WorkflowRun>, last: Option<nat>)
    ensures CheckIds(runs, last).Ok? <==> DescendingRuns(runs) && Below(runs, last)
    ensures CheckIds(runs, last).Ok? ==> CheckIds(runs, last).value == LastId(runs, last)
  {
    if runs != [] && HasId(runs[0]) {
      var rest := runs[1..];
      var id: nat := runs[0].id.value;
      CheckIdsMeans(rest, Some(id));
      assert forall i :: 0 <= i < |rest| ==> rest[i] == runs[i + 1];
      if DescendingRuns(runs) { assert DescendingRuns(rest) && Below(rest, Some(id)); }
      if DescendingRuns(rest) && Below(rest, Some(id)) {
        forall i, j | 0 <= i < j < |runs| ensures HasId(runs[i]) && HasId(runs[j]) && runs[i].id.value > runs[j].id.value {
          assert runs[j] == rest[j - 1];
          if i > 0 { assert runs[i] == rest[i - 1]; }
        }
        assert forall i :: 0 < i < |runs| ==> runs[i] == rest[i - 1];
      }
    }
  }

  lemma DescendingConcat(a: seq<WorkflowRun>, b: seq<WorkflowRun>, last: Option<nat>)
    requires DescendingRuns(a) && Below(a, last) && DescendingRuns(b) && Below(b, LastId(a, last))
    ensures DescendingRuns(a + b) && Below(a + b, last) && LastId(a + b, last) == LastId(b, LastId(a, last))
  {
    var c := a + b;
    forall i | 0 <= i < |c|
      ensures HasId(c[i]) && (last.Some? ==> c[i].id.value < last.value)
    {
      if i < |a| { assert c[i] == a[i]; } else { assert c[i] == b[i - |a|]; }
    }
    forall i, j | 0 <= i < j < |c| ensures c[i].id.value > c[j].id.value {
      if j < |a| {
        assert c[i] == a[i] && c[j] == a[j];
      } else if i >= |a| {
        assert c[i] == b[i - |a|] && c[j] == b[j - |a|];
      } else {
        assert c[i] == a[i] && c[j] == b[j - |a|] && a[i].id.value >= a[|a| - 1].id.value;
      }
    }
    if b != [] { assert c[|c| - 1] == b[|b| - 1]; } else { assert c == a; }
  }

  // ---------------------------------------------------------------- one window

  /** A scan in progress: some of the announced runs are still to be read. */
  predicate Pending(at: Cursor) {
    && at.page >= 1
    && (at.total.None? ==> at.page == 1 && at.last.None?)
    && (at.total.Some? ==> (at.page - 1) * PageSize < at.total.value <= SafeInteger && at.page >= 2 && at.last.Some?)
  }

  /** How many of `total` runs the pages before `page` hold. */
  function Held(total: nat, page: nat): nat
    requires page >= 1
  {
    Min(total, (page - 1) * PageSize)
  }

  /** `end` was read from `at`: `runs` are the new ones. */
  predicate ReadFrom(at: Cursor, end: Cursor, runs: seq<WorkflowRun>) {
    && 1 <= at.page < end.page && end.runs == at.runs + runs && end.total.Some?
    && (at.total.Some? ==> end.total == at.total)
    && DescendingRuns(runs) && Below(runs, at.last) && end.last == LastId(runs, at.last)
    && |runs| == Held(end.total.value, end.page) - Held(end.total.value, at.page)
    && (if AtEnd(end) then Held(end.total.value, end.page) == end.total.value else Pending(end))
  }

  lemma OnePage(answer: Page, at: Cursor)
    requires Pending(at) && ReadPage(answer, at).Ok?
    ensures ReadPage(answer, at).value.page == at.page + 1
    ensures ReadFrom(at, ReadPage(answer, at).value, answer.runs)
  {
    CheckIdsMeans(answer.runs, at.last);
  }

  lemma Chained(at: Cursor, mid: Cursor, end: Cursor, a: seq<WorkflowRun>, b: seq<WorkflowRun>)
    requires ReadFrom(at, mid, a) && ReadFrom(mid, end, b)
    ensures ReadFrom(at, end, a + b)
  {
    DescendingConcat(a, b, at.last);
    assert at.runs + (a + b) == (at.runs + a) + b;
  }

  /** The runs a window reads. */
  function NewRuns(respond: nat -> Page, at: Cursor, left: nat): seq<WorkflowRun>
    requires at.page >= 1
    decreases left
  {
    if left == 0 || ReadPage(respond(at.page), at).Err? then []
    else
      var next := ReadPage(respond(at.page), at).value;
      respond(at.page).runs + (if AtEnd(next) then [] else NewRuns(respond, next, left - 1))
  }

  lemma {:induction false} ReadsFrom(respond: nat -> Page, at: Cursor, left: nat)
    requires Pending(at) && left >= 1 && ReadPages(respond, at, left).Ok?
    ensures ReadFrom(at, ReadPages(respond, at, left).value, NewRuns(respond, at, left))
    ensures ReadPages(respond, at, left).value.page <= at.page + left
    decreases left
  {
    var answer := respond(at.page);
    var next := ReadPage(answer, at).value;
    OnePage(answer, at);
    if AtEnd(next) || left == 1 {
      assert answer.runs + [] == answer.runs;
    } else {
      ReadsFrom(respond, next, left - 1);
      Chained(at, next, ReadPages(respond, next, left - 1).value, answer.runs, NewRuns(respond, next, left - 1));
    }
  }

  predicate ValidFrom(from: Option<Checkpoint>) {
    from.Some? ==> ValidCheckpoint(from.value)
  }

  lemma {:induction false} SelectIsSmall(runs: seq<WorkflowRun>, workflowPath: string)
    requires DescendingRuns(runs)
    ensures |Select(runs, workflowPath)| <= |runs|
  {
    PickedDescends(runs, workflowPath);
    AlreadyDescending(Picked(runs, workflowPath));
  }

  function Text(from: Option<Checkpoint>): Option<Json> {
    match from
    case None => None
    case Some(c) => Some(ToJson(c))
  }

  /** What one accepted window read and answered. */
  predicate WindowDone(q: Query, from: Option<Checkpoint>, respond: nat -> Page, d: Discovery) {
    var at := StartAt(from);
    q.maximumPages >= 1 && ReadPages(respond, at, q.maximumPages).Ok? &&
    var end, runs := ReadPages(respond, at, q.maximumPages).value, NewRuns(respond, at, q.maximumPages);
      && ReadFrom(at, end, runs) && end.runs == runs
      && d.runs == Select(runs, q.workflowPath)
      && (AtEnd(end) <==> d.next.None?)
      && (d.next.Some? ==>
            d.next == Some(Checkpoint(q.repository, q.workflowPath, CreatedThrough(q, from), end.total.value, end.page,
                                      end.last.value))
            && ValidCheckpoint(d.next.value) && d.next.value.nextPage > at.page)
  }

  /** A window is opened, its pages read, and its answer made from them. */
  lemma WindowOpens(q: Query, from: Option<Checkpoint>, respond: nat -> Page)
    requires ValidFrom(from)
    ensures Pending(StartAt(from))
    ensures Window(q, Text(from), respond).Ok? ==>
      ValidQuery(q) && Resumed(q, Text(from)) == Ok(from) && ValidTimestamp(CreatedThrough(q, from))
    ensures ValidQuery(q) && Resumed(q, Text(from)) == Ok(from) && ValidTimestamp(CreatedThrough(q, from)) ==>
      var read := ReadPages(respond, StartAt(from), q.maximumPages);
      Window(q, Text(from), respond) == if read.Ok? then Answer(q, CreatedThrough(q, from), read.value) else Err(read.error)
  {
    if from.Some? { ParseReadsBack(from.value); }
  }

  lemma AnswerDoes(q: Query, from: Option<Checkpoint>, respond: nat -> Page)
    requires ValidFrom(from) && ValidQuery(q) && Resumed(q, Text(from)) == Ok(from)
    requires ValidTimestamp(CreatedThrough(q, from)) && Pending(StartAt(from))
    requires ReadPages(respond, StartAt(from), q.maximumPages).Ok?
    ensures var answer := Answer(q, CreatedThrough(q, from), ReadPages(respond, StartAt(from), q.maximumPages).value);
      answer.Ok? && WindowDone(q, from, respond, answer.value)
  {
    var at := StartAt(from);
    ReadsFrom(respond, at, q.maximumPages);
    var end, runs := ReadPages(respond, at, q.maximumPages).value, NewRuns(respond, at, q.maximumPages);
    AnswerFits(q, CreatedThrough(q, from), at, end, runs);
  }

  /** A window's pages hold at most the matrix limit, and its checkpoint is a valid one. */
  lemma AnswerFits(q: Query, created: string, at: Cursor, end: Cursor, runs: seq<WorkflowRun>)
    requires Pending(at) && ReadFrom(at, end, runs) && at.runs == [] && end.page <= at.page + q.maximumPages
    requires ValidQuery(q) && ValidTimestamp(created)
    ensures end.runs == runs
    ensures Answer(q, created, end) == Ok(Discovery(Select(runs, q.workflowPath),
      if AtEnd(end) then None
      else Some(Checkpoint(q.repository, q.workflowPath, created, end.total.value, end.page, end.last.value))))
    ensures !AtEnd(end) ==>
      ValidCheckpoint(Checkpoint(q.repository, q.workflowPath, created, end.total.value, end.page, end.last.value))
  {
    assert end.runs == runs;
    SelectIsSmall(runs, q.workflowPath);
    LastIdPositive(runs, at.last);
  }

  lemma LastIdPositive(runs: seq<WorkflowRun>, last: Option<nat>)
    requires DescendingRuns(runs)
    ensures runs != [] ==> LastId(runs, last).Some? && LastId(runs, last).value >= 1
  {}

  lemma WindowDoes(q: Query, from: Option<Checkpoint>, respond: nat -> Page)
    requires ValidFrom(from) && Window(q, Text(from), respond).Ok?
    ensures WindowDone(q, from, respond, Window(q, Text(from), respond).value)
  {
    WindowOpens(q, from, respond);
    AnswerDoes(q, from, respond);
  }

  /** Once its pages are read a window answers: neither a missing total or last id nor the
      matrix limit can stop it any more. */
  lemma ReadWindowAnswers(q: Query, from: Option<Checkpoint>, respond: nat -> Page)
    requires ValidFrom(from) && ValidQuery(q) && Resumed(q, Text(from)) == Ok(from)
    requires ValidTimestamp(CreatedThrough(q, from))
    ensures Window(q, Text(from), respond).Ok? <==> ReadPages(respond, StartAt(from), q.maximumPages).Ok?
  {
    WindowOpens(q, from, respond);
    if ReadPages(respond, StartAt(from), q.maximumPages).Ok? { AnswerDoes(q, from, respond); }
  }

  /** Every checkpoint a window emits is accepted by the parser and lies further on. */
  lemma EmittedCheckpointParses(q: Query, from: Option<Checkpoint>, respond: nat -> Page)
    requires ValidFrom(from) && Window(q, Text(from), respond).Ok?
    ensures var d := Window(q, Text(from), respond).value;
      d.next.Some? ==> Parse(ToJson(d.next.value)) == Ok(d.next.value) && d.next.value.nextPage > StartAt(from).page
  {
    WindowDoes(q, from, respond);
    var d := Window(q, Text(from), respond).value;
    if d.next.Some? { ParseReadsBack(d.next.value); }
  }

  // ---------------------------------------------------------------- chains of windows

  /** One window of a chain: how many pages it may read and what the API answers it. */
  datatype Leg = Leg(pages: int, respond: nat -> Page)

  /** Each window starts from the JSON checkpoint the one before it emitted. */
  function Sweep(q: Query, from: Option<Checkpoint>, legs: seq<Leg>): Result<seq<RecoveryRun>>
    decreases |legs|
  {
    if legs == [] then Err("sweep_unfinished")
    else match Window(q.(maximumPages := legs[0].pages), Text(from), legs[0].respond)
      case Err(e) => Err(e)
      case Ok(d) =>
        if d.next.None? then Ok(d.runs)
        else match Sweep(q, d.next, legs[1..])
          case Err(e) => Err(e)
          case Ok(rest) => Ok(d.runs + rest)
  }

  /** Every run that the windows of a chain read, in order. */
  function Scanned(q: Query, from: Option<Checkpoint>, legs: seq<Leg>): seq<WorkflowRun>
    decreases |legs|
  {
    if legs == [] || legs[0].pages < 1 then []
    else match Window(q.(maximumPages := legs[0].pages), Text(from), legs[0].respond)
      case Err(_) => []
      case Ok(d) =>
        NewRuns(legs[0].respond, StartAt(from), legs[0].pages)
          + (if d.next.None? then [] else Scanned(q, d.next, legs[1..]))
  }

  /** The total the chain was told: by its checkpoint, or by the first page it read. */
  function Announced(q: Query, from: Option<Checkpoint>, leg: Leg): nat {
    if from.Some? then from.value.total
    else if leg.respond(1).Page? && leg.respond(1).total.Some? then leg.respond(1).total.value else 0
  }

  /** What an accepted chain scanned of the announced list, and selected from it. */
  predicate ChainDone(q: Query, from: Option<Checkpoint>, scanned: seq<WorkflowRun>, total: nat, rs: seq<RecoveryRun>) {
    && DescendingRuns(scanned) && Below(scanned, StartAt(from).last)
    && |scanned| == total - Held(total, StartAt(from).page)
    && rs == Select(scanned, q.workflowPath)
  }

  lemma FirstTotal(respond: nat -> Page, left: nat)
    requires left >= 1 && ReadPages(respond, StartAt(None), left).Ok?
    requires ReadFrom(StartAt(None), ReadPages(respond, StartAt(None), left).value, NewRuns(respond, StartAt(None), left))
    ensures respond(1).Page? && ReadPages(respond, StartAt(None), left).value.total == respond(1).total
  {
    var next := ReadPage(respond(1), StartAt(None)).value;
    assert next.total == respond(1).total;
    if !AtEnd(next) && left > 1 {
      OnePage(respond(1), StartAt(None));
      ReadsFrom(respond, next, left - 1);
    }
  }

  lemma OneWindow(q: Query, from: Option<Checkpoint>, leg: Leg)
    requires ValidFrom(from) && Window(q.(maximumPages := leg.pages), Text(from), leg.respond).Ok?
    ensures var d := Window(q.(maximumPages := leg.pages), Text(from), leg.respond).value;
      leg.pages >= 1 &&
      var runs := NewRuns(leg.respond, StartAt(from), leg.pages); var total := Announced(q, from, leg);
      && DescendingRuns(runs) && Below(runs, StartAt(from).last) && d.runs == Select(runs, q.workflowPath)
      && (d.next.None? ==> |runs| == total - Held(total, StartAt(from).page))
      && (d.next.Some? ==>
            ValidCheckpoint(d.next.value) && d.next.value.total == total && d.next.value.lastRun >= 1
            && |runs| == Held(total, d.next.value.nextPage) - Held(total, StartAt(from).page)
            && Some(d.next.value.lastRun) == LastId(runs, StartAt(from).last))
  {
    var w := q.(maximumPages := leg.pages);
    WindowDoes(w, from, leg.respond);
    var end := ReadPages(leg.respond, StartAt(from), leg.pages).value;
    if from.None? { FirstTotal(leg.respond, leg.pages); }
    assert end.total == Some(Announced(q, from, leg));
  }

  lemma JoinWindows(q: Query, from: Option<Checkpoint>, next: Checkpoint, total: nat, a: seq<WorkflowRun>,
                    b: seq<WorkflowRun>, rest: seq<RecoveryRun>)
    requires ValidCheckpoint(next) && next.total == total
    requires DescendingRuns(a) && Below(a, StartAt(from).last) && Some(next.lastRun) == LastId(a, StartAt(from).last)
    requires |a| == Held(total, next.nextPage) - Held(total, StartAt(from).page)
    requires ChainDone(q, Some(next), b, total, rest)
    ensures ChainDone(q, from, a + b, total, Select(a, q.workflowPath) + rest)
  {
    DescendingConcat(a, b, StartAt(from).last);
    SelectConcat(a, b, q.workflowPath);
  }

  /** One leg of an accepted chain, and the legs after it. */
  lemma ChainUnfolds(q: Query, from: Option<Checkpoint>, legs: seq<Leg>)
    requires Sweep(q, from, legs).Ok?
    ensures legs != [] && Window(q.(maximumPages := legs[0].pages), Text(from), legs[0].respond).Ok?
    ensures var d := Window(q.(maximumPages := legs[0].pages), Text(from), legs[0].respond).value;
      && (d.next.None? ==> Sweep(q, from, legs).value == d.runs)
      && (d.next.Some? ==> Sweep(q, d.next, legs[1..]).Ok?)
      && (d.next.Some? ==> Sweep(q, from, legs).value == d.runs + Sweep(q, d.next, legs[1..]).value)
    ensures legs[0].pages >= 1 ==>
      var d := Window(q.(maximumPages := legs[0].pages), Text(from), legs[0].respond).value;
      Scanned(q, from, legs) ==
        NewRuns(legs[0].respond, StartAt(from), legs[0].pages) + (if d.next.None? then [] else Scanned(q, d.next, legs[1..]))
  {}

  /**
   Any accepted chain, whatever answered it: the scanned ids strictly descend, so they are
   distinct, their number is what the announced total leaves after the first page's start, and
   the concatenated selections are the selection of everything scanned.
   */
  lemma {:induction false} AcceptedChain(q: Query, from: Option<Checkpoint>, legs: seq<Leg>)
    requires ValidFrom(from) && Sweep(q, from, legs).Ok?
    ensures legs != []
    ensures ChainDone(q, from, Scanned(q, from, legs), Announced(q, from, legs[0]), Sweep(q, from, legs).value)
    decreases |legs|
  {
    ChainUnfolds(q, from, legs);
    var d := Window(q.(maximumPages := legs[0].pages), Text(from), legs[0].respond).value;
    OneWindow(q, from, legs[0]);
    var runs := NewRuns(legs[0].respond, StartAt(from), legs[0].pages);
    if d.next.None? {
      assert runs + [] == runs;
    } else {
      AcceptedChain(q, d.next, legs[1..]);
      JoinWindows(q, from, d.next.value, Announced(q, from, legs[0]), runs, Scanned(q, d.next, legs[1..]),
                  Sweep(q, d.next, legs[1..]).value);
    }
  }

  /** A fresh accepted chain scans exactly the announced number of distinct runs. */
  lemma ExactlyTotal(q: Query, legs: seq<Leg>)
    requires Sweep(q, None, legs).Ok?
    ensures legs != [] && |Scanned(q, None, legs)| == Announced(q, None, legs[0])
    ensures DescendingRuns(Scanned(q, None, legs))
    ensures Sweep(q, None, legs).value == Select(Scanned(q, None, legs), q.workflowPath)
  {
    AcceptedChain(q, None, legs);
  }
}
