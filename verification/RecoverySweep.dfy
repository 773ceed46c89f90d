/**
 The checkpointed sweep over a workflow's runs: one window reads a bounded number of pages and
 either ends the list or hands a checkpoint to the next window.
 */
module RecoverySweep {
  import opened Outcomes
  import opened SweepCheckpoint

  datatype WorkflowRun = WorkflowRun(id: Option<int>, attempt: int, event: string, branch: string, path: string,
                                     sha: string, title: Option<string>)

  datatype RecoveryRun = RecoveryRun(id: nat, sha: string)

  /** One list response; `total` is absent when it is not a non-negative integer. */
  datatype Page = Page(total: Option<nat>, runs: seq<WorkflowRun>) | Failed

  datatype Discovery = Discovery(runs: seq<RecoveryRun>, next: Option<Checkpoint>)

  // ---------------------------------------------------------------- selection

  const Prefix := "private-pg17:"

  predicate HasId(run: WorkflowRun) { run.id.Some? && 1 <= run.id.value <= SafeInteger }

  predicate IsHex40(s: string) {
    |s| == 40 && forall i :: 0 <= i < 40 ==> IsDigit(s[i]) || 'a' <= s[i] <= 'f'
  }

  predicate IsRolloutName(s: string) {
    && 3 <= |s| <= 256 && (IsDigit(s[0]) || 'A' <= s[0] <= 'Z' || 'a' <= s[0] <= 'z')
    && forall i :: 0 < i < |s| ==> IsDigit(s[i]) || 'A' <= s[i] <= 'Z' || 'a' <= s[i] <= 'z' || s[i] in "._:-"
  }

  predicate Eligible(run: WorkflowRun, workflowPath: string) {
    && HasId(run) && run.attempt == 1 && run.event == "workflow_dispatch" && run.branch == "main"
    && run.path == workflowPath + "@refs/heads/main" && IsHex40(run.sha)
    && run.title.Some? && Prefix <= run.title.value && IsRolloutName(run.title.value[|Prefix|..])
  }

  function Picked(runs: seq<WorkflowRun>, workflowPath: string): (r: seq<RecoveryRun>)
    ensures |r| <= |runs|
  {
    if runs == [] then []
    else
      var rest := Picked(runs[..|runs| - 1], workflowPath);
      var run := runs[|runs| - 1];
      if Eligible(run, workflowPath) then rest + [RecoveryRun(run.id.value, run.sha)] else rest
  }

  /** A map's insertion: a key keeps its first place and takes its last value. */
  function Put(rs: seq<RecoveryRun>, r: RecoveryRun): seq<RecoveryRun> {
    if rs == [] then [r] else if rs[0].id == r.id then [r] + rs[1..] else [rs[0]] + Put(rs[1..], r)
  }

  function Deduplicated(rs: seq<RecoveryRun>): seq<RecoveryRun> {
    if rs == [] then [] else Put(Deduplicated(rs[..|rs| - 1]), rs[|rs| - 1])
  }

  /** Insertion keeping descending order, after equals. */
  function Insert(rs: seq<RecoveryRun>, r: RecoveryRun): seq<RecoveryRun> {
    if rs == [] then [r] else if rs[|rs| - 1].id >= r.id then rs + [r] else Insert(rs[..|rs| - 1], r) + [rs[|rs| - 1]]
  }

  function Sorted(rs: seq<RecoveryRun>): seq<RecoveryRun> {
    if rs == [] then [] else Insert(Sorted(rs[..|rs| - 1]), rs[|rs| - 1])
  }

  function Select(runs: seq<WorkflowRun>, workflowPath: string): seq<RecoveryRun> {
    Sorted(Deduplicated(Picked(runs, workflowPath)))
  }

  predicate Descending(rs: seq<RecoveryRun>) {
    forall i, j :: 0 <= i < j < |rs| ==> rs[i].id > rs[j].id
  }

  predicate DescendingRuns(runs: seq<WorkflowRun>) {
    && (forall i :: 0 <= i < |runs| ==> HasId(runs[i]))
    && forall i, j :: 0 <= i < j < |runs| ==> runs[i].id.value > runs[j].id.value
  }

  lemma {:induction false} PutOn(rs: seq<RecoveryRun>, r: RecoveryRun)
    requires Descending(rs) && forall i :: 0 <= i < |rs| ==> rs[i].id > r.id
    ensures Put(rs, r) == rs + [r] && Insert(rs, r) == rs + [r] && Descending(rs + [r])
  {
    if rs != [] {
      PutOn(rs[1..], r);
      assert rs == [rs[0]] + rs[1..];
    }
  }

  /** Descending ids are distinct and in order: the map and the sort change nothing. */
  lemma {:induction false} AlreadyDescending(rs: seq<RecoveryRun>)
    requires Descending(rs)
    ensures Deduplicated(rs) == rs && Sorted(rs) == rs
  {
    if rs != [] {
      var front := rs[..|rs| - 1];
      AlreadyDescending(front);
      PutOn(front, rs[|rs| - 1]);
      assert rs == front + [rs[|rs| - 1]];
    }
  }

  lemma {:induction false} PickedDescends(runs: seq<WorkflowRun>, workflowPath: string)
    requires DescendingRuns(runs)
    ensures Descending(Picked(runs, workflowPath))
    ensures forall i :: 0 <= i < |Picked(runs, workflowPath)| ==>
      exists k :: 0 <= k < |runs| && runs[k].id == Some(Picked(runs, workflowPath)[i].id)
  {
    if runs != [] {
      var front := runs[..|runs| - 1];
      PickedDescends(front, workflowPath);
      var rest := Picked(front, workflowPath);
      forall i | 0 <= i < |rest| ensures exists k :: 0 <= k < |runs| && runs[k].id == Some(rest[i].id) {
        var k :| 0 <= k < |front| && front[k].id == Some(rest[i].id);
        assert runs[k].id == Some(rest[i].id);
      }
    }
  }

  function OnePicked(r: WorkflowRun, workflowPath: string): seq<RecoveryRun> {
    if Eligible(r, workflowPath) then [RecoveryRun(r.id.value, r.sha)] else []
  }

  lemma PickedNext(runs: seq<WorkflowRun>, workflowPath: string)
    requires runs != []
    ensures Picked(runs, workflowPath) ==
      Picked(runs[..|runs| - 1], workflowPath) + OnePicked(runs[|runs| - 1], workflowPath)
  {}

  lemma Regrouped(a: seq<RecoveryRun>, b: seq<RecoveryRun>, c: seq<RecoveryRun>)
    ensures a + b + c == a + (b + c)
  {}

  lemma {:induction false} PickedConcat(a: seq<WorkflowRun>, b: seq<WorkflowRun>, workflowPath: string)
    ensures Picked(a + b, workflowPath) == Picked(a, workflowPath) + Picked(b, workflowPath)
    decreases |b|
  {
    if b == [] {
      assert a + b == a;
    } else {
      var c, r := b[..|b| - 1], b[|b| - 1];
      PickedConcat(a, c, workflowPath);
      PickedNext(b, workflowPath);
      PickedNext(a + b, workflowPath);
      Regrouped(Picked(a, workflowPath), Picked(c, workflowPath), OnePicked(r, workflowPath));
      assert (a + b)[..|a + b| - 1] == a + c;
    }
  }

  /** Selecting a descending list is only filtering, so it can be done window by window. */
  lemma SelectConcat(a: seq<WorkflowRun>, b: seq<WorkflowRun>, workflowPath: string)
    requires DescendingRuns(a + b)
    ensures Select(a + b, workflowPath) == Select(a, workflowPath) + Select(b, workflowPath)
    ensures Descending(Select(a + b, workflowPath))
  {
    assert DescendingRuns(a) by { assert forall i :: 0 <= i < |a| ==> (a + b)[i] == a[i]; }
    assert DescendingRuns(b) by { assert forall i :: 0 <= i < |b| ==> (a + b)[|a| + i] == b[i]; }
    PickedConcat(a, b, workflowPath);
    PickedDescends(a, workflowPath);
    PickedDescends(b, workflowPath);
    PickedDescends(a + b, workflowPath);
    AlreadyDescending(Picked(a, workflowPath));
    AlreadyDescending(Picked(b, workflowPath));
    AlreadyDescending(Picked(a + b, workflowPath));
  }

  // ---------------------------------------------------------------- one window

  /** The ids of a page, each below the last one seen; the last id afterwards. */
  function CheckIds(runs: seq<WorkflowRun>, last: Option<nat>): Result<Option<nat>> {
    if runs == [] then Ok(last)
    else if !HasId(runs[0]) then Err("private_pg17_recovery_list_run_identity_invalid")
    else if last.Some? && runs[0].id.value >= last.value then Err("private_pg17_recovery_list_order_changed")
    else CheckIds(runs[1..], Some(runs[0].id.value))
  }

  function Min(a: int, b: int): int { if a < b then a else b }

  function PageLength(total: nat, page: nat): nat
    requires page >= 1
  {
    var scanned := (page - 1) * PageSize;
    if total <= scanned then 0 else Min(PageSize, total - scanned)
  }

  /** Where a scan stands before reading `page`. */
  datatype Cursor = Cursor(page: nat, total: Option<nat>, last: Option<nat>, runs: seq<WorkflowRun>)

  function ReadPage(answer: Page, at: Cursor): Result<Cursor>
    requires at.page >= 1
  {
    if answer.Failed? then Err("private_pg17_recovery_list_failed")
    else if answer.total.None? || answer.total.value > SafeInteger || |answer.runs| > PageSize then Err("private_pg17_recovery_list_invalid")
    else if at.total.Some? && at.total != answer.total then Err("private_pg17_recovery_list_changed")
    else if |answer.runs| != PageLength(answer.total.value, at.page) then Err("private_pg17_recovery_list_page_incomplete")
    else match CheckIds(answer.runs, at.last)
      case Err(e) => Err(e)
      case Ok(last) => Ok(Cursor(at.page + 1, answer.total, last, at.runs + answer.runs))
  }

  /** Whether the page just read, with everything before it, is the whole list. */
  predicate AtEnd(at: Cursor)
  {
    at.page >= 2 && at.total.Some? && (at.page - 2) * PageSize + PageLength(at.total.value, at.page - 1) == at.total.value
  }

  function ReadPages(respond: nat -> Page, at: Cursor, left: nat): (r: Result<Cursor>)
    requires at.page >= 1
    ensures r.Ok? ==> r.value.page >= at.page
    decreases left
  {
    if left == 0 then Ok(at)
    else match ReadPage(respond(at.page), at)
      case Err(e) => Err(e)
      case Ok(next) => if AtEnd(next) then Ok(next) else ReadPages(respond, next, left - 1)
  }

  datatype Query = Query(repository: string, workflowPath: string, maximumPages: int, scanStartedAt: string)

  predicate ValidQuery(q: Query) {
    ValidRepository(q.repository) && ValidWorkflowPath(q.workflowPath) && 1 <= q.maximumPages
    && q.maximumPages * PageSize <= MatrixSize
  }

  function Resumed(q: Query, from: Option<Json>): Result<Option<Checkpoint>> {
    match from
    case None => Ok(None)
    case Some(j) =>
      match Parse(j)
      case Err(e) => Err(e)
      case Ok(c) =>
        if c.repository != q.repository || c.workflowPath != q.workflowPath then
          Err("private_pg17_recovery_checkpoint_scope_mismatch")
        else Ok(Some(c))
  }

  function StartAt(c: Option<Checkpoint>): (at: Cursor)
    ensures at.page >= 1
  {
    match c
    case None => Cursor(1, None, None, [])
    case Some(k) => Cursor(if k.nextPage >= 1 then k.nextPage else 1, Some(k.total), Some(k.lastRun), [])
  }

  function CreatedThrough(q: Query, c: Option<Checkpoint>): string {
    if c.Some? then c.value.createdThrough else q.scanStartedAt
  }

  /** What a window answers from the pages it read. */
  function Answer(q: Query, created: string, end: Cursor): Result<Discovery>
  {
    var selected := Select(end.runs, q.workflowPath);
    if AtEnd(end) then Ok(Discovery(selected, None))
    else if end.total.None? || end.last.None? then Err("private_pg17_recovery_list_invalid")
    else if |selected| > MatrixSize then Err("private_pg17_recovery_matrix_limit_exceeded")
    else
      Ok(Discovery(selected,
                   Some(Checkpoint(q.repository, q.workflowPath, created, end.total.value, end.page, end.last.value))))
  }

  function Window(q: Query, from: Option<Json>, respond: nat -> Page): Result<Discovery> {
    if !ValidQuery(q) then Err("private_pg17_recovery_discovery_input_invalid")
    else match Resumed(q, from)
      case Err(e) => Err(e)
      case Ok(c) =>
        if !ValidTimestamp(CreatedThrough(q, c)) then Err("private_pg17_recovery_discovery_input_invalid")
        else match ReadPages(respond, StartAt(c), q.maximumPages)
          case Err(e) => Err(e)
          case Ok(end) => Answer(q, CreatedThrough(q, c), end)
  }

  /** The loop over the runs of one page. */
  method ScanIds(runs: seq<WorkflowRun>, start: Option<nat>) returns (r: Result<Option<nat>>)
    ensures r == CheckIds(runs, start)
  {
    var last: Option<nat> := start;
    for i := 0 to |runs|
      invariant CheckIds(runs, start) == CheckIds(runs[i..], last)
    {
      if !HasId(runs[i]) {
        return Err("private_pg17_recovery_list_run_identity_invalid");
      }
      if last.Some? && runs[i].id.value >= last.value {
        return Err("private_pg17_recovery_list_order_changed");
      }
      var id: nat := runs[i].id.value;
      last := Some(id);
      assert runs[i..][1..] == runs[i + 1..];
    }
    return Ok(last);
  }

  method ReadOne(answer: Page, at: Cursor) returns (r: Result<Cursor>)
    requires at.page >= 1
    ensures r == ReadPage(answer, at)
  {
    if answer.Failed? {
      return Err("private_pg17_recovery_list_failed");
    }
    if answer.total.None? || answer.total.value > SafeInteger || |answer.runs| > PageSize {
      return Err("private_pg17_recovery_list_invalid");
    }
    var total := if at.total.Some? then at.total.value else answer.total.value;
    if total != answer.total.value {
      return Err("private_pg17_recovery_list_changed");
    }
    var scanned := (at.page - 1) * PageSize;
    if |answer.runs| != (if total - scanned < 0 then 0 else Min(PageSize, total - scanned)) {
      return Err("private_pg17_recovery_list_page_incomplete");
    }
    var last := ScanIds(answer.runs, at.last);
    if last.Err? {
      return Err(last.error);
    }
    return Ok(Cursor(at.page + 1, Some(total), last.value, at.runs + answer.runs));
  }

  /** The loop over the pages of one window. */
  method ReadWindow(respond: nat -> Page, start: Cursor, maximumPages: nat) returns (r: Result<Cursor>)
    requires start.page >= 1
    ensures r == ReadPages(respond, start, maximumPages)
  {
    var at := start;
    for consumed := 0 to maximumPages
      invariant at.page >= 1
      invariant ReadPages(respond, start, maximumPages) == ReadPages(respond, at, maximumPages - consumed)
    {
      var next := ReadOne(respond(at.page), at);
      if next.Err? {
        return Err(next.error);
      }
      at := next.value;
      if AtEnd(at) {
        return Ok(at);
      }
    }
    return Ok(at);
  }

  /** `discoverPrivatePg17RecoveryRuns` for a sweep. */
  method Discover(q: Query, from: Option<Json>, respond: nat -> Page) returns (r: Result<Discovery>)
    ensures r == Window(q, from, respond)
  {
    if !ValidQuery(q) {
      return Err("private_pg17_recovery_discovery_input_invalid");
    }
    var c := Resumed(q, from);
    if c.Err? {
      return Err(c.error);
    }
    var created := CreatedThrough(q, c.value);
    if !ValidTimestamp(created) {
      return Err("private_pg17_recovery_discovery_input_invalid");
    }
    var read := ReadWindow(respond, StartAt(c.value), q.maximumPages);
    if read.Err? {
      return Err(read.error);
    }
    var at := read.value;
    var selected := Select(at.runs, q.workflowPath);
    if AtEnd(at) {
      return Ok(Discovery(selected, None));
    }
    if at.total.None? || at.last.None? {
      return Err("private_pg17_recovery_list_invalid");
    }
    if |selected| > MatrixSize {
      return Err("private_pg17_recovery_matrix_limit_exceeded");
    }
    return Ok(Discovery(selected, Some(Checkpoint(q.repository, q.workflowPath, created, at.total.value, at.page,
                                                  at.last.value))));
  }
}
