/**
 Sweeping a list that does not change: chained windows of any sizes select what one selection
 of the whole list selects, each run once, and finish.
 */
module SweepFixedList {
  import opened Outcomes
  import opened SweepCheckpoint
  import opened RecoverySweep
  import opened SweepRuns

  /** The pages of a fixed list. */
  function PageOf(all: seq<WorkflowRun>, page: nat): Page {
    if page == 0 then Failed
    else Page(Some(|all|), all[Held(|all|, page)..Held(|all|, page + 1)])
  }

  function Honest(all: seq<WorkflowRun>): nat -> Page {
    (page: nat) => PageOf(all, page)
  }

  /** A cursor that has read the pages before its own from this list. */
  predicate On(at: Cursor, all: seq<WorkflowRun>) {
    && Pending(at) && (at.total.Some? ==> at.total.value == |all|) && |all| <= SafeInteger && DescendingRuns(all)
    && (at.page > 1 ==> at.last.Some? && Held(|all|, at.page) >= 1 && at.last == LastId(all[..Held(|all|, at.page)], None))
  }

  /** The rest of a descending list lies below what came before it. */
  lemma Slices(all: seq<WorkflowRun>, i: nat, j: nat)
    requires DescendingRuns(all) && i <= j <= |all|
    ensures DescendingRuns(all[i..j]) && DescendingRuns(all[..i])
    ensures Below(all[i..j], LastId(all[..i], None))
    ensures LastId(all[i..j], LastId(all[..i], None)) == LastId(all[..j], None)
  {
    assert forall k :: 0 <= k < j - i ==> all[i..j][k] == all[i + k];
    assert forall k :: 0 <= k < i ==> all[..i][k] == all[k];
    if i == j { assert all[i..j] == []; }
  }

  lemma HonestPage(all: seq<WorkflowRun>, at: Cursor)
    requires On(at, all)
    ensures ReadPage(PageOf(all, at.page), at).Ok?
    ensures var next := ReadPage(PageOf(all, at.page), at).value; !AtEnd(next) ==> On(next, all)
  {
    var i, j := Held(|all|, at.page), Held(|all|, at.page + 1);
    Slices(all, i, j);
    CheckIdsMeans(all[i..j], at.last);
    if i == 0 { assert all[..0] == []; }
    var next := ReadPage(PageOf(all, at.page), at).value;
    OnePage(PageOf(all, at.page), at);
  }

  /** The cursor after one page of the list. */
  function NextOn(all: seq<WorkflowRun>, at: Cursor): Cursor
    requires On(at, all)
    ensures var next := NextOn(all, at);
      && ReadPage(Honest(all)(at.page), at) == Ok(next) && next.page == at.page + 1 && (AtEnd(next) || On(next, all))
      && Held(|all|, at.page) <= Held(|all|, next.page)
      && Honest(all)(at.page) == Page(Some(|all|), all[Held(|all|, at.page)..Held(|all|, next.page)])
  {
    HonestPage(all, at);
    ReadPage(PageOf(all, at.page), at).value
  }

  lemma {:induction false} HonestReads(all: seq<WorkflowRun>, at: Cursor, left: nat)
    requires On(at, all) && left >= 1
    ensures ReadPages(Honest(all), at, left).Ok?
    ensures var end := ReadPages(Honest(all), at, left).value;
      && end.page > at.page && (AtEnd(end) || On(end, all))
    decreases left
  {
    var next := NextOn(all, at);
    if !AtEnd(next) && left > 1 { HonestReads(all, next, left - 1); }
  }

  lemma {:induction false} HonestRuns(all: seq<WorkflowRun>, at: Cursor, left: nat)
    requires On(at, all) && left >= 1 && ReadPages(Honest(all), at, left).Ok?
    ensures var end := ReadPages(Honest(all), at, left).value;
      Held(|all|, at.page) <= Held(|all|, end.page)
      && NewRuns(Honest(all), at, left) == all[Held(|all|, at.page)..Held(|all|, end.page)]
    decreases left
  {
    var next := NextOn(all, at);
    var a, b := Held(|all|, at.page), Held(|all|, next.page);
    if AtEnd(next) || left == 1 {
      assert all[a..b] + [] == all[a..b];
    } else {
      HonestRuns(all, next, left - 1);
      JoinSlices(all, a, b, Held(|all|, ReadPages(Honest(all), next, left - 1).value.page));
    }
  }

  lemma JoinSlices(all: seq<WorkflowRun>, a: nat, b: nat, c: nat)
    requires a <= b <= c <= |all|
    ensures all[a..b] + all[b..c] == all[a..c]
  {}

  ghost predicate HonestLegs(legs: seq<Leg>, all: seq<WorkflowRun>, q: Query) {
    forall i :: 0 <= i < |legs| ==> legs[i].respond == Honest(all) && ValidQuery(q.(maximumPages := legs[i].pages))
  }

  /** How many pages a sweep still has to read. */
  function PagesLeft(all: seq<WorkflowRun>, page: nat): nat {
    if all == [] || page > LastPage(|all|) then 1 else LastPage(|all|) - page + 1
  }

  /** A checkpoint this list's sweep can have reached. */
  predicate Reached(q: Query, from: Option<Checkpoint>, all: seq<WorkflowRun>) {
    && ValidFrom(from) && On(StartAt(from), all) && ValidTimestamp(CreatedThrough(q, from))
    && (from.Some? ==> from.value.repository == q.repository && from.value.workflowPath == q.workflowPath)
  }

  /** What a window of this list answers: the selection of the runs it read, and a checkpoint
      of this list unless it reached the end. */
  predicate HonestDone(q: Query, from: Option<Checkpoint>, all: seq<WorkflowRun>, d: Discovery) {
    var i := Held(|all|, StartAt(from).page);
    if d.next.None? then d.runs == Select(all[i..], q.workflowPath)
    else
      && Reached(q, d.next, all) && d.next.value.nextPage > StartAt(from).page && d.next.value.total == |all|
      && d.next.value.nextPage <= LastPage(|all|)
      && i <= Held(|all|, d.next.value.nextPage)
      && d.runs == Select(all[i..Held(|all|, d.next.value.nextPage)], q.workflowPath)
  }

  lemma RestartsOn(end: Cursor, all: seq<WorkflowRun>, c: Checkpoint)
    requires On(end, all) && end.total == Some(c.total) && end.page == c.nextPage && end.last == Some(c.lastRun)
    ensures On(StartAt(Some(c)), all)
  {}

  lemma HonestTotal(all: seq<WorkflowRun>, from: Option<Checkpoint>, left: nat)
    requires ValidFrom(from) && On(StartAt(from), all) && left >= 1
    requires ReadPages(Honest(all), StartAt(from), left).Ok?
    requires ReadFrom(StartAt(from), ReadPages(Honest(all), StartAt(from), left).value, NewRuns(Honest(all), StartAt(from), left))
    ensures ReadPages(Honest(all), StartAt(from), left).value.total == Some(|all|)
  {
    if from.None? { FirstTotal(Honest(all), left); }
  }

  lemma HonestAnswer(q: Query, from: Option<Checkpoint>, all: seq<WorkflowRun>, end: Cursor, d: Discovery, created: string)
    requires On(StartAt(from), all) && end.page > StartAt(from).page && (AtEnd(end) || On(end, all))
    requires end.total == Some(|all|) && Held(|all|, StartAt(from).page) <= Held(|all|, end.page)
    requires d.runs == Select(all[Held(|all|, StartAt(from).page)..Held(|all|, end.page)], q.workflowPath)
    requires AtEnd(end) <==> d.next.None?
    requires AtEnd(end) ==> Held(|all|, end.page) == |all|
    requires d.next.Some? ==>
      end.last.Some? && ValidCheckpoint(d.next.value) && ValidTimestamp(created)
      && d.next == Some(Checkpoint(q.repository, q.workflowPath, created, |all|, end.page, end.last.value))
    ensures HonestDone(q, from, all, d)
  {
    var i := Held(|all|, StartAt(from).page);
    if d.next.None? {
      assert all[i..] == all[i..|all|];
    } else {
      RestartsOn(end, all, d.next.value);
    }
  }

  lemma HonestWindow(q: Query, from: Option<Checkpoint>, leg: Leg, all: seq<WorkflowRun>)
    requires Reached(q, from, all) && leg.respond == Honest(all) && ValidQuery(q.(maximumPages := leg.pages))
    ensures var r := Window(q.(maximumPages := leg.pages), Text(from), leg.respond);
      r.Ok? && HonestDone(q, from, all, r.value)
  {
    HonestOpens(q, from, leg, all);
    var w, at := q.(maximumPages := leg.pages), StartAt(from);
    HonestReads(all, at, leg.pages);
    HonestRuns(all, at, leg.pages);
    HonestTotal(all, from, leg.pages);
    HonestAnswer(q, from, all, ReadPages(leg.respond, at, leg.pages).value, Window(w, Text(from), leg.respond).value,
                 CreatedThrough(q, from));
  }

  lemma HonestOpens(q: Query, from: Option<Checkpoint>, leg: Leg, all: seq<WorkflowRun>)
    requires Reached(q, from, all) && leg.respond == Honest(all) && ValidQuery(q.(maximumPages := leg.pages))
    ensures var w := q.(maximumPages := leg.pages);
      Window(w, Text(from), leg.respond).Ok?
      && WindowDone(w, from, leg.respond, Window(w, Text(from), leg.respond).value)
  {
    var w := q.(maximumPages := leg.pages);
    if from.Some? { ParseReadsBack(from.value); }
    HonestReads(all, StartAt(from), leg.pages);
    ReadWindowAnswers(w, from, leg.respond);
    WindowDoes(w, from, leg.respond);
  }

  /** The legs that are left after one window still suffice. */
  lemma LegsLeft(q: Query, from: Option<Checkpoint>, legs: seq<Leg>, all: seq<WorkflowRun>, d: Discovery)
    requires Pending(StartAt(from)) && HonestLegs(legs, all, q) && |legs| >= PagesLeft(all, StartAt(from).page)
    requires legs != [] && HonestDone(q, from, all, d) && d.next.Some?
    ensures |legs[1..]| >= PagesLeft(all, StartAt(d.next).page) && HonestLegs(legs[1..], all, q)
  {
    FewerPages(all, StartAt(from).page, d.next.value.nextPage);
  }

  /**
   Chained windows equal one scan: from the start, or from any checkpoint of this list, enough
   windows finish, and their selections in order are the selection of the remaining list.
   */
  lemma {:induction false} SweepEqualsScan(q: Query, from: Option<Checkpoint>, legs: seq<Leg>, all: seq<WorkflowRun>)
    requires Reached(q, from, all) && HonestLegs(legs, all, q) && |legs| >= PagesLeft(all, StartAt(from).page)
    ensures Sweep(q, from, legs) == Ok(Select(all[Held(|all|, StartAt(from).page)..], q.workflowPath))
    decreases |legs|
  {
    HonestWindow(q, from, legs[0], all);
    var d := Window(q.(maximumPages := legs[0].pages), Text(from), legs[0].respond).value;
    SweepStep(q, from, legs, d);
    if d.next.Some? {
      LegsLeft(q, from, legs, all, d);
      SweepEqualsScan(q, d.next, legs[1..], all);
      JoinScans(all, Held(|all|, StartAt(from).page), Held(|all|, d.next.value.nextPage), q.workflowPath);
    }
  }

  lemma FewerPages(all: seq<WorkflowRun>, page: nat, next: nat)
    requires 1 <= page < next && all != [] && next <= LastPage(|all|)
    ensures PagesLeft(all, next) < PagesLeft(all, page)
  {}

  lemma SweepStep(q: Query, from: Option<Checkpoint>, legs: seq<Leg>, d: Discovery)
    requires legs != [] && Window(q.(maximumPages := legs[0].pages), Text(from), legs[0].respond) == Ok(d)
    ensures d.next.None? ==> Sweep(q, from, legs) == Ok(d.runs)
    ensures d.next.Some? && Sweep(q, d.next, legs[1..]).Ok? ==>
      Sweep(q, from, legs) == Ok(d.runs + Sweep(q, d.next, legs[1..]).value)
  {}

  lemma JoinScans(all: seq<WorkflowRun>, i: nat, j: nat, workflowPath: string)
    requires DescendingRuns(all) && i <= j <= |all|
    ensures Select(all[i..], workflowPath) == Select(all[i..j], workflowPath) + Select(all[j..], workflowPath)
  {
    assert all[i..j] + all[j..] == all[i..];
    Slices(all, i, |all|);
    assert all[i..|all|] == all[i..];
    SelectConcat(all[i..j], all[j..], workflowPath);
  }

  lemma FreshSweepEqualsScan(q: Query, legs: seq<Leg>, all: seq<WorkflowRun>)
    requires DescendingRuns(all) && |all| <= SafeInteger && ValidTimestamp(q.scanStartedAt)
    requires HonestLegs(legs, all, q) && |legs| >= PagesLeft(all, 1)
    ensures Sweep(q, None, legs) == Ok(Select(all, q.workflowPath))
  {
    SweepEqualsScan(q, None, legs, all);
    assert all[0..] == all;
  }
}
