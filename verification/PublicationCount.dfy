/**
 How many objects an accepted publication has: the summary, the check if one was rendered, one
 review for each chunk, and every rendered inline comment.
 */
module PublicationCount {
  import opened Outcomes
  import opened PublicationGraph
  import opened PublicationJoin
  import opened PublicationPartition

  predicate DistinctChunks(chunks: seq<Chunk>) {
    forall i, j :: 0 <= i < j < |chunks| ==> chunks[i].index != chunks[j].index
  }

  function TotalComments(chunks: seq<Chunk>): nat {
    if chunks == [] then 0 else TotalComments(chunks[..|chunks| - 1]) + |chunks[|chunks| - 1].comments|
  }

  // ---------------------------------------------------------------- the object of a slot

  /** The object that the receipt of a slot's operation names. */
  function TargetOf(g: Graph, s: Slot): Option<Canonical> {
    var o := OperationAt(g.operations, s.kind, s.chunk);
    if o.None? then None
    else
      var r := ReceiptFor(g.receipts, o.value.id);
      if r.None? then None else Some(r.value.target)
  }

  lemma SameOperation(ops: seq<Operation>, o: Operation)
    requires Distinct(OperationIds(ops)) && DistinctSlots(ops) && o in ops
    ensures OperationById(ops, o.id) == Some(o) && OperationAt(ops, o.kind, o.chunk) == Some(o)
  {
    var k :| 0 <= k < |ops| && ops[k] == o;
    var x, y := OperationById(ops, o.id).value, OperationAt(ops, o.kind, o.chunk).value;
    var i :| 0 <= i < |ops| && ops[i] == x;
    var j :| 0 <= j < |ops| && ops[j] == y;
    assert OperationIds(ops)[i] == OperationIds(ops)[k];
    assert SlotOf(ops[j]) == SlotOf(ops[k]);
  }

  lemma SameReceipt(rs: seq<Receipt>, r: Receipt)
    requires DistinctReceipts(rs) && r in rs
    ensures ReceiptFor(rs, r.operation) == Some(r)
  {
    var k :| 0 <= k < |rs| && rs[k] == r;
    var x := ReceiptFor(rs, r.operation).value;
    var i :| 0 <= i < |rs| && rs[i] == x;
  }

  /** A receipt names the object of its own operation's slot. */
  lemma TargetOfReceipt(g: Graph, r: Receipt)
    requires Distinct(OperationIds(g.operations)) && DistinctSlots(g.operations) && DistinctReceipts(g.receipts)
    requires r in g.receipts && OperationById(g.operations, r.operation).Some?
    ensures TargetOf(g, SlotOf(OperationById(g.operations, r.operation).value)) == Some(r.target)
  {
    SameOperation(g.operations, OperationById(g.operations, r.operation).value);
    SameReceipt(g.receipts, r);
  }

  lemma SlotOperation(g: Graph, s: Slot) returns (o: Operation)
    requires RowsOk(g) && s in Expected(g.rendered)
    ensures o in g.operations && SlotOf(o) == s
  {
    ExpectedStoredOnce(g);
    var i :| 0 <= i < |g.operations| && SlotOf(g.operations[i]) == s;
    o := g.operations[i];
  }

  lemma OperationReceipt(g: Graph, o: Operation) returns (r: Receipt)
    requires RowsOk(g) && AllJoined(g, g.receipts) && o in g.operations
    ensures r in g.receipts && r.operation == o.id
  {
    OperationsReceipted(g);
    assert ExactlyOneReceiptOf(g.receipts, o.id);
    var k :| 0 <= k < |g.receipts| && g.receipts[k].operation == o.id;
    r := g.receipts[k];
  }

  /** Every expected slot has an object, named by the receipt of that slot's operation. */
  lemma SlotHasTarget(g: Graph, s: Slot) returns (r: Receipt)
    requires RowsOk(g) && AllJoined(g, g.receipts) && s in Expected(g.rendered)
    ensures r in g.receipts && TargetOf(g, s) == Some(r.target)
    ensures OperationById(g.operations, r.operation).Some? && SlotOf(OperationById(g.operations, r.operation).value) == s
  {
    var o := SlotOperation(g, s);
    r := OperationReceipt(g, o);
    SameOperation(g.operations, o);
    SameReceipt(g.receipts, r);
  }

  // ---------------------------------------------------------------- expected slots

  lemma {:induction false} ChunkSlotKeys(chunks: seq<Chunk>, s: Slot)
    ensures s in ChunkSlots(chunks) <==> IsReviewKind(s.kind) && ChunkAt(chunks, s.chunk).Some?
  {
    if chunks != [] {
      var front, last := chunks[..|chunks| - 1], chunks[|chunks| - 1];
      ChunkSlotKeys(front, s);
      assert forall c :: c in chunks <==> c in front || c == last by {
        assert chunks == front + [last];
      }
    }
  }

  lemma {:induction false} LifecycleSlotKeys(entries: seq<Lifecycle>, s: Slot)
    ensures s in LifecycleSlots(entries) ==> s.kind.ThreadLifecycle?
  {
    if entries != [] {
      LifecycleSlotKeys(entries[..|entries| - 1], s);
    }
  }

  lemma ExpectedSlots(r: Rendered, s: Slot)
    ensures s.kind.Summary? ==> (s in Expected(r) <==> s.chunk == 0)
    ensures s.kind.ManagedCheck? ==> (s in Expected(r) <==> s.chunk == 0 && r.check.Some?)
    ensures IsReviewKind(s.kind) ==> (s in Expected(r) <==> ChunkAt(r.reviews, s.chunk).Some?)
  {
    ChunkSlotKeys(r.reviews, s);
    LifecycleSlotKeys(r.lifecycle, s);
  }

  // ---------------------------------------------------------------- keys of one chunk

  function KeysOfTarget(g: Graph, c: Option<Canonical>): set<Key> {
    if c.None? || c.value.Thread? || c.value.Foreign? then {}
    else if c.value.Review? then {KeyOf(c.value)} + KeysOf(Children(g.objects, c.value.id))
    else {KeyOf(c.value)}
  }

  function KeysOfChunks(g: Graph, chunks: seq<Chunk>): set<Key> {
    if chunks == [] then {}
    else
      KeysOfChunks(g, chunks[..|chunks| - 1]) + KeysOfTarget(g, TargetOf(g, Slot(ReviewCreate, chunks[|chunks| - 1].index)))
  }

  lemma {:induction false} InChunkKeys(g: Graph, chunks: seq<Chunk>, key: Key)
    ensures key in KeysOfChunks(g, chunks) <==>
      exists c :: c in chunks && key in KeysOfTarget(g, TargetOf(g, Slot(ReviewCreate, c.index)))
  {
    if chunks != [] {
      var front, last := chunks[..|chunks| - 1], chunks[|chunks| - 1];
      InChunkKeys(g, front, key);
      assert forall c :: c in chunks <==> c in front || c == last by { assert chunks == front + [last]; }
    }
  }

  lemma {:induction false} ChildKeys(objects: seq<Object>, review: string)
    requires NoRepeats(ObjectKeys(objects))
    ensures NoRepeats(ObjectKeys(Children(objects, review)))
  {
    if objects != [] {
      var front, last := objects[..|objects| - 1], objects[|objects| - 1];
      assert forall i :: 0 <= i < |front| ==> ObjectKeys(front)[i] == ObjectKeys(objects)[i];
      ChildKeys(front, review);
      var rest := Children(front, review);
      forall i | 0 <= i < |rest| ensures rest[i].key != last.key {
        assert rest[i] in front;
        var k :| 0 <= k < |front| && front[k] == rest[i];
        assert ObjectKeys(objects)[k] != ObjectKeys(objects)[|front|];
      }
      var r := Children(objects, review);
      assert forall i :: 0 <= i < |rest| ==> r[i] == rest[i];
    }
  }

  /** A review with its comments makes one key more than its chunk has comments. */
  lemma ReviewKeyCount(g: Graph, chunk: int, c: Canonical)
    requires NoRepeats(ObjectKeys(g.objects)) && ReviewJoined(g, chunk, c)
    ensures |KeysOfTarget(g, Some(c))| == 1 + |ChunkAt(g.rendered.reviews, chunk).value.comments|
  {
    var children := Children(g.objects, c.id);
    ChildKeys(g.objects, c.id);
    KeysAreElements(children);
    ElementsCount(ObjectKeys(children));
    assert KeyOf(c) !in KeysOf(children);
  }

  /** Reviews that differ share neither their own key nor a comment's. */
  lemma ReviewsDisjoint(g: Graph, c: Canonical, d: Canonical)
    requires NoRepeats(ObjectKeys(g.objects)) && c.Review? && d.Review? && c != d
    ensures KeysOfTarget(g, Some(c)) !! KeysOfTarget(g, Some(d))
  {
    forall k | k in KeysOfTarget(g, Some(c)) && k in KeysOfTarget(g, Some(d)) ensures false {
      if k.kind.AReviewComment? {
        var x :| x in Children(g.objects, c.id) && x.key == k;
        var y :| y in Children(g.objects, d.id) && y.key == k;
        OneObjectPerKey(g.objects, x, y);
      }
    }
  }

  // ---------------------------------------------------------------- the count

  /** A chunk's slot names a joined review of that chunk. */
  lemma ChunkReviewed(g: Graph, c: Chunk) returns (r: Receipt)
    requires RowsOk(g) && AllJoined(g, g.receipts) && c in g.rendered.reviews
    ensures r in g.receipts && TargetOf(g, Slot(ReviewCreate, c.index)) == Some(r.target)
    ensures r.target.Review? && ReviewJoined(g, c.index, r.target) && ChunkOf(g, r) == c.index
  {
    ExpectedSlots(g.rendered, Slot(ReviewCreate, c.index));
    assert ChunkAt(g.rendered.reviews, c.index).Some?;
    r := SlotHasTarget(g, Slot(ReviewCreate, c.index));
    var i :| 0 <= i < |g.receipts| && g.receipts[i] == r;
    assert ReceiptJoined(g, g.receipts[i]);
    TargetKind(g, r);
  }

  lemma OnlyChunkAt(chunks: seq<Chunk>, c: Chunk)
    requires DistinctChunks(chunks) && c in chunks
    ensures ChunkAt(chunks, c.index) == Some(c)
  {
    var k :| 0 <= k < |chunks| && chunks[k] == c;
    var x := ChunkAt(chunks, c.index).value;
    var i :| 0 <= i < |chunks| && chunks[i] == x;
  }

  /** Reviews of different chunks are different reviews. */
  lemma ChunksApart(g: Graph, c: Chunk, d: Chunk)
    requires RowsOk(g) && AllJoined(g, g.receipts) && AllCompatible(g, g.receipts)
    requires c in g.rendered.reviews && d in g.rendered.reviews && c.index != d.index
    ensures TargetOf(g, Slot(ReviewCreate, c.index)) != TargetOf(g, Slot(ReviewCreate, d.index))
  {
    var r := ChunkReviewed(g, c);
    var s := ChunkReviewed(g, d);
    var i :| 0 <= i < |g.receipts| && g.receipts[i] == r;
    var j :| 0 <= j < |g.receipts| && g.receipts[j] == s;
    assert if i < j then Compatible(g, g.receipts[i], g.receipts[j]) else i == j || Compatible(g, g.receipts[j], g.receipts[i]);
  }

  lemma ChunkKeysApart(g: Graph, chunks: seq<Chunk>, c: Chunk)
    requires RowsOk(g) && AllJoined(g, g.receipts) && AllCompatible(g, g.receipts) && NoRepeats(ObjectKeys(g.objects))
    requires c in g.rendered.reviews
    requires forall d :: d in chunks ==> d in g.rendered.reviews && d.index != c.index
    ensures KeysOfChunks(g, chunks) !! KeysOfTarget(g, TargetOf(g, Slot(ReviewCreate, c.index)))
  {
    var r := ChunkReviewed(g, c);
    forall key | key in KeysOfChunks(g, chunks) ensures key !in KeysOfTarget(g, Some(r.target)) {
      InChunkKeys(g, chunks, key);
      var d :| d in chunks && key in KeysOfTarget(g, TargetOf(g, Slot(ReviewCreate, d.index)));
      var s := ChunkReviewed(g, d);
      ChunksApart(g, c, d);
      ReviewsDisjoint(g, r.target, s.target);
    }
  }

  /** A chunk's keys: its review and its comments. */
  lemma OneChunkCount(g: Graph, c: Chunk)
    requires RowsOk(g) && AllJoined(g, g.receipts) && NoRepeats(ObjectKeys(g.objects))
    requires DistinctChunks(g.rendered.reviews) && c in g.rendered.reviews
    ensures |KeysOfTarget(g, TargetOf(g, Slot(ReviewCreate, c.index)))| == 1 + |c.comments|
  {
    var r := ChunkReviewed(g, c);
    OnlyChunkAt(g.rendered.reviews, c);
    ReviewKeyCount(g, c.index, r.target);
  }

  /** A chunk has its keys, and shares none with the chunks before it. */
  predicate ChunkCounted(g: Graph, before: set<Key>, c: Chunk) {
    && |KeysOfTarget(g, TargetOf(g, Slot(ReviewCreate, c.index)))| == 1 + |c.comments|
    && before !! KeysOfTarget(g, TargetOf(g, Slot(ReviewCreate, c.index)))
  }

  predicate ChunksCounted(g: Graph, chunks: seq<Chunk>, n: nat)
    requires n <= |chunks|
  {
    forall i :: 0 <= i < n ==> ChunkCounted(g, KeysOfChunks(g, chunks[..i]), chunks[i])
  }

  lemma KeysOfNext(g: Graph, chunks: seq<Chunk>, n: nat)
    requires n < |chunks| && ChunkCounted(g, KeysOfChunks(g, chunks[..n]), chunks[n])
    ensures |KeysOfChunks(g, chunks[..n + 1])| == |KeysOfChunks(g, chunks[..n])| + 1 + |chunks[n].comments|
  {
    assert chunks[..n + 1][..n] == chunks[..n];
    SizeOfUnion(KeysOfChunks(g, chunks[..n]), KeysOfTarget(g, TargetOf(g, Slot(ReviewCreate, chunks[n].index))));
  }

  lemma CommentsOfNext(chunks: seq<Chunk>, n: nat)
    requires n < |chunks|
    ensures TotalComments(chunks[..n + 1]) == TotalComments(chunks[..n]) + |chunks[n].comments|
  {
    assert chunks[..n + 1][..n] == chunks[..n];
  }

  lemma {:induction false} SumOfChunks(g: Graph, chunks: seq<Chunk>, n: nat)
    requires n <= |chunks| && ChunksCounted(g, chunks, n)
    ensures |KeysOfChunks(g, chunks[..n])| == n + TotalComments(chunks[..n])
  {
    if n > 0 {
      SumOfChunks(g, chunks, n - 1);
      KeysOfNext(g, chunks, n - 1);
      CommentsOfNext(chunks, n - 1);
    }
  }

  lemma SizeOfUnion(a: set<Key>, b: set<Key>)
    requires a !! b
    ensures |a + b| == |a| + |b|
  {}

  lemma ChunkKeysCount(g: Graph)
    requires RowsOk(g) && AllJoined(g, g.receipts) && AllCompatible(g, g.receipts) && NoRepeats(ObjectKeys(g.objects))
    requires DistinctChunks(g.rendered.reviews)
    ensures |KeysOfChunks(g, g.rendered.reviews)| == |g.rendered.reviews| + TotalComments(g.rendered.reviews)
  {
    var chunks := g.rendered.reviews;
    forall i | 0 <= i < |chunks| ensures ChunkCounted(g, KeysOfChunks(g, chunks[..i]), chunks[i]) {
      OneChunkCount(g, chunks[i]);
      EarlierChunks(chunks, i);
      ChunkKeysApart(g, chunks[..i], chunks[i]);
    }
    SumOfChunks(g, chunks, |chunks|);
    assert chunks[..|chunks|] == chunks;
  }

  lemma EarlierChunks(chunks: seq<Chunk>, i: nat)
    requires DistinctChunks(chunks) && i < |chunks|
    ensures forall d :: d in chunks[..i] ==> d in chunks && d.index != chunks[i].index
  {}

  /** A slot's object is named by a receipt and is of the slot's kind. */
  predicate Filled(g: Graph, s: Slot) {
    exists i :: 0 <= i < |g.receipts| && TargetOf(g, s) == Some(g.receipts[i].target)
      && (s.kind.Summary? ==> g.receipts[i].target.IssueComment?)
      && (s.kind.ManagedCheck? ==> g.receipts[i].target.CheckRun?)
      && (s.kind.ReviewCreate? ==> g.receipts[i].target.Review?)
  }

  predicate AllFilled(g: Graph) {
    && Filled(g, Slot(Summary, 0)) && (g.rendered.check.Some? ==> Filled(g, Slot(ManagedCheck, 0)))
    && forall c :: c in g.rendered.reviews ==> Filled(g, Slot(ReviewCreate, c.index))
  }

  lemma FillSlot(g: Graph, s: Slot)
    requires RowsOk(g) && AllJoined(g, g.receipts) && s in Expected(g.rendered)
    ensures Filled(g, s)
  {
    var r := SlotHasTarget(g, s);
    var i :| 0 <= i < |g.receipts| && g.receipts[i] == r;
    assert ReceiptJoined(g, g.receipts[i]);
    TargetKind(g, r);
  }

  lemma FillAll(g: Graph)
    requires RowsOk(g) && AllJoined(g, g.receipts)
    ensures AllFilled(g)
  {
    ExpectedSlots(g.rendered, Slot(Summary, 0));
    FillSlot(g, Slot(Summary, 0));
    ExpectedSlots(g.rendered, Slot(ManagedCheck, 0));
    if g.rendered.check.Some? { FillSlot(g, Slot(ManagedCheck, 0)); }
    forall c | c in g.rendered.reviews ensures Filled(g, Slot(ReviewCreate, c.index)) {
      ExpectedSlots(g.rendered, Slot(ReviewCreate, c.index));
      FillSlot(g, Slot(ReviewCreate, c.index));
    }
  }

  /** The keys of everything rendered: summary, check, and each chunk's review with its comments. */
  function RenderedKeys(g: Graph): set<Key> {
    KeysOfTarget(g, TargetOf(g, Slot(Summary, 0)))
    + (if g.rendered.check.Some? then KeysOfTarget(g, TargetOf(g, Slot(ManagedCheck, 0))) else {})
    + KeysOfChunks(g, g.rendered.reviews)
  }

  /** What one receipt joins was rendered. */
  lemma ChunkWasRendered(g: Graph, r: Receipt, c: Chunk)
    requires c in g.rendered.reviews && r.target.Review? && TargetOf(g, Slot(ReviewCreate, c.index)) == Some(r.target)
    ensures JoinedBy(g, r) <= KeysOfChunks(g, g.rendered.reviews)
  {
    forall key | key in JoinedBy(g, r) ensures key in KeysOfChunks(g, g.rendered.reviews) {
      InChunkKeys(g, g.rendered.reviews, key);
      assert key in KeysOfTarget(g, TargetOf(g, Slot(ReviewCreate, c.index)));
    }
  }

  lemma JoinedWasRendered(g: Graph, r: Receipt)
    requires RowsOk(g) && r in g.receipts && ReceiptJoined(g, r)
    ensures JoinedBy(g, r) <= RenderedKeys(g)
  {
    var o := OperationById(g.operations, r.operation).value;
    TargetKind(g, r);
    assert RenderedOk(g, o);
    ExpectedSlots(g.rendered, SlotOf(o));
    TargetOfReceipt(g, r);
    if r.target.Review? {
      assert TargetOf(g, Slot(ReviewCreate, o.chunk)) == Some(r.target);
      ChunkWasRendered(g, r, ChunkAt(g.rendered.reviews, o.chunk).value);
    }
  }

  lemma SlotIsJoined(g: Graph, s: Slot)
    requires Filled(g, s)
    ensures KeysOfTarget(g, TargetOf(g, s)) <= Joined(g, g.receipts)
  {
    var i :| 0 <= i < |g.receipts| && TargetOf(g, s) == Some(g.receipts[i].target);
    forall key | key in KeysOfTarget(g, TargetOf(g, s)) ensures key in Joined(g, g.receipts) {
      InJoined(g, g.receipts, key);
      assert key in JoinedBy(g, g.receipts[i]);
    }
  }

  lemma RenderedIsJoined(g: Graph)
    requires AllFilled(g)
    ensures RenderedKeys(g) <= Joined(g, g.receipts)
  {
    SlotIsJoined(g, Slot(Summary, 0));
    if g.rendered.check.Some? { SlotIsJoined(g, Slot(ManagedCheck, 0)); }
    forall key | key in KeysOfChunks(g, g.rendered.reviews) ensures key in Joined(g, g.receipts) {
      InChunkKeys(g, g.rendered.reviews, key);
      var c :| c in g.rendered.reviews && key in KeysOfTarget(g, TargetOf(g, Slot(ReviewCreate, c.index)));
      SlotIsJoined(g, Slot(ReviewCreate, c.index));
    }
  }

  lemma JoinedIsRendered(g: Graph)
    requires RowsOk(g) && AllJoined(g, g.receipts)
    ensures Joined(g, g.receipts) == RenderedKeys(g)
  {
    forall key | key in Joined(g, g.receipts) ensures key in RenderedKeys(g) {
      InJoined(g, g.receipts, key);
      var i :| 0 <= i < |g.receipts| && key in JoinedBy(g, g.receipts[i]);
      JoinedWasRendered(g, g.receipts[i]);
    }
    FillAll(g);
    RenderedIsJoined(g);
  }

  lemma ChunkKeysAreReviews(g: Graph, key: Key)
    requires AllFilled(g) && key in KeysOfChunks(g, g.rendered.reviews)
    ensures key.kind.AReview? || key.kind.AReviewComment?
  {
    InChunkKeys(g, g.rendered.reviews, key);
    var c :| c in g.rendered.reviews && key in KeysOfTarget(g, TargetOf(g, Slot(ReviewCreate, c.index)));
    assert Filled(g, Slot(ReviewCreate, c.index));
  }

  lemma SummaryApartFromCheck(g: Graph)
    requires AllFilled(g) && g.rendered.check.Some?
    ensures KeysOfTarget(g, TargetOf(g, Slot(Summary, 0))) !! KeysOfTarget(g, TargetOf(g, Slot(ManagedCheck, 0)))
  {
    assert Filled(g, Slot(Summary, 0)) && Filled(g, Slot(ManagedCheck, 0));
  }

  lemma SlotApartFromChunks(g: Graph, s: Slot)
    requires AllFilled(g) && Filled(g, s) && (s.kind.Summary? || s.kind.ManagedCheck?)
    ensures KeysOfTarget(g, TargetOf(g, s)) !! KeysOfChunks(g, g.rendered.reviews)
  {
    forall key | key in KeysOfChunks(g, g.rendered.reviews) ensures key !in KeysOfTarget(g, TargetOf(g, s)) {
      ChunkKeysAreReviews(g, key);
    }
  }

  lemma OneKey(g: Graph, s: Slot)
    requires Filled(g, s) && (s.kind.Summary? || s.kind.ManagedCheck?)
    ensures |KeysOfTarget(g, TargetOf(g, s))| == 1
  {}

  lemma RenderedKeysCount(g: Graph)
    requires AllFilled(g)
    ensures |RenderedKeys(g)| == 1 + (if g.rendered.check.Some? then 1 else 0) + |KeysOfChunks(g, g.rendered.reviews)|
  {
    var a, c := KeysOfTarget(g, TargetOf(g, Slot(Summary, 0))), KeysOfChunks(g, g.rendered.reviews);
    var b := if g.rendered.check.Some? then KeysOfTarget(g, TargetOf(g, Slot(ManagedCheck, 0))) else {};
    OneKey(g, Slot(Summary, 0));
    SlotApartFromChunks(g, Slot(Summary, 0));
    if g.rendered.check.Some? {
      OneKey(g, Slot(ManagedCheck, 0));
      SlotApartFromChunks(g, Slot(ManagedCheck, 0));
      SummaryApartFromCheck(g);
    }
    assert a !! b && (a + b) !! c;
  }

  lemma CountOfJoined(g: Graph)
    requires RowsOk(g) && AllJoined(g, g.receipts) && AllCompatible(g, g.receipts) && NoRepeats(ObjectKeys(g.objects))
    requires DistinctChunks(g.rendered.reviews)
    ensures |Joined(g, g.receipts)| == 1 + (if g.rendered.check.Some? then 1 else 0)
      + |g.rendered.reviews| + TotalComments(g.rendered.reviews)
  {
    JoinedIsRendered(g);
    FillAll(g);
    RenderedKeysCount(g);
    ChunkKeysCount(g);
  }

  /** With distinct chunk indices, acceptance fixes the number of published objects. */
  lemma ObjectCount(g: Graph)
    requires Accepted(g) && DistinctChunks(g.rendered.reviews)
    ensures |g.objects| == 1 + (if g.rendered.check.Some? then 1 else 0)
      + |g.rendered.reviews| + TotalComments(g.rendered.reviews)
  {
    NothingLeftOver(g);
    CountOfJoined(g);
  }
}
