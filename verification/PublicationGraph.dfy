/**
 The publication evidence of one run: stored operations, receipts and effects, the observed
 objects, and what the finalized projection renders to. Digests stand for what they are taken
 of; a comment is the pair of its placement and body digests.
 */
module PublicationGraph {
  import opened Outcomes

  datatype Kind = Summary | ManagedCheck | ReviewCreate | ReviewSubmit | ThreadLifecycle | Unsupported

  datatype OperationState = Completed | SupersededNoEffect | FailedNoEffect | OtherState

  datatype Operation = Operation(id: string, attempt: string, kind: Kind, head: string, bodyHash: string,
                                 state: OperationState, required: bool, chunk: int, markerHash: string, policy: string,
                                 dependsOn: Option<string>)

  /** A canonical external object id: its namespace and what follows it. */
  datatype Canonical = IssueComment(id: string) | CheckRun(id: string) | Review(id: string) | Thread(id: string)
                     | Foreign(text: string)

  datatype Receipt = Receipt(id: string, attempt: string, operation: string, effect: string, target: Canonical,
                             succeeded: bool)

  datatype EffectKind = Acknowledged | Reconciled | OtherEffect

  datatype Effect = Effect(id: string, attempt: string, operation: string, target: Canonical, kind: EffectKind)

  datatype ObjectKind = AComment | AReviewComment | AReview | ACheck

  datatype Key = Key(kind: ObjectKind, id: string)

  datatype Comment = Comment(placement: string, body: string)

  datatype Object = Object(key: Key, head: string, done: bool, bodyHash: string, submitHash: Option<string>,
                           parent: Option<string>, author: string, placement: string)

  datatype ObservedThread = ObservedThread(id: string, resolve: bool, changed: bool)

  datatype Facts = Facts(markerHash: string, bodyHash: string)

  datatype Chunk = Chunk(index: int, create: Facts, submit: Facts, reviewBody: string, comments: seq<Comment>)

  datatype Lifecycle = Lifecycle(index: int, facts: Facts, thread: string, resolve: bool)

  datatype Rendered = Rendered(summary: Facts, check: Option<Facts>, reviews: seq<Chunk>, lifecycle: seq<Lifecycle>)

  datatype Graph = Graph(attempt: string, head: string, policy: string, operations: seq<Operation>,
                         receipts: seq<Receipt>, effects: seq<Effect>, objects: seq<Object>,
                         threads: seq<ObservedThread>, rendered: Rendered)

  // ---------------------------------------------------------------- lookups

  function OperationById(ops: seq<Operation>, id: string): (r: Option<Operation>)
    ensures r.Some? ==> r.value in ops && r.value.id == id
    ensures r.None? ==> forall o :: o in ops ==> o.id != id
  {
    if ops == [] then None else if ops[0].id == id then Some(ops[0]) else OperationById(ops[1..], id)
  }

  function OperationAt(ops: seq<Operation>, kind: Kind, chunk: int): (r: Option<Operation>)
    ensures r.Some? ==> r.value in ops && r.value.kind == kind && r.value.chunk == chunk
    ensures r.None? ==> forall o :: o in ops ==> o.kind != kind || o.chunk != chunk
  {
    if ops == [] then None
    else if ops[0].kind == kind && ops[0].chunk == chunk then Some(ops[0])
    else OperationAt(ops[1..], kind, chunk)
  }

  function EffectById(effects: seq<Effect>, id: string): (r: Option<Effect>)
    ensures r.Some? ==> r.value in effects && r.value.id == id
    ensures r.None? ==> forall e :: e in effects ==> e.id != id
  {
    if effects == [] then None else if effects[0].id == id then Some(effects[0]) else EffectById(effects[1..], id)
  }

  function ReceiptFor(receipts: seq<Receipt>, operation: string): (r: Option<Receipt>)
    ensures r.Some? ==> r.value in receipts && r.value.operation == operation
    ensures r.None? ==> forall x :: x in receipts ==> x.operation != operation
  {
    if receipts == [] then None
    else if receipts[0].operation == operation then Some(receipts[0])
    else ReceiptFor(receipts[1..], operation)
  }

  function ObjectAt(objects: seq<Object>, key: Key): (r: Option<Object>)
    ensures r.Some? ==> r.value in objects && r.value.key == key
    ensures r.None? ==> forall o :: o in objects ==> o.key != key
  {
    if objects == [] then None
    else if objects[|objects| - 1].key == key then Some(objects[|objects| - 1])
    else ObjectAt(objects[..|objects| - 1], key)
  }

  function ThreadById(threads: seq<ObservedThread>, id: string): (r: Option<ObservedThread>)
    ensures r.Some? ==> r.value in threads && r.value.id == id
    ensures r.None? ==> forall t :: t in threads ==> t.id != id
  {
    if threads == [] then None else if threads[0].id == id then Some(threads[0]) else ThreadById(threads[1..], id)
  }

  function ChunkAt(chunks: seq<Chunk>, index: int): (r: Option<Chunk>)
    ensures r.Some? ==> r.value in chunks && r.value.index == index
    ensures r.None? ==> forall c :: c in chunks ==> c.index != index
  {
    if chunks == [] then None else if chunks[0].index == index then Some(chunks[0]) else ChunkAt(chunks[1..], index)
  }

  function LifecycleAt(entries: seq<Lifecycle>, index: int): (r: Option<Lifecycle>)
    ensures r.Some? ==> r.value in entries && r.value.index == index
    ensures r.None? ==> forall e :: e in entries ==> e.index != index
  {
    if entries == [] then None else if entries[0].index == index then Some(entries[0]) else LifecycleAt(entries[1..], index)
  }

  /** The observed inline comments of a review. */
  function Children(objects: seq<Object>, review: string): (r: seq<Object>)
    ensures forall o :: o in r <==> o in objects && o.key.kind == AReviewComment && o.parent == Some(review)
  {
    if objects == [] then []
    else
      var rest := Children(objects[..|objects| - 1], review);
      var o := objects[|objects| - 1];
      if o.key.kind == AReviewComment && o.parent == Some(review) then rest + [o] else rest
  }

  function Placed(objects: seq<Object>): seq<Comment> {
    if objects == [] then []
    else Placed(objects[..|objects| - 1]) + [Comment(objects[|objects| - 1].placement, objects[|objects| - 1].bodyHash)]
  }

  function KeysOf(objects: seq<Object>): set<Key> {
    set o | o in objects :: o.key
  }

  // ---------------------------------------------------------------- expected operations

  datatype Slot = Slot(kind: Kind, chunk: int)

  function ChunkSlots(chunks: seq<Chunk>): map<Slot, Facts> {
    if chunks == [] then map[]
    else
      var c := chunks[|chunks| - 1];
      ChunkSlots(chunks[..|chunks| - 1])[Slot(ReviewCreate, c.index) := c.create][Slot(ReviewSubmit, c.index) := c.submit]
  }

  function LifecycleSlots(entries: seq<Lifecycle>): map<Slot, Facts> {
    if entries == [] then map[]
    else
      var e := entries[|entries| - 1];
      LifecycleSlots(entries[..|entries| - 1])[Slot(ThreadLifecycle, e.index) := e.facts]
  }

  /** What the renderer says must have been published: one slot per kind and chunk index. */
  function Expected(r: Rendered): map<Slot, Facts> {
    map[Slot(Summary, 0) := r.summary]
    + (if r.check.Some? then map[Slot(ManagedCheck, 0) := r.check.value] else map[])
    + ChunkSlots(r.reviews) + LifecycleSlots(r.lifecycle)
  }

  // ---------------------------------------------------------------- checks on the stored rows

  predicate Distinct(ids: seq<string>) {
    && (forall i :: 0 <= i < |ids| ==> ids[i] != "")
    && forall i, j :: 0 <= i < j < |ids| ==> ids[i] != ids[j]
  }

  function OperationIds(ops: seq<Operation>): (r: seq<string>)
    ensures |r| == |ops| && forall i :: 0 <= i < |ops| ==> r[i] == ops[i].id
  {
    seq(|ops|, i requires 0 <= i < |ops| => ops[i].id)
  }

  function SlotOf(o: Operation): Slot { Slot(o.kind, o.chunk) }

  predicate DistinctSlots(ops: seq<Operation>) {
    forall i, j :: 0 <= i < j < |ops| ==> SlotOf(ops[i]) != SlotOf(ops[j])
  }

  function CompletedCount(ops: seq<Operation>): nat {
    if ops == [] then 0
    else CompletedCount(ops[..|ops| - 1]) + (if ops[|ops| - 1].state.Completed? then 1 else 0)
  }

  predicate DistinctReceipts(rs: seq<Receipt>) {
    && (forall i :: 0 <= i < |rs| ==> rs[i].id != "" && rs[i].operation != "" && rs[i].effect != "")
    && forall i, j :: 0 <= i < j < |rs| ==>
         rs[i].id != rs[j].id && rs[i].operation != rs[j].operation && rs[i].effect != rs[j].effect
  }

  predicate DistinctEffects(es: seq<Effect>) {
    && (forall i :: 0 <= i < |es| ==> es[i].id != "" && es[i].operation != "")
    && forall i, j :: 0 <= i < j < |es| ==> es[i].id != es[j].id && es[i].operation != es[j].operation
  }

  predicate DistinctThreads(ts: seq<ObservedThread>) {
    && (forall i :: 0 <= i < |ts| ==> ts[i].id != "")
    && forall i, j :: 0 <= i < j < |ts| ==> ts[i].id != ts[j].id
  }

  predicate StoredOk(g: Graph, o: Operation) {
    && o.attempt == g.attempt && o.head == g.head
    && (o.state.Completed? || (!o.required && (o.state.SupersededNoEffect? || o.state.FailedNoEffect?)))
  }

  /** The operation is one the renderer expects, required, with the rendered facts. */
  predicate RenderedOk(g: Graph, o: Operation) {
    && !o.kind.Unsupported? && SlotOf(o) in Expected(g.rendered)
    && var f := Expected(g.rendered)[SlotOf(o)];
       o.required && o.markerHash == f.markerHash && o.bodyHash == f.bodyHash && o.policy == g.policy
  }

  /** Everything checked before the join: rows distinct, counted, and as rendered. */
  predicate RowsOk(g: Graph) {
    && Distinct(OperationIds(g.operations)) && DistinctEffects(g.effects) && DistinctReceipts(g.receipts)
    && |g.receipts| == CompletedCount(g.operations) && |g.effects| == |g.receipts|
    && (forall o :: o in g.operations ==> StoredOk(g, o))
    && DistinctThreads(g.threads)
    && |g.operations| == |Expected(g.rendered)| && DistinctSlots(g.operations)
    && (forall o :: o in g.operations ==> RenderedOk(g, o))
  }

  // ---------------------------------------------------------------- checks on one receipt

  predicate ValidObjectId(s: string) {
    s != "" && '1' <= s[0] <= '9' && forall i :: 0 <= i < |s| ==> '0' <= s[i] <= '9'
  }

  predicate IsReviewKind(k: Kind) { k.ReviewCreate? || k.ReviewSubmit? }

  predicate ThreadJoined(g: Graph, chunk: int, target: Canonical) {
    && target.Thread?
    && var t, l := ThreadById(g.threads, target.id), LifecycleAt(g.rendered.lifecycle, chunk);
       t.Some? && l.Some? && t.value.id == l.value.thread && t.value.resolve == l.value.resolve
  }

  predicate PlainJoined(g: Graph, o: Operation, target: Canonical) {
    && (if o.kind.Summary? then target.IssueComment? else target.CheckRun?)
    && ValidObjectId(target.id)
    && var x := ObjectAt(g.objects, Key(if o.kind.Summary? then AComment else ACheck, target.id));
       x.Some? && x.value.bodyHash == o.bodyHash && (o.kind.ManagedCheck? ==> x.value.head == g.head && x.value.done)
  }

  predicate ChildrenMatch(g: Graph, review: Object, comments: seq<Comment>) {
    var children := Children(g.objects, review.key.id);
    && |children| == |comments|
    && (forall c :: c in children ==> c.head == g.head && c.author == review.author)
    && multiset(Placed(children)) == multiset(comments)
  }

  predicate ReviewJoined(g: Graph, chunk: int, target: Canonical) {
    && target.Review? && ValidObjectId(target.id)
    && var x, c := ObjectAt(g.objects, Key(AReview, target.id)), ChunkAt(g.rendered.reviews, chunk);
       var create, submit := OperationAt(g.operations, ReviewCreate, chunk), OperationAt(g.operations, ReviewSubmit, chunk);
       && x.Some? && x.value.head == g.head && x.value.done && c.Some? && create.Some? && submit.Some?
       && create.value.dependsOn.None? && submit.value.dependsOn == Some(create.value.id)
       && ReceiptFor(g.receipts, create.value.id).Some? && ReceiptFor(g.receipts, create.value.id).value.target == target
       && ReceiptFor(g.receipts, submit.value.id).Some? && ReceiptFor(g.receipts, submit.value.id).value.target == target
       && x.value.submitHash == Some(c.value.submit.bodyHash) && x.value.bodyHash == c.value.reviewBody
       && ChildrenMatch(g, x.value, c.value.comments)
  }

  predicate TargetJoined(g: Graph, o: Operation, target: Canonical) {
    if o.kind.ThreadLifecycle? then ThreadJoined(g, o.chunk, target)
    else if IsReviewKind(o.kind) then ReviewJoined(g, o.chunk, target)
    else PlainJoined(g, o, target)
  }

  predicate ReceiptJoined(g: Graph, r: Receipt) {
    var o, e := OperationById(g.operations, r.operation), EffectById(g.effects, r.effect);
    && o.Some? && o.value.state.Completed? && r.succeeded && r.attempt == g.attempt
    && e.Some? && e.value.attempt == g.attempt && e.value.operation == r.operation && e.value.target == r.target
    && !e.value.kind.OtherEffect?
    && TargetJoined(g, o.value, r.target)
  }

  /** Two receipts may name the same object only as the create and submit of one chunk. */
  predicate Compatible(g: Graph, r: Receipt, s: Receipt) {
    r.target == s.target ==>
      var o, p := OperationById(g.operations, r.operation), OperationById(g.operations, s.operation);
      o.Some? && p.Some? && IsReviewKind(o.value.kind) && IsReviewKind(p.value.kind) && o.value.chunk == p.value.chunk
  }

  function KeyOf(c: Canonical): Key {
    match c
    case IssueComment(id) => Key(AComment, id)
    case CheckRun(id) => Key(ACheck, id)
    case Review(id) => Key(AReview, id)
    case Thread(id) => Key(AComment, id)
    case Foreign(id) => Key(AComment, id)
  }

  /** The objects a receipt accounts for. */
  function JoinedBy(g: Graph, r: Receipt): set<Key> {
    if r.target.Thread? || r.target.Foreign? then {}
    else if r.target.Review? then {KeyOf(r.target)} + KeysOf(Children(g.objects, r.target.id))
    else {KeyOf(r.target)}
  }

  function Joined(g: Graph, rs: seq<Receipt>): set<Key> {
    if rs == [] then {} else Joined(g, rs[..|rs| - 1]) + JoinedBy(g, rs[|rs| - 1])
  }

  function JoinedThreads(rs: seq<Receipt>): set<string> {
    set r | r in rs && r.target.Thread? :: r.target.id
  }

  /** The whole of what acceptance means, without the loop's sets and maps. */
  predicate Accepted(g: Graph) {
    && RowsOk(g)
    && (forall i :: 0 <= i < |g.receipts| ==> ReceiptJoined(g, g.receipts[i]))
    && (forall i, j :: 0 <= i < j < |g.receipts| ==> Compatible(g, g.receipts[i], g.receipts[j]))
    && |Joined(g, g.receipts)| == |g.objects|
    && (forall t :: t in g.threads && t.changed ==> t.id in JoinedThreads(g.receipts))
  }
}
