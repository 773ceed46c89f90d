/**
 Acceptance is a partition: every expected operation is stored once, has one receipt and one
 effect; every observed object is accounted for by exactly one of them, or is an inline comment
 of exactly one joined review; nothing is left over.
 */
module PublicationPartition {
  import opened Outcomes
  import opened PublicationGraph
  import opened PublicationJoin

  // ---------------------------------------------------------------- counting

  function Elements<T>(xs: seq<T>): set<T> { set x | x in xs }

  predicate NoRepeats<T(==)>(xs: seq<T>) {
    forall i, j :: 0 <= i < j < |xs| ==> xs[i] != xs[j]
  }

  lemma {:induction false} ElementsCount<T>(xs: seq<T>)
    ensures |Elements(xs)| <= |xs| && (|Elements(xs)| == |xs| <==> NoRepeats(xs))
  {
    if xs == [] {
      assert Elements(xs) == {};
    } else {
      var front, last := xs[..|xs| - 1], xs[|xs| - 1];
      ElementsCount(front);
      assert forall i :: 0 <= i < |front| ==> front[i] == xs[i];
      assert Elements(xs) == Elements(front) + {last};
      if last in front {
        var i :| 0 <= i < |front| && front[i] == last;
        assert xs[i] == xs[|xs| - 1] && Elements(xs) == Elements(front);
      }
    }
  }

  lemma SubsetOfSameSize<T>(a: set<T>, b: set<T>)
    requires a <= b && |a| >= |b|
    ensures a == b
  {
    if x :| x in b && x !in a {
      SubsetSmaller(a, b - {x});
    }
  }

  lemma {:induction false} SubsetSmaller<T>(a: set<T>, b: set<T>)
    requires a <= b
    ensures |a| <= |b|
    decreases |a|
  {
    if a != {} {
      var x :| x in a;
      SubsetSmaller(a - {x}, b - {x});
    }
  }

  /** As many distinct elements of a set as it has are all of them. */
  lemma Fills<T>(xs: seq<T>, s: set<T>)
    requires NoRepeats(xs) && (forall x :: x in xs ==> x in s) && |xs| >= |s|
    ensures forall x :: x in s ==> x in xs
  {
    ElementsCount(xs);
    SubsetOfSameSize(Elements(xs), s);
  }

  // ---------------------------------------------------------------- operations

  function Slots(ops: seq<Operation>): (r: seq<Slot>)
    ensures |r| == |ops| && forall i :: 0 <= i < |ops| ==> r[i] == SlotOf(ops[i])
  {
    seq(|ops|, i requires 0 <= i < |ops| => SlotOf(ops[i]))
  }

  predicate ExactlyOneAt(ops: seq<Operation>, s: Slot) {
    exists i :: 0 <= i < |ops| && SlotOf(ops[i]) == s && forall j :: 0 <= j < |ops| && SlotOf(ops[j]) == s ==> j == i
  }

  lemma OneSlotEach(ops: seq<Operation>, s: Slot)
    requires DistinctSlots(ops)
    ensures s in Slots(ops) <==> ExactlyOneAt(ops, s)
  {
    var slots := Slots(ops);
    if s in slots {
      var i :| 0 <= i < |slots| && slots[i] == s;
      assert SlotOf(ops[i]) == s;
    }
    if ExactlyOneAt(ops, s) {
      var i :| 0 <= i < |ops| && SlotOf(ops[i]) == s;
      assert slots[i] == s;
    }
  }

  lemma SlotsFill(ops: seq<Operation>, expected: set<Slot>)
    requires DistinctSlots(ops) && |ops| == |expected| && forall o :: o in ops ==> SlotOf(o) in expected
    ensures forall s :: s in expected <==> s in Slots(ops)
  {
    var slots := Slots(ops);
    assert forall i :: 0 <= i < |slots| ==> slots[i] == SlotOf(ops[i]);
    Fills(slots, expected);
  }

  /** Expected operations and stored operations correspond one to one. */
  lemma ExpectedStoredOnce(g: Graph)
    requires RowsOk(g)
    ensures forall s :: s in Expected(g.rendered) <==> ExactlyOneAt(g.operations, s)
  {
    forall o | o in g.operations ensures SlotOf(o) in Expected(g.rendered) { assert RenderedOk(g, o); }
    SlotsFill(g.operations, Expected(g.rendered).Keys);
    forall s ensures s in Expected(g.rendered) <==> ExactlyOneAt(g.operations, s) { OneSlotEach(g.operations, s); }
  }

  lemma {:induction false} AllCompleted(ops: seq<Operation>)
    requires forall o :: o in ops ==> o.state.Completed?
    ensures CompletedCount(ops) == |ops|
  {
    if ops != [] {
      AllCompleted(ops[..|ops| - 1]);
    }
  }

  function ReceiptOperations(rs: seq<Receipt>): (r: seq<string>)
    ensures |r| == |rs| && forall i :: 0 <= i < |rs| ==> r[i] == rs[i].operation
  {
    seq(|rs|, i requires 0 <= i < |rs| => rs[i].operation)
  }

  function ReceiptEffects(rs: seq<Receipt>): (r: seq<string>)
    ensures |r| == |rs| && forall i :: 0 <= i < |rs| ==> r[i] == rs[i].effect
  {
    seq(|rs|, i requires 0 <= i < |rs| => rs[i].effect)
  }

  function EffectIds(es: seq<Effect>): (r: seq<string>)
    ensures |r| == |es| && forall i :: 0 <= i < |es| ==> r[i] == es[i].id
  {
    seq(|es|, i requires 0 <= i < |es| => es[i].id)
  }

  predicate ExactlyOneReceiptOf(rs: seq<Receipt>, operation: string) {
    exists i :: 0 <= i < |rs| && rs[i].operation == operation
      && forall j :: 0 <= j < |rs| && rs[j].operation == operation ==> j == i
  }

  predicate ExactlyOneReceiptWith(rs: seq<Receipt>, effect: string) {
    exists i :: 0 <= i < |rs| && rs[i].effect == effect
      && forall j :: 0 <= j < |rs| && rs[j].effect == effect ==> j == i
  }

  lemma MatchUp(named: seq<string>, ids: seq<string>)
    requires NoRepeats(named) && NoRepeats(ids) && |named| == |ids| && forall x :: x in named ==> x in ids
    ensures forall x :: x in ids ==> x in named
  {
    ElementsCount(ids);
    Fills(named, Elements(ids));
  }

  lemma IdOfOperation(ops: seq<Operation>, o: Operation)
    requires o in ops
    ensures o.id in OperationIds(ops)
  {
    var k :| 0 <= k < |ops| && ops[k] == o;
    assert OperationIds(ops)[k] == o.id;
  }

  lemma IdOfEffect(es: seq<Effect>, e: Effect)
    requires e in es
    ensures e.id in EffectIds(es)
  {
    var k :| 0 <= k < |es| && es[k] == e;
    assert EffectIds(es)[k] == e.id;
  }

  /** A receipt names a stored operation and a stored effect. */
  lemma NamesStored(g: Graph, i: nat)
    requires AllJoined(g, g.receipts) && i < |g.receipts|
    ensures g.receipts[i].operation in OperationIds(g.operations) && g.receipts[i].effect in EffectIds(g.effects)
  {
    assert ReceiptJoined(g, g.receipts[i]);
    IdOfOperation(g.operations, OperationById(g.operations, g.receipts[i].operation).value);
    IdOfEffect(g.effects, EffectById(g.effects, g.receipts[i].effect).value);
  }

  lemma CompletedAndCounted(g: Graph)
    requires RowsOk(g)
    ensures forall o :: o in g.operations ==> o.required && o.state.Completed?
    ensures |g.receipts| == |g.operations| == |g.effects|
  {
    forall o | o in g.operations ensures o.required && o.state.Completed? { assert StoredOk(g, o) && RenderedOk(g, o); }
    AllCompleted(g.operations);
  }

  lemma OneReceiptEach(rs: seq<Receipt>, operation: string)
    requires DistinctReceipts(rs) && operation in ReceiptOperations(rs)
    ensures ExactlyOneReceiptOf(rs, operation)
  {
    var named := ReceiptOperations(rs);
    var i :| 0 <= i < |named| && named[i] == operation;
    assert rs[i].operation == operation;
  }

  lemma OneReceiptEachEffect(rs: seq<Receipt>, effect: string)
    requires DistinctReceipts(rs) && effect in ReceiptEffects(rs)
    ensures ExactlyOneReceiptWith(rs, effect)
  {
    var named := ReceiptEffects(rs);
    var i :| 0 <= i < |named| && named[i] == effect;
    assert rs[i].effect == effect;
  }

  lemma AllNamed(g: Graph)
    requires RowsOk(g) && AllJoined(g, g.receipts)
    ensures forall x :: x in OperationIds(g.operations) ==> x in ReceiptOperations(g.receipts)
    ensures forall x :: x in EffectIds(g.effects) ==> x in ReceiptEffects(g.receipts)
  {
    CompletedAndCounted(g);
    var ops, effects := ReceiptOperations(g.receipts), ReceiptEffects(g.receipts);
    forall i | 0 <= i < |g.receipts| ensures ops[i] in OperationIds(g.operations) && effects[i] in EffectIds(g.effects) {
      NamesStored(g, i);
    }
    MatchUp(ops, OperationIds(g.operations));
    MatchUp(effects, EffectIds(g.effects));
  }

  /** Stored operations and receipts correspond one to one, and all are required and completed. */
  lemma OperationsReceipted(g: Graph)
    requires RowsOk(g) && AllJoined(g, g.receipts)
    ensures forall o :: o in g.operations ==> o.required && o.state.Completed? && ExactlyOneReceiptOf(g.receipts, o.id)
    ensures |g.receipts| == |g.operations|
  {
    CompletedAndCounted(g);
    AllNamed(g);
    forall o | o in g.operations ensures ExactlyOneReceiptOf(g.receipts, o.id) {
      IdOfOperation(g.operations, o);
      OneReceiptEach(g.receipts, o.id);
    }
  }

  /** Receipts and effects correspond one to one. */
  lemma EffectsReceipted(g: Graph)
    requires RowsOk(g) && AllJoined(g, g.receipts)
    ensures forall e :: e in g.effects ==> ExactlyOneReceiptWith(g.receipts, e.id)
  {
    AllNamed(g);
    forall e | e in g.effects ensures ExactlyOneReceiptWith(g.receipts, e.id) {
      IdOfEffect(g.effects, e);
      OneReceiptEachEffect(g.receipts, e.id);
    }
  }

  // ---------------------------------------------------------------- objects

  function ObjectKeys(objects: seq<Object>): (r: seq<Key>)
    ensures |r| == |objects| && forall i :: 0 <= i < |objects| ==> r[i] == objects[i].key
  {
    seq(|objects|, i requires 0 <= i < |objects| => objects[i].key)
  }

  lemma KeysAreElements(objects: seq<Object>)
    ensures KeysOf(objects) == Elements(ObjectKeys(objects))
  {
    var ks := ObjectKeys(objects);
    forall k | k in KeysOf(objects) ensures k in ks {
      var o :| o in objects && o.key == k;
      var i :| 0 <= i < |objects| && objects[i] == o;
      assert ks[i] == k;
    }
  }

  lemma JoinedByExists(g: Graph, r: Receipt)
    requires ReceiptJoined(g, r)
    ensures JoinedBy(g, r) <= KeysOf(g.objects)
  {
    TargetKind(g, r);
  }

  lemma {:induction false} JoinedExists(g: Graph, rs: seq<Receipt>)
    requires AllJoined(g, rs)
    ensures Joined(g, rs) <= KeysOf(g.objects)
  {
    if rs != [] {
      JoinedExists(g, rs[..|rs| - 1]);
      JoinedByExists(g, rs[|rs| - 1]);
    }
  }

  /** Nothing left over: the objects are distinct and each is joined. */
  lemma NothingLeftOver(g: Graph)
    requires Accepted(g)
    ensures NoRepeats(ObjectKeys(g.objects)) && Joined(g, g.receipts) == KeysOf(g.objects)
  {
    JoinedExists(g, g.receipts);
    KeysAreElements(g.objects);
    ElementsCount(ObjectKeys(g.objects));
    SubsetSmaller(Joined(g, g.receipts), KeysOf(g.objects));
    SubsetOfSameSize(Joined(g, g.receipts), KeysOf(g.objects));
  }

  /** Two objects with one key are one object. */
  lemma OneObjectPerKey(objects: seq<Object>, x: Object, y: Object)
    requires NoRepeats(ObjectKeys(objects)) && x in objects && y in objects && x.key == y.key
    ensures x == y
  {
    var i :| 0 <= i < |objects| && objects[i] == x;
    var j :| 0 <= j < |objects| && objects[j] == y;
    assert ObjectKeys(objects)[i] == ObjectKeys(objects)[j];
  }

  /** The receipts that name an object, and the review a comment hangs on. */
  predicate NamedBy(g: Graph, o: Object, r: Receipt) {
    r in g.receipts && !r.target.Thread? && !r.target.Foreign? && KeyOf(r.target) == o.key
  }

  predicate ChildOf(g: Graph, o: Object, r: Receipt) {
    r in g.receipts && r.target.Review? && o.key.kind.AReviewComment? && o.parent == Some(r.target.id)
  }

  function ChunkOf(g: Graph, r: Receipt): int {
    var o := OperationById(g.operations, r.operation);
    if o.Some? then o.value.chunk else 0
  }

  /** Receipts about the same object: one and the same, or of one chunk's review. */
  predicate Paired(g: Graph, a: Receipt, b: Receipt) {
    a.target == b.target && (a == b || (a.target.Review? && ChunkOf(g, a) == ChunkOf(g, b)))
  }

  lemma SameKeySameTarget(a: Canonical, b: Canonical)
    requires KeyOf(a) == KeyOf(b) && !a.Thread? && !a.Foreign? && !b.Thread? && !b.Foreign?
    ensures a == b
  {}

  lemma SameTarget(g: Graph, i: nat, j: nat)
    requires AllJoined(g, g.receipts) && AllCompatible(g, g.receipts) && i < |g.receipts| && j < |g.receipts|
    requires g.receipts[i].target == g.receipts[j].target
    ensures Paired(g, g.receipts[i], g.receipts[j])
  {
    assert ReceiptJoined(g, g.receipts[i]);
    TargetKind(g, g.receipts[i]);
    if i < j {
      assert Compatible(g, g.receipts[i], g.receipts[j]);
    } else if j < i {
      assert Compatible(g, g.receipts[j], g.receipts[i]);
    }
  }

  lemma OwnerOf(g: Graph, o: Object, r: Receipt)
    requires NoRepeats(ObjectKeys(g.objects)) && o in g.objects && r in g.receipts && o.key in JoinedBy(g, r)
    ensures NamedBy(g, o, r) || ChildOf(g, o, r)
  {
    if KeyOf(r.target) != o.key {
      var c :| c in Children(g.objects, r.target.id) && c.key == o.key;
      OneObjectPerKey(g.objects, c, o);
    }
  }

  /** Every observed object is named by a receipt, or is an inline comment of a named review. */
  lemma EveryObjectOwned(g: Graph, o: Object)
    requires Accepted(g) && o in g.objects
    ensures exists r :: NamedBy(g, o, r) || ChildOf(g, o, r)
  {
    NothingLeftOver(g);
    JoinedOwned(g, o);
  }

  lemma JoinedOwned(g: Graph, o: Object)
    requires NoRepeats(ObjectKeys(g.objects)) && o in g.objects && o.key in Joined(g, g.receipts)
    ensures exists r :: NamedBy(g, o, r) || ChildOf(g, o, r)
  {
    InJoined(g, g.receipts, o.key);
    var i :| 0 <= i < |g.receipts| && o.key in JoinedBy(g, g.receipts[i]);
    OwnerOf(g, o, g.receipts[i]);
    assert NamedBy(g, o, g.receipts[i]) || ChildOf(g, o, g.receipts[i]);
  }

  /** No object is accounted for twice: the receipts that name it are one, or the create and
      submit of one chunk; a comment hangs on one review; and nothing is both. */
  lemma OwnedOnce(g: Graph, o: Object, r: Receipt, s: Receipt)
    requires AllJoined(g, g.receipts) && AllCompatible(g, g.receipts)
    ensures NamedBy(g, o, r) && NamedBy(g, o, s) ==> Paired(g, r, s)
    ensures ChildOf(g, o, r) && ChildOf(g, o, s) ==> r.target == s.target
    ensures !(NamedBy(g, o, r) && ChildOf(g, o, s))
  {
    if NamedBy(g, o, r) && NamedBy(g, o, s) {
      SameKeySameTarget(r.target, s.target);
      var i :| 0 <= i < |g.receipts| && g.receipts[i] == r;
      var j :| 0 <= j < |g.receipts| && g.receipts[j] == s;
      SameTarget(g, i, j);
    }
  }
}
