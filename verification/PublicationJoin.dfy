/**
 The join loop of `readExactSourceAndPublicationGraph`: it walks the receipts once, marking the
 objects and threads they account for, and accepts exactly the graphs of `Accepted`.
 */
module PublicationJoin {
  import opened Outcomes
  import opened PublicationGraph

  lemma {:induction false} InJoined(g: Graph, rs: seq<Receipt>, key: Key)
    ensures key in Joined(g, rs) <==> exists i :: 0 <= i < |rs| && key in JoinedBy(g, rs[i])
  {
    if rs != [] {
      var front := rs[..|rs| - 1];
      InJoined(g, front, key);
      assert forall i :: 0 <= i < |front| ==> front[i] == rs[i];
    }
  }

  /** A plain object's key is joined exactly when an earlier receipt names that object. */
  lemma PlainInJoined(g: Graph, rs: seq<Receipt>, c: Canonical)
    requires c.IssueComment? || c.CheckRun?
    ensures KeyOf(c) in Joined(g, rs) <==> Named(rs, c)
  {
    InJoined(g, rs, KeyOf(c));
    forall i | 0 <= i < |rs| ensures KeyOf(c) in JoinedBy(g, rs[i]) <==> rs[i].target == c {}
  }

  predicate Owned(rs: seq<Receipt>, key: Key) {
    exists i :: 0 <= i < |rs| && rs[i].target.Review? && KeyOf(rs[i].target) == key
  }

  /** Each review seen so far, with the chunk that owns it. */
  predicate OwnersOk(g: Graph, rs: seq<Receipt>, owners: map<Key, int>) {
    && (forall i :: 0 <= i < |rs| && rs[i].target.Review? ==>
          KeyOf(rs[i].target) in owners && OperationById(g.operations, rs[i].operation).Some?
          && OperationById(g.operations, rs[i].operation).value.chunk == owners[KeyOf(rs[i].target)])
    && forall k :: k in owners ==> Owned(rs, k)
  }

  predicate CompatibleWithAll(g: Graph, rs: seq<Receipt>, r: Receipt) {
    forall i :: 0 <= i < |rs| ==> Compatible(g, rs[i], r)
  }

  predicate AllJoined(g: Graph, rs: seq<Receipt>) {
    forall i :: 0 <= i < |rs| ==> ReceiptJoined(g, rs[i])
  }

  /** A joined receipt's object is of the kind its operation publishes. */
  lemma TargetKind(g: Graph, r: Receipt)
    requires ReceiptJoined(g, r)
    ensures OperationById(g.operations, r.operation).Some?
    ensures var kind := OperationById(g.operations, r.operation).value.kind;
      && (IsReviewKind(kind) <==> r.target.Review?) && (kind.ThreadLifecycle? <==> r.target.Thread?)
      && !r.target.Foreign? && (kind.Summary? <==> r.target.IssueComment?)
  {}

  predicate Named(rs: seq<Receipt>, c: Canonical) {
    exists i :: 0 <= i < |rs| && rs[i].target == c
  }

  /** An object that is not a review may be named once. */
  lemma NamedOnce(g: Graph, rs: seq<Receipt>, r: Receipt)
    requires ReceiptJoined(g, r) && !r.target.Review?
    ensures CompatibleWithAll(g, rs, r) <==> !Named(rs, r.target)
  {
    TargetKind(g, r);
    if Named(rs, r.target) {
      var i :| 0 <= i < |rs| && rs[i].target == r.target;
      assert !Compatible(g, rs[i], r);
    }
  }

  /** A review may be named again only for the chunk that owns it. */
  lemma NamedByOwner(g: Graph, rs: seq<Receipt>, r: Receipt, owners: map<Key, int>)
    requires AllJoined(g, rs) && ReceiptJoined(g, r) && OwnersOk(g, rs, owners) && r.target.Review?
    ensures var chunk := OperationById(g.operations, r.operation).value.chunk;
      CompatibleWithAll(g, rs, r) <==> (KeyOf(r.target) in owners ==> owners[KeyOf(r.target)] == chunk)
  {
    TargetKind(g, r);
    var key := KeyOf(r.target);
    if key in owners {
      var i :| 0 <= i < |rs| && rs[i].target.Review? && KeyOf(rs[i].target) == key;
      assert ReceiptJoined(g, rs[i]) && rs[i].target == r.target;
      TargetKind(g, rs[i]);
      assert CompatibleWithAll(g, rs, r) ==> Compatible(g, rs[i], r);
    }
    forall i | 0 <= i < |rs| && (key in owners ==> owners[key] == OperationById(g.operations, r.operation).value.chunk)
      ensures Compatible(g, rs[i], r)
    {
      assert ReceiptJoined(g, rs[i]);
      TargetKind(g, rs[i]);
    }
  }

  /** The three repetition checks together are compatibility with every earlier receipt. */
  lemma RepetitionChecks(g: Graph, rs: seq<Receipt>, r: Receipt, owners: map<Key, int>)
    requires AllJoined(g, rs) && ReceiptJoined(g, r) && OwnersOk(g, rs, owners)
    ensures OperationById(g.operations, r.operation).Some?
    ensures r.target.Thread? ==> (CompatibleWithAll(g, rs, r) <==> r.target.id !in JoinedThreads(rs))
    ensures r.target.Review? ==> (CompatibleWithAll(g, rs, r) <==>
      (KeyOf(r.target) in owners ==>
        owners[KeyOf(r.target)] == OperationById(g.operations, r.operation).value.chunk))
    ensures !r.target.Thread? && !r.target.Review? ==>
      (CompatibleWithAll(g, rs, r) <==> KeyOf(r.target) !in Joined(g, rs)) && !r.target.Foreign?
  {
    TargetKind(g, r);
    if r.target.Review? {
      NamedByOwner(g, rs, r, owners);
    } else {
      NamedOnce(g, rs, r);
      if r.target.Thread? { ThreadRepeats(rs, r.target); } else { PlainInJoined(g, rs, r.target); }
    }
  }

  lemma ThreadRepeats(rs: seq<Receipt>, c: Canonical)
    requires c.Thread?
    ensures c.id in JoinedThreads(rs) <==> Named(rs, c)
  {
    if c.id in JoinedThreads(rs) {
      var r :| r in rs && r.target.Thread? && r.target.id == c.id;
      assert r.target == c;
    }
  }

  method ReviewOf(g: Graph, chunk: int, c: Canonical) returns (ok: bool)
    ensures ok == ReviewJoined(g, chunk, c)
  {
    if !c.Review? || !ValidObjectId(c.id) {
      return false;
    }
    var found := ObjectAt(g.objects, Key(AReview, c.id));
    if found.None? || found.value.head != g.head || !found.value.done {
      return false;
    }
    var rendered := ChunkAt(g.rendered.reviews, chunk);
    if rendered.None? {
      return false;
    }
    var create := OperationAt(g.operations, ReviewCreate, chunk);
    var submit := OperationAt(g.operations, ReviewSubmit, chunk);
    if create.None? || submit.None? || create.value.dependsOn.Some? || submit.value.dependsOn != Some(create.value.id) {
      return false;
    }
    var created, submitted := ReceiptFor(g.receipts, create.value.id), ReceiptFor(g.receipts, submit.value.id);
    if created.None? || created.value.target != c || submitted.None? || submitted.value.target != c {
      return false;
    }
    if found.value.submitHash != Some(rendered.value.submit.bodyHash) || found.value.bodyHash != rendered.value.reviewBody {
      return false;
    }
    return ChildrenMatch(g, found.value, rendered.value.comments);
  }

  /** The checks on one receipt that do not depend on the others already joined. */
  method ReceiptOf(g: Graph, r: Receipt) returns (ok: bool)
    ensures ok == ReceiptJoined(g, r)
  {
    var o, e := OperationById(g.operations, r.operation), EffectById(g.effects, r.effect);
    if o.None? || !o.value.state.Completed? || !r.succeeded || r.attempt != g.attempt {
      return false;
    }
    if e.None? || e.value.attempt != g.attempt || e.value.operation != r.operation || e.value.target != r.target
       || e.value.kind.OtherEffect?
    {
      return false;
    }
    if o.value.kind.ThreadLifecycle? {
      return ThreadJoined(g, o.value.chunk, r.target);
    }
    if IsReviewKind(o.value.kind) {
      ok := ReviewOf(g, o.value.chunk, r.target);
      return;
    }
    return PlainJoined(g, o.value, r.target);
  }

  lemma PrefixStep(rs: seq<Receipt>, i: nat)
    requires i < |rs|
    ensures rs[..i + 1] == rs[..i] + [rs[i]] && rs[..i + 1][..i] == rs[..i]
  {}

  lemma JoinedStep(g: Graph, rs: seq<Receipt>, i: nat)
    requires i < |rs|
    ensures Joined(g, rs[..i + 1]) == Joined(g, rs[..i]) + JoinedBy(g, rs[i])
    ensures JoinedThreads(rs[..i + 1]) ==
      JoinedThreads(rs[..i]) + (if rs[i].target.Thread? then {rs[i].target.id} else {})
  {
    PrefixStep(rs, i);
  }

  lemma OwnedAppend(rs: seq<Receipt>, r: Receipt, key: Key)
    ensures Owned(rs + [r], key) <==> Owned(rs, key) || (r.target.Review? && KeyOf(r.target) == key)
  {
    var b := rs + [r];
    if Owned(rs, key) {
      var i :| 0 <= i < |rs| && rs[i].target.Review? && KeyOf(rs[i].target) == key;
      assert b[i].target.Review?;
    }
    assert b[|rs|] == r;
  }

  lemma OwnersStep(g: Graph, rs: seq<Receipt>, r: Receipt, owners: map<Key, int>, chunk: int)
    requires OwnersOk(g, rs, owners) && OperationById(g.operations, r.operation).Some?
    requires OperationById(g.operations, r.operation).value.chunk == chunk
    requires r.target.Review? && KeyOf(r.target) in owners ==> owners[KeyOf(r.target)] == chunk
    ensures OwnersOk(g, rs + [r], if r.target.Review? then owners[KeyOf(r.target) := chunk] else owners)
  {
    var more := if r.target.Review? then owners[KeyOf(r.target) := chunk] else owners;
    forall k | k in more ensures Owned(rs + [r], k) { OwnedAppend(rs, r, k); }
  }

  predicate AllCompatible(g: Graph, rs: seq<Receipt>) {
    forall i, j :: 0 <= i < j < |rs| ==> Compatible(g, rs[i], rs[j])
  }

  lemma OneMoreJoined(g: Graph, rs: seq<Receipt>, i: nat)
    requires i < |rs| && AllJoined(g, rs[..i])
    ensures ReceiptJoined(g, rs[i]) ==> AllJoined(g, rs[..i + 1])
  {
    var a, b := rs[..i], rs[..i + 1];
    assert forall j :: 0 <= j < i ==> b[j] == a[j];
    assert b[i] == rs[i];
  }

  lemma CompatibleStep(g: Graph, rs: seq<Receipt>, i: nat)
    requires i < |rs| && AllCompatible(g, rs[..i]) && AllJoined(g, rs[..i])
    ensures CompatibleWithAll(g, rs[..i], rs[i]) <==> AllCompatible(g, rs[..i + 1])
    ensures AllCompatible(g, rs) ==> CompatibleWithAll(g, rs[..i], rs[i])
    ensures ReceiptJoined(g, rs[i]) ==> AllJoined(g, rs[..i + 1])
  {
    var a, b := rs[..i], rs[..i + 1];
    OneMoreJoined(g, rs, i);
    assert forall j :: 0 <= j < i ==> a[j] == b[j] == rs[j];
    assert b[i] == rs[i];
    if AllCompatible(g, b) {
      forall j | 0 <= j < |a| ensures Compatible(g, a[j], rs[i]) { assert Compatible(g, b[j], b[i]); }
    }
    if AllCompatible(g, rs) {
      forall j | 0 <= j < |a| ensures Compatible(g, a[j], rs[i]) { assert Compatible(g, rs[j], rs[i]); }
    }
  }

  /** The loop's body. `seen` are the receipts before this one. */
  method JoinOne(g: Graph, ghost seen: seq<Receipt>, r: Receipt, joined: set<Key>, owners: map<Key, int>,
                 threads: set<string>)
      returns (ok: bool, joinedNow: set<Key>, ownersNow: map<Key, int>, threadsNow: set<string>)
    requires AllJoined(g, seen) && OwnersOk(g, seen, owners)
    requires joined == Joined(g, seen) && threads == JoinedThreads(seen)
    ensures ok <==> ReceiptJoined(g, r) && CompatibleWithAll(g, seen, r)
    ensures ok ==> OwnersOk(g, seen + [r], ownersNow) && joinedNow == joined + JoinedBy(g, r)
    ensures ok ==> threadsNow == threads + (if r.target.Thread? then {r.target.id} else {})
  {
    joinedNow, ownersNow, threadsNow := joined, owners, threads;
    ok := ReceiptOf(g, r);
    if !ok {
      return;
    }
    RepetitionChecks(g, seen, r, owners);
    var o := OperationById(g.operations, r.operation).value;
    if r.target.Thread? {
      ok := r.target.id !in threads;
      threadsNow := threads + {r.target.id};
    } else if !r.target.Review? {
      ok := KeyOf(r.target) !in joined;
      joinedNow := joined + {KeyOf(r.target)};
    } else {
      var key := KeyOf(r.target);
      ok := key in owners ==> owners[key] == o.chunk;
      ownersNow := owners[key := o.chunk];
      joinedNow := joined + KeysOf(Children(g.objects, r.target.id)) + {key};
    }
    if ok { OwnersStep(g, seen, r, owners, o.chunk); }
  }

  /** The loop over the receipts: whether all of them join, and what they join. */
  method JoinReceipts(g: Graph) returns (ok: bool, joined: set<Key>, threads: set<string>)
    ensures ok <==> AllJoined(g, g.receipts) && AllCompatible(g, g.receipts)
    ensures ok ==> joined == Joined(g, g.receipts) && threads == JoinedThreads(g.receipts)
  {
    joined, threads := {}, {};
    var owners: map<Key, int> := map[];
    for i := 0 to |g.receipts|
      invariant joined == Joined(g, g.receipts[..i]) && threads == JoinedThreads(g.receipts[..i])
      invariant OwnersOk(g, g.receipts[..i], owners)
      invariant AllJoined(g, g.receipts[..i]) && AllCompatible(g, g.receipts[..i])
    {
      ok, joined, owners, threads := JoinOne(g, g.receipts[..i], g.receipts[i], joined, owners, threads);
      CompatibleStep(g, g.receipts, i);
      if !ok {
        return;
      }
      JoinedStep(g, g.receipts, i);
      PrefixStep(g.receipts, i);
    }
    assert g.receipts[..|g.receipts|] == g.receipts;
    ok := true;
  }

  /** The publication part of the evidence reader: accepts exactly the accepted graphs. */
  method ReadPublicationGraph(g: Graph) returns (accepted: bool)
    ensures accepted <==> Accepted(g)
  {
    if !RowsOk(g) {
      return false;
    }
    var ok, joined, threads := JoinReceipts(g);
    if !ok {
      return false;
    }
    return |joined| == |g.objects| && forall i :: 0 <= i < |g.threads| && g.threads[i].changed ==> g.threads[i].id in threads;
  }
}
