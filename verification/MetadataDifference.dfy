/**
 `recoveryMetadataDifference`: a bounded report of how two lists of metadata records differ.
 Canonical JSON texts are equal exactly when the values are; the sorted order of the identities
 is given as their enumeration.
 */
module MetadataDifference {
  import opened Outcomes

  datatype Field = Kind | Schema | Table | Name | Type | Owner | Acl | Definition | OtherField(text: string)

  datatype Value = Null | Text(text: string) | List(items: seq<string>)

  type Row = map<Field, Value>

  datatype Identity = Identity(kind: Value, schema: Value, table: Value, name: Value, typ: Value, owner: Value)

  datatype Finding = MissingSource | MissingTarget | DuplicateIdentity | Differs(field: Field) | UnrecognizedShape

  datatype Path = Path(index: nat, finding: Finding)

  datatype Report = Report(sourceRecords: nat, targetRecords: nat, missingSource: nat, missingTarget: nat,
                           aclOrderOnly: nat, differences: nat, paths: seq<Path>, truncated: bool)

  const Fields: seq<Field> := [Kind, Schema, Table, Name, Type, Owner, Acl, Definition]

  const PathLimit: nat := 64
  const RowLimit: nat := 10_000

  /** An absent field compares as null. */
  function At(r: Row, f: Field): Value {
    if f in r then r[f] else Null
  }

  function IdentityOf(r: Row): Identity {
    Identity(At(r, Kind), At(r, Schema), At(r, Table), At(r, Name), At(r, Type),
             if At(r, Kind) == Text("default") then At(r, Owner) else Null)
  }

  function Group(rows: seq<Row>, key: Identity): seq<Row> {
    if rows == [] then []
    else
      var rest := Group(rows[..|rows| - 1], key);
      if IdentityOf(rows[|rows| - 1]) == key then rest + [rows[|rows| - 1]] else rest
  }

  predicate Recognised(r: Row) {
    forall f :: f in r ==> f in Fields
  }

  // ---------------------------------------------------------------- findings

  function FieldFindings(x: Row, y: Row, n: nat): seq<Finding>
    requires n <= |Fields|
  {
    if n == 0 then []
    else FieldFindings(x, y, n - 1) + (if At(x, Fields[n - 1]) == At(y, Fields[n - 1]) then [] else [Differs(Fields[n - 1])])
  }

  /** Everything reported of one identity, in order. */
  function Findings(x: seq<Row>, y: seq<Row>): seq<Finding> {
    if x == [] then [MissingSource]
    else if y == [] then [MissingTarget]
    else if |x| != 1 || |y| != 1 then [DuplicateIdentity]
    else
      FieldFindings(x[0], y[0], |Fields|)
      + (if x[0].Keys != y[0].Keys || !Recognised(x[0]) || !Recognised(y[0]) then [UnrecognizedShape] else [])
  }

  predicate AclOrderOnly(x: seq<Row>, y: seq<Row>) {
    && |x| == 1 && |y| == 1 && At(x[0], Acl) != At(y[0], Acl) && At(x[0], Acl).List? && At(y[0], Acl).List?
    && multiset(At(x[0], Acl).items) == multiset(At(y[0], Acl).items)
  }

  function Located(fs: seq<Finding>, index: nat): (r: seq<Path>)
    ensures |r| == |fs| && forall i :: 0 <= i < |fs| ==> r[i] == Path(index, fs[i])
  {
    seq(|fs|, i requires 0 <= i < |fs| => Path(index, fs[i]))
  }

  function AllPaths(a: seq<Row>, b: seq<Row>, keys: seq<Identity>): seq<Path> {
    if keys == [] then []
    else
      var k := keys[|keys| - 1];
      AllPaths(a, b, keys[..|keys| - 1]) + Located(Findings(Group(a, k), Group(b, k)), |keys| - 1)
  }

  /** Records of the second list whose identity the first list lacks. */
  function MissingFrom(a: seq<Row>, b: seq<Row>, keys: seq<Identity>): nat {
    if keys == [] then 0
    else
      var k := keys[|keys| - 1];
      MissingFrom(a, b, keys[..|keys| - 1]) + (if Group(a, k) == [] then |Group(b, k)| else 0)
  }

  function AclOrders(a: seq<Row>, b: seq<Row>, keys: seq<Identity>): nat {
    if keys == [] then 0
    else
      var k := keys[|keys| - 1];
      AclOrders(a, b, keys[..|keys| - 1]) + (if AclOrderOnly(Group(a, k), Group(b, k)) then 1 else 0)
  }

  function Bounded(paths: seq<Path>): seq<Path> {
    if |paths| <= PathLimit then paths else paths[..PathLimit]
  }

  /** The identities of both lists, each once. */
  predicate Enumerates(keys: seq<Identity>, a: seq<Row>, b: seq<Row>) {
    && (forall i, j :: 0 <= i < j < |keys| ==> keys[i] != keys[j])
    && (forall r :: r in a ==> IdentityOf(r) in keys) && (forall r :: r in b ==> IdentityOf(r) in keys)
    && (forall k :: k in keys ==> Group(a, k) != [] || Group(b, k) != [])
  }

  // ---------------------------------------------------------------- the report

  /** `add`, applied to the findings of one identity. */
  method AddAll(differences: nat, paths: seq<Path>, ghost all: seq<Path>, more: seq<Path>) returns (d: nat, ps: seq<Path>)
    requires differences == |all| && paths == Bounded(all)
    ensures d == |all + more| && ps == Bounded(all + more)
  {
    d, ps := differences, paths;
    for i := 0 to |more|
      invariant d == |all| + i && ps == Bounded(all + more[..i])
    {
      d := d + 1;
      if |ps| < 64 {
        ps := ps + [more[i]];
      }
      assert all + more[..i + 1] == (all + more[..i]) + [more[i]];
    }
    assert more[..|more|] == more;
  }

  datatype Tally = Tally(differences: nat, paths: seq<Path>, missingSource: nat, missingTarget: nat, aclOrderOnly: nat)

  function TallyOf(a: seq<Row>, b: seq<Row>, keys: seq<Identity>): Tally {
    Tally(|AllPaths(a, b, keys)|, Bounded(AllPaths(a, b, keys)), MissingFrom(a, b, keys), MissingFrom(b, a, keys),
          AclOrders(a, b, keys))
  }

  /** The loop's body, for the two groups of one identity. */
  method Visit(t: Tally, ghost all: seq<Path>, x: seq<Row>, y: seq<Row>, index: nat) returns (u: Tally)
    requires t.differences == |all| && t.paths == Bounded(all)
    ensures var now := all + Located(Findings(x, y), index);
      && u.differences == |now| && u.paths == Bounded(now)
      && u.missingSource == t.missingSource + (if x == [] then |y| else 0)
      && u.missingTarget == t.missingTarget + (if y == [] then |x| else 0)
      && u.aclOrderOnly == t.aclOrderOnly + (if AclOrderOnly(x, y) then 1 else 0)
  {
    var d, ps := AddAll(t.differences, t.paths, all, Located(Findings(x, y), index));
    u := t.(differences := d, paths := ps);
    if x == [] {
      u := u.(missingSource := u.missingSource + |y|);
    } else if y == [] {
      u := u.(missingTarget := u.missingTarget + |x|);
    } else if AclOrderOnly(x, y) {
      u := u.(aclOrderOnly := u.aclOrderOnly + 1);
    }
  }

  lemma TallyNext(a: seq<Row>, b: seq<Row>, keys: seq<Identity>, i: nat)
    requires i < |keys|
    ensures var t, u := TallyOf(a, b, keys[..i]), TallyOf(a, b, keys[..i + 1]);
      var x, y := Group(a, keys[i]), Group(b, keys[i]);
      && AllPaths(a, b, keys[..i + 1]) == AllPaths(a, b, keys[..i]) + Located(Findings(x, y), i)
      && u.missingSource == t.missingSource + (if x == [] then |y| else 0)
      && u.missingTarget == t.missingTarget + (if y == [] then |x| else 0)
      && u.aclOrderOnly == t.aclOrderOnly + (if AclOrderOnly(x, y) then 1 else 0)
  {
    assert keys[..i + 1][..i] == keys[..i];
  }

  method Difference(a: seq<Row>, b: seq<Row>, keys: seq<Identity>) returns (r: Result<Report>)
    requires Enumerates(keys, a, b)
    ensures r.Ok? <==> |a| <= RowLimit && |b| <= RowLimit
    ensures r.Ok? ==> var t := TallyOf(a, b, keys);
      r.value == Report(|a|, |b|, t.missingSource, t.missingTarget, t.aclOrderOnly, t.differences, t.paths,
                        t.differences > PathLimit)
  {
    if |a| > 10_000 || |b| > 10_000 {
      return Err("recovery_metadata_diagnostic_shape");
    }
    var t := Tally(0, [], 0, 0, 0);
    for index := 0 to |keys|
      invariant t == TallyOf(a, b, keys[..index])
    {
      TallyNext(a, b, keys, index);
      t := Visit(t, AllPaths(a, b, keys[..index]), Group(a, keys[index]), Group(b, keys[index]), index);
    }
    assert keys[..|keys|] == keys;
    return Ok(Report(|a|, |b|, t.missingSource, t.missingTarget, t.aclOrderOnly, t.differences, t.paths,
                     t.differences > |t.paths|));
  }

  // ---------------------------------------------------------------- when nothing differs

  lemma {:induction false} GroupIsPart(rows: seq<Row>, key: Identity)
    ensures forall r :: r in Group(rows, key) <==> r in rows && IdentityOf(r) == key
  {
    if rows != [] {
      GroupIsPart(rows[..|rows| - 1], key);
      assert rows == rows[..|rows| - 1] + [rows[|rows| - 1]];
    }
  }

  predicate UniqueIdentities(rows: seq<Row>) {
    forall i, j :: 0 <= i < j < |rows| ==> IdentityOf(rows[i]) != IdentityOf(rows[j])
  }

  lemma GroupOutside(a: seq<Row>, k: Identity)
    requires forall r :: r in a ==> IdentityOf(r) != k
    ensures Group(a, k) == []
  {
    GroupIsPart(a, k);
    assert Group(a, k) == [] || Group(a, k)[0] in Group(a, k);
  }

  ghost predicate GroupsAreSmall(rows: seq<Row>) {
    forall k :: |Group(rows, k)| <= 1
  }

  lemma {:induction false} SmallGroups(rows: seq<Row>)
    requires UniqueIdentities(rows)
    ensures GroupsAreSmall(rows)
  {
    if rows != [] {
      var front, last := rows[..|rows| - 1], rows[|rows| - 1];
      SmallGroups(front);
      forall r | r in front ensures IdentityOf(r) != IdentityOf(last) {
        var i :| 0 <= i < |front| && front[i] == r;
        assert rows[i] == r;
      }
      GroupOutside(front, IdentityOf(last));
    }
  }

  lemma {:induction false} DistinctByGroups(rows: seq<Row>)
    requires GroupsAreSmall(rows)
    ensures UniqueIdentities(rows)
  {
    if rows != [] {
      var front, last := rows[..|rows| - 1], rows[|rows| - 1];
      assert GroupsAreSmall(front) by { forall k ensures |Group(front, k)| <= 1 { assert |Group(rows, k)| <= 1; } }
      DistinctByGroups(front);
      GroupIsPart(front, IdentityOf(last));
      assert Group(front, IdentityOf(last)) == [] by { assert |Group(rows, IdentityOf(last))| <= 1; }
      forall i, j | 0 <= i < j < |rows| ensures IdentityOf(rows[i]) != IdentityOf(rows[j]) {
        assert rows[i] == front[i];
        if j < |front| { assert rows[j] == front[j]; } else { assert front[i] !in Group(front, IdentityOf(last)); }
      }
    }
  }

  lemma {:induction false} NoFieldFindings(x: Row, y: Row, n: nat)
    requires n <= |Fields|
    ensures FieldFindings(x, y, n) == [] <==> forall i :: 0 <= i < n ==> At(x, Fields[i]) == At(y, Fields[i])
  {
    if n > 0 {
      NoFieldFindings(x, y, n - 1);
    }
  }

  lemma NoFindings(x: seq<Row>, y: seq<Row>)
    ensures Findings(x, y) == [] <==> |x| == 1 && x == y && Recognised(x[0])
  {
    if |x| == 1 && |y| == 1 {
      NoFieldFindings(x[0], y[0], |Fields|);
      if Findings(x, y) == [] {
        forall f | f in x[0] ensures x[0][f] == y[0][f] {
          var i :| 0 <= i < |Fields| && Fields[i] == f;
          assert At(x[0], Fields[i]) == At(y[0], Fields[i]);
        }
        assert x[0] == y[0];
      }
    }
  }

  /** Nothing is reported of one identity. */
  predicate NoneAt(a: seq<Row>, b: seq<Row>, k: Identity) {
    Findings(Group(a, k), Group(b, k)) == []
  }

  predicate NoneAtAll(a: seq<Row>, b: seq<Row>, keys: seq<Identity>) {
    forall i :: 0 <= i < |keys| ==> NoneAt(a, b, keys[i])
  }

  lemma {:induction false} NoPaths(a: seq<Row>, b: seq<Row>, keys: seq<Identity>)
    ensures AllPaths(a, b, keys) == [] <==> NoneAtAll(a, b, keys)
  {
    if keys != [] {
      NoPaths(a, b, keys[..|keys| - 1]);
      PathsOfLast(a, b, keys);
      NoneAtLast(a, b, keys);
    }
  }

  lemma NoneAtLast(a: seq<Row>, b: seq<Row>, keys: seq<Identity>)
    requires keys != []
    ensures NoneAtAll(a, b, keys) <==> NoneAtAll(a, b, keys[..|keys| - 1]) && NoneAt(a, b, keys[|keys| - 1])
  {
    var front := keys[..|keys| - 1];
    assert forall i :: 0 <= i < |front| ==> front[i] == keys[i];
  }

  lemma PathsOfLast(a: seq<Row>, b: seq<Row>, keys: seq<Identity>)
    requires keys != []
    ensures AllPaths(a, b, keys) == [] <==>
      AllPaths(a, b, keys[..|keys| - 1]) == [] && NoneAt(a, b, keys[|keys| - 1])
  {
    var k := keys[|keys| - 1];
    assert |AllPaths(a, b, keys)| == |AllPaths(a, b, keys[..|keys| - 1])| + |Findings(Group(a, k), Group(b, k))|;
  }

  /** The same records, whatever their order, with distinct identities and known fields only. */
  predicate SameRecords(a: seq<Row>, b: seq<Row>) {
    && UniqueIdentities(a) && UniqueIdentities(b)
    && (forall r :: r in a ==> r in b && Recognised(r)) && (forall r :: r in b ==> r in a)
  }

  lemma SharedGroup(a: seq<Row>, b: seq<Row>, k: Identity)
    requires forall r :: r in a ==> r in b
    ensures Group(a, k) == [] || Group(a, k)[0] in Group(b, k)
  {
    GroupIsPart(a, k);
    GroupIsPart(b, k);
    assert Group(a, k) == [] || Group(a, k)[0] in Group(a, k);
  }

  lemma SameSingles(x: seq<Row>, y: seq<Row>)
    requires |x| <= 1 && |y| <= 1 && (x != [] || y != [])
    requires x == [] || x[0] in y
    requires y == [] || y[0] in x
    ensures |x| == 1 && x == y
  {}

  lemma AtMostOne(rows: seq<Row>, k: Identity)
    requires UniqueIdentities(rows)
    ensures |Group(rows, k)| <= 1
  {
    SmallGroups(rows);
  }

  lemma SameGroups(a: seq<Row>, b: seq<Row>, k: Identity)
    requires SameRecords(a, b) && (Group(a, k) != [] || Group(b, k) != [])
    ensures |Group(a, k)| == 1 && Group(a, k) == Group(b, k) && Recognised(Group(a, k)[0])
  {
    AtMostOne(a, k);
    AtMostOne(b, k);
    SharedGroup(a, b, k);
    SharedGroup(b, a, k);
    SameSingles(Group(a, k), Group(b, k));
    GroupIsPart(a, k);
    assert Group(a, k)[0] in a;
  }

  /** With nothing reported of any identity the two lists have the same groups of at most one. */
  predicate CleanAt(a: seq<Row>, b: seq<Row>, k: Identity) {
    Group(a, k) == Group(b, k) && |Group(a, k)| <= 1 && forall r :: r in Group(a, k) ==> Recognised(r)
  }

  lemma CleanFindings(x: seq<Row>, y: seq<Row>)
    requires Findings(x, y) == []
    ensures x == y && |x| <= 1 && forall r :: r in x ==> Recognised(r)
  {
    NoFindings(x, y);
  }

  lemma CleanKey(a: seq<Row>, b: seq<Row>, keys: seq<Identity>, i: nat)
    requires NoneAtAll(a, b, keys) && i < |keys|
    ensures CleanAt(a, b, keys[i])
  {
    assert NoneAt(a, b, keys[i]);
    CleanFindings(Group(a, keys[i]), Group(b, keys[i]));
  }

  lemma AbsentKey(a: seq<Row>, b: seq<Row>, keys: seq<Identity>, k: Identity)
    requires Enumerates(keys, a, b) && k !in keys
    ensures CleanAt(a, b, k)
  {
    GroupOutside(a, k);
    GroupOutside(b, k);
  }

  lemma CleanGroup(a: seq<Row>, b: seq<Row>, keys: seq<Identity>, k: Identity)
    requires Enumerates(keys, a, b) && NoneAtAll(a, b, keys)
    ensures CleanAt(a, b, k)
  {
    if k in keys {
      var i :| 0 <= i < |keys| && keys[i] == k;
      CleanKey(a, b, keys, i);
    } else {
      AbsentKey(a, b, keys, k);
    }
  }

  lemma CleanMeansSame(a: seq<Row>, b: seq<Row>)
    requires forall k :: CleanAt(a, b, k)
    ensures SameRecords(a, b)
  {
    assert GroupsAreSmall(a) by { forall k ensures |Group(a, k)| <= 1 { assert CleanAt(a, b, k); } }
    assert GroupsAreSmall(b) by { forall k ensures |Group(b, k)| <= 1 { assert CleanAt(a, b, k); } }
    DistinctByGroups(a);
    DistinctByGroups(b);
    forall r | r in a ensures r in b && Recognised(r) {
      assert CleanAt(a, b, IdentityOf(r));
      InBoth(a, b, r);
    }
    forall r | r in b ensures r in a {
      assert CleanAt(a, b, IdentityOf(r));
      InBoth(b, a, r);
    }
  }

  lemma InBoth(a: seq<Row>, b: seq<Row>, r: Row)
    requires r in a && Group(a, IdentityOf(r)) == Group(b, IdentityOf(r))
    ensures r in b && r in Group(a, IdentityOf(r))
  {
    GroupIsPart(a, IdentityOf(r));
    GroupIsPart(b, IdentityOf(r));
  }

  /** No difference is reported exactly when both lists hold the same well-formed records. */
  lemma NoDifferenceExactlyWhen(a: seq<Row>, b: seq<Row>, keys: seq<Identity>)
    requires Enumerates(keys, a, b)
    ensures |AllPaths(a, b, keys)| == 0 <==> SameRecords(a, b)
  {
    NoPaths(a, b, keys);
    if NoneAtAll(a, b, keys) {
      forall k ensures CleanAt(a, b, k) { CleanGroup(a, b, keys, k); }
      CleanMeansSame(a, b);
    }
    if SameRecords(a, b) {
      forall i | 0 <= i < |keys| ensures NoneAt(a, b, keys[i]) {
        SameGroups(a, b, keys[i]);
        NoFindings(Group(a, keys[i]), Group(b, keys[i]));
      }
    }
  }

  // ---------------------------------------------------------------- swapping the sides

  function Swapped(f: Finding): Finding {
    match f
    case MissingSource => MissingTarget
    case MissingTarget => MissingSource
    case _ => f
  }

  lemma {:induction false} FieldsSwap(x: Row, y: Row, n: nat)
    requires n <= |Fields|
    ensures FieldFindings(y, x, n) == FieldFindings(x, y, n)
    ensures forall i :: 0 <= i < |FieldFindings(x, y, n)| ==> FieldFindings(x, y, n)[i].Differs?
  {
    if n > 0 {
      FieldsSwap(x, y, n - 1);
    }
  }

  lemma FindingsSwap(x: seq<Row>, y: seq<Row>)
    requires x != [] || y != []
    ensures |Findings(y, x)| == |Findings(x, y)|
    ensures forall i :: 0 <= i < |Findings(x, y)| ==> Findings(y, x)[i] == Swapped(Findings(x, y)[i])
  {
    if |x| == 1 && |y| == 1 {
      FieldsSwap(x[0], y[0], |Fields|);
    }
  }

  /** Swapping the lists renames the missing findings and changes nothing else. */
  lemma {:induction false} SwapKeepsTotal(a: seq<Row>, b: seq<Row>, keys: seq<Identity>)
    requires forall k :: k in keys ==> Group(a, k) != [] || Group(b, k) != []
    ensures |AllPaths(b, a, keys)| == |AllPaths(a, b, keys)| && AclOrders(b, a, keys) == AclOrders(a, b, keys)
    ensures forall i :: 0 <= i < |AllPaths(a, b, keys)| ==>
      AllPaths(b, a, keys)[i] == AllPaths(a, b, keys)[i].(finding := Swapped(AllPaths(a, b, keys)[i].finding))
  {
    if keys != [] {
      var k := keys[|keys| - 1];
      SwapKeepsTotal(a, b, keys[..|keys| - 1]);
      FindingsSwap(Group(a, k), Group(b, k));
    }
  }
}
