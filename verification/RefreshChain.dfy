/**
 `readBackupRefresh`: whether the backup account's new generations were all written back by
 credential refreshes between the preparation and the backup effect. What it accepts is
 compared with the writes that can produce it.
 */
module RefreshChain {
  import opened Outcomes
  import opened AccountWrites

  predicate IsHex64(s: string) {
    |s| == 64 && forall i :: 0 <= i < |s| ==> '0' <= s[i] <= '9' || 'a' <= s[i] <= 'f'
  }

  /** Where a chain stands: the last accepted receipt's hash, epoch and time. */
  datatype Anchor = Anchor(hash: string, epoch: int, time: int)

  predicate EpochFollows(generation: nat, epoch: int, previous: int) {
    epoch > 0 && (epoch > previous || (generation == 2 && epoch == previous))
  }

  /** One credential version is the writeback of one refresh that continues the chain. */
  predicate Link(v: Version, id: string, generation: nat, incarnation: string, a: Anchor, limit: int) {
    && v.generation == generation && v.incarnation == incarnation && v.expiresAt.None?
    && |v.receipts| == 1
    && v.receipts[0].previousHash == Some(a.hash)
    && EpochFollows(generation, v.receipts[0].epoch, a.epoch)
    && IsHex64(v.receipts[0].hash) && IsHex64(v.receipts[0].actor)
    && a.time <= v.receipts[0].occurredAt <= limit
    && v.envelope.Some?
    && var e := v.envelope.value;
       && e.revision == 1 && e.reason == Refreshed && e.incarnation == v.incarnation
       && e.epoch == v.receipts[0].epoch && e.owner == v.receipts[0].actor && e.actor == v.receipts[0].actor
       && a.time <= e.createdAt <= v.receipts[0].occurredAt
       && e.key == OfWriteback(id, generation, v.receipts[0].hash)
  }

  function After(v: Version): Anchor
    requires |v.receipts| == 1
  {
    Anchor(v.receipts[0].hash, v.receipts[0].epoch, v.receipts[0].occurredAt)
  }

  /** Every generation from `g` + 1 to `last` continues the chain. */
  predicate Chain(versions: map<nat, Version>, id: string, incarnation: string, g: nat, last: nat, a: Anchor, limit: int)
    decreases last - g
  {
    g >= last ||
    (g + 1 in versions && Link(versions[g + 1], id, g + 1, incarnation, a, limit)
     && Chain(versions, id, incarnation, g + 1, last, After(versions[g + 1]), limit))
  }

  /** The rows of a generation range, in ascending order. */
  function Rows(versions: map<nat, Version>, first: nat, last: nat): (rows: seq<Version>)
    ensures |rows| <= if first < last then last - first else 0
    decreases last
  {
    if first >= last then []
    else Rows(versions, first, last - 1) + (if last in versions then [versions[last]] else [])
  }

  /** A full count of rows means that every generation of the range is stored. */
  lemma {:induction false} FullRows(versions: map<nat, Version>, first: nat, last: nat)
    requires first < last
    ensures |Rows(versions, first, last)| == last - first <==> forall g :: first < g <= last ==> g in versions
    ensures |Rows(versions, first, last)| == last - first ==>
      forall i :: 0 <= i < last - first ==>
        first + 1 + i in versions && Rows(versions, first, last)[i] == versions[first + 1 + i]
    decreases last
  {
    if first + 1 < last {
      FullRows(versions, first, last - 1);
    }
  }

  /** The expected post-state of a refreshed backup. */
  function RefreshedRow(before: Account, last: nat, newest: Version): Account
    requires last >= before.generation
  {
    before.(generation := last, health := before.health + last - before.generation, credential := Some(newest))
  }

  /** What the check answers: no refresh, a proven one with the expected account, or an error. */
  function Verdict(before: Account, current: Account, versions: map<nat, Version>, effect: nat,
                   preparedAt: int, limit: int): Result<Option<Account>>
  {
    if effect != current.generation then Err("effect_generation_mismatch")
    else if current.generation == before.generation then Ok(None)
    else if current.generation < before.generation || before.credential.None? || |before.credential.value.receipts| != 1 then
      Err("backup_refresh_anchor_missing")
    else
      var first, last := before.generation, current.generation;
      var r := before.credential.value.receipts[0];
      if exists g :: first < g <= last && g !in versions then Err("backup_refresh_chain_missing")
      else if !Chain(versions, current.id, before.credential.value.incarnation, first, last,
                     Anchor(r.hash, r.epoch, preparedAt), limit) then
        Err("backup_refresh_writeback_unproved")
      else if current != RefreshedRow(before, last, versions[last]) then Err("account_health_or_generation_drift")
      else Ok(Some(current))
  }

  /** The loop over the stored rows. */
  method ReadBackupRefresh(before: Account, current: Account, versions: map<nat, Version>, effect: nat,
                           preparedAt: int, limit: int) returns (r: Result<Option<Account>>)
    requires current.id == before.id
    requires forall g :: g in versions ==> versions[g].generation == g
    ensures r == Verdict(before, current, versions, effect, preparedAt, limit)
  {
    if effect != current.generation {
      return Err("effect_generation_mismatch");
    }
    if current.generation == before.generation {
      return Ok(None);
    }
    var first, last := before.generation, current.generation;
    if last <= first || before.credential.None? || |before.credential.value.receipts| != 1 {
      return Err("backup_refresh_anchor_missing");
    }
    var anchor := before.credential.value.receipts[0];
    var incarnation := before.credential.value.incarnation;
    var rows := Rows(versions, first, last);
    FullRows(versions, first, last);
    if |rows| != last - first {
      return Err("backup_refresh_chain_missing");
    }
    var at := Anchor(anchor.hash, anchor.epoch, preparedAt);
    ghost var start := at;
    for i := 0 to |rows|
      invariant Chain(versions, before.id, incarnation, first, last, start, limit)
        <==> Chain(versions, before.id, incarnation, first + i, last, at, limit)
    {
      assert rows[i] == versions[first + 1 + i];
      if !Link(rows[i], before.id, first + 1 + i, incarnation, at, limit) {
        return Err("backup_refresh_writeback_unproved");
      }
      at := After(rows[i]);
    }
    var expected := RefreshedRow(before, last, rows[|rows| - 1]);
    if current != expected {
      return Err("account_health_or_generation_drift");
    }
    return Ok(Some(expected));
  }

  /** What an accepted chain looks like, generation by generation. */
  lemma {:induction false} ChainTerms(versions: map<nat, Version>, id: string, incarnation: string, g: nat, last: nat,
                                      a: Anchor, limit: int, k: nat)
    requires Chain(versions, id, incarnation, g, last, a, limit) && g < k <= last
    ensures k in versions && |versions[k].receipts| == 1 && versions[k].receipts[0].occurredAt <= limit
    ensures versions[k].receipts[0].occurredAt >= a.time && versions[k].receipts[0].epoch >= a.epoch
    ensures forall j :: g < j < k && j in versions && |versions[j].receipts| == 1 ==>
      && versions[j].receipts[0].occurredAt <= versions[k].receipts[0].occurredAt
      && (k > 2 ==> versions[j].receipts[0].epoch < versions[k].receipts[0].epoch)
    ensures k > g + 1 ==>
      k - 1 in versions && |versions[k - 1].receipts| == 1
      && versions[k].receipts[0].previousHash == Some(versions[k - 1].receipts[0].hash)
    decreases last - g
  {
    if k > g + 1 {
      ChainTerms(versions, id, incarnation, g + 1, last, After(versions[g + 1]), limit, k);
      if k > g + 2 {
        ChainTerms(versions, id, incarnation, g + 1, last, After(versions[g + 1]), limit, k - 1);
      }
    }
  }

  /** A run of refreshes, each no earlier than the one before and all before the effect. */
  predicate Timely(ws: seq<Write>, generation: nat, incarnation: string, a: Anchor, limit: int)
    decreases |ws|
  {
    ws == [] ||
    (ws[0].Refresh? &&
     var b := ws[0].back;
     && b.incarnation == incarnation && EpochFollows(generation + 1, b.epoch, a.epoch)
     && IsHex64(b.hash) && IsHex64(b.actor)
     && a.time <= b.writtenAt <= b.occurredAt <= limit
     && Timely(ws[1..], generation + 1, incarnation, Anchor(b.hash, b.epoch, b.occurredAt), limit))
  }

  /** The anchor is the receipt of the active generation. */
  predicate Anchored(l: Live, a: Anchor) {
    WellFormed(l) && |l.versions[l.row.generation].receipts| == 1 && l.versions[l.row.generation].receipts[0].hash == a.hash
  }

  /** Timely refreshes produce a chain, one generation and one health step each. */
  lemma {:induction false} RefreshesChain(l: Live, ws: seq<Write>, incarnation: string, a: Anchor, limit: int)
    requires Trace(l, ws) && Anchored(l, a) && Timely(ws, l.row.generation, incarnation, a, limit)
    requires l.row.state == Healthy
    ensures var r := Run(l, ws);
      && Chain(r.versions, l.row.id, incarnation, l.row.generation, r.row.generation, a, limit)
      && r.row.generation == l.row.generation + |ws|
      && r.row == RefreshedRow(l.row, r.row.generation, r.versions[r.row.generation])
      && (ws != [] ==> Revision(r.versions[r.row.generation]) == 1)
      && forall g :: g in l.versions ==> g in r.versions && r.versions[g] == l.versions[g]
    decreases |ws|
  {
    if ws != [] {
      var m := Apply(l, ws[0]);
      var b := ws[0].back;
      RefreshesChain(m, ws[1..], incarnation, Anchor(b.hash, b.epoch, b.occurredAt), limit);
    }
  }

  /** A write that gains health without a generation, or a revision of the current envelope,
      still shows at the end of the run. */
  lemma FirstIsRefresh(l: Live, ws: seq<Write>)
    requires ws != [] && Trace(l, ws) && WellFormed(l) && l.row.state == Healthy
    requires var r := Run(l, ws);
      && r.row.health - l.row.health == r.row.generation - l.row.generation
      && l.row.generation in r.versions
      && Revision(r.versions[l.row.generation]) == Revision(l.versions[l.row.generation])
    ensures ws[0].Refresh?
  {
    var m := Apply(l, ws[0]);
    HealthCounts(m, ws[1..]);
    VersionsStay(m, ws[1..], l.row.generation);
  }

  /** A refresh whose version ends up linked, with its envelope as written, was timely. */
  lemma LinkedRefresh(l: Live, ws: seq<Write>, incarnation: string, a: Anchor, limit: int)
    requires ws != [] && Trace(l, ws) && Anchored(l, a) && ws[0].Refresh?
    requires var r := Run(l, ws); var g := l.row.generation + 1;
      && g in r.versions && r.versions[g] == NewVersion(l, ws[0].back)
      && Link(r.versions[g], l.row.id, g, incarnation, a, limit)
    requires var b := ws[0].back;
      Timely(ws[1..], l.row.generation + 1, incarnation, Anchor(b.hash, b.epoch, b.occurredAt), limit)
    ensures Timely(ws, l.row.generation, incarnation, a, limit)
  {}

  /** Conversely, from a freshly written generation on, a chain whose length is the health
      gained can only come from timely refreshes. */
  lemma {:induction false} ChainRefreshes(l: Live, ws: seq<Write>, incarnation: string, a: Anchor, limit: int)
    requires Trace(l, ws) && Anchored(l, a) && l.row.state == Healthy
    requires var r := Run(l, ws);
      && Chain(r.versions, l.row.id, incarnation, l.row.generation, r.row.generation, a, limit)
      && r.row.health - l.row.health == r.row.generation - l.row.generation
      && l.row.generation in r.versions
      && Revision(r.versions[l.row.generation]) == Revision(l.versions[l.row.generation])
    ensures Timely(ws, l.row.generation, incarnation, a, limit)
    decreases |ws|
  {
    if ws != [] {
      FirstIsRefresh(l, ws);
      var m, r, g, b := Apply(l, ws[0]), Run(l, ws), l.row.generation + 1, ws[0].back;
      var next := Anchor(b.hash, b.epoch, b.occurredAt);
      VersionsStay(m, ws[1..], g);
      assert m.versions[g] == NewVersion(l, b) && After(r.versions[g]) == next;
      assert Anchored(m, next);
      ChainRefreshes(m, ws[1..], incarnation, next, limit);
      RefreshesChain(m, ws[1..], incarnation, next, limit);
      LinkedRefresh(l, ws, incarnation, a, limit);
    }
  }

  /** The writes a proven refresh stands for: rewraps of the prepared envelope, then timely
      refreshes, at least one. */
  predicate OnlyRefreshes(ws: seq<Write>, l: Live, preparedAt: int, limit: int) {
    WellFormed(l) && |l.versions[l.row.generation].receipts| == 1 &&
    var v := l.versions[l.row.generation];
    var a := Anchor(v.receipts[0].hash, v.receipts[0].epoch, preparedAt);
    exists k :: 0 <= k < |ws| && Rewraps(ws, k) && Timely(ws[k..], l.row.generation, v.incarnation, a, limit)
  }

  predicate Rewraps(ws: seq<Write>, k: nat)
    requires k <= |ws|
  {
    forall i :: 0 <= i < k ==> ws[i].Rewrap?
  }

  function StartOf(l: Live, preparedAt: int): Anchor
    requires WellFormed(l) && |l.versions[l.row.generation].receipts| == 1
  {
    var r := l.versions[l.row.generation].receipts[0];
    Anchor(r.hash, r.epoch, preparedAt)
  }

  lemma AfterRewrap(l: Live, ws: seq<Write>, preparedAt: int, limit: int)
    requires ws != [] && Trace(l, ws) && WellFormed(l) && ws[0].Rewrap?
    ensures var m := Apply(l, ws[0]);
      OnlyRefreshes(ws, l, preparedAt, limit) <==> OnlyRefreshes(ws[1..], m, preparedAt, limit)
  {
    var m, v := Apply(l, ws[0]), l.versions[l.row.generation];
    if OnlyRefreshes(ws, l, preparedAt, limit) {
      var a := StartOf(l, preparedAt);
      var k :| 0 <= k < |ws| && Rewraps(ws, k) && Timely(ws[k..], l.row.generation, v.incarnation, a, limit);
      assert ws[k..] == ws[1..][k - 1..] && Rewraps(ws[1..], k - 1);
    }
    if OnlyRefreshes(ws[1..], m, preparedAt, limit) {
      var a := StartOf(m, preparedAt);
      var k :| 0 <= k < |ws| - 1 && Rewraps(ws[1..], k) && Timely(ws[1..][k..], l.row.generation, v.incarnation, a, limit);
      assert ws[k + 1..] == ws[1..][k..] && Rewraps(ws, k + 1);
    }
  }

  /** The answer looks at the prepared credential's receipts, not at its envelope. */
  lemma VerdictAfterRewrap(l: Live, ws: seq<Write>, preparedAt: int, limit: int)
    requires ws != [] && Trace(l, ws) && WellFormed(l) && ws[0].Rewrap?
    ensures var m, r := Apply(l, ws[0]), Run(l, ws);
      Verdict(l.row, r.row, r.versions, r.row.generation, preparedAt, limit)
        == Verdict(m.row, r.row, r.versions, r.row.generation, preparedAt, limit)
  {}

  lemma WithoutRewrap(l: Live, ws: seq<Write>, preparedAt: int, limit: int)
    requires ws != [] && WellFormed(l) && |l.versions[l.row.generation].receipts| == 1 && !ws[0].Rewrap?
    ensures OnlyRefreshes(ws, l, preparedAt, limit) <==>
      Timely(ws, l.row.generation, l.versions[l.row.generation].incarnation, StartOf(l, preparedAt), limit)
  {
    assert ws[0..] == ws;
    assert Rewraps(ws, 0);
    if OnlyRefreshes(ws, l, preparedAt, limit) {
      var k :| 0 <= k < |ws| && Rewraps(ws, k) &&
        Timely(ws[k..], l.row.generation, l.versions[l.row.generation].incarnation, StartOf(l, preparedAt), limit);
      assert k == 0;
    }
  }

  predicate Proven(l: Live, r: Live, preparedAt: int, limit: int) {
    Verdict(l.row, r.row, r.versions, r.row.generation, preparedAt, limit) == Ok(Some(r.row))
  }

  lemma ChainComplete(versions: map<nat, Version>, id: string, incarnation: string, g: nat, last: nat, a: Anchor,
                      limit: int)
    requires Chain(versions, id, incarnation, g, last, a, limit)
    ensures forall k :: g < k <= last ==> k in versions
  {
    forall k | g < k <= last ensures k in versions { ChainTerms(versions, id, incarnation, g, last, a, limit, k); }
  }

  /** The case of a first write that is not a rewrap. */
  lemma ProvenAtOnce(l: Live, ws: seq<Write>, preparedAt: int, limit: int)
    requires Trace(l, ws) && WellFormed(l) && l.row.state == Healthy && ws != [] && !ws[0].Rewrap?
    requires |l.versions[l.row.generation].receipts| == 1
    ensures Proven(l, Run(l, ws), preparedAt, limit) <==>
      Timely(ws, l.row.generation, l.versions[l.row.generation].incarnation, StartOf(l, preparedAt), limit)
  {
    var r, v, a := Run(l, ws), l.versions[l.row.generation], StartOf(l, preparedAt);
    HealthCounts(l, ws);
    VersionsStay(l, ws, l.row.generation);
    if Timely(ws, l.row.generation, v.incarnation, a, limit) {
      RefreshesChain(l, ws, v.incarnation, a, limit);
      ChainComplete(r.versions, l.row.id, v.incarnation, l.row.generation, r.row.generation, a, limit);
    }
    if Proven(l, r, preparedAt, limit) {
      EnvelopeKept(l, ws);
      ChainRefreshes(l, ws, v.incarnation, a, limit);
    }
  }

  lemma EnvelopeKept(l: Live, ws: seq<Write>)
    requires Trace(l, ws) && WellFormed(l) && l.row.state == Healthy && ws != [] && !ws[0].Rewrap?
    requires Run(l, ws).row.health - l.row.health == Run(l, ws).row.generation - l.row.generation
    ensures l.row.generation in Run(l, ws).versions
    ensures Run(l, ws).versions[l.row.generation] == l.versions[l.row.generation]
  {
    var m := Apply(l, ws[0]);
    HealthCounts(m, ws[1..]);
    VersionsStay(m, ws[1..], l.row.generation);
  }

  /** Without an activation receipt to anchor to there is nothing to refresh from. */
  lemma {:induction false} NoAnchor(l: Live, ws: seq<Write>)
    requires Trace(l, ws) && WellFormed(l) && l.versions[l.row.generation].receipts == []
    ensures Run(l, ws).row.generation == l.row.generation
    decreases |ws|
  {
    if ws != [] {
      NoAnchor(Apply(l, ws[0]), ws[1..]);
    }
  }

  /**
   Soundness and completeness: for a healthy prepared account and every sequence of writes
   after it, a refresh is proven exactly when the writes were timely refreshes, possibly after
   rewraps of the prepared envelope.
   */
  lemma {:induction false} RefreshProven(l: Live, ws: seq<Write>, preparedAt: int, limit: int)
    requires Trace(l, ws) && WellFormed(l) && l.row.state == Healthy
    ensures Proven(l, Run(l, ws), preparedAt, limit) <==> OnlyRefreshes(ws, l, preparedAt, limit)
    decreases |ws|
  {
    if ws == [] {
    } else if l.versions[l.row.generation].receipts == [] {
      NoAnchor(l, ws);
    } else if ws[0].Rewrap? {
      RefreshProven(Apply(l, ws[0]), ws[1..], preparedAt, limit);
      AfterRewrap(l, ws, preparedAt, limit);
      VerdictAfterRewrap(l, ws, preparedAt, limit);
    } else {
      WithoutRewrap(l, ws, preparedAt, limit);
      ProvenAtOnce(l, ws, preparedAt, limit);
    }
  }

  /** An account left exactly as prepared was not written at all. */
  lemma {:induction false} UnchangedMeansUnwritten(l: Live, ws: seq<Write>)
    requires Trace(l, ws) && WellFormed(l)
    ensures Run(l, ws).row == l.row <==> ws == []
    decreases |ws|
  {
    if ws != [] {
      var m := Apply(l, ws[0]);
      HealthCounts(m, ws[1..]);
      VersionsStay(m, ws[1..], l.row.generation);
    }
  }
}
