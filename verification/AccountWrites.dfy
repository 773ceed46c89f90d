/**
 Hosted accounts as their rows, and everything that writes them: the credential refresh and
 its paused variant, the health compare-and-set writers, and envelope rewrapping. A digest of
 known fields is modelled as the value it is taken of, so that equal digests mean equal fields.
 */
module AccountWrites {
  import opened Outcomes

  datatype State =
    | Provisioning | Healthy | Cooldown | QuotaExhausted | NeedsReconnect
    | RestoreQuarantined | Quarantined | Draining | Paused | Tombstoned

  datatype Receipt = Receipt(hash: string, previousHash: Option<string>, epoch: int, actor: string, occurredAt: int)

  datatype Reason = LegacyUpgrade | CredentialCreated | Refreshed | KmsRewrap | RestoreReconciliation

  datatype KeyHash = OfWriteback(id: string, generation: nat, receipt: string) | OfOther(text: string)

  datatype Envelope = Envelope(revision: nat, reason: Reason, incarnation: string, epoch: int,
                               owner: string, actor: string, key: KeyHash, createdAt: int)

  /** `receipts` are the activation receipts, `envelope` the latest revision. */
  datatype Version = Version(generation: nat, expiresAt: Option<int>, incarnation: string,
                             receipts: seq<Receipt>, envelope: Option<Envelope>)

  /** What a phase reads of one account; generation 0 stands for none. */
  datatype Account = Account(id: string, state: State, health: nat, generation: nat, cooldown: Option<int>,
                             drainingAt: Option<int>, tombstonedAt: Option<int>, credential: Option<Version>)

  /** The account row with its credential versions. */
  datatype Live = Live(row: Account, versions: map<nat, Version>)

  datatype Writeback = Writeback(hash: string, epoch: int, actor: string, incarnation: string,
                                 writtenAt: int, occurredAt: int)

  datatype Write =
    | Refresh(back: Writeback)
    | Reconnect(back: Writeback)
    | Dispose(state: State, cooldown: Option<int>, drainingAt: Option<int>, tombstonedAt: Option<int>)
    | Rewrap(envelope: Envelope)

  /** Rows as the writers leave them: the active generation is stored and is the newest. */
  predicate WellFormed(l: Live) {
    && l.row.generation in l.versions
    && l.row.credential == Some(l.versions[l.row.generation])
    && forall g :: g in l.versions ==>
         g <= l.row.generation && l.versions[g].generation == g && |l.versions[g].receipts| <= 1
         && (l.versions[g].envelope.Some? ==> l.versions[g].envelope.value.revision >= 1)
  }

  function Revision(v: Version): nat {
    if v.envelope.Some? then v.envelope.value.revision else 0
  }

  function NewVersion(l: Live, b: Writeback): Version
    requires l.row.generation in l.versions && l.versions[l.row.generation].receipts != []
  {
    var g := l.row.generation + 1;
    Version(g, None, b.incarnation,
            [Receipt(b.hash, Some(l.versions[l.row.generation].receipts[0].hash), b.epoch, b.actor, b.occurredAt)],
            Some(Envelope(1, Refreshed, b.incarnation, b.epoch, b.actor, b.actor,
                          OfWriteback(l.row.id, g, b.hash), b.writtenAt)))
  }

  predicate Can(l: Live, w: Write) {
    match w
    case Refresh(_) =>
      && l.row.generation in l.versions && l.versions[l.row.generation].receipts != []
      && l.row.state != Paused && l.row.state != Draining && l.row.state != Tombstoned
    case Reconnect(_) =>
      l.row.generation in l.versions && l.versions[l.row.generation].receipts != [] && l.row.state == Paused
    case Dispose(_, _, _, _) => true
    case Rewrap(_) => l.row.generation in l.versions
  }

  function Apply(l: Live, w: Write): (r: Live)
    requires Can(l, w)
    ensures WellFormed(l) ==> WellFormed(r)
  {
    match w
    case Refresh(b) =>
      var v := NewVersion(l, b);
      Live(l.row.(state := Healthy, health := l.row.health + 1, generation := v.generation, credential := Some(v)),
           l.versions[v.generation := v])
    case Reconnect(b) =>
      var v := NewVersion(l, b);
      Live(l.row.(health := l.row.health + 1, generation := v.generation, credential := Some(v)),
           l.versions[v.generation := v])
    case Dispose(state, cooldown, drainingAt, tombstonedAt) =>
      l.(row := l.row.(state := state, cooldown := cooldown, drainingAt := drainingAt, tombstonedAt := tombstonedAt,
                       health := l.row.health + 1))
    case Rewrap(e) =>
      var v := l.versions[l.row.generation];
      var u := v.(envelope := Some(e.(revision := Revision(v) + 1)));
      Live(l.row.(credential := Some(u)), l.versions[l.row.generation := u])
  }

  predicate Trace(l: Live, ws: seq<Write>)
    decreases |ws|
  {
    ws == [] || (Can(l, ws[0]) && Trace(Apply(l, ws[0]), ws[1..]))
  }

  function Run(l: Live, ws: seq<Write>): (r: Live)
    requires Trace(l, ws)
    ensures WellFormed(l) ==> WellFormed(r)
    decreases |ws|
  {
    if ws == [] then l else Run(Apply(l, ws[0]), ws[1..])
  }

  /** Health grows by one for every write but a rewrap, so at least as much as the generation. */
  lemma {:induction false} HealthCounts(l: Live, ws: seq<Write>)
    requires Trace(l, ws)
    ensures var r := Run(l, ws);
      && r.row.id == l.row.id && r.row.generation >= l.row.generation
      && r.row.health - l.row.health >= r.row.generation - l.row.generation
    decreases |ws|
  {
    if ws != [] {
      HealthCounts(Apply(l, ws[0]), ws[1..]);
    }
  }

  /** Stored versions stay; their receipts never change and their envelope revisions only grow. */
  lemma {:induction false} VersionsStay(l: Live, ws: seq<Write>, g: nat)
    requires Trace(l, ws) && WellFormed(l) && g in l.versions
    ensures var r := Run(l, ws);
      && g in r.versions && Revision(r.versions[g]) >= Revision(l.versions[g])
      && r.versions[g] == l.versions[g].(envelope := r.versions[g].envelope)
      && (g < l.row.generation ==> r.versions[g] == l.versions[g])
    decreases |ws|
  {
    if ws != [] {
      VersionsStay(Apply(l, ws[0]), ws[1..], g);
    }
  }

  lemma RunFirst(l: Live, w: Write, ws: seq<Write>)
    requires Can(l, w) && Trace(Apply(l, w), ws)
    ensures Trace(l, [w] + ws) && Run(l, [w] + ws) == Run(Apply(l, w), ws)
  {
    assert ([w] + ws)[1..] == ws;
  }

  lemma {:induction false} RunConcat(l: Live, a: seq<Write>, b: seq<Write>)
    requires Trace(l, a) && Trace(Run(l, a), b)
    ensures Trace(l, a + b) && Run(l, a + b) == Run(Run(l, a), b)
    decreases |a|
  {
    if a == [] {
      assert a + b == b;
    } else {
      var w, rest := a[0], a[1..];
      assert Run(l, a) == Run(Apply(l, w), rest);
      RunConcat(Apply(l, w), rest, b);
      RunFirst(l, w, rest + b);
      assert [w] + (rest + b) == a + b;
    }
  }
}
