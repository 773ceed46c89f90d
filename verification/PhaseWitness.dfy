/** A rate-limited phase that is prepared, disposed of once, and reconciled. */
module PhaseWitness {
  import opened Outcomes
  import opened AccountWrites
  import opened RefreshChain
  import opened PhaseRecovery
  import opened PhaseTables
  import opened PhaseRuns
  import opened PhaseSafety
  import opened PhaseHistory

  function Repeated(c: char, n: nat): string { seq(n, i => c) }

  function SomeScope(): Scope {
    Scope(RateLimited, Repeated('a', 64), 1, 1, "b", 1, Repeated('a', 40), "pool", "p", "q")
  }

  function SomeVersion(): Version {
    Version(1, None, "i", [AccountWrites.Receipt("h", None, 1, "x", 0)], None)
  }

  function SomeAccount(id: string): Live {
    Live(Account(id, Healthy, 3, 1, None, None, None, Some(SomeVersion())), map[1 := SomeVersion()])
  }

  function SomeBinding(): Binding {
    Binding("b", "w", 1, 1, true, 1, 1, true, true, 1, 1, false, {"p", "q"})
  }

  function QuietGraph(): Graph { Graph([SomeBinding()], 0, 0, 0, [], [], [], []) }

  function SomeGrant(): Grant {
    Grant("g", true, "p", Some("q"), "q", 1, 1, 1000, Exhausted, None, false, 0, 1, RequestSucceeded, Some(20),
          [Attempt("p", 1, FailedNoEffect, 1, None, None, Some(10)),
           Attempt("q", 1, Succeeded, 10, Some(11), Some(12), Some(13))])
  }

  function BusyGraph(): Graph {
    QuietGraph().(grants := [SomeGrant()], consumptions := [Consumption(true, 5, 100)], staged := [Staging(false, 1)])
  }

  function Begin(): Store { Store(map["p" := SomeAccount("p"), "q" := SomeAccount("q")], QuietGraph(), map[], map[]) }

  function SyntheticCooldown(): Write { Dispose(Cooldown, Some(900_005), None, None) }

  function Prepared(): System { System(Prepare(Begin(), SomeScope(), 0).0, []) }

  function Dispatched(): System {
    Exec(Prepared(), [WriteAccount("p", SyntheticCooldown()), ChangeGraph(BusyGraph())])
  }

  lemma ScopeValid()
    ensures ValidScope(SomeScope())
  {}

  lemma Preparing()
    ensures Prepare(Begin(), SomeScope(), 0).1 == Ok(()) && PreparedAt(Prepared(), SomeScope())
    ensures Prepared().store.accounts == Begin().accounts && Prepared().store.graph == QuietGraph()
    ensures Prepared().store.receipts == map[]
  {
    ScopeValid();
    var c := SomeScope();
    assert {c.first, c.second} == {"p", "q"};
    assert InventoryReadable(Begin(), c, 0);
    PreparingPrepares(Begin(), [], c, 0);
  }

  lemma Dispatching()
    ensures var y, z := Prepared(), Dispatched();
      && z.log == [Entry("p", SyntheticCooldown(), None)] && z.store.graph == BusyGraph()
      && z.store.prepared == y.store.prepared && z.store.receipts == map[]
      && z.store.accounts == map["p" := Apply(SomeAccount("p"), SyntheticCooldown()), "q" := SomeAccount("q")]
  {
    Preparing();
    var y := Prepared();
    var actions := [WriteAccount("p", SyntheticCooldown()), ChangeGraph(BusyGraph())];
    assert actions[..1] == [actions[0]] && actions[..1][..0] == [];
    assert Exec(y, []) == y;
    assert Exec(y, actions[..1]) == Step(y, actions[0]);
    assert Exec(y, actions) == Step(Step(y, actions[0]), actions[1]);
    assert y.log + [Entry("p", SyntheticCooldown(), None)] == [Entry("p", SyntheticCooldown(), None)];
  }

  lemma PhaseIsProven(s: Store)
    requires s.graph == BusyGraph() && s.receipts == map[]
    requires s.accounts == map["p" := Apply(SomeAccount("p"), SyntheticCooldown()), "q" := SomeAccount("q")]
    ensures PhaseProof(s, SomeScope(), 0, 30) == Ok(Proof(SomeGrant(), Consumption(true, 5, 100), "p", Some(900_005)))
    ensures InventoryReadable(s, SomeScope(), 30)
  {
    var c := SomeScope();
    assert {c.first, c.second} == {"p", "q"};
  }

  lemma PhaseIsDue()
    ensures PreparedAt(Prepared(), SomeScope()) && Due(Prepared(), Dispatched(), SomeScope(), 30)
    ensures DueProof(Prepared(), Dispatched(), SomeScope(), 30).primary == "p"
    ensures DueProof(Prepared(), Dispatched(), SomeScope(), 30).cooldown == Some(900_005)
  {
    ScopeValid();
    Preparing();
    Dispatching();
    PhaseIsProven(Dispatched().store);
    assert InventoryReadable(Begin(), SomeScope(), 0);
  }

  lemma HistoryIsDue()
    ensures PreparedAt(Prepared(), SomeScope()) && Prepared().log <= Dispatched().log
    ensures Writes(Since(Prepared(), Dispatched(), "p")) == [SyntheticCooldown()]
    ensures Writes(Since(Prepared(), Dispatched(), "q")) == []
  {
    Preparing();
    Dispatching();
    var l := Dispatched().log;
    assert l[|Prepared().log|..] == l && l[..0] == [];
  }

  /** The hypotheses of the phase theorems are met: this phase is reconciled and restores "p". */
  lemma PhaseReconciles()
    ensures Reconcile(Dispatched().store, SomeScope(), false, 30).1.Ok?
  {
    PhaseIsDue();
    HistoryIsDue();
    RunFollows(Prepared(), [WriteAccount("p", SyntheticCooldown()), ChangeGraph(BusyGraph())]);
    assert Backup(SomeScope(), "p") == "q";
    ReconciledExactlyWhen(Prepared(), Dispatched(), SomeScope(), 30);
  }

  // ---------------------------------------------------------------- a rewrapped backup

  function SomeRewrap(): Write { Rewrap(Envelope(1, KmsRewrap, "i", 1, "x", "x", OfOther("k"), 4)) }

  function SomeRefresh(): Write {
    Refresh(Writeback(Repeated('c', 64), 2, Repeated('d', 64), "i", 5, 6))
  }

  /** A backup that was rewrapped, then refreshed in time, passes as a proven refresh. */
  lemma RewrappedBackupProven()
    ensures var l, ws := SomeAccount("q"), [SomeRewrap(), SomeRefresh()];
      Trace(l, ws) && ws[0].Rewrap? && Proven(l, Run(l, ws), 0, 10)
  {
    var l, ws := SomeAccount("q"), [SomeRewrap(), SomeRefresh()];
    assert ws[1..] == [SomeRefresh()] && [SomeRefresh()][1..] == [];
    assert Trace(Apply(l, SomeRewrap()), [SomeRefresh()]);
    RefreshIsTimely();
    assert Rewraps(ws, 1) && 0 <= 1 < |ws|;
    RefreshProven(l, ws, 0, 10);
  }

  lemma RefreshIsTimely()
    ensures Timely([SomeRefresh()], 1, "i", Anchor("h", 1, 0), 10)
  {
    assert [SomeRefresh()][1..] == [];
    assert IsHex64(Repeated('c', 64)) && IsHex64(Repeated('d', 64));
  }
}
