/** The smallest accepted publication: a summary comment alone. */
module PublicationWitness {
  import opened Outcomes
  import opened PublicationGraph
  import opened PublicationJoin

  function SummaryOperation(): Operation {
    Operation("o", "a", Summary, "h", "b", Completed, true, 0, "m", "p", None)
  }

  function SummaryReceipt(): Receipt { Receipt("r", "a", "o", "e", IssueComment("1"), true) }

  function SummaryOnly(): Graph {
    Graph("a", "h", "p", [SummaryOperation()], [SummaryReceipt()],
          [Effect("e", "a", "o", IssueComment("1"), Acknowledged)],
          [Object(Key(AComment, "1"), "h", true, "b", None, None, "bot", "")],
          [], Rendered(Facts("m", "b"), None, [], []))
  }

  lemma ExpectedSummary()
    ensures Expected(SummaryOnly().rendered) == map[Slot(Summary, 0) := Facts("m", "b")]
    ensures |Expected(SummaryOnly().rendered)| == 1
  {
    assert Expected(SummaryOnly().rendered).Keys == {Slot(Summary, 0)};
  }

  lemma SummaryRows()
    ensures RowsOk(SummaryOnly())
  {
    var g := SummaryOnly();
    ExpectedSummary();
    assert g.operations[..0] == [];
    assert CompletedCount(g.operations) == 1;
    forall o | o in g.operations ensures StoredOk(g, o) && RenderedOk(g, o) { assert o == SummaryOperation(); }
  }

  lemma SummaryJoins()
    ensures ReceiptJoined(SummaryOnly(), SummaryReceipt())
    ensures Joined(SummaryOnly(), SummaryOnly().receipts) == {Key(AComment, "1")}
  {
    var g := SummaryOnly();
    assert g.receipts[..0] == [];
    assert OperationById(g.operations, "o") == Some(SummaryOperation());
    assert EffectById(g.effects, "e") == Some(g.effects[0]);
    assert ObjectAt(g.objects, Key(AComment, "1")) == Some(g.objects[0]);
  }

  lemma SummaryAccepted()
    ensures Accepted(SummaryOnly())
  {
    SummaryRows();
    SummaryJoins();
  }
}
