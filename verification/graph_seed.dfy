/** The four tables the canvas starts with, and the lines it draws for them. */
module GraphSeed {
  import opened Wrappers
  import opened Numbers
  import opened Graph

  /** The ids and connection lists of the seeded tables, in order; the rest of each record plays no part in the lines. */
  predicate SeedShaped(ts: seq<TableNode>) {
    && |ts| == 4
    && ts[0].id == "1" && ts[0].connections == ["2", "3"]
    && ts[1].id == "2" && ts[1].connections == ["1", "4"]
    && ts[2].id == "3" && ts[2].connections == ["1"]
    && ts[3].id == "4" && ts[3].connections == ["2"]
  }

  lemma SeedShapedDraws(ts: seq<TableNode>)
    requires SeedShaped(ts)
    ensures Draws(ts, "1", "2") && Draws(ts, "1", "3") && Draws(ts, "2", "4")
    ensures !Draws(ts, "2", "1") && !Draws(ts, "3", "1") && !Draws(ts, "4", "2")
  {
    ParseIntOneDigit("1");
    ParseIntOneDigit("2");
    ParseIntOneDigit("3");
    ParseIntOneDigit("4");
    assert HasTable(ts, "2") && HasTable(ts, "3") && HasTable(ts, "4");
  }

  /** The guard's verdicts on the six seeded connections. */
  predicate SeedVerdicts(admit: (string, string) -> bool) {
    && admit("1", "2") && admit("1", "3") && admit("2", "4")
    && !admit("2", "1") && !admit("3", "1") && !admit("4", "2")
  }

  lemma SeedShapedVerdicts(ts: seq<TableNode>)
    requires SeedShaped(ts)
    ensures SeedVerdicts(Guard(ts))
  {
    SeedShapedDraws(ts);
  }

  lemma SeedCustomersLines(admit: (string, string) -> bool, ts: seq<TableNode>)
    requires SeedShaped(ts) && SeedVerdicts(admit)
    ensures EdgesOfConnections(admit, ts[0].id, ts[0].connections) == [Edge("1", "2"), Edge("1", "3")]
  {
    assert ["2", "3"][..1] == ["2"];
    assert EdgesOfConnections(admit, "1", ["2"]) == [Edge("1", "2")];
  }

  lemma SeedOrdersLines(admit: (string, string) -> bool, ts: seq<TableNode>)
    requires SeedShaped(ts) && SeedVerdicts(admit)
    ensures EdgesOfConnections(admit, ts[1].id, ts[1].connections) == [Edge("2", "4")]
  {
    assert ["1", "4"][..1] == ["1"];
    assert EdgesOfConnections(admit, "2", ["1"]) == [];
  }

  lemma SeedOthersLines(admit: (string, string) -> bool, ts: seq<TableNode>)
    requires SeedShaped(ts) && SeedVerdicts(admit)
    ensures EdgesOfConnections(admit, ts[2].id, ts[2].connections) == []
    ensures EdgesOfConnections(admit, ts[3].id, ts[3].connections) == []
  {
  }

  lemma SeedFirstTable(admit: (string, string) -> bool, ts: seq<TableNode>)
    requires SeedShaped(ts) && SeedVerdicts(admit)
    ensures EdgesOfTables(admit, ts[..1]) == [Edge("1", "2"), Edge("1", "3")]
  {
    SeedCustomersLines(admit, ts);
    assert ts[..0] == [];
    EdgesOfTablesStep(admit, ts, 0, [], [Edge("1", "2"), Edge("1", "3")]);
  }

  lemma SeedFirstTwoTables(admit: (string, string) -> bool, ts: seq<TableNode>)
    requires SeedShaped(ts) && SeedVerdicts(admit)
    ensures EdgesOfTables(admit, ts[..2]) == [Edge("1", "2"), Edge("1", "3"), Edge("2", "4")]
  {
    SeedFirstTable(admit, ts);
    SeedOrdersLines(admit, ts);
    EdgesOfTablesStep(admit, ts, 1, [Edge("1", "2"), Edge("1", "3")], [Edge("2", "4")]);
  }

  lemma SeedAllTables(admit: (string, string) -> bool, ts: seq<TableNode>)
    requires SeedShaped(ts) && SeedVerdicts(admit)
    ensures EdgesOfTables(admit, ts) == [Edge("1", "2"), Edge("1", "3"), Edge("2", "4")]
  {
    SeedFirstTwoTables(admit, ts);
    SeedOthersLines(admit, ts);
    EdgesOfTablesStep(admit, ts, 2, [Edge("1", "2"), Edge("1", "3"), Edge("2", "4")], []);
    EdgesOfTablesStep(admit, ts, 3, [Edge("1", "2"), Edge("1", "3"), Edge("2", "4")], []);
    assert ts[..4] == ts;
  }

  /** The seeded canvas draws exactly the lines 1-2, 1-3 and 2-4. */
  lemma SeedConnections()
    ensures Connections(SeedTables()) == [Edge("1", "2"), Edge("1", "3"), Edge("2", "4")]
  {
    var ts := SeedTables();
    SeedShapedVerdicts(ts);
    SeedAllTables(Guard(ts), ts);
  }
}
