/**
 * The relationship canvas of the playground: the seeded table nodes, the
 * derivation of the relationship lines between them, and the choice of what
 * the canvas shows for the active workspace tab.
 */
module Graph {
  import opened Wrappers
  import opened Text
  import opened Numbers

  /** A table card on the canvas. */
  datatype TableNode = TableNode(
    id: string,
    name: string,
    sourceType: string,
    x: int,
    y: int,
    records: nat,
    connections: seq<string>)

  /** A relationship line from the table that lists the connection to the connected table. */
  datatype Edge = Edge(source: string, target: string)

  /** The line's React key, `source-target`. */
  function Key(e: Edge): string {
    e.source + "-" + e.target
  }

  /** The four tables the canvas is seeded with; there is no setter, so they never change. */
  function SeedTables(): seq<TableNode> {
    [ TableNode("1", "Customers", "Salesforce", 100, 150, 12450, ["2", "3"]),
      TableNode("2", "Orders", "PostgreSQL", 350, 100, 45230, ["1", "4"]),
      TableNode("3", "Tickets", "ServiceNow", 350, 200, 8760, ["1"]),
      TableNode("4", "Products", "CSV", 600, 150, 560, ["2"]) ]
  }

  // ---------------------------------------------------------------------------
  // renderConnections

  /** Some table has the id `id`. */
  predicate HasTable(tables: seq<TableNode>, id: string) {
    exists k :: 0 <= k < |tables| && tables[k].id == id
  }

  /** `tables.find(t => t.id === id)`: the first table with that id. */
  function Find(tables: seq<TableNode>, id: string): (r: Option<TableNode>)
    ensures r.Some? <==> HasTable(tables, id)
    ensures r.Some? ==> r.value.id == id && r.value in tables
    ensures r.Some? ==> exists k :: 0 <= k < |tables| && tables[k] == r.value
                                   && forall j :: 0 <= j < k ==> tables[j].id != id
  {
    if tables == [] then None
    else if tables[0].id == id then Some(tables[0])
    else
      var r := Find(tables[1..], id);
      assert HasTable(tables[1..], id) ==> HasTable(tables, id);
      assert HasTable(tables, id) ==> HasTable(tables[1..], id) by {
        if HasTable(tables, id) {
          var k :| 0 <= k < |tables| && tables[k].id == id;
          if k > 0 { assert tables[1..][k - 1].id == id; }
        }
      }
      r
  }

  /** `parseInt(a) < parseInt(b)`; a comparison with NaN is false. */
  predicate NumericallyBefore(a: string, b: string) {
    var x, y := ParseInt(a), ParseInt(b);
    x.Some? && y.Some? && x.value < y.value
  }

  /** The guard of `renderConnections` for connection `connId` of table `sourceId`. */
  predicate Draws(tables: seq<TableNode>, sourceId: string, connId: string) {
    Find(tables, connId).Some? && NumericallyBefore(sourceId, connId)
  }

  /** `Draws` for a fixed set of tables, as a guard on (source id, connection id) pairs. */
  function Guard(tables: seq<TableNode>): (string, string) -> bool {
    (sourceId, connId) => Draws(tables, sourceId, connId)
  }

  /**
   * The lines contributed by the connection list `conns` of the table with id
   * `id`, for a guard `admit`; the lines are derived the same way whatever
   * the guard, so the structural facts below are stated for any guard.
   */
  function EdgesOfConnections(admit: (string, string) -> bool, id: string, conns: seq<string>): (r: seq<Edge>)
    ensures |r| <= |conns|
  {
    if conns == [] then []
    else
      var last := conns[|conns| - 1];
      EdgesOfConnections(admit, id, conns[..|conns| - 1])
        + (if admit(id, last) then [Edge(id, last)] else [])
  }

  /** A line of one connection list is exactly an admitted connection of that list. */
  lemma {:induction false} EdgesOfConnectionsMember(admit: (string, string) -> bool, id: string, conns: seq<string>, e: Edge)
    ensures e in EdgesOfConnections(admit, id, conns) <==>
            e.source == id && e.target in conns && admit(id, e.target)
  {
    if conns != [] {
      var prefix, last := conns[..|conns| - 1], conns[|conns| - 1];
      EdgesOfConnectionsMember(admit, id, prefix, e);
      assert conns == prefix + [last];
    }
  }

  /** Sum of the lengths of the connection lists of `nodes`. */
  function TotalConnections(nodes: seq<TableNode>): nat {
    if nodes == [] then 0
    else TotalConnections(nodes[..|nodes| - 1]) + |nodes[|nodes| - 1].connections|
  }

  /** Table `t` lists `e.target` and the guard lets the line through. */
  predicate Records(admit: (string, string) -> bool, t: TableNode, e: Edge) {
    t.id == e.source && e.target in t.connections && admit(e.source, e.target)
  }

  /** The lines contributed by the tables `nodes`, in order. */
  function EdgesOfTables(admit: (string, string) -> bool, nodes: seq<TableNode>): (r: seq<Edge>)
    ensures |r| <= TotalConnections(nodes)
  {
    if nodes == [] then []
    else
      var last := nodes[|nodes| - 1];
      EdgesOfTables(admit, nodes[..|nodes| - 1]) + EdgesOfConnections(admit, last.id, last.connections)
  }

  /** A line of a run of tables is exactly a connection that some table of the run records and the guard admits. */
  lemma {:induction false} EdgesOfTablesMember(admit: (string, string) -> bool, nodes: seq<TableNode>, e: Edge)
    ensures e in EdgesOfTables(admit, nodes) <==> exists t :: t in nodes && Records(admit, t, e)
  {
    if nodes != [] {
      var prev, last := nodes[..|nodes| - 1], nodes[|nodes| - 1];
      EdgesOfTablesMember(admit, prev, e);
      EdgesOfConnectionsMember(admit, last.id, last.connections, e);
      assert nodes == prev + [last];
      if e in EdgesOfTables(admit, prev) {
        var t :| t in prev && Records(admit, t, e);
        assert t in nodes;
      }
      if e in EdgesOfConnections(admit, last.id, last.connections) {
        assert last in nodes && Records(admit, last, e);
      }
      if exists t :: t in nodes && Records(admit, t, e) {
        var t :| t in nodes && Records(admit, t, e);
        assert t in prev || t == last;
      }
    }
  }

  /** All the lines `renderConnections` draws for `tables`. */
  function Connections(tables: seq<TableNode>): seq<Edge> {
    EdgesOfTables(Guard(tables), tables)
  }

  /**
   * `renderConnections`: for every table and every id in its connection list,
   * push a line when a table with that id exists and the numeric source id is
   * below the numeric target id.
   */
  method RenderConnections(tables: seq<TableNode>) returns (lines: seq<Edge>)
    ensures lines == Connections(tables)
  {
    lines := [];
    for i := 0 to |tables|
      invariant lines == EdgesOfTables(Guard(tables), tables[..i])
    {
      ghost var before := lines;
      lines := PushTableLines(Guard(tables), tables[i], lines);
      EdgesOfTablesStep(Guard(tables), tables, i, before, lines[|before|..]);
    }
    assert tables[..|tables|] == tables;
  }

  /**
   * The inner loop of `renderConnections`: the lines of one table, pushed in
   * the order of its connection list, for the guard `admit` (which
   * `RenderConnections` instantiates with the lookup-and-compare of `Draws`).
   */
  method PushTableLines(admit: (string, string) -> bool, table: TableNode, lines0: seq<Edge>) returns (lines: seq<Edge>)
    ensures lines == lines0 + EdgesOfConnections(admit, table.id, table.connections)
  {
    lines := lines0;
    for j := 0 to |table.connections|
      invariant lines == lines0 + EdgesOfConnections(admit, table.id, table.connections[..j])
    {
      var connId := table.connections[j];
      var drawn := admit(table.id, connId);
      EdgesOfConnectionsStep(admit, table.id, table.connections, j, drawn);
      if drawn {
        lines := lines + [Edge(table.id, connId)];
      }
    }
    assert table.connections[..|table.connections|] == table.connections;
  }

  /** Taking one more connection into account appends its line, if the guard admits it. */
  lemma EdgesOfConnectionsStep(admit: (string, string) -> bool, id: string, conns: seq<string>, j: nat, drawn: bool)
    requires j < |conns| && drawn == admit(id, conns[j])
    ensures drawn ==> EdgesOfConnections(admit, id, conns[..j + 1])
                      == EdgesOfConnections(admit, id, conns[..j]) + [Edge(id, conns[j])]
    ensures !drawn ==> EdgesOfConnections(admit, id, conns[..j + 1]) == EdgesOfConnections(admit, id, conns[..j])
  {
    assert conns[..j + 1][..j] == conns[..j];
  }

  // ---------------------------------------------------------------------------
  // Properties of the derived lines

  /** A line exists exactly when some table records the connection and the guard admits it. */
  lemma ConnectionsIff(tables: seq<TableNode>, e: Edge)
    ensures e in Connections(tables) <==>
            exists t :: t in tables && t.id == e.source && e.target in t.connections
                        && HasTable(tables, e.target) && NumericallyBefore(e.source, e.target)
  {
    EdgesOfTablesMember(Guard(tables), tables, e);
    if exists t :: t in tables && t.id == e.source && e.target in t.connections
                   && HasTable(tables, e.target) && NumericallyBefore(e.source, e.target) {
      var t :| t in tables && t.id == e.source && e.target in t.connections
               && HasTable(tables, e.target) && NumericallyBefore(e.source, e.target);
      assert Records(Guard(tables), t, e);
    }
  }

  /** Every line goes from a lower to a strictly higher numeric id. */
  lemma EdgesAscend(tables: seq<TableNode>, e: Edge)
    requires e in Connections(tables)
    ensures NumericallyBefore(e.source, e.target)
    ensures HasTable(tables, e.target)
  {
    EdgesOfTablesMember(Guard(tables), tables, e);
  }

  /** No line joins a table to itself, and no pair is drawn in both directions. */
  lemma NoSelfLoopsOrReversedPairs(tables: seq<TableNode>, e1: Edge, e2: Edge)
    requires e1 in Connections(tables) && e2 in Connections(tables)
    ensures e1.source != e1.target
    ensures !(e1.source == e2.target && e1.target == e2.source)
  {
    EdgesAscend(tables, e1);
    EdgesAscend(tables, e2);
  }

  /** A connection to an id that no table has yields no line. */
  lemma DanglingConnectionDropped(tables: seq<TableNode>, id: string)
    requires !HasTable(tables, id)
    ensures forall e :: e in Connections(tables) ==> e.target != id
  {
    forall e | e in Connections(tables) ensures e.target != id {
      EdgesAscend(tables, e);
    }
  }

  /** An id that parses to NaN is never the end of a line. */
  lemma NonNumericIdsHaveNoEdges(tables: seq<TableNode>, id: string)
    requires ParseInt(id).None?
    ensures forall e :: e in Connections(tables) ==> e.source != id && e.target != id
  {
    forall e | e in Connections(tables) ensures e.source != id && e.target != id {
      EdgesAscend(tables, e);
    }
  }

  /**
   * A connection recorded only on the table with the higher numeric id
   * produces no line in either direction.
   */
  lemma OneSidedHigherConnectionDropped(tables: seq<TableNode>, lo: string, hi: string)
    requires ParseInt(lo).Some? && ParseInt(hi).Some? && ParseInt(lo).value < ParseInt(hi).value
    requires forall t :: t in tables && t.id == lo ==> hi !in t.connections
    ensures Edge(lo, hi) !in Connections(tables)
    ensures Edge(hi, lo) !in Connections(tables)
  {
    ConnectionsIff(tables, Edge(lo, hi));
    ConnectionsIff(tables, Edge(hi, lo));
  }

  /** There are never more lines than recorded connections. */
  lemma EdgeCountBounded(tables: seq<TableNode>)
    ensures |Connections(tables)| <= TotalConnections(tables)
  {
  }

  /** Table ids are distinct, no connection list repeats an id, and no id contains '-'. */
  predicate WellFormed(tables: seq<TableNode>) {
    && (forall i, j :: 0 <= i < j < |tables| ==> tables[i].id != tables[j].id)
    && (forall i :: 0 <= i < |tables| ==> NoRepeats(tables[i].connections))
    && (forall t :: t in tables ==> '-' !in t.id)
  }

  predicate NoRepeats<T(==)>(s: seq<T>) {
    forall i, j :: 0 <= i < j < |s| ==> s[i] != s[j]
  }

  lemma NoRepeatsAppend<T>(a: seq<T>, b: seq<T>)
    requires NoRepeats(a) && NoRepeats(b)
    requires forall x :: x in a ==> x !in b
    ensures NoRepeats(a + b)
  {
    forall i, j | 0 <= i < j < |a + b| ensures (a + b)[i] != (a + b)[j] {
      if i < |a| && j >= |a| {
        assert (a + b)[i] in a && (a + b)[j] in b;
      }
    }
  }

  lemma {:induction false} EdgesOfConnectionsNoRepeats(admit: (string, string) -> bool, id: string, conns: seq<string>)
    requires NoRepeats(conns)
    ensures NoRepeats(EdgesOfConnections(admit, id, conns))
  {
    if conns != [] {
      var prefix, last := conns[..|conns| - 1], conns[|conns| - 1];
      EdgesOfConnectionsNoRepeats(admit, id, prefix);
      assert last !in prefix by {
        assert forall k :: 0 <= k < |prefix| ==> prefix[k] == conns[k];
      }
      EdgesOfConnectionsMember(admit, id, prefix, Edge(id, last));
      NoRepeatsAppend(EdgesOfConnections(admit, id, prefix),
                      if admit(id, last) then [Edge(id, last)] else []);
    }
  }

  lemma {:induction false} EdgesOfTablesNoRepeats(admit: (string, string) -> bool, nodes: seq<TableNode>)
    requires forall i, j :: 0 <= i < j < |nodes| ==> nodes[i].id != nodes[j].id
    requires forall i :: 0 <= i < |nodes| ==> NoRepeats(nodes[i].connections)
    ensures NoRepeats(EdgesOfTables(admit, nodes))
  {
    if nodes != [] {
      var prev, last := nodes[..|nodes| - 1], nodes[|nodes| - 1];
      EdgesOfTablesNoRepeats(admit, prev);
      EdgesOfConnectionsNoRepeats(admit, last.id, last.connections);
      var a := EdgesOfTables(admit, prev);
      var b := EdgesOfConnections(admit, last.id, last.connections);
      forall x | x in a ensures x !in b {
        EdgesOfTablesMember(admit, prev, x);
        EdgesOfConnectionsMember(admit, last.id, last.connections, x);
        var t :| t in prev && Records(admit, t, x);
        var k :| 0 <= k < |prev| && prev[k] == t;
        assert nodes[k].id != last.id;
      }
      NoRepeatsAppend(a, b);
    }
  }

  lemma {:induction false} BeforeDash(a: string, b: string)
    requires '-' !in a
    ensures BeforeFirst(a + "-" + b, '-') == a
  {
    if a != [] {
      assert (a + "-" + b)[1..] == a[1..] + "-" + b;
      BeforeDash(a[1..], b);
    }
  }

  /** `source-target` determines the line when the source id has no '-'. */
  lemma KeyInjective(e1: Edge, e2: Edge)
    requires '-' !in e1.source && '-' !in e2.source
    ensures Key(e1) == Key(e2) ==> e1 == e2
  {
    BeforeDash(e1.source, e1.target);
    BeforeDash(e2.source, e2.target);
    assert Key(e1)[|e1.source| + 1..] == e1.target;
    assert Key(e2)[|e2.source| + 1..] == e2.target;
  }

  /** For well-formed tables the lines are pairwise distinct and so are their keys. */
  lemma KeysUnique(tables: seq<TableNode>)
    requires WellFormed(tables)
    ensures NoRepeats(Connections(tables))
    ensures forall i, j :: 0 <= i < j < |Connections(tables)| ==>
              Key(Connections(tables)[i]) != Key(Connections(tables)[j])
  {
    var lines := Connections(tables);
    EdgesOfTablesNoRepeats(Guard(tables), tables);
    forall i, j | 0 <= i < j < |lines| ensures Key(lines[i]) != Key(lines[j]) {
      assert lines[i] in lines && lines[j] in lines;
      EdgesOfTablesMember(Guard(tables), tables, lines[i]);
      EdgesOfTablesMember(Guard(tables), tables, lines[j]);
      var ti :| ti in tables && Records(Guard(tables), ti, lines[i]);
      var tj :| tj in tables && Records(Guard(tables), tj, lines[j]);
      KeyInjective(lines[i], lines[j]);
    }
  }

  /** Extending the tables seen so far by the next one appends that table's lines. */
  lemma EdgesOfTablesStep(admit: (string, string) -> bool, ts: seq<TableNode>, k: nat, a: seq<Edge>, b: seq<Edge>)
    requires k < |ts|
    requires EdgesOfTables(admit, ts[..k]) == a
    requires EdgesOfConnections(admit, ts[k].id, ts[k].connections) == b
    ensures EdgesOfTables(admit, ts[..k + 1]) == a + b
  {
    var n := ts[..k + 1];
    assert n[..|n| - 1] == ts[..k];
    assert n[|n| - 1] == ts[k];
  }

  // ---------------------------------------------------------------------------
  // What the canvas shows for the active tab

  /** The three presentations of the canvas; the use-case view carries its heading. */
  datatype CanvasMode = RelationshipGraph | GoldenView | UseCaseView(title: string)

  /** The tab the playground opens on. */
  const DefaultTab: string := "360-view"

  /** The heading of the use-case view, chosen by the active tab. */
  function UseCaseTitle(activeView: string): string {
    if activeView == "customer-360" then "Customer 360 Golden Set" else "Order Analytics Golden Set"
  }

  /**
   * The final switch of the canvas: the golden view for 'golden-view', the
   * use-case view for 'customer-360' and 'order-analytics', and the
   * relationship graph for every other tab.
   */
  function ModeFor(activeView: string): (m: CanvasMode)
    ensures m.GoldenView? <==> activeView == "golden-view"
    ensures m.UseCaseView? <==> activeView in {"customer-360", "order-analytics"}
    ensures m.RelationshipGraph? <==> activeView !in {"golden-view", "customer-360", "order-analytics"}
  {
    match activeView
    case "golden-view" => GoldenView
    case "customer-360" => UseCaseView(UseCaseTitle(activeView))
    case "order-analytics" => UseCaseView(UseCaseTitle(activeView))
    case _ => RelationshipGraph
  }

  /** The workspace tabs land on the intended presentations, with distinct headings. */
  lemma WorkspaceTabModes()
    ensures ModeFor(DefaultTab) == RelationshipGraph
    ensures ModeFor("golden-view") == GoldenView
    ensures ModeFor("customer-360") == UseCaseView("Customer 360 Golden Set")
    ensures ModeFor("order-analytics") == UseCaseView("Order Analytics Golden Set")
  {
  }

  /** Why rendering a presentation can fail: a name that is not in scope. */
  datatype RenderError = ReferenceError(name: string)

  /**
   * The switch as the component is written: the golden view uses the icon
   * `Star`, which is never imported, and the use-case heading reads
   * `activeTab`, which is not defined in the component; evaluating either
   * throws a ReferenceError.
   */
  function RenderAsWritten(activeView: string): Result<CanvasMode, RenderError> {
    match activeView
    case "golden-view" => Failure(ReferenceError("Star"))
    case "customer-360" => Failure(ReferenceError("activeTab"))
    case "order-analytics" => Failure(ReferenceError("activeTab"))
    case _ => Success(RelationshipGraph)
  }

  /** As written, every tab other than the relationship graph fails to render. */
  lemma AsWrittenOnlyGraphRenders(activeView: string)
    ensures RenderAsWritten(activeView).Success? <==> ModeFor(activeView).RelationshipGraph?
    ensures ModeFor(activeView).UseCaseView? ==> RenderAsWritten(activeView) == Failure(ReferenceError("activeTab"))
    ensures RenderAsWritten("customer-360").Failure? && ModeFor("customer-360").title == "Customer 360 Golden Set"
  {
  }
}
