/** What a GO sentence returns, in terms of the graph and the input rows. */
module GoResults {
  import opened Bags
  import opened VersionedValues
  import opened Tables
  import opened PlanInterpreter
  import opened GoPlan
  import opened GoWalks
  import opened GoAnswers
  import opened GoTheorems

  /** An input row, a vertex and an edge of the vertex. */
  datatype Hit = Hit(row: nat, source: Value, edge: nat)

  /** The vertex is `k` edges from the start of the input row. */
  ghost predicate IsHit(graph: Graph, input: Table, src: Col, k: nat, h: Hit) {
    h.row < |input| && Walk(graph, Get(input[h.row], src), h.source, k) && h.edge < |graph(h.source)|
  }

  /** The row yields properties of the edge and of the input row. */
  ghost predicate Yielded(cols: seq<Yield>, e: Edge, r: Row, out: Row) {
    && (forall c :: c in out <==> IsTarget(cols, c))
    && forall i: nat :: LastTarget(cols, i) ==>
      cols[i].to in out && out[cols[i].to] == if cols[i].from == EDGE_COL then e.props else Get(r, cols[i].from)
  }

  ghost predicate RowFor(graph: Graph, input: Table, cols: seq<Yield>, h: Hit, out: Row) {
    h.row < |input| && h.edge < |graph(h.source)| && Yielded(cols, graph(h.source)[h.edge], input[h.row], out)
  }

  ghost predicate ReturnedBy(graph: Graph, input: Table, src: Col, k: nat, cols: seq<Yield>, out: Table, rows: Table,
                             hits: seq<Hit>)
  {
    && multiset(out) == multiset(rows) && |rows| == |hits| && NoDuplicates(hits)
    && (forall h :: h in hits <==> IsHit(graph, input, src, k, h))
    && forall i :: 0 <= i < |hits| ==> RowFor(graph, input, cols, hits[i], rows[i])
  }

  /** Up to order the table has one row for each input row, each vertex `k` edges from its start and each
      edge of that vertex: the yielded edge columns hold the properties of the edge, and the yielded
      input columns those of the input row. */
  ghost predicate Returns(graph: Graph, input: Table, src: Col, k: nat, cols: seq<Yield>, out: Table) {
    exists rows, hits :: ReturnedBy(graph, input, src, k, cols, out, rows, hits)
  }

  // ---- The hits in the order of the joins ----

  ghost function EdgeHits(graph: Graph, input: Table, src: Col, k: nat, u: Value, edge: nat, from: nat): seq<Hit>
    requires from <= |input|
    decreases |input| - from
  {
    if from == |input| then []
    else (if Walk(graph, Get(input[from], src), u, k) then [Hit(from, u, edge)] else []) +
         EdgeHits(graph, input, src, k, u, edge, from + 1)
  }

  ghost function VertexHits(graph: Graph, input: Table, src: Col, k: nat, u: Value, from: nat): seq<Hit>
    requires from <= |graph(u)|
    decreases |graph(u)| - from
  {
    if from == |graph(u)| then []
    else EdgeHits(graph, input, src, k, u, from, 0) + VertexHits(graph, input, src, k, u, from + 1)
  }

  ghost function FrontierHits(graph: Graph, input: Table, src: Col, k: nat, frontier: Table): seq<Hit>
    decreases |frontier|
  {
    if frontier == [] then []
    else VertexHits(graph, input, src, k, Get(frontier[0], Vid), 0) + FrontierHits(graph, input, src, k, frontier[1..])
  }

  lemma ApartConcat(a: seq<Hit>, b: seq<Hit>)
    requires NoDuplicates(a) && NoDuplicates(b) && forall h :: h in a ==> h !in b
    ensures NoDuplicates(a + b)
  {
    var c := a + b;
    forall i, j | 0 <= i < j < |c| ensures c[i] != c[j] {
      assert i < |a| ==> c[i] in a;
      assert j >= |a| ==> c[j] in b;
    }
  }

  lemma {:induction false} EdgeHitsAre(graph: Graph, input: Table, src: Col, k: nat, u: Value, edge: nat, from: nat)
    requires from <= |input|
    ensures
      var hits := EdgeHits(graph, input, src, k, u, edge, from);
      && NoDuplicates(hits)
      && forall h :: h in hits <==>
        h.source == u && h.edge == edge && from <= h.row < |input| && Walk(graph, Get(input[h.row], src), u, k)
    decreases |input| - from
  {
    hide Walk;
    if from < |input| {
      EdgeHitsAre(graph, input, src, k, u, edge, from + 1);
    }
  }

  lemma {:induction false} VertexHitsAre(graph: Graph, input: Table, src: Col, k: nat, u: Value, from: nat)
    requires from <= |graph(u)|
    ensures
      var hits := VertexHits(graph, input, src, k, u, from);
      && NoDuplicates(hits)
      && forall h :: h in hits <==>
        h.source == u && from <= h.edge < |graph(u)| && h.row < |input| && Walk(graph, Get(input[h.row], src), u, k)
    decreases |graph(u)| - from
  {
    hide Walk, EdgeHits;
    if from < |graph(u)| {
      VertexHitsAre(graph, input, src, k, u, from + 1);
      EdgeHitsAre(graph, input, src, k, u, from, 0);
      ApartConcat(EdgeHits(graph, input, src, k, u, from, 0), VertexHits(graph, input, src, k, u, from + 1));
    }
  }

  predicate HasVertex(frontier: Table, u: Value) {
    exists i :: 0 <= i < |frontier| && Get(frontier[i], Vid) == u
  }

  predicate VerticesDiffer(frontier: Table) {
    forall i, j :: 0 <= i < j < |frontier| ==> Get(frontier[i], Vid) != Get(frontier[j], Vid)
  }

  lemma {:induction false} FrontierHitsAre(graph: Graph, input: Table, src: Col, k: nat, frontier: Table)
    requires VerticesDiffer(frontier)
    ensures
      var hits := FrontierHits(graph, input, src, k, frontier);
      NoDuplicates(hits) && forall h :: h in hits <==> HasVertex(frontier, h.source) && IsHit(graph, input, src, k, h)
    decreases |frontier|
  {
    hide Walk, VertexHits;
    if frontier != [] {
      var u, rest := Get(frontier[0], Vid), frontier[1..];
      FrontierHitsAre(graph, input, src, k, rest);
      VertexHitsAre(graph, input, src, k, u, 0);
      assert !HasVertex(rest, u);
      ApartConcat(VertexHits(graph, input, src, k, u, 0), FrontierHits(graph, input, src, k, rest));
      forall v ensures HasVertex(frontier, v) <==> v == u || HasVertex(rest, v) {
        if HasVertex(rest, v) {
          var i :| 0 <= i < |rest| && Get(rest[i], Vid) == v;
          assert frontier[i + 1] == rest[i];
        }
        if HasVertex(frontier, v) {
          var i :| 0 <= i < |frontier| && Get(frontier[i], Vid) == v;
          assert i > 0 ==> rest[i - 1] == frontier[i];
        }
      }
    }
  }

  /** Every hit starts at the frontier. */
  lemma FrontierComplete(graph: Graph, input: Table, src: Col, k: nat, frontier: Table)
    requires FrontierOk(frontier, graph, input, src, k)
    ensures VerticesDiffer(frontier)
    ensures forall h :: IsHit(graph, input, src, k, h) ==> HasVertex(frontier, h.source)
  {
    hide Walk;
    forall i, j | 0 <= i < j < |frontier| ensures Get(frontier[i], Vid) != Get(frontier[j], Vid) {
      assert frontier[i] in frontier && frontier[j] in frontier;
      assert IsVidRow(frontier[i]) && IsVidRow(frontier[j]);
    }
    forall h | IsHit(graph, input, src, k, h) ensures HasVertex(frontier, h.source) {
      assert input[h.row] in input;
      assert IsStart(input, src, Get(input[h.row], src));
      assert Reached(graph, input, src, h.source, k);
      var i :| 0 <= i < |frontier| && frontier[i] == VidRow(h.source);
      assert Get(frontier[i], Vid) == h.source;
    }
  }

  // ---- The rows of the joins ----

  /** A joined row holds the properties of its edge and the columns of its input row. */
  ghost predicate Carries(graph: Graph, input: Table, h: Hit, row: Row) {
    && h.row < |input| && h.edge < |graph(h.source)|
    && Get(row, EDGE_COL) == graph(h.source)[h.edge].props
    && forall c: Col :: c.User? ==> Get(row, c) == Get(input[h.row], c)
  }

  ghost predicate AllCarry(graph: Graph, input: Table, hits: seq<Hit>, rows: Table) {
    |rows| == |hits| && forall i :: 0 <= i < |hits| ==> Carries(graph, input, hits[i], rows[i])
  }

  lemma CarryConcat(graph: Graph, input: Table, a: seq<Hit>, b: seq<Hit>, s: Table, t: Table)
    requires AllCarry(graph, input, a, s) && AllCarry(graph, input, b, t)
    ensures AllCarry(graph, input, a + b, s + t)
  {
    hide Carries;
  }

  /** The row of the edge, in the columns that the joins read. */
  predicate HoldsEdge(e: Row, u: Value, props: Value) {
    e == map[EDGE_COL := props, Vid := u]
  }

  /** The join of an edge and an input row: one row with both if the vertex is `k` edges from the start. */
  ghost predicate JoinsRows(graph: Graph, src: Col, k: nat, f: (Row, Row) -> seq<Row>) {
    forall e, r, u, props :: HoldsEdge(e, u, props) ==> JoinsRow(graph, src, k, f(e, r), r, u, props)
  }

  ghost predicate JoinsRow(graph: Graph, src: Col, k: nat, out: Table, r: Row, u: Value, props: Value) {
    if Walk(graph, Get(r, src), u, k) then
      |out| == 1 && Get(out[0], EDGE_COL) == props && forall c: Col :: c.User? ==> Get(out[0], c) == Get(r, c)
    else out == []
  }

  lemma {:induction false} EdgeCarries(graph: Graph, input: Table, src: Col, k: nat, f: (Row, Row) -> seq<Row>, e: Row,
                                       u: Value, edge: nat, from: nat)
    requires JoinsRows(graph, src, k, f) && from <= |input| && edge < |graph(u)|
    requires HoldsEdge(e, u, graph(u)[edge].props)
    ensures AllCarry(graph, input, EdgeHits(graph, input, src, k, u, edge, from), Pairs1(e, input[from..], f))
    decreases |input| - from
  {
    hide Walk;
    if from < |input| {
      EdgeCarries(graph, input, src, k, f, e, u, edge, from + 1);
      assert input[from..][1..] == input[from + 1..] && input[from..][0] == input[from];
      assert JoinsRow(graph, src, k, f(e, input[from]), input[from], u, graph(u)[edge].props);
      var first := if Walk(graph, Get(input[from], src), u, k) then [Hit(from, u, edge)] else [];
      assert AllCarry(graph, input, first, f(e, input[from]));
      CarryConcat(graph, input, first, EdgeHits(graph, input, src, k, u, edge, from + 1),
        f(e, input[from]), Pairs1(e, input[from + 1..], f));
    }
  }

  lemma {:induction false} VertexCarries(graph: Graph, input: Table, src: Col, k: nat, f: (Row, Row) -> seq<Row>,
                                         edges: Table, u: Value, from: nat)
    requires JoinsRows(graph, src, k, f) && from <= |graph(u)| == |edges|
    requires forall j :: 0 <= j < |edges| ==> HoldsEdge(edges[j], u, graph(u)[j].props)
    ensures AllCarry(graph, input, VertexHits(graph, input, src, k, u, from), Pairs(edges[from..], input, f))
    decreases |graph(u)| - from
  {
    hide Walk, JoinsRows, Carries;
    if from < |graph(u)| {
      VertexCarries(graph, input, src, k, f, edges, u, from + 1);
      EdgeCarries(graph, input, src, k, f, edges[from], u, from, 0);
      assert input[0..] == input && edges[from..][1..] == edges[from + 1..] && edges[from..][0] == edges[from];
      CarryConcat(graph, input, EdgeHits(graph, input, src, k, u, from, 0),
        VertexHits(graph, input, src, k, u, from + 1),
        Pairs1(edges[from], input, f), Pairs(edges[from + 1..], input, f));
    }
  }

  lemma LastEdgesFirst(graph: Graph, frontier: Table)
    requires frontier != []
    ensures
      var u := Get(frontier[0], Vid);
      LastEdges(graph, frontier) == ProjectTable(EDGE_COLS, EdgeRows(graph, u)) + LastEdges(graph, frontier[1..])
  {
    hide ProjectRow;
    var u := Get(frontier[0], Vid);
    assert NeighborsTable(graph, frontier, Vid) == EdgeRows(graph, u) + NeighborsTable(graph, frontier[1..], Vid);
  }

  lemma EdgesHeld(graph: Graph, u: Value)
    ensures
      var edges := ProjectTable(EDGE_COLS, EdgeRows(graph, u));
      |edges| == |graph(u)| && forall j :: 0 <= j < |edges| ==> HoldsEdge(edges[j], u, graph(u)[j].props)
  {
    var edges := ProjectTable(EDGE_COLS, EdgeRows(graph, u));
    forall j | 0 <= j < |edges| ensures HoldsEdge(edges[j], u, graph(u)[j].props) {
      ProjectTwo(EDGE_COLS[0], EDGE_COLS[1], EdgeRows(graph, u)[j]);
    }
  }

  lemma {:induction false} FrontierCarries(graph: Graph, input: Table, src: Col, k: nat, f: (Row, Row) -> seq<Row>,
                                           frontier: Table)
    requires JoinsRows(graph, src, k, f)
    ensures AllCarry(graph, input, FrontierHits(graph, input, src, k, frontier),
              Pairs(LastEdges(graph, frontier), input, f))
    decreases |frontier|
  {
    hide Walk, JoinsRows, LastEdges, ProjectTable, Carries, HoldsEdge;
    if frontier == [] {
      NoLastEdges(graph);
    } else {
      var u, rest := Get(frontier[0], Vid), frontier[1..];
      var edges := ProjectTable(EDGE_COLS, EdgeRows(graph, u));
      FrontierCarries(graph, input, src, k, f, rest);
      LastEdgesFirst(graph, frontier);
      EdgesHeld(graph, u);
      VertexCarries(graph, input, src, k, f, edges, u, 0);
      assert edges[0..] == edges;
      PairsConcat(edges, LastEdges(graph, rest), input, f);
      CarryConcat(graph, input, VertexHits(graph, input, src, k, u, 0), FrontierHits(graph, input, src, k, rest),
        Pairs(edges, input, f), Pairs(LastEdges(graph, rest), input, f));
    }
  }

  lemma NoLastEdges(graph: Graph)
    ensures LastEdges(graph, []) == []
  {
  }

  lemma TracedJoins(graph: Graph, src: Col, k: nat)
    requires src.User?
    ensures JoinsRows(graph, src, k, Answers(graph, src, k))
  {
    hide Walk;
  }

  lemma DirectJoins(graph: Graph, src: Col)
    requires src.User?
    ensures JoinsRows(graph, src, 0, Meet(Vid, src))
  {
  }

  // ---- The results ----

  lemma CarriedIsYielded(graph: Graph, input: Table, cols: seq<Yield>, h: Hit, row: Row)
    requires Carries(graph, input, h, row) && Yields(true, cols)
    ensures RowFor(graph, input, cols, h, ProjectRow(cols, row))
  {
    hide ProjectRow;
    ProjectRowAt(cols, row);
  }

  lemma ProjectPermuted(cols: seq<Yield>, s: Table, t: Table)
    requires multiset(s) == multiset(t)
    ensures multiset(ProjectTable(cols, s)) == multiset(ProjectTable(cols, t))
  {
    ProjectFlat(cols, s);
    ProjectFlat(cols, t);
    FlatMapPermuted(s, t, (row: Row) => [ProjectRow(cols, row)]);
  }

  lemma JoinsReturn(graph: Graph, input: Table, src: Col, k: nat, f: (Row, Row) -> seq<Row>, cols: seq<Yield>,
                    frontier: Table, joined: Table)
    requires FrontierOk(frontier, graph, input, src, k) && JoinsRows(graph, src, k, f) && Yields(true, cols)
    requires multiset(joined) == multiset(Pairs(LastEdges(graph, frontier), input, f))
    ensures Returns(graph, input, src, k, cols, ProjectTable(cols, joined))
  {
    hide FrontierOk, JoinsRows, LastEdges, Carries, Yields, RowFor, IsHit;
    var all := Pairs(LastEdges(graph, frontier), input, f);
    var hits := FrontierHits(graph, input, src, k, frontier);
    FrontierComplete(graph, input, src, k, frontier);
    FrontierHitsAre(graph, input, src, k, frontier);
    FrontierCarries(graph, input, src, k, f, frontier);
    ProjectPermuted(cols, joined, all);
    var rows := ProjectTable(cols, all);
    forall i | 0 <= i < |hits| ensures RowFor(graph, input, cols, hits[i], rows[i]) {
      CarriedIsYielded(graph, input, cols, hits[i], all[i]);
    }
    assert ReturnedBy(graph, input, src, k, cols, ProjectTable(cols, joined), rows, hits);
  }

  lemma OneStepReturns(store: Store, graph: Graph, src: Col, cols: seq<Yield>)
    requires src.User? && Yields(true, cols)
    ensures Returns(graph, Latest(store, Input), src, 0, cols, ProjectTable(cols, OneStep(store, graph, src)))
  {
    hide FrontierOk, LastEdges, Latest, OneStep, JoinsRows, Yields, Returns, ProjectTable;
    OneStepAnswers(store, graph, src);
    var input, out := Latest(store, Input), OneStep(store, graph, src);
    var t :| FrontierOk(t, graph, input, src, 0) && multiset(out) == multiset(DirectAnswer(graph, t, input, src));
    DirectJoins(graph, src);
    JoinsReturn(graph, input, src, 0, Meet(Vid, src), cols, t, out);
  }

  lemma NStepsReturn(store: Store, graph: Graph, src: Col, cols: seq<Yield>, k: nat)
    requires src.User? && Yields(true, cols) && k >= 2
    ensures Returns(graph, Latest(store, Input), src, k - 1, cols, ProjectTable(cols, NSteps(store, graph, src, k)))
  {
    hide FrontierOk, LastEdges, Latest, NSteps, JoinsRows, Yields, Returns, ProjectTable;
    GoNStepsAnswers(store, graph, src, k);
    var input, out := Latest(store, Input), NSteps(store, graph, src, k);
    var t :| FrontierOk(t, graph, input, src, k - 1) && multiset(out) == multiset(Answer(graph, t, input, src, k - 1));
    TracedJoins(graph, src, k - 1);
    JoinsReturn(graph, input, src, k - 1, Answers(graph, src, k - 1), cols, t, out);
  }

  /** What GO k STEPS returns. */
  lemma GoStepsReturn(store: Store, graph: Graph, src: Col, cols: seq<Yield>, k: nat)
    requires src.User? && Yields(true, cols) && k >= 1
    ensures Returns(graph, Latest(store, Input), src, k - 1, cols, ProjectTable(cols, GoSteps(store, graph, src, k)))
  {
    hide Latest, OneStep, NSteps, Yields, Returns, ProjectTable;
    if k == 1 {
      OneStepReturns(store, graph, src, cols);
    } else {
      NStepsReturn(store, graph, src, cols, k);
    }
  }

  /** What the k-th version of GO m TO n STEPS holds, for a sentence that names an input property. */
  lemma MToNReturns(store: Store, graph: Graph, src: Col, named: bool, cols: seq<Yield>, n: nat, k: nat)
    requires src.User? && InputOk(Latest(store, Input), src) && named && Yields(named, cols) && 1 <= k <= n
    requires History(store, Joined) == [] && History(store, Result) == []
    ensures
      var history := MToNHistory(store, graph, src, named, cols, n);
      |history| == n && Returns(graph, Latest(store, Input), src, k - 1, cols, history[k - 1])
  {
    hide Latest, MToNHistory, GoSteps, ProjectTable, Yields, InputOk, IsHit, RowFor;
    MToNIsEachStep(store, graph, src, named, cols, n, k);
    GoStepsReturn(store, graph, src, cols, k);
    var input, out := Latest(store, Input), ProjectTable(cols, GoSteps(store, graph, src, k));
    var rows, hits :| ReturnedBy(graph, input, src, k - 1, cols, out, rows, hits);
    var version := MToNHistory(store, graph, src, named, cols, n)[k - 1];
    assert ReturnedBy(graph, input, src, k - 1, cols, version, rows, hits);
  }

  /** GO n STEPS. */
  method GoNSteps(ectx: ExecutionContext<Var, Table>, graph: Graph, src: Col, cols: seq<Yield>, steps: nat)
    returns (out: Table)
    requires ectx.Ok() && steps >= 1
    modifies ectx
    ensures ectx.Ok() && out == ProjectTable(cols, GoSteps(old(ectx.values), graph, src, steps))
    ensures src.User? && Yields(true, cols) ==>
      Returns(graph, old(Latest(ectx.values, Input)), src, steps - 1, cols, out)
  {
    hide ExecAll, Rounds, RuntimeInput, OneStepNodes, BeforeLoop, StepBody, LastStep, Suffix, Returns, Yields;
    if src.User? && Yields(true, cols) {
      GoStepsReturn(ectx.values, graph, src, cols, steps);
    }
    if steps == 1 {
      RunAll(ectx, graph, RuntimeInput(src));
      RunAll(ectx, graph, OneStepNodes(src));
    } else {
      RunAll(ectx, graph, BeforeLoop(src));
      RunLoop(ectx, graph, StepBody(src), steps - 1);
      RunAll(ectx, graph, LastStep(src));
    }
    LatestAfterWrite(ectx.values, Result, ProjectTable(cols, Latest(ectx.values, Joined)), Result);
    RunNode(ectx, graph, ProjectNode(Joined, cols, Result));
    out := ReadVar(ectx, Read(Result, LATEST));
  }
}
