/** How many rows GO m TO n STEPS returns when the sentence names no input property. */
module GoRowCounts {
  import opened Bags
  import opened VersionedValues
  import opened Tables
  import opened PlanInterpreter
  import opened GoPlan
  import opened GoWalks
  import opened GoAnswers
  import opened GoTheorems

  // ---- The size of an answer ----

  /** The number of input rows whose start is `k` edges before `u`. */
  ghost function Hits(graph: Graph, input: Table, src: Col, u: Value, k: nat): nat
    decreases |input|
  {
    if input == [] then 0
    else (if Walk(graph, Get(input[0], src), u, k) then 1 else 0) + Hits(graph, input[1..], src, u, k)
  }

  ghost function TotalHits(graph: Graph, edges: Table, input: Table, src: Col, k: nat): nat
    decreases |edges|
  {
    if edges == [] then 0
    else Hits(graph, input, src, Get(edges[0], Vid), k) + TotalHits(graph, edges[1..], input, src, k)
  }

  /** `f` gives one row for each input row whose start is `k` edges before the edge, and no other. */
  ghost predicate OnePerHit(graph: Graph, src: Col, k: nat, f: (Row, Row) -> seq<Row>) {
    forall e, r :: |f(e, r)| == if Walk(graph, Get(r, src), Get(e, Vid), k) then 1 else 0
  }

  lemma {:induction false} Pairs1Size(graph: Graph, e: Row, input: Table, src: Col, k: nat, f: (Row, Row) -> seq<Row>)
    requires OnePerHit(graph, src, k, f)
    ensures |Pairs1(e, input, f)| == Hits(graph, input, src, Get(e, Vid), k)
    decreases |input|
  {
    if input != [] {
      Pairs1Size(graph, e, input[1..], src, k, f);
    }
  }

  lemma {:induction false} PairsSize(graph: Graph, edges: Table, input: Table, src: Col, k: nat,
                                     f: (Row, Row) -> seq<Row>)
    requires OnePerHit(graph, src, k, f)
    ensures |Pairs(edges, input, f)| == TotalHits(graph, edges, input, src, k)
    decreases |edges|
  {
    hide OnePerHit;
    if edges != [] {
      PairsSize(graph, edges[1..], input, src, k, f);
      Pairs1Size(graph, edges[0], input, src, k, f);
    }
  }

  lemma SameSize(s: Table, t: Table)
    requires multiset(s) == multiset(t)
    ensures |s| == |t|
  {
    assert |multiset(s)| == |s| && |multiset(t)| == |t|;
  }

  lemma AnswerSize(out: Table, frontier: Table, graph: Graph, input: Table, src: Col, k: nat)
    requires IsAnswer(out, graph, input, src, k) && FrontierOk(frontier, graph, input, src, k)
    ensures |out| == TotalHits(graph, LastEdges(graph, frontier), input, src, k)
  {
    hide FrontierOk, LastEdges, Walk;
    var answer := Answer(graph, frontier, input, src, k);
    assert IsAnswer(answer, graph, input, src, k);
    AnswerUnique(out, answer, graph, input, src, k);
    SameSize(out, answer);
    PairsSize(graph, LastEdges(graph, frontier), input, src, k, Answers(graph, src, k));
  }

  lemma DirectSize(out: Table, frontier: Table, graph: Graph, input: Table, src: Col)
    requires IsDirectAnswer(out, graph, input, src) && FrontierOk(frontier, graph, input, src, 0)
    ensures |out| == TotalHits(graph, LastEdges(graph, frontier), input, src, 0)
  {
    hide FrontierOk, LastEdges;
    var t :| FrontierOk(t, graph, input, src, 0) && multiset(out) == multiset(DirectAnswer(graph, t, input, src));
    FrontierUnique(t, frontier, graph, input, src, 0);
    LastEdgesPermuted(graph, t, frontier);
    PairsPermuted(LastEdges(graph, t), LastEdges(graph, frontier), input, Meet(Vid, src));
    SameSize(out, DirectAnswer(graph, frontier, input, src));
    PairsSize(graph, LastEdges(graph, frontier), input, src, 0, Meet(Vid, src));
  }

  /** The number of rows of GO k STEPS. */
  lemma StepsSize(store: Store, graph: Graph, src: Col, k: nat)
    requires src.User? && k >= 1
    ensures
      var input := Latest(store, Input);
      var edges := LastEdges(graph, FrontierAt(graph, input, src, k - 1));
      |GoSteps(store, graph, src, k)| == TotalHits(graph, edges, input, src, k - 1)
  {
    hide FrontierOk, FrontierAt, LastEdges, IsAnswer, IsDirectAnswer, OneStep, NSteps, Latest, TotalHits;
    var input := Latest(store, Input);
    FrontierAtOk(graph, input, src, k - 1);
    var frontier := FrontierAt(graph, input, src, k - 1);
    if k == 1 {
      OneStepAnswers(store, graph, src);
      DirectSize(OneStep(store, graph, src), frontier, graph, input, src);
    } else {
      GoNStepsAnswers(store, graph, src, k);
      AnswerSize(NSteps(store, graph, src, k), frontier, graph, input, src, k - 1);
    }
  }

  // ---- When there is one input row for each edge ----

  /** No vertex that has an edge is `k` edges from the starts of two input rows. */
  ghost predicate OneRowEach(graph: Graph, input: Table, src: Col, k: nat) {
    forall u, i, j :: 0 <= i < j < |input| && graph(u) != [] ==>
      !(Walk(graph, Get(input[i], src), u, k) && Walk(graph, Get(input[j], src), u, k))
  }

  lemma {:induction false} HitsNone(graph: Graph, input: Table, src: Col, u: Value, k: nat)
    ensures Hits(graph, input, src, u, k) == 0 <==>
            forall i :: 0 <= i < |input| ==> !Walk(graph, Get(input[i], src), u, k)
    decreases |input|
  {
    hide Walk;
    if input != [] {
      HitsNone(graph, input[1..], src, u, k);
      assert forall i :: 0 <= i < |input| - 1 ==> input[1..][i] == input[i + 1];
      if Hits(graph, input, src, u, k) == 0 {
        forall i | 0 <= i < |input| ensures !Walk(graph, Get(input[i], src), u, k) {
          assert i > 0 ==> input[i] == input[1..][i - 1];
        }
      }
    }
  }

  ghost predicate TwoHits(graph: Graph, input: Table, src: Col, u: Value, k: nat) {
    exists i, j :: 0 <= i < j < |input|
      && Walk(graph, Get(input[i], src), u, k) && Walk(graph, Get(input[j], src), u, k)
  }

  lemma {:induction false} HitsMany(graph: Graph, input: Table, src: Col, u: Value, k: nat)
    ensures Hits(graph, input, src, u, k) >= 2 <==> TwoHits(graph, input, src, u, k)
    decreases |input|
  {
    hide Walk;
    if input != [] {
      var rest := input[1..];
      HitsMany(graph, rest, src, u, k);
      HitsNone(graph, rest, src, u, k);
      if TwoHits(graph, rest, src, u, k) {
        var i, j :| 0 <= i < j < |rest| &&
          Walk(graph, Get(rest[i], src), u, k) && Walk(graph, Get(rest[j], src), u, k);
        assert rest[i] == input[i + 1] && rest[j] == input[j + 1];
      }
      if i :| 0 <= i < |rest| && Walk(graph, Get(rest[i], src), u, k) {
        assert rest[i] == input[i + 1] && input[0] == input[0];
      }
      if TwoHits(graph, input, src, u, k) {
        var i, j :| 0 <= i < j < |input| &&
          Walk(graph, Get(input[i], src), u, k) && Walk(graph, Get(input[j], src), u, k);
        assert input[j] == rest[j - 1] && (i > 0 ==> input[i] == rest[i - 1]);
      }
    }
  }

  lemma {:induction false} TotalAtLeast(graph: Graph, edges: Table, input: Table, src: Col, k: nat)
    requires forall i :: 0 <= i < |edges| ==> Hits(graph, input, src, Get(edges[i], Vid), k) >= 1
    ensures TotalHits(graph, edges, input, src, k) >= |edges|
    ensures TotalHits(graph, edges, input, src, k) == |edges| <==>
            forall i :: 0 <= i < |edges| ==> Hits(graph, input, src, Get(edges[i], Vid), k) == 1
    decreases |edges|
  {
    hide Hits;
    if edges != [] {
      var rest := edges[1..];
      assert forall i :: 0 <= i < |rest| ==> rest[i] == edges[i + 1];
      TotalAtLeast(graph, rest, input, src, k);
      if TotalHits(graph, edges, input, src, k) == |edges| {
        forall i | 0 <= i < |edges| ensures Hits(graph, input, src, Get(edges[i], Vid), k) == 1 {
          assert i > 0 ==> edges[i] == rest[i - 1];
        }
      }
    }
  }

  lemma SourceOfEdge(graph: Graph, input: Table, src: Col, k: nat, i: nat)
    requires i < |EdgesAt(graph, input, src, k)|
    ensures
      var edges := LastEdges(graph, FrontierAt(graph, input, src, k));
      && |edges| == |EdgesAt(graph, input, src, k)|
      && var u := Get(edges[i], Vid);
      && graph(u) != [] && Reached(graph, input, src, u, k)
  {
    hide FrontierAt, NeighborsTable, Reached;
    var frontier, near := FrontierAt(graph, input, src, k), EdgesAt(graph, input, src, k);
    FrontierAtOk(graph, input, src, k);
    NeighborsIn(graph, frontier, Vid, near[i]);
    var r, e :| r in frontier && IsEdge(graph, Get(r, Vid), e) && near[i] == EdgeRow(Get(r, Vid), e);
    ProjectTwo(EDGE_COLS[0], EDGE_COLS[1], near[i]);
    assert IsVidRow(r) && VidRow(Get(r, Vid)) in frontier;
  }

  lemma EdgeOfSource(graph: Graph, input: Table, src: Col, k: nat, u: Value) returns (i: nat)
    requires Reached(graph, input, src, u, k) && graph(u) != []
    ensures
      var edges := LastEdges(graph, FrontierAt(graph, input, src, k));
      i < |edges| && Get(edges[i], Vid) == u
  {
    hide FrontierAt, NeighborsTable, Reached;
    var frontier, near := FrontierAt(graph, input, src, k), EdgesAt(graph, input, src, k);
    FrontierAtOk(graph, input, src, k);
    assert VidRow(u) in frontier && Get(VidRow(u), Vid) == u && IsEdge(graph, u, graph(u)[0]);
    NeighborsIn(graph, frontier, Vid, EdgeRow(u, graph(u)[0]));
    i :| i < |near| && near[i] == EdgeRow(u, graph(u)[0]);
    ProjectTwo(EDGE_COLS[0], EDGE_COLS[1], near[i]);
  }

  lemma ReachedIsHit(graph: Graph, input: Table, src: Col, u: Value, k: nat)
    ensures Reached(graph, input, src, u, k) <==> Hits(graph, input, src, u, k) >= 1
  {
    hide Walk;
    HitsNone(graph, input, src, u, k);
    if s :| IsStart(input, src, s) && Walk(graph, s, u, k) {
      var r :| r in input && Get(r, src) == s;
      var i :| 0 <= i < |input| && input[i] == r;
      assert Walk(graph, Get(input[i], src), u, k);
    }
    if i :| 0 <= i < |input| && Walk(graph, Get(input[i], src), u, k) {
      assert input[i] in input && IsStart(input, src, Get(input[i], src));
    }
  }

  lemma OneHitEach(graph: Graph, input: Table, src: Col, k: nat)
    ensures
      var edges := LastEdges(graph, FrontierAt(graph, input, src, k));
      OneRowEach(graph, input, src, k) <==>
      forall i :: 0 <= i < |edges| ==> Hits(graph, input, src, Get(edges[i], Vid), k) == 1
  {
    hide Walk, Hits, FrontierAt, NeighborsTable, Reached;
    var edges := LastEdges(graph, FrontierAt(graph, input, src, k));
    if OneRowEach(graph, input, src, k) {
      forall i | 0 <= i < |edges| ensures Hits(graph, input, src, Get(edges[i], Vid), k) == 1 {
        SourceOfEdge(graph, input, src, k, i);
        ReachedIsHit(graph, input, src, Get(edges[i], Vid), k);
        HitsMany(graph, input, src, Get(edges[i], Vid), k);
      }
    } else {
      var u, i, j :| 0 <= i < j < |input| && graph(u) != [] &&
        Walk(graph, Get(input[i], src), u, k) && Walk(graph, Get(input[j], src), u, k);
      HitsMany(graph, input, src, u, k);
      ReachedIsHit(graph, input, src, u, k);
      var e := EdgeOfSource(graph, input, src, k, u);
      assert Hits(graph, input, src, Get(edges[e], Vid), k) != 1;
    }
  }

  /** Without an input property, the k-th version of GO m TO n STEPS has at most as many rows as GO k
      STEPS returns, and as many exactly when no vertex that has an edge is k - 1 edges from the
      starts of two input rows. */
  lemma PlainRowCount(store: Store, graph: Graph, src: Col, named: bool, cols: seq<Yield>, n: nat, k: nat)
    requires src.User? && !named && History(store, Result) == [] && 1 <= k <= n
    ensures
      var history := MToNHistory(store, graph, src, named, cols, n);
      && |history| == n && |history[k - 1]| <= |GoSteps(store, graph, src, k)|
      && (|history[k - 1]| == |GoSteps(store, graph, src, k)| <==>
            OneRowEach(graph, Latest(store, Input), src, k - 1))
  {
    hide Walk, Hits, TotalHits, FrontierAt, NeighborsTable, Reached, OneRowEach, MToNHistory, GoSteps, FrontierOk;
    hide Latest;
    var input := Latest(store, Input);
    PlainIsEdges(store, graph, src, named, cols, n, k);
    StepsSize(store, graph, src, k);
    var edges := LastEdges(graph, FrontierAt(graph, input, src, k - 1));
    forall i | 0 <= i < |edges| ensures Hits(graph, input, src, Get(edges[i], Vid), k - 1) >= 1 {
      SourceOfEdge(graph, input, src, k - 1, i);
      ReachedIsHit(graph, input, src, Get(edges[i], Vid), k - 1);
    }
    TotalAtLeast(graph, edges, input, src, k - 1);
    OneHitEach(graph, input, src, k - 1);
  }

  // ---- Two rows with the same start ----

  const ID: Col := User("id")

  function OneEdgeGraph(): Graph {
    (v: Value) => if v == Val(1) then [Edge(Val(2), Val(7))] else []
  }

  function TwoRows(): Store {
    map[Input := [[map[ID := Val(1)], map[ID := Val(1)]]]]
  }

  /** Two input rows with the same start and one edge: GO 1 STEPS returns two rows, and the first
      version of GO m TO n STEPS without an input property holds one. */
  lemma TwoRowsOneEdge(cols: seq<Yield>, n: nat)
    requires n >= 1
    ensures |GoSteps(TwoRows(), OneEdgeGraph(), ID, 1)| == 2
    ensures
      var history := MToNHistory(TwoRows(), OneEdgeGraph(), ID, false, cols, n);
      |history| == n && |history[0]| == 1
  {
    hide MToNHistory, GoSteps, FrontierOk, FrontierAt, NeighborsTable;
    var store, graph := TwoRows(), OneEdgeGraph();
    var input := [map[ID := Val(1)], map[ID := Val(1)]];
    assert Latest(store, Input) == input by { VersionBack(History(store, Input), 0); }
    PlainIsEdges(store, graph, ID, false, cols, n, 1);
    OnlyStart();
    StepsSize(store, graph, ID, 1);
    var edges := LastEdges(graph, FrontierAt(graph, input, ID, 0));
    SourceOfEdge(graph, input, ID, 0, 0);
    assert Get(edges[0], Vid) == Val(1);
    assert input[1..] == [map[ID := Val(1)]] && input[1..][1..] == [];
    assert Hits(graph, input, ID, Val(1), 0) == 2;
    assert edges[1..] == [];
  }

  lemma OnlyStart()
    ensures |EdgesAt(OneEdgeGraph(), [map[ID := Val(1)], map[ID := Val(1)]], ID, 0)| == 1
  {
    var graph := OneEdgeGraph();
    var input := [map[ID := Val(1)], map[ID := Val(1)]];
    var frontier := FrontierAt(graph, input, ID, 0);
    FrontierAtOk(graph, input, ID, 0);
    assert IsStart(input, ID, Val(1)) by { assert input[0] in input; }
    assert VidRow(Val(1)) in frontier;
    forall row | row in frontier ensures row == VidRow(Val(1)) {
      assert IsVidRow(row);
      assert Reached(graph, input, ID, Get(row, Vid), 0);
    }
    OnlyOne(frontier, VidRow(Val(1)));
    assert NeighborsTable(graph, [VidRow(Val(1))], Vid) == EdgeRows(graph, Val(1));
  }

  lemma OnlyOne(t: Table, row: Row)
    requires NoDuplicates(t) && row in t && forall other :: other in t ==> other == row
    ensures t == [row]
  {
    SameElements(t, [row]);
    SameSize(t, [row]);
    assert t[0] in t;
  }
}
