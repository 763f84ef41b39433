/** Walks in the graph, and the tables that describe them. */
module GoWalks {
  import opened Bags
  import opened Tables
  import opened GoPlan

  ghost predicate HasEdge(graph: Graph, u: Value, v: Value) {
    exists e :: IsEdge(graph, u, e) && e.dst == v
  }

  /** There is a walk of exactly `k` edges. */
  ghost predicate Walk(graph: Graph, s: Value, v: Value, k: nat)
    decreases k
  {
    if k == 0 then s == v else exists u :: Walk(graph, s, u, k - 1) && HasEdge(graph, u, v)
  }

  ghost predicate IsStart(input: Table, src: Col, s: Value) {
    exists r :: r in input && Get(r, src) == s
  }

  ghost predicate Reached(graph: Graph, input: Table, src: Col, v: Value, k: nat) {
    exists s :: IsStart(input, src, s) && Walk(graph, s, v, k)
  }

  function VidRow(v: Value): Row {
    map[Vid := v]
  }

  function TraceRow(src: Col, s: Value, v: Value): Row {
    map[src := s, DST_VID := v]
  }

  predicate IsVidRow(row: Row) {
    row == VidRow(Get(row, Vid))
  }

  predicate IsTraceRow(src: Col, row: Row) {
    row == TraceRow(src, Get(row, src), Get(row, DST_VID))
  }

  /** The vertices that are `k` edges from a start, each once. */
  ghost predicate FrontierOk(t: Table, graph: Graph, input: Table, src: Col, k: nat) {
    && NoDuplicates(t) && (forall row :: row in t ==> IsVidRow(row))
    && forall v :: VidRow(v) in t <==> Reached(graph, input, src, v, k)
  }

  /** The pairs of a start and a vertex `k` edges from it, each once. */
  ghost predicate TraceOk(t: Table, graph: Graph, input: Table, src: Col, k: nat) {
    && NoDuplicates(t) && (forall row :: row in t ==> IsTraceRow(src, row))
    && forall s, v :: TraceRow(src, s, v) in t <==> IsStart(input, src, s) && Walk(graph, s, v, k)
  }

  // ---- Membership in projected tables ----

  lemma ProjectIn(cols: seq<Yield>, t: Table, row: Row)
    ensures row in ProjectTable(cols, t) <==> exists r :: r in t && row == ProjectRow(cols, r)
  {
    if r :| r in t && row == ProjectRow(cols, r) {
      var i :| 0 <= i < |t| && t[i] == r;
      assert ProjectTable(cols, t)[i] == row;
    }
  }

  function NextFrontier(graph: Graph, frontier: Table): Table {
    DedupTable(ProjectTable([Yield(Dst, Vid)], NeighborsTable(graph, frontier, Vid)))
  }

  function SourcesAndEnds(graph: Graph, frontier: Table): Table {
    DedupTable(ProjectTable([Yield(Dst, Vid), Yield(Vid, SRC_VID)], NeighborsTable(graph, frontier, Vid)))
  }

  lemma NextFrontierIn(graph: Graph, frontier: Table, row: Row)
    ensures row in NextFrontier(graph, frontier) <==>
            exists r, e :: r in frontier && IsEdge(graph, Get(r, Vid), e) && row == VidRow(e.dst)
  {
    var near := NeighborsTable(graph, frontier, Vid);
    DedupKeeps(ProjectTable([Yield(Dst, Vid)], near));
    ProjectIn([Yield(Dst, Vid)], near, row);
    if n :| n in near && row == ProjectRow([Yield(Dst, Vid)], n) {
      ProjectOne(Yield(Dst, Vid), n);
      NeighborsIn(graph, frontier, Vid, n);
    }
    if r, e :| r in frontier && IsEdge(graph, Get(r, Vid), e) && row == VidRow(e.dst) {
      var n := EdgeRow(Get(r, Vid), e);
      NeighborsIn(graph, frontier, Vid, n);
      ProjectOne(Yield(Dst, Vid), n);
    }
  }

  function EndRow(u: Value, e: Edge): Row {
    map[Vid := e.dst, SRC_VID := u]
  }

  lemma SourcesAndEndsIn(graph: Graph, frontier: Table, row: Row)
    ensures row in SourcesAndEnds(graph, frontier) <==>
            exists r, e :: r in frontier && IsEdge(graph, Get(r, Vid), e) && row == EndRow(Get(r, Vid), e)
  {
    var near := NeighborsTable(graph, frontier, Vid);
    var cols := [Yield(Dst, Vid), Yield(Vid, SRC_VID)];
    DedupKeeps(ProjectTable(cols, near));
    ProjectIn(cols, near, row);
    if n :| n in near && row == ProjectRow(cols, n) {
      ProjectTwo(cols[0], cols[1], n);
      NeighborsIn(graph, frontier, Vid, n);
    }
    if r, e :| r in frontier && IsEdge(graph, Get(r, Vid), e) && row == EndRow(Get(r, Vid), e) {
      var n := EdgeRow(Get(r, Vid), e);
      NeighborsIn(graph, frontier, Vid, n);
      ProjectTwo(cols[0], cols[1], n);
    }
  }

  // ---- One round ----

  /** The frontier moves along every edge. */
  lemma FrontierStep(t: Table, graph: Graph, input: Table, src: Col, k: nat)
    requires FrontierOk(t, graph, input, src, k)
    ensures FrontierOk(NextFrontier(graph, t), graph, input, src, k + 1)
  {
    var next := NextFrontier(graph, t);
    DedupKeeps(ProjectTable([Yield(Dst, Vid)], NeighborsTable(graph, t, Vid)));
    forall row | row in next ensures IsVidRow(row) {
      NextFrontierIn(graph, t, row);
    }
    forall v ensures VidRow(v) in next <==> Reached(graph, input, src, v, k + 1) {
      NextFrontierIn(graph, t, VidRow(v));
      if r, e :| r in t && IsEdge(graph, Get(r, Vid), e) && VidRow(v) == VidRow(e.dst) {
        assert VidRow(v)[Vid] == VidRow(e.dst)[Vid];
        assert IsVidRow(r);
        var u := Get(r, Vid);
        var s :| IsStart(input, src, s) && Walk(graph, s, u, k);
        assert HasEdge(graph, u, v);
        assert Walk(graph, s, v, k + 1);
      }
      if s :| IsStart(input, src, s) && Walk(graph, s, v, k + 1) {
        var u :| Walk(graph, s, u, k) && HasEdge(graph, u, v);
        var e :| IsEdge(graph, u, e) && e.dst == v;
        assert Reached(graph, input, src, u, k);
        assert VidRow(u) in t && Get(VidRow(u), Vid) == u;
      }
    }
  }

  function NextTrace(graph: Graph, frontier: Table, trace: Table, src: Col): Table {
    DedupTable(ProjectTable([Yield(src, src), Yield(Vid, DST_VID)],
                            JoinTable(trace, SourcesAndEnds(graph, frontier), DST_VID, SRC_VID)))
  }

  lemma NextTraceIn(graph: Graph, frontier: Table, trace: Table, src: Col, row: Row)
    ensures row in NextTrace(graph, frontier, trace, src) <==>
            exists l, r, e :: l in trace && r in frontier && IsEdge(graph, Get(r, Vid), e) && Extends(src, l, r, e, row)
  {
    var ends := SourcesAndEnds(graph, frontier);
    var joined := JoinTable(trace, ends, DST_VID, SRC_VID);
    var cols := [Yield(src, src), Yield(Vid, DST_VID)];
    DedupKeeps(ProjectTable(cols, joined));
    ProjectIn(cols, joined, row);
    if j :| j in joined && row == ProjectRow(cols, j) {
      ProjectTwo(cols[0], cols[1], j);
      JoinIn(trace, ends, DST_VID, SRC_VID, j);
      var l, end :| l in trace && end in ends && Joins(l, end, DST_VID, SRC_VID, j);
      SourcesAndEndsIn(graph, frontier, end);
      var r, e :| r in frontier && IsEdge(graph, Get(r, Vid), e) && end == EndRow(Get(r, Vid), e);
      assert Extends(src, l, r, e, row);
    }
    if l, r, e :| l in trace && r in frontier && IsEdge(graph, Get(r, Vid), e) && Extends(src, l, r, e, row) {
      var end := EndRow(Get(r, Vid), e);
      SourcesAndEndsIn(graph, frontier, end);
      var j := end + l;
      assert Joins(l, end, DST_VID, SRC_VID, j);
      JoinIn(trace, ends, DST_VID, SRC_VID, j);
      ProjectTwo(cols[0], cols[1], j);
    }
  }

  /** A trace row and an edge from where it ends give a longer trace row. */
  predicate Extends(src: Col, l: Row, r: Row, e: Edge, row: Row) {
    && Get(l, DST_VID) == Get(r, Vid)
    && row == TraceRow(src, Get(EndRow(Get(r, Vid), e) + l, src), Get(EndRow(Get(r, Vid), e) + l, Vid))
  }

  lemma ExtendsRow(src: Col, s: Value, u: Value, e: Edge, row: Row)
    requires src.User?
    ensures Extends(src, TraceRow(src, s, u), VidRow(u), e, row) <==> row == TraceRow(src, s, e.dst)
  {
  }

  lemma TraceStep(frontier: Table, trace: Table, graph: Graph, input: Table, src: Col, k: nat)
    requires FrontierOk(frontier, graph, input, src, k) && TraceOk(trace, graph, input, src, k) && src.User?
    ensures TraceOk(NextTrace(graph, frontier, trace, src), graph, input, src, k + 1)
  {
    var next := NextTrace(graph, frontier, trace, src);
    DedupKeeps(ProjectTable([Yield(src, src), Yield(Vid, DST_VID)],
      JoinTable(trace, SourcesAndEnds(graph, frontier), DST_VID, SRC_VID)));
    forall row | row in next ensures IsTraceRow(src, row) {
      NextTraceIn(graph, frontier, trace, src, row);
    }
    forall s, v ensures TraceRow(src, s, v) in next <==> IsStart(input, src, s) && Walk(graph, s, v, k + 1) {
      NextTraceIn(graph, frontier, trace, src, TraceRow(src, s, v));
      TraceStepRow(frontier, trace, graph, input, src, k, s, v);
    }
  }

  lemma TraceStepRow(frontier: Table, trace: Table, graph: Graph, input: Table, src: Col, k: nat, s: Value, v: Value)
    requires FrontierOk(frontier, graph, input, src, k) && TraceOk(trace, graph, input, src, k) && src.User?
    ensures (exists l, r, e ::
      l in trace && r in frontier && IsEdge(graph, Get(r, Vid), e) && Extends(src, l, r, e, TraceRow(src, s, v)))
       <==> (IsStart(input, src, s) && Walk(graph, s, v, k + 1))
  {
    hide FrontierOk, TraceOk, IsStart, Walk, Extends;
    if l, r, e :|
      l in trace && r in frontier && IsEdge(graph, Get(r, Vid), e) && Extends(src, l, r, e, TraceRow(src, s, v)) {
      ExtendedWalk(frontier, trace, graph, input, src, k, s, v, l, r, e);
    }
    if IsStart(input, src, s) && Walk(graph, s, v, k + 1) {
      var l, r, e := WalkExtended(frontier, trace, graph, input, src, k, s, v);
    }
  }

  lemma ExtendedWalk(frontier: Table, trace: Table, graph: Graph, input: Table, src: Col, k: nat, s: Value, v: Value,
                     l: Row, r: Row, e: Edge)
    requires FrontierOk(frontier, graph, input, src, k) && TraceOk(trace, graph, input, src, k) && src.User?
    requires l in trace && r in frontier && IsEdge(graph, Get(r, Vid), e) && Extends(src, l, r, e, TraceRow(src, s, v))
    ensures IsStart(input, src, s) && Walk(graph, s, v, k + 1)
  {
    var u := Get(r, Vid);
    assert IsTraceRow(src, l) && IsVidRow(r);
    var t := Get(l, src);
    ExtendsRow(src, t, u, e, TraceRow(src, s, v));
    assert TraceRow(src, s, v)[src] == TraceRow(src, t, e.dst)[src];
    assert TraceRow(src, s, v)[DST_VID] == TraceRow(src, t, e.dst)[DST_VID];
    assert HasEdge(graph, u, v);
    assert Walk(graph, s, u, k);
  }

  lemma WalkExtended(frontier: Table, trace: Table, graph: Graph, input: Table, src: Col, k: nat, s: Value, v: Value)
    returns (l: Row, r: Row, e: Edge)
    requires FrontierOk(frontier, graph, input, src, k) && TraceOk(trace, graph, input, src, k) && src.User?
    requires IsStart(input, src, s) && Walk(graph, s, v, k + 1)
    ensures l in trace && r in frontier && IsEdge(graph, Get(r, Vid), e) && Extends(src, l, r, e, TraceRow(src, s, v))
  {
    var u :| Walk(graph, s, u, k) && HasEdge(graph, u, v);
    e :| IsEdge(graph, u, e) && e.dst == v;
    assert Reached(graph, input, src, u, k);
    l, r := TraceRow(src, s, u), VidRow(u);
    assert l in trace && r in frontier && Get(r, Vid) == u;
    ExtendsRow(src, s, u, e, TraceRow(src, s, v));
  }

  // ---- Before the loop ----

  lemma FirstFrontier(graph: Graph, input: Table, src: Col)
    ensures FrontierOk(DedupTable(ProjectTable([Yield(src, Vid)], input)), graph, input, src, 0)
  {
    var t := DedupTable(ProjectTable([Yield(src, Vid)], input));
    DedupKeeps(ProjectTable([Yield(src, Vid)], input));
    forall row ensures row in t <==> exists r :: r in input && row == VidRow(Get(r, src)) {
      ProjectIn([Yield(src, Vid)], input, row);
      forall r ensures ProjectRow([Yield(src, Vid)], r) == VidRow(Get(r, src)) { ProjectOne(Yield(src, Vid), r); }
    }
    forall v ensures VidRow(v) in t <==> Reached(graph, input, src, v, 0) {
      if r :| r in input && VidRow(v) == VidRow(Get(r, src)) {
        assert VidRow(v)[Vid] == VidRow(Get(r, src))[Vid];
        assert IsStart(input, src, v) && Walk(graph, v, v, 0);
      }
    }
  }

  lemma FirstTrace(graph: Graph, input: Table, src: Col)
    requires src.User?
    ensures TraceOk(DedupTable(ProjectTable([Yield(src, src), Yield(src, DST_VID)], input)), graph, input, src, 0)
  {
    var cols := [Yield(src, src), Yield(src, DST_VID)];
    var t := DedupTable(ProjectTable(cols, input));
    DedupKeeps(ProjectTable(cols, input));
    forall row ensures row in t <==> exists r :: r in input && row == TraceRow(src, Get(r, src), Get(r, src)) {
      ProjectIn(cols, input, row);
      forall r ensures ProjectRow(cols, r) == TraceRow(src, Get(r, src), Get(r, src)) {
        ProjectTwo(cols[0], cols[1], r);
      }
    }
    forall s, v ensures TraceRow(src, s, v) in t <==> IsStart(input, src, s) && Walk(graph, s, v, 0) {
      if r :| r in input && TraceRow(src, s, v) == TraceRow(src, Get(r, src), Get(r, src)) {
        assert TraceRow(src, s, v)[src] == Get(r, src) && TraceRow(src, s, v)[DST_VID] == Get(r, src);
      }
    }
  }
}

/** The last joins: one row for each input row and each last edge. */
module GoAnswers {
  import opened Bags
  import opened Tables
  import opened GoPlan
  import opened GoWalks

  /** The edges that leave the frontier, with their sources. */
  function LastEdges(graph: Graph, frontier: Table): Table {
    ProjectTable(EDGE_COLS, NeighborsTable(graph, frontier, Vid))
  }

  function JoinedTable(edges: Table, trace: Table, input: Table, src: Col): Table {
    JoinTable(JoinTable(edges, trace, Vid, DST_VID), input, src, src)
  }

  /** The row for edge `e` and input row `r`. */
  function AnswerRow(src: Col, e: Row, r: Row): Row {
    r + (TraceRow(src, Get(r, src), Get(e, Vid)) + e)
  }

  ghost function Answers(graph: Graph, src: Col, k: nat): (Row, Row) -> seq<Row> {
    (e: Row, r: Row) => if Walk(graph, Get(r, src), Get(e, Vid), k) then [AnswerRow(src, e, r)] else []
  }

  /** For each last edge, each input row whose start is `k` edges before the edge, once. */
  ghost function Answer(graph: Graph, frontier: Table, input: Table, src: Col, k: nat): Table {
    Pairs(LastEdges(graph, frontier), input, Answers(graph, src, k))
  }

  predicate NoSuchColumn(edges: Table, src: Col) {
    forall i :: 0 <= i < |edges| ==> src !in edges[i]
  }

  /** Among the traces of one edge, at most one belongs to the start of `r`. */
  lemma {:induction false} OneTrace(e: Row, r: Row, trace: Table, src: Col)
    requires src.User? && src !in e && NoDuplicates(trace) && forall row :: row in trace ==> IsTraceRow(src, row)
    ensures Pairs1(r, Pairs1(e, trace, Meet(Vid, DST_VID)), MeetFlipped(src, src))
         == if TraceRow(src, Get(r, src), Get(e, Vid)) in trace then [AnswerRow(src, e, r)] else []
    decreases |trace|
  {
    if trace != [] {
      var t := trace[0];
      assert IsTraceRow(src, t);
      var rest := trace[1..];
      forall row | row in rest ensures IsTraceRow(src, row) { assert row in trace; }
      OneTrace(e, r, rest, src);
      var first := Meet(Vid, DST_VID)(e, t);
      Pairs1Concat(r, first, Pairs1(e, rest, Meet(Vid, DST_VID)), MeetFlipped(src, src));
      var wanted := TraceRow(src, Get(r, src), Get(e, Vid));
      assert wanted in trace <==> wanted == t || wanted in rest;
      assert wanted == t ==> wanted !in rest;
      FirstTraceRow(e, r, t, src);
    }
  }

  lemma FirstTraceRow(e: Row, r: Row, t: Row, src: Col)
    requires src.User? && src !in e && IsTraceRow(src, t)
    ensures Pairs1(r, Meet(Vid, DST_VID)(e, t), MeetFlipped(src, src))
         == if t == TraceRow(src, Get(r, src), Get(e, Vid)) then [AnswerRow(src, e, r)] else []
  {
    if Get(e, Vid) == Get(t, DST_VID) {
      assert Get(t + e, src) == Get(t, src);
      assert Pairs1(r, [t + e], MeetFlipped(src, src)) == MeetFlipped(src, src)(r, t + e) +
        Pairs1(r, [], MeetFlipped(src, src));
    } else {
      assert t[DST_VID] != TraceRow(src, Get(r, src), Get(e, Vid))[DST_VID];
    }
  }

  lemma {:induction false} Pairs1Concat(r: Row, s: Table, t: Table, f: (Row, Row) -> seq<Row>)
    ensures Pairs1(r, s + t, f) == Pairs1(r, s, f) + Pairs1(r, t, f)
    decreases |s|
  {
    if s == [] {
      assert s + t == t;
    } else {
      assert (s + t)[1..] == s[1..] + t;
      Pairs1Concat(r, s[1..], t, f);
    }
  }

  lemma {:induction false} PairsConcat(s: Table, t: Table, u: Table, f: (Row, Row) -> seq<Row>)
    ensures Pairs(s + t, u, f) == Pairs(s, u, f) + Pairs(t, u, f)
    decreases |s|
  {
    if s == [] {
      assert s + t == t;
    } else {
      assert (s + t)[1..] == s[1..] + t;
      PairsConcat(s[1..], t, u, f);
    }
  }

  /** All answers for one edge. */
  lemma {:induction false} OneEdge(e: Row, trace: Table, graph: Graph, input: Table, all: Table, src: Col, k: nat)
    requires src.User? && src !in e && TraceOk(trace, graph, all, src, k)
    requires forall r :: r in input ==> r in all
    ensures Pairs(input, Pairs1(e, trace, Meet(Vid, DST_VID)), MeetFlipped(src, src)) ==
            Pairs1(e, input, Answers(graph, src, k))
    decreases |input|
  {
    if input != [] {
      OneEdge(e, trace, graph, input[1..], all, src, k);
      OneTrace(e, input[0], trace, src);
      assert IsStart(all, src, Get(input[0], src));
    }
  }

  lemma {:induction false} AllEdges(edges: Table, trace: Table, graph: Graph, input: Table, src: Col, k: nat)
    requires src.User? && NoSuchColumn(edges, src) && TraceOk(trace, graph, input, src, k)
    ensures multiset(Pairs(Pairs(edges, trace, Meet(Vid, DST_VID)), input, Meet(src, src)))
         == multiset(Pairs(edges, input, Answers(graph, src, k)))
    decreases |edges|
  {
    if edges != [] {
      var first := Pairs1(edges[0], trace, Meet(Vid, DST_VID));
      AllEdges(edges[1..], trace, graph, input, src, k);
      PairsConcat(first, Pairs(edges[1..], trace, Meet(Vid, DST_VID)), input, Meet(src, src));
      PairsExchange(first, input, Meet(src, src), MeetFlipped(src, src));
      OneEdge(edges[0], trace, graph, input, input, src, k);
    }
  }

  lemma LastEdgesColumns(graph: Graph, frontier: Table, src: Col)
    requires src.User?
    ensures NoSuchColumn(LastEdges(graph, frontier), src) && NoSuchColumn(LastEdges(graph, frontier), DST_VID)
  {
    var near := NeighborsTable(graph, frontier, Vid);
    forall i | 0 <= i < |near|
      ensures src !in LastEdges(graph, frontier)[i] && DST_VID !in LastEdges(graph, frontier)[i]
    {
      ProjectTwo(EDGE_COLS[0], EDGE_COLS[1], near[i]);
    }
  }

  /** The two joins give exactly the answers, up to order. */
  lemma JoinsGiveAnswer(frontier: Table, trace: Table, graph: Graph, input: Table, src: Col, k: nat)
    requires src.User? && TraceOk(trace, graph, input, src, k)
    ensures multiset(JoinedTable(LastEdges(graph, frontier), trace, input, src)) ==
            multiset(Answer(graph, frontier, input, src, k))
  {
    var edges := LastEdges(graph, frontier);
    LastEdgesColumns(graph, frontier, src);
    JoinAnySide(edges, trace, Vid, DST_VID);
    var inner := JoinTable(edges, trace, Vid, DST_VID);
    JoinAnySide(inner, input, src, src);
    PairsPermuted(inner, Pairs(edges, trace, Meet(Vid, DST_VID)), input, Meet(src, src));
    AllEdges(edges, trace, graph, input, src, k);
  }

  // ---- The answer does not depend on the order of the frontier ----

  lemma {:induction false} ProjectFlat(cols: seq<Yield>, t: Table)
    ensures ProjectTable(cols, t) == FlatMap(t, (row: Row) => [ProjectRow(cols, row)])
    decreases |t|
  {
    if t != [] {
      ProjectFlat(cols, t[1..]);
      assert ProjectTable(cols, t) == [ProjectRow(cols, t[0])] + ProjectTable(cols, t[1..]);
    }
  }

  lemma LastEdgesPermuted(graph: Graph, s: Table, t: Table)
    requires multiset(s) == multiset(t)
    ensures multiset(LastEdges(graph, s)) == multiset(LastEdges(graph, t))
  {
    FlatMapPermuted(s, t, (row: Row) => EdgeRows(graph, Get(row, Vid)));
    ProjectFlat(EDGE_COLS, NeighborsTable(graph, s, Vid));
    ProjectFlat(EDGE_COLS, NeighborsTable(graph, t, Vid));
    FlatMapPermuted(NeighborsTable(graph, s, Vid), NeighborsTable(graph, t, Vid),
      (row: Row) => [ProjectRow(EDGE_COLS, row)]);
  }

  /** `out` holds one row for each input row and each edge that starts `k` edges from the row's start. */
  ghost predicate IsAnswer(out: Table, graph: Graph, input: Table, src: Col, k: nat) {
    exists frontier ::
      FrontierOk(frontier, graph, input, src, k) && multiset(out) == multiset(Answer(graph, frontier, input, src, k))
  }

  lemma FrontierUnique(s: Table, t: Table, graph: Graph, input: Table, src: Col, k: nat)
    requires FrontierOk(s, graph, input, src, k) && FrontierOk(t, graph, input, src, k)
    ensures multiset(s) == multiset(t)
  {
    forall row ensures row in s <==> row in t {
      if row in s || row in t {
        assert IsVidRow(row);
        assert VidRow(Get(row, Vid)) in s <==> VidRow(Get(row, Vid)) in t;
      }
    }
    SameElements(s, t);
  }

  /** There is only one answer, up to order. */
  lemma AnswerUnique(a: Table, b: Table, graph: Graph, input: Table, src: Col, k: nat)
    requires IsAnswer(a, graph, input, src, k) && IsAnswer(b, graph, input, src, k)
    ensures multiset(a) == multiset(b)
  {
    var s :| FrontierOk(s, graph, input, src, k) && multiset(a) == multiset(Answer(graph, s, input, src, k));
    var t :| FrontierOk(t, graph, input, src, k) && multiset(b) == multiset(Answer(graph, t, input, src, k));
    FrontierUnique(s, t, graph, input, src, k);
    LastEdgesPermuted(graph, s, t);
    PairsPermuted(LastEdges(graph, s), LastEdges(graph, t), input, Answers(graph, src, k));
  }

  // ---- One step ----

  /** For each edge of a start, each input row with that start, once. */
  function DirectAnswer(graph: Graph, frontier: Table, input: Table, src: Col): Table {
    Pairs(LastEdges(graph, frontier), input, Meet(Vid, src))
  }

  /** `out` holds one row for each input row and each edge of its start. */
  ghost predicate IsDirectAnswer(out: Table, graph: Graph, input: Table, src: Col) {
    exists frontier ::
      FrontierOk(frontier, graph, input, src, 0) && multiset(out) == multiset(DirectAnswer(graph, frontier, input, src))
  }

  /** The columns that a sentence can name: all but the end of the trace. */
  function Visible(row: Row): Row {
    row - {DST_VID}
  }

  function VisibleTable(t: Table): Table {
    seq(|t|, i requires 0 <= i < |t| => Visible(t[i]))
  }

  lemma VisibleConcat(s: Table, t: Table)
    ensures VisibleTable(s + t) == VisibleTable(s) + VisibleTable(t)
  {
  }

  lemma {:induction false} VisibleFlat(t: Table)
    ensures VisibleTable(t) == FlatMap(t, (row: Row) => [Visible(row)])
    decreases |t|
  {
    if t != [] {
      VisibleFlat(t[1..]);
      assert VisibleTable(t) == [Visible(t[0])] + VisibleTable(t[1..]);
    }
  }

  lemma VisiblePermuted(s: Table, t: Table)
    requires multiset(s) == multiset(t)
    ensures multiset(VisibleTable(s)) == multiset(VisibleTable(t))
  {
    VisibleFlat(s);
    VisibleFlat(t);
    FlatMapPermuted(s, t, (row: Row) => [Visible(row)]);
  }

  /** Every input row has the start column, and none has a generated one. */
  predicate InputOk(input: Table, src: Col) {
    forall i :: 0 <= i < |input| ==> src in input[i] && DST_VID !in input[i]
  }

  lemma OneRowVisible(graph: Graph, e: Row, r: Row, src: Col)
    requires src.User? && src !in e && DST_VID !in e && src in r && DST_VID !in r
    ensures VisibleTable(Answers(graph, src, 0)(e, r)) == Meet(Vid, src)(e, r)
    ensures VisibleTable(Meet(Vid, src)(e, r)) == Meet(Vid, src)(e, r)
  {
    if Get(r, src) == Get(e, Vid) {
      assert Visible(AnswerRow(src, e, r)) == r + e;
      assert Visible(r + e) == r + e;
    }
  }

  lemma {:induction false} OneEdgeVisible(graph: Graph, e: Row, input: Table, src: Col)
    requires src.User? && src !in e && DST_VID !in e && InputOk(input, src)
    ensures VisibleTable(Pairs1(e, input, Answers(graph, src, 0))) == Pairs1(e, input, Meet(Vid, src))
    ensures VisibleTable(Pairs1(e, input, Meet(Vid, src))) == Pairs1(e, input, Meet(Vid, src))
    decreases |input|
  {
    if input != [] {
      OneEdgeVisible(graph, e, input[1..], src);
      OneRowVisible(graph, e, input[0], src);
      VisibleConcat(Answers(graph, src, 0)(e, input[0]), Pairs1(e, input[1..], Answers(graph, src, 0)));
      VisibleConcat(Meet(Vid, src)(e, input[0]), Pairs1(e, input[1..], Meet(Vid, src)));
    }
  }

  lemma {:induction false} AllEdgesVisible(graph: Graph, edges: Table, input: Table, src: Col)
    requires src.User? && NoSuchColumn(edges, src) && NoSuchColumn(edges, DST_VID) && InputOk(input, src)
    ensures VisibleTable(Pairs(edges, input, Answers(graph, src, 0))) == Pairs(edges, input, Meet(Vid, src))
    ensures VisibleTable(Pairs(edges, input, Meet(Vid, src))) == Pairs(edges, input, Meet(Vid, src))
    decreases |edges|
  {
    if edges != [] {
      AllEdgesVisible(graph, edges[1..], input, src);
      OneEdgeVisible(graph, edges[0], input, src);
      VisibleConcat(Pairs1(edges[0], input, Answers(graph, src, 0)), Pairs(edges[1..], input, Answers(graph, src, 0)));
      VisibleConcat(Pairs1(edges[0], input, Meet(Vid, src)), Pairs(edges[1..], input, Meet(Vid, src)));
    }
  }

  /** For one step, tracing and joining directly give the same rows but for the end of the trace. */
  lemma DirectIsTraced(a: Table, b: Table, graph: Graph, input: Table, src: Col)
    requires src.User? && InputOk(input, src) && IsAnswer(a, graph, input, src, 0) &&
      IsDirectAnswer(b, graph, input, src)
    ensures multiset(VisibleTable(a)) == multiset(VisibleTable(b))
  {
    var t :| FrontierOk(t, graph, input, src, 0) && multiset(b) == multiset(DirectAnswer(graph, t, input, src));
    var traced := Answer(graph, t, input, src, 0);
    assert IsAnswer(traced, graph, input, src, 0);
    AnswerUnique(a, traced, graph, input, src, 0);
    LastEdgesColumns(graph, t, src);
    AllEdgesVisible(graph, LastEdges(graph, t), input, src);
    VisiblePermuted(a, traced);
    VisiblePermuted(b, DirectAnswer(graph, t, input, src));
  }
}

/** Whole runs of the GO plans. */
module GoTheorems {
  import opened Bags
  import opened VersionedValues
  import opened Tables
  import opened PlanInterpreter
  import opened GoPlan
  import opened GoWalks
  import opened GoAnswers

  lemma ExecLatest(store: Store, graph: Graph, i: Instr, w: Var)
    ensures Latest(Exec(store, graph, i), w) == if w == i.output then Output(store, graph, i) else Latest(store, w)
    ensures History(Exec(store, graph, i), w) ==
            if w == i.output then History(store, w) + [Output(store, graph, i)] else History(store, w)
  {
    LatestAfterWrite(store, i.output, Output(store, graph, i), w);
  }

  lemma ExecFirst(store: Store, graph: Graph, nodes: seq<Instr>)
    requires nodes != []
    ensures ExecAll(store, graph, nodes) == ExecAll(Exec(store, graph, nodes[0]), graph, nodes[1..])
  {
  }

  lemma {:induction false} ExecConcat(store: Store, graph: Graph, a: seq<Instr>, b: seq<Instr>)
    ensures ExecAll(store, graph, a + b) == ExecAll(ExecAll(store, graph, a), graph, b)
    decreases |a|
  {
    if a == [] {
      assert a + b == b;
    } else {
      assert (a + b)[1..] == a[1..] + b;
      ExecConcat(Exec(store, graph, a[0]), graph, a[1..], b);
    }
  }

  /** A projection followed by a dedup. */
  lemma ProjectDedup(store: Store, graph: Graph, input: Var, cols: seq<Yield>, mid: Var, output: Var)
    requires mid != output
    ensures
      var after := ExecAll(store, graph, [ProjectNode(input, cols, mid), DedupNode(mid, output)]);
      var t := DedupTable(ProjectTable(cols, Latest(store, input)));
      && Latest(after, output) == t && History(after, output) == History(store, output) + [t]
      && forall w :: w != mid && w != output ==>
        Latest(after, w) == Latest(store, w) && History(after, w) == History(store, w)
  {
    var nodes := [ProjectNode(input, cols, mid), DedupNode(mid, output)];
    var s1 := Exec(store, graph, nodes[0]);
    assert nodes[1..] == [nodes[1]] && nodes[1..][1..] == [];
    ExecFirst(store, graph, nodes);
    ExecFirst(s1, graph, nodes[1..]);
    assert ExecAll(store, graph, nodes) == Exec(s1, graph, nodes[1]);
    forall w
      ensures Latest(s1, w) == if w == mid then ProjectTable(cols, Latest(store, input)) else Latest(store, w)
      ensures w != mid && w != output ==> Latest(Exec(s1, graph, nodes[1]), w) == Latest(store, w)
      ensures w != mid && w != output ==> History(Exec(s1, graph, nodes[1]), w) == History(store, w)
    {
      ExecLatest(store, graph, nodes[0], w);
      ExecLatest(s1, graph, nodes[1], w);
    }
    ExecLatest(store, graph, nodes[0], output);
    ExecLatest(s1, graph, nodes[1], output);
  }

  ghost predicate TracedBy(store: Store, graph: Graph, input: Table, src: Col, k: nat) {
    && Latest(store, Input) == input
    && FrontierOk(Latest(store, Start), graph, input, src, k)
    && TraceOk(Latest(store, Trace), graph, input, src, k)
  }

  /** Before the loop every start is zero edges from itself. */
  lemma BeforeTraces(store: Store, graph: Graph, src: Col)
    requires src.User?
    ensures TracedBy(ExecAll(store, graph, BeforeLoop(src)), graph, Latest(store, Input), src, 0)
    ensures History(ExecAll(store, graph, BeforeLoop(src)), Joined) == History(store, Joined)
    ensures History(ExecAll(store, graph, BeforeLoop(src)), Result) == History(store, Result)
  {
    hide ExecAll, Latest, DedupTable, ProjectTable, FrontierOk, TraceOk, History;
    ExecConcat(store, graph, RuntimeInput(src), LeftVarForTraceJoin(src));
    ProjectDedup(store, graph, Input, [Yield(src, Vid)], StartProject, Start);
    var mid := ExecAll(store, graph, RuntimeInput(src));
    ProjectDedup(mid, graph, Input, [Yield(src, src), Yield(src, DST_VID)], LeftProject, Trace);
    FirstFrontier(graph, Latest(store, Input), src);
    FirstTrace(graph, Latest(store, Input), src);
  }

  /** What one pass through the loop body computes. */
  lemma StepTables(store: Store, graph: Graph, src: Col)
    ensures
      var after := ExecAll(store, graph, StepBody(src));
      var frontier := Latest(store, Start);
      var trace := NextTrace(graph, frontier, Latest(store, Trace), src);
      && Latest(after, BodyNeighbors) == NeighborsTable(graph, frontier, Vid)
      && Latest(after, Start) == NextFrontier(graph, frontier)
      && Latest(after, Trace) == trace && History(after, Trace) == History(store, Trace) + [trace]
      && Latest(after, Input) == Latest(store, Input) && History(after, Joined) == History(store, Joined)
      && History(after, Result) == History(store, Result)
  {
    hide ExecAll, Exec, Latest, DedupTable, ProjectTable, NeighborsTable, JoinTable, StepBody, History;
    StepBodyParts(store, graph, src);
    FrontierTables(store, graph);
    TraceTables(FrontierPart(store, graph), graph, src);
  }

  /** The loop body up to the join of the traces. */
  function FrontierPart(store: Store, graph: Graph): Store {
    var s1 := ExecAll(store, graph, [NeighborsNode(Start, Vid, BodyNeighbors)]);
    ExecAll(ExecAll(s1, graph, ProjectDstVids()), graph, ProjectSrcDstVids())
  }

  lemma FrontierTables(store: Store, graph: Graph)
    ensures
      var after, frontier := FrontierPart(store, graph), Latest(store, Start);
      && Latest(after, BodyNeighbors) == NeighborsTable(graph, frontier, Vid)
      && Latest(after, Start) == NextFrontier(graph, frontier)
      && Latest(after, SrcDst) == SourcesAndEnds(graph, frontier)
      && Latest(after, Trace) == Latest(store, Trace) && History(after, Trace) == History(store, Trace)
      && Latest(after, Input) == Latest(store, Input) && History(after, Joined) == History(store, Joined)
      && History(after, Result) == History(store, Result)
  {
    hide ExecAll, Latest, DedupTable, ProjectTable, NeighborsTable, History;
    var s1 := ExecAll(store, graph, [NeighborsNode(Start, Vid, BodyNeighbors)]);
    var s2 := ExecAll(s1, graph, ProjectDstVids());
    NearTables(store, graph, BodyNeighbors);
    ProjectDedup(s1, graph, BodyNeighbors, [Yield(Dst, Vid)], DstProject, Start);
    ProjectDedup(s2, graph, BodyNeighbors, [Yield(Dst, Vid), Yield(Vid, SRC_VID)], SrcDstProject, SrcDst);
  }

  lemma FrontierBodyParts(store: Store, graph: Graph)
    ensures ExecAll(store, graph, FrontierBody()) == FrontierPart(store, graph)
  {
    hide ExecAll;
    var near := [NeighborsNode(Start, Vid, BodyNeighbors)];
    ExecConcat(store, graph, near, ProjectDstVids());
    ExecConcat(store, graph, near + ProjectDstVids(), ProjectSrcDstVids());
  }

  lemma StepBodyParts(store: Store, graph: Graph, src: Col)
    ensures ExecAll(store, graph, StepBody(src)) == ExecAll(FrontierPart(store, graph), graph, TraceToStart(src))
  {
    hide ExecAll, FrontierBody, FrontierPart;
    FrontierBodyParts(store, graph);
    ExecConcat(store, graph, FrontierBody(), TraceToStart(src));
  }

  lemma NearTables(store: Store, graph: Graph, gn: Var)
    ensures
      var after := ExecAll(store, graph, [NeighborsNode(Start, Vid, gn)]);
      && Latest(after, gn) == NeighborsTable(graph, Latest(store, Start), Vid)
      && forall w :: w != gn ==> Latest(after, w) == Latest(store, w) && History(after, w) == History(store, w)
  {
    var nodes := [NeighborsNode(Start, Vid, gn)];
    ExecFirst(store, graph, nodes);
    assert nodes[1..] == [] && ExecAll(store, graph, nodes) == Exec(store, graph, nodes[0]);
    forall w
      ensures w != gn ==> Latest(Exec(store, graph, nodes[0]), w) == Latest(store, w)
      ensures w != gn ==> History(Exec(store, graph, nodes[0]), w) == History(store, w)
    {
      ExecLatest(store, graph, nodes[0], w);
    }
    ExecLatest(store, graph, nodes[0], gn);
  }

  lemma TraceTables(store: Store, graph: Graph, src: Col)
    ensures
      var after := ExecAll(store, graph, TraceToStart(src));
      var joined := JoinTable(Latest(store, Trace), Latest(store, SrcDst), DST_VID, SRC_VID);
      var trace := DedupTable(ProjectTable([Yield(src, src), Yield(Vid, DST_VID)], joined));
      && Latest(after, Trace) == trace && History(after, Trace) == History(store, Trace) + [trace]
      && forall w :: w != TraceJoin && w != TraceProject && w != Trace ==>
           Latest(after, w) == Latest(store, w) && History(after, w) == History(store, w)
  {
    var nodes := TraceToStart(src);
    var s1 := Exec(store, graph, nodes[0]);
    assert nodes[1..] == [ProjectNode(TraceJoin, [Yield(src, src), Yield(Vid, DST_VID)], TraceProject),
      DedupNode(TraceProject, Trace)];
    ProjectDedup(s1, graph, TraceJoin, [Yield(src, src), Yield(Vid, DST_VID)], TraceProject, Trace);
    forall w
      ensures Latest(s1, w) == if w == TraceJoin then Output(store, graph, nodes[0]) else Latest(store, w)
      ensures w != TraceJoin ==> History(s1, w) == History(store, w)
    {
      ExecLatest(store, graph, nodes[0], w);
    }
  }

  /** After k rounds the trace variable holds the walks of k edges and the start variable their ends. */
  lemma {:induction false} RoundsTrace(store: Store, graph: Graph, input: Table, src: Col, k: nat)
    requires src.User? && TracedBy(store, graph, input, src, 0)
    ensures TracedBy(Rounds(store, graph, StepBody(src), k), graph, input, src, k)
    decreases k
  {
    if k > 0 {
      RoundsTrace(store, graph, input, src, k - 1);
      RoundTraces(Rounds(store, graph, StepBody(src), k - 1), graph, input, src, k - 1);
    }
  }

  lemma RoundTraces(store: Store, graph: Graph, input: Table, src: Col, k: nat)
    requires src.User? && TracedBy(store, graph, input, src, k)
    ensures TracedBy(ExecAll(store, graph, StepBody(src)), graph, input, src, k + 1)
  {
    StepTables(store, graph, src);
    FrontierStep(Latest(store, Start), graph, input, src, k);
    TraceStep(Latest(store, Start), Latest(store, Trace), graph, input, src, k);
  }

  /** The last joins, reading the given version of the trace. */
  lemma JoinTables(store: Store, graph: Graph, gn: Var, src: Col, version: int)
    ensures
      var after := ExecAll(store, graph, JoinInput(gn, src, version));
      var edges := ProjectTable(EDGE_COLS, Latest(store, gn));
      var out := JoinedTable(edges, ReadTable(store, Read(Trace, version)), Latest(store, Input), src);
      && Latest(after, Joined) == out && History(after, Joined) == History(store, Joined) + [out]
      && forall w :: w != EdgeTable && w != EdgeTrace && w != Joined ==>
           Latest(after, w) == Latest(store, w) && History(after, w) == History(store, w)
  {
    var nodes := JoinInput(gn, src, version);
    var s1 := Exec(store, graph, nodes[0]);
    var s2 := Exec(s1, graph, nodes[1]);
    var s3 := Exec(s2, graph, nodes[2]);
    assert nodes[1..] == [nodes[1], nodes[2]] && nodes[1..][1..] == [nodes[2]] && nodes[1..][1..][1..] == [];
    assert ExecAll(store, graph, nodes) == s3 by {
      ExecFirst(store, graph, nodes);
      ExecFirst(s1, graph, nodes[1..]);
      ExecFirst(s2, graph, nodes[1..][1..]);
    }
    forall w ensures w != EdgeTable ==> Latest(s1, w) == Latest(store, w) && History(s1, w) == History(store, w) {
      ExecLatest(store, graph, nodes[0], w);
    }
    forall w ensures w != EdgeTrace ==> Latest(s2, w) == Latest(s1, w) && History(s2, w) == History(s1, w) {
      ExecLatest(s1, graph, nodes[1], w);
    }
    forall w ensures w != Joined ==> Latest(s3, w) == Latest(s2, w) && History(s3, w) == History(s2, w) {
      ExecLatest(s2, graph, nodes[2], w);
    }
    ExecLatest(store, graph, nodes[0], EdgeTable);
    ExecLatest(s1, graph, nodes[1], EdgeTrace);
    ExecLatest(s2, graph, nodes[2], Joined);
  }

  /** GO n STEPS: one row for each input row and each edge whose source is n - 1 edges from the row's start. */
  lemma GoNStepsAnswers(store: Store, graph: Graph, src: Col, steps: nat)
    requires src.User? && steps >= 2
    ensures IsAnswer(NSteps(store, graph, src, steps), graph, Latest(store, Input), src, steps - 1)
  {
    hide ExecAll, Latest, ReadTable, Rounds, FrontierOk, TraceOk, DedupTable, ProjectTable, NeighborsTable, JoinTable,
         BeforeLoop, StepBody, JoinInput, Answer;
    var input := Latest(store, Input);
    var before := ExecAll(store, graph, BeforeLoop(src));
    BeforeTraces(store, graph, src);
    RoundsTrace(before, graph, input, src, steps - 1);
    var looped := Rounds(before, graph, StepBody(src), steps - 1);
    var near := [NeighborsNode(Start, Vid, LastNeighbors)];
    ExecConcat(looped, graph, near, JoinInput(LastNeighbors, src, LATEST));
    NearTables(looped, graph, LastNeighbors);
    JoinTables(ExecAll(looped, graph, near), graph, LastNeighbors, src, LATEST);
    LatestRead(ExecAll(looped, graph, near), Trace);
    JoinsGiveAnswer(Latest(looped, Start), Latest(looped, Trace), graph, input, src, steps - 1);
    assert FrontierOk(Latest(looped, Start), graph, input, src, steps - 1);
  }

  /** GO 1 STEPS: one row for each input row and each edge of its start. */
  lemma OneStepAnswers(store: Store, graph: Graph, src: Col)
    ensures IsDirectAnswer(OneStep(store, graph, src), graph, Latest(store, Input), src)
  {
    var input := Latest(store, Input);
    ProjectDedup(store, graph, Input, [Yield(src, Vid)], StartProject, Start);
    FirstFrontier(graph, input, src);
    var begun := ExecAll(store, graph, RuntimeInput(src));
    OneStepTables(begun, graph, src);
    JoinAnySide(LastEdges(graph, Latest(begun, Start)), input, Vid, src);
  }

  lemma OneStepTables(store: Store, graph: Graph, src: Col)
    ensures Latest(ExecAll(store, graph, OneStepNodes(src)), Joined) ==
            JoinTable(LastEdges(graph, Latest(store, Start)), Latest(store, Input), Vid, src)
  {
    var nodes := OneStepNodes(src);
    var s1 := Exec(store, graph, nodes[0]);
    var s2 := Exec(s1, graph, nodes[1]);
    assert nodes[1..] == [nodes[1], nodes[2]] && nodes[1..][1..] == [nodes[2]] && nodes[1..][1..][1..] == [];
    assert ExecAll(store, graph, nodes) == Exec(s2, graph, nodes[2]) by {
      ExecFirst(store, graph, nodes);
      ExecFirst(s1, graph, nodes[1..]);
      ExecFirst(s2, graph, nodes[1..][1..]);
    }
    ExecLatest(store, graph, nodes[0], LastNeighbors);
    ExecLatest(store, graph, nodes[0], Input);
    ExecLatest(s1, graph, nodes[1], EdgeTable);
    ExecLatest(s1, graph, nodes[1], Input);
    ExecLatest(s2, graph, nodes[2], Joined);
  }

  lemma LatestRead(store: Store, v: Var)
    ensures ReadTable(store, Read(v, LATEST)) == Latest(store, v)
  {
  }

  // ---- GO m TO n STEPS ----

  ghost predicate Collected(store: Store, graph: Graph, input: Table, src: Col, k: nat) {
    && |History(store, Joined)| == k
    && forall i :: 0 <= i < k ==> IsAnswer(History(store, Joined)[i], graph, input, src, i)
  }

  /** The round that computes the k-step trace joins with the previous version of it. */
  lemma MToNRound(store: Store, graph: Graph, input: Table, src: Col, k: nat)
    requires src.User? && TracedBy(store, graph, input, src, k) && Collected(store, graph, input, src, k)
    requires History(store, Trace) != []
    ensures
      var after := ExecAll(store, graph, TracedBody(src));
      && TracedBy(after, graph, input, src, k + 1) && Collected(after, graph, input, src, k + 1)
      && History(after, Trace) != []
    ensures
      var after := ExecAll(store, graph, TracedBody(src));
      && History(after, Joined) == History(store, Joined) + [Latest(after, Joined)]
      && History(after, Result) == History(store, Result)
  {
    hide ExecAll, Latest, ReadTable, FrontierOk, TraceOk, DedupTable, ProjectTable, NeighborsTable, JoinTable,
         StepBody, JoinInput, Answer, Versioned;
    var stepped := ExecAll(store, graph, StepBody(src));
    ExecConcat(store, graph, StepBody(src), JoinInput(BodyNeighbors, src, PREVIOUS));
    StepTables(store, graph, src);
    RoundTraces(store, graph, input, src, k);
    JoinTables(stepped, graph, BodyNeighbors, src, PREVIOUS);
    var frontier, trace := Latest(store, Start), Latest(store, Trace);
    PreviousRead(store, stepped, Trace);
    JoinsGiveAnswer(frontier, trace, graph, input, src, k);
    assert IsAnswer(JoinedTable(LastEdges(graph, frontier), trace, input, src), graph, input, src, k);
  }

  /** The last node of a body, which projects the result of its step. */
  lemma ResultTables(store: Store, graph: Graph, body: seq<Instr>, from: Var, cols: seq<Yield>)
    requires from != Result
    ensures
      var before := ExecAll(store, graph, body);
      var after := ExecAll(store, graph, body + [ProjectNode(from, cols, Result)]);
      && History(after, Result) == History(before, Result) + [ProjectTable(cols, Latest(before, from))]
      && forall w :: w != Result ==> Latest(after, w) == Latest(before, w) && History(after, w) == History(before, w)
  {
    hide Latest, History;
    var node := ProjectNode(from, cols, Result);
    var before := ExecAll(store, graph, body);
    ExecConcat(store, graph, body, [node]);
    ExecFirst(before, graph, [node]);
    assert [node][1..] == [] && ExecAll(before, graph, [node]) == Exec(before, graph, node);
    forall w
      ensures w != Result ==> Latest(Exec(before, graph, node), w) == Latest(before, w)
      ensures w != Result ==> History(Exec(before, graph, node), w) == History(before, w)
    {
      ExecLatest(before, graph, node, w);
    }
    ExecLatest(before, graph, node, Result);
  }

  /** Each version of the result is the projection of that version of the joins. */
  ghost predicate Projected(store: Store, cols: seq<Yield>) {
    && |History(store, Result)| == |History(store, Joined)|
    && forall i :: 0 <= i < |History(store, Joined)| ==>
      History(store, Result)[i] == ProjectTable(cols, History(store, Joined)[i])
  }

  lemma MToNNext(store: Store, graph: Graph, input: Table, src: Col, named: bool, cols: seq<Yield>, k: nat)
    requires src.User? && named && TracedBy(store, graph, input, src, k) && Collected(store, graph, input, src, k)
    requires History(store, Trace) != [] && Projected(store, cols)
    ensures
      var after := ExecAll(store, graph, MToNBody(src, named, cols));
      && TracedBy(after, graph, input, src, k + 1) && Collected(after, graph, input, src, k + 1)
      && History(after, Trace) != [] && Projected(after, cols)
  {
    hide ExecAll, Latest, TracedBody, IsAnswer, FrontierOk, TraceOk, ProjectTable;
    MToNRound(store, graph, input, src, k);
    ResultTables(store, graph, TracedBody(src), Joined, cols);
  }

  /** After one more write the previous version is the one that was latest. */
  lemma PreviousRead(store: Store, after: Store, v: Var)
    requires History(store, v) != [] && |History(after, v)| == |History(store, v)| + 1
    requires History(after, v)[..|History(store, v)|] == History(store, v)
    ensures ReadTable(after, Read(v, PREVIOUS)) == Latest(store, v)
  {
    VersionBack(History(after, v), PREVIOUS);
    VersionBack(History(store, v), LATEST);
    var n := |History(store, v)|;
    assert History(after, v)[..n][n - 1] == History(store, v)[n - 1];
  }

  lemma {:induction false} MToNRounds(store: Store, graph: Graph, input: Table, src: Col, named: bool,
                                      cols: seq<Yield>, k: nat)
    requires src.User? && named && TracedBy(store, graph, input, src, 0) && Collected(store, graph, input, src, 0)
    requires History(store, Trace) != [] && Projected(store, cols)
    ensures
      var after := Rounds(store, graph, MToNBody(src, named, cols), k);
      && TracedBy(after, graph, input, src, k) && Collected(after, graph, input, src, k)
      && History(after, Trace) != [] && Projected(after, cols)
    decreases k
  {
    hide TracedBy, Collected, MToNBody, Projected, ExecAll;
    if k > 0 {
      MToNRounds(store, graph, input, src, named, cols, k - 1);
      MToNNext(Rounds(store, graph, MToNBody(src, named, cols), k - 1), graph, input, src, named, cols, k - 1);
    }
  }

  // ---- Only columns that a sentence can name ----

  lemma {:induction false} ProjectVisibleRow(cols: seq<Yield>, row: Row)
    requires forall i :: 0 <= i < |cols| ==> cols[i].from != DST_VID
    ensures ProjectRow(cols, Visible(row)) == ProjectRow(cols, row)
    decreases |cols|
  {
    if cols != [] {
      ProjectVisibleRow(cols[..|cols| - 1], row);
    }
  }

  /** What a sentence yields does not depend on the end of the trace. */
  lemma YieldsVisible(named: bool, cols: seq<Yield>, a: Table, b: Table)
    requires Yields(named, cols) && multiset(VisibleTable(a)) == multiset(VisibleTable(b))
    ensures multiset(ProjectTable(cols, a)) == multiset(ProjectTable(cols, b))
  {
    ProjectVisible(named, cols, a);
    ProjectVisible(named, cols, b);
    ProjectFlat(cols, VisibleTable(a));
    ProjectFlat(cols, VisibleTable(b));
    FlatMapPermuted(VisibleTable(a), VisibleTable(b), (row: Row) => [ProjectRow(cols, row)]);
  }

  lemma ProjectVisible(named: bool, cols: seq<Yield>, t: Table)
    requires Yields(named, cols)
    ensures ProjectTable(cols, VisibleTable(t)) == ProjectTable(cols, t)
  {
    forall i | 0 <= i < |t| ensures ProjectRow(cols, Visible(t[i])) == ProjectRow(cols, t[i]) {
      ProjectVisibleRow(cols, t[i]);
    }
  }

  /** The versions of the result after n rounds of the M to N loop. */
  ghost function MToNHistory(store: Store, graph: Graph, src: Col, named: bool, cols: seq<Yield>, n: nat): seq<Table> {
    History(Rounds(ExecAll(store, graph, BeforeMToN(src, named)), graph, MToNBody(src, named, cols), n), Result)
  }

  /** GO m TO n STEPS of a sentence that names an input property: the k-th version of the result is,
      up to order, what GO k STEPS returns. */
  lemma MToNIsEachStep(store: Store, graph: Graph, src: Col, named: bool, cols: seq<Yield>, n: nat, k: nat)
    requires src.User? && InputOk(Latest(store, Input), src) && named && Yields(named, cols) && 1 <= k <= n
    requires History(store, Joined) == [] && History(store, Result) == []
    ensures
      var history := MToNHistory(store, graph, src, named, cols, n);
      && |history| == n
      && multiset(history[k - 1]) == multiset(ProjectTable(cols, GoSteps(store, graph, src, k)))
  {
    hide ExecAll, Latest, Rounds, BeforeLoop, MToNBody, NSteps, OneStep, IsAnswer, IsDirectAnswer, FrontierOk,
         TraceOk, VisibleTable, Yields, ProjectTable;
    var input := Latest(store, Input);
    var before := ExecAll(store, graph, BeforeLoop(src));
    BeforeTraces(store, graph, src);
    BeforeWritesTrace(store, graph, src);
    MToNRounds(before, graph, input, src, named, cols, n);
    var joined := History(Rounds(before, graph, MToNBody(src, named, cols), n), Joined);
    assert IsAnswer(joined[k - 1], graph, input, src, k - 1);
    if k == 1 {
      OneStepAnswers(store, graph, src);
      DirectIsTraced(joined[0], OneStep(store, graph, src), graph, input, src);
    } else {
      GoNStepsAnswers(store, graph, src, k);
      AnswerUnique(joined[k - 1], NSteps(store, graph, src, k), graph, input, src, k - 1);
      VisiblePermuted(joined[k - 1], NSteps(store, graph, src, k));
    }
    YieldsVisible(named, cols, joined[k - 1], GoSteps(store, graph, src, k));
  }

  lemma BeforeWritesTrace(store: Store, graph: Graph, src: Col)
    ensures History(ExecAll(store, graph, BeforeLoop(src)), Trace) != []
  {
    ExecConcat(store, graph, RuntimeInput(src), LeftVarForTraceJoin(src));
    ProjectDedup(ExecAll(store, graph, RuntimeInput(src)), graph, Input, [Yield(src, src), Yield(src, DST_VID)],
      LeftProject, Trace);
  }

  // ---- A sentence that names no input property ----

  /** The vertices that are k edges from a start. */
  ghost function FrontierAt(graph: Graph, input: Table, src: Col, k: nat): Table {
    if k == 0 then DedupTable(ProjectTable([Yield(src, Vid)], input))
    else NextFrontier(graph, FrontierAt(graph, input, src, k - 1))
  }

  lemma {:induction false} FrontierAtOk(graph: Graph, input: Table, src: Col, k: nat)
    ensures FrontierOk(FrontierAt(graph, input, src, k), graph, input, src, k)
    decreases k
  {
    hide FrontierOk, NextFrontier, DedupTable, ProjectTable;
    if k == 0 {
      FirstFrontier(graph, input, src);
    } else {
      FrontierAtOk(graph, input, src, k - 1);
      FrontierStep(FrontierAt(graph, input, src, k - 1), graph, input, src, k - 1);
    }
  }

  /** The edges that leave the vertices k edges from a start, in the columns of GetNeighbors. */
  ghost function EdgesAt(graph: Graph, input: Table, src: Col, k: nat): Table {
    NeighborsTable(graph, FrontierAt(graph, input, src, k), Vid)
  }

  ghost predicate Plain(store: Store, graph: Graph, input: Table, src: Col, cols: seq<Yield>, k: nat) {
    && Latest(store, Start) == FrontierAt(graph, input, src, k)
    && |History(store, Result)| == k
    && forall i :: 0 <= i < k ==> History(store, Result)[i] == ProjectTable(cols, EdgesAt(graph, input, src, i))
  }

  lemma PlainNext(store: Store, graph: Graph, input: Table, src: Col, named: bool, cols: seq<Yield>, k: nat)
    requires !named && Plain(store, graph, input, src, cols, k)
    ensures Plain(ExecAll(store, graph, MToNBody(src, named, cols)), graph, input, src, cols, k + 1)
  {
    hide ExecAll, Latest, FrontierBody, FrontierPart, ProjectTable, NeighborsTable, NextFrontier;
    FrontierBodyParts(store, graph);
    FrontierTables(store, graph);
    ResultTables(store, graph, FrontierBody(), BodyNeighbors, cols);
  }

  lemma {:induction false} PlainRounds(store: Store, graph: Graph, input: Table, src: Col, named: bool,
                                       cols: seq<Yield>, k: nat)
    requires !named && Plain(store, graph, input, src, cols, 0)
    ensures Plain(Rounds(store, graph, MToNBody(src, named, cols), k), graph, input, src, cols, k)
    decreases k
  {
    hide Plain, MToNBody, ExecAll;
    if k > 0 {
      PlainRounds(store, graph, input, src, named, cols, k - 1);
      PlainNext(Rounds(store, graph, MToNBody(src, named, cols), k - 1), graph, input, src, named, cols, k - 1);
    }
  }

  /** GO m TO n STEPS of a sentence that names no input property: the k-th version of the result is
      the projection of the edges that leave the vertices k - 1 edges from a start, each vertex once. */
  lemma PlainIsEdges(store: Store, graph: Graph, src: Col, named: bool, cols: seq<Yield>, n: nat, k: nat)
    requires !named && History(store, Result) == [] && 1 <= k <= n
    ensures
      var input := Latest(store, Input);
      var history := MToNHistory(store, graph, src, named, cols, n);
      && |history| == n && history[k - 1] == ProjectTable(cols, EdgesAt(graph, input, src, k - 1))
      && FrontierOk(FrontierAt(graph, input, src, k - 1), graph, input, src, k - 1)
  {
    hide ExecAll, Latest, Rounds, MToNBody, ProjectTable, DedupTable, EdgesAt, FrontierOk;
    var input := Latest(store, Input);
    ProjectDedup(store, graph, Input, [Yield(src, Vid)], StartProject, Start);
    PlainRounds(ExecAll(store, graph, RuntimeInput(src)), graph, input, src, named, cols, n);
    FrontierAtOk(graph, input, src, k - 1);
  }

  /** The row of the yielded columns, all of them empty. */
  function Blank(cols: seq<Yield>): Row {
    map i | 0 <= i < |cols| :: cols[i].to := Null
  }

  predicate AllBlank(t: Table, cols: seq<Yield>) {
    forall i :: 0 <= i < |t| ==> t[i] == Blank(cols)
  }

  lemma {:induction false} BlankRow(cols: seq<Yield>, row: Row)
    requires forall i :: 0 <= i < |cols| ==> cols[i].from !in row
    ensures ProjectRow(cols, row) == Blank(cols)
    decreases |cols|
  {
    if cols != [] {
      var n := |cols| - 1;
      BlankRow(cols[..n], row);
      assert cols == cols[..n] + [cols[n]];
      assert Blank(cols) == Blank(cols[..n])[cols[n].to := Null] by {
        forall c ensures c in Blank(cols) <==> c in Blank(cols[..n])[cols[n].to := Null] {
          if c in Blank(cols) {
            var i :| 0 <= i < |cols| && cols[i].to == c;
            assert i < n ==> cols[..n][i].to == c;
          }
          if c in Blank(cols[..n]) {
            var i :| 0 <= i < n && cols[..n][i].to == c;
            assert cols[i].to == c;
          }
        }
      }
    }
  }

  /** Its YIELD names the generated column, which the neighbours do not have: every value is empty. */
  lemma PlainIsBlank(graph: Graph, input: Table, src: Col, named: bool, cols: seq<Yield>, k: nat)
    requires !named && Yields(named, cols)
    ensures AllBlank(ProjectTable(cols, EdgesAt(graph, input, src, k)), cols)
  {
    hide FrontierAt, Blank, NeighborsTable;
    var near := EdgesAt(graph, input, src, k);
    forall i | 0 <= i < |near| ensures ProjectRow(cols, near[i]) == Blank(cols) {
      NeighborsIn(graph, FrontierAt(graph, input, src, k), Vid, near[i]);
      BlankRow(cols, near[i]);
    }
  }

  // ---- Collecting ----

  /** The rows of GO m STEPS, GO m + 1 STEPS, ..., GO n STEPS. */
  ghost function AllSteps(store: Store, graph: Graph, src: Col, cols: seq<Yield>, m: nat, n: nat): multiset<Row>
    requires 1 <= m
    decreases n
  {
    if n < m then multiset{}
    else AllSteps(store, graph, src, cols, m, n - 1) + multiset(ProjectTable(cols, GoSteps(store, graph, src, n)))
  }

  /** The number of edges that leave the vertices m - 1, m, ..., n - 1 edges from a start. */
  ghost function EdgeTotal(graph: Graph, input: Table, src: Col, m: nat, n: nat): nat
    requires 1 <= m
    decreases n
  {
    if n < m then 0 else EdgeTotal(graph, input, src, m, n - 1) + |EdgesAt(graph, input, src, n - 1)|
  }

  function Concat(history: seq<Table>, from: nat, to: nat): Table
    requires to <= |history|
  {
    if to <= from then [] else Concat(history, from, to - 1) + history[to - 1]
  }

  /** DataCollectExecutor::collectMToN without DISTINCT. */
  method CollectMToN(history: seq<Table>, m: nat, n: nat) returns (out: Table)
    requires 1 <= m <= n <= |history|
    ensures out == Concat(history, m - 1, n)
  {
    out := [];
    for i := m - 1 to n
      invariant out == Concat(history, m - 1, i)
    {
      out := out + history[i];
    }
  }

  lemma {:induction false} CollectsAllSteps(store: Store, graph: Graph, src: Col, cols: seq<Yield>, history: seq<Table>,
                                            m: nat, n: nat)
    requires 1 <= m && n <= |history|
    requires forall k :: 1 <= k <= |history| ==>
      multiset(history[k - 1]) == multiset(ProjectTable(cols, GoSteps(store, graph, src, k)))
    ensures multiset(Concat(history, m - 1, n)) == AllSteps(store, graph, src, cols, m, n)
    decreases n
  {
    hide GoSteps, ProjectTable;
    if m <= n {
      CollectsAllSteps(store, graph, src, cols, history, m, n - 1);
    }
  }

  lemma {:induction false} CollectsEdges(graph: Graph, input: Table, src: Col, named: bool, cols: seq<Yield>,
                                         history: seq<Table>, m: nat, n: nat)
    requires 1 <= m && n <= |history| && !named && Yields(named, cols)
    requires forall i :: 0 <= i < |history| ==> history[i] == ProjectTable(cols, EdgesAt(graph, input, src, i))
    ensures |Concat(history, m - 1, n)| == EdgeTotal(graph, input, src, m, n)
    ensures AllBlank(Concat(history, m - 1, n), cols)
    decreases n
  {
    hide EdgesAt, Blank, Yields;
    if m <= n {
      CollectsEdges(graph, input, src, named, cols, history, m, n - 1);
      assert history[n - 1] == ProjectTable(cols, EdgesAt(graph, input, src, n - 1));
      PlainIsBlank(graph, input, src, named, cols, n - 1);
    }
  }

  /** GO m TO n STEPS. A sentence that names an input property returns together what GO m STEPS to
      GO n STEPS return; any other returns an empty row for each edge that they follow last. */
  method GoMToN(ectx: ExecutionContext<Var, Table>, graph: Graph, src: Col, named: bool, cols: seq<Yield>, m: nat,
                n: nat) returns (out: Table)
    requires ectx.Ok() && src.User? && Yields(named, cols) && InputOk(Latest(ectx.values, Input), src)
    requires 1 <= m <= n && History(ectx.values, Joined) == [] && History(ectx.values, Result) == []
    modifies ectx
    ensures ectx.Ok()
    ensures named ==> multiset(out) == AllSteps(old(ectx.values), graph, src, cols, m, n)
    ensures !named ==> |out| == EdgeTotal(graph, old(Latest(ectx.values, Input)), src, m, n)
    ensures !named ==> AllBlank(out, cols)
  {
    hide ExecAll, Rounds, GoSteps, BeforeMToN, MToNBody, AllSteps, EdgeTotal, Suffix, InputOk, Latest, ProjectTable;
    hide EdgesAt, AllBlank, Yields, FrontierOk, Concat;
    ghost var store := ectx.values;
    RunAll(ectx, graph, BeforeMToN(src, named));
    RunLoop(ectx, graph, MToNBody(src, named, cols), n);
    var history := History(ectx.values, Result);
    if named {
      MToNIsEachStep(store, graph, src, named, cols, n, n);
      forall k | 1 <= k <= n
        ensures multiset(history[k - 1]) == multiset(ProjectTable(cols, GoSteps(store, graph, src, k)))
      {
        MToNIsEachStep(store, graph, src, named, cols, n, k);
      }
      CollectsAllSteps(store, graph, src, cols, history, m, n);
    } else {
      ghost var input := Latest(store, Input);
      PlainIsEdges(store, graph, src, named, cols, n, n);
      forall i | 0 <= i < n ensures history[i] == ProjectTable(cols, EdgesAt(graph, input, src, i)) {
        PlainIsEdges(store, graph, src, named, cols, n, i + 1);
      }
      CollectsEdges(graph, input, src, named, cols, history, m, n);
    }
    out := CollectMToN(history, m, n);
  }
}
