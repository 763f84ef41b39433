/** Plans over versioned variables and how they are executed. */
module PlanInterpreter {
  import opened VersionedValues
  import opened Tables

  /** The output variables of the nodes of a GO plan. */
  datatype Var =
    | Input | StartProject | Start | LeftProject | Trace
    | BodyNeighbors | DstProject | SrcDstProject | SrcDst | TraceJoin | TraceProject
    | LastNeighbors | EdgeTable | EdgeTrace | Joined | Result

  datatype Read = Read(name: Var, version: int)

  datatype Instr =
    | ProjectNode(input: Var, cols: seq<Yield>, output: Var)
    | DedupNode(input: Var, output: Var)
    | NeighborsNode(input: Var, src: Col, output: Var)
    | JoinNode(left: Read, right: Read, leftKey: Col, rightKey: Col, output: Var)

  const LATEST: int := 0
  const PREVIOUS: int := -1

  type Store = map<Var, seq<Table>>

  function ReadTable(store: Store, r: Read): Table {
    match Versioned(History(store, r.name), r.version)
    case None => []
    case Some(t) => t
  }

  function Latest(store: Store, v: Var): Table {
    ReadTable(store, Read(v, LATEST))
  }

  function Write(store: Store, v: Var, t: Table): Store {
    store[v := History(store, v) + [t]]
  }

  function Output(store: Store, graph: Graph, i: Instr): Table {
    match i
    case ProjectNode(input, cols, _) => ProjectTable(cols, Latest(store, input))
    case DedupNode(input, _) => DedupTable(Latest(store, input))
    case NeighborsNode(input, src, _) => NeighborsTable(graph, Latest(store, input), src)
    case JoinNode(left, right, leftKey, rightKey, _) =>
      JoinTable(ReadTable(store, left), ReadTable(store, right), leftKey, rightKey)
  }

  function Exec(store: Store, graph: Graph, i: Instr): Store {
    Write(store, i.output, Output(store, graph, i))
  }

  function ExecAll(store: Store, graph: Graph, nodes: seq<Instr>): Store
    decreases |nodes|
  {
    if nodes == [] then store else ExecAll(Exec(store, graph, nodes[0]), graph, nodes[1..])
  }

  function Rounds(store: Store, graph: Graph, body: seq<Instr>, k: nat): Store {
    if k == 0 then store else ExecAll(Rounds(store, graph, body, k - 1), graph, body)
  }

  lemma RoundsNone(store: Store, graph: Graph, body: seq<Instr>)
    ensures Rounds(store, graph, body, 0) == store
  {
  }

  lemma RoundsStep(store: Store, graph: Graph, body: seq<Instr>, k: nat)
    ensures Rounds(store, graph, body, k + 1) == ExecAll(Rounds(store, graph, body, k), graph, body)
  {
  }

  lemma LatestAfterWrite(store: Store, v: Var, t: Table, w: Var)
    ensures Latest(Write(store, v, t), w) == if w == v then t else Latest(store, w)
  {
    VersionBack(History(Write(store, v, t), w), 0);
    VersionBack(History(store, w), 0);
  }

  /** One node, executed by its executor. */
  method RunNode(ectx: ExecutionContext<Var, Table>, graph: Graph, i: Instr)
    requires ectx.Ok()
    modifies ectx
    ensures ectx.Ok() && ectx.values == Exec(old(ectx.values), graph, i)
  {
    var out: Table;
    match i
    case ProjectNode(input, cols, _) =>
      var t := ReadVar(ectx, Read(input, LATEST));
      out := Project(cols, t);
      ectx.SetResult(i.output, out);
    case DedupNode(input, _) =>
      var t := ReadVar(ectx, Read(input, LATEST));
      out := Dedup(t);
      ectx.SetResult(i.output, out);
    case NeighborsNode(input, src, _) =>
      var t := ReadVar(ectx, Read(input, LATEST));
      out := GetNeighbors(graph, t, src);
      ectx.SetResult(i.output, out);
    case JoinNode(left, right, leftKey, rightKey, _) =>
      var l := ReadVar(ectx, left);
      var r := ReadVar(ectx, right);
      out := InnerJoin(l, r, leftKey, rightKey);
      ectx.SetResult(i.output, out);
  }

  method ReadVar(ectx: ExecutionContext<Var, Table>, r: Read) returns (t: Table)
    requires ectx.Ok()
    ensures t == ReadTable(ectx.values, r)
  {
    var found := ectx.GetVersionedResult(r.name, r.version);
    t := match found case None => [] case Some(table) => table;
  }

  method RunAll(ectx: ExecutionContext<Var, Table>, graph: Graph, nodes: seq<Instr>)
    requires ectx.Ok()
    modifies ectx
    ensures ectx.Ok() && ectx.values == ExecAll(old(ectx.values), graph, nodes)
  {
    for k := 0 to |nodes|
      invariant ectx.Ok() && ExecAll(ectx.values, graph, nodes[k..]) == ExecAll(old(ectx.values), graph, nodes)
    {
      RunNode(ectx, graph, nodes[k]);
      assert nodes[k..][1..] == nodes[k + 1..];
    }
  }

  /** The loop condition counts up before it compares, so the body runs `steps` times. */
  method RunLoop(ectx: ExecutionContext<Var, Table>, graph: Graph, body: seq<Instr>, steps: nat)
    requires ectx.Ok()
    modifies ectx
    ensures ectx.Ok() && ectx.values == Rounds(old(ectx.values), graph, body, steps)
  {
    hide ExecAll, Suffix, Rounds;
    RoundsNone(ectx.values, graph, body);
    var loopSteps := 0;
    loopSteps := loopSteps + 1;
    while loopSteps <= steps
      invariant 1 <= loopSteps <= steps + 1
      invariant ectx.Ok() && ectx.values == Rounds(old(ectx.values), graph, body, loopSteps - 1)
    {
      RoundsStep(old(ectx.values), graph, body, loopSteps - 1);
      RunAll(ectx, graph, body);
      loopSteps := loopSteps + 1;
    }
  }
}

/** The plans that GoValidator builds for a start taken from an input column. */
module GoPlan {
  import opened Tables
  import opened PlanInterpreter

  /** dstVidColName_ and srcVidColName_. */
  const DST_VID: Col := Anon(0)
  const SRC_VID: Col := Anon(1)

  /** The column that ExtractPropExprVisitor generates for the properties of an edge, and by which
      the rewritten WHERE and YIELD name them. */
  const EDGE_COL: Col := Anon(2)

  const EDGE_COLS: seq<Yield> := [Yield(EdgeProps, EDGE_COL), Yield(Vid, Vid)]

  /** The rewritten columns of YIELD: properties of the edge, and, if the sentence names one in WHERE
      or YIELD, properties of the input. */
  predicate Yields(named: bool, cols: seq<Yield>) {
    forall i :: 0 <= i < |cols| ==> cols[i].from == EDGE_COL || (named && cols[i].from.User?)
  }

  /** buildRuntimeInput: the start vertices, without repetition. */
  function RuntimeInput(src: Col): seq<Instr> {
    [ProjectNode(Input, [Yield(src, Vid)], StartProject), DedupNode(StartProject, Start)]
  }

  /** buildLeftVarForTraceJoin: each start is its own end. */
  function LeftVarForTraceJoin(src: Col): seq<Instr> {
    [ProjectNode(Input, [Yield(src, src), Yield(src, DST_VID)], LeftProject), DedupNode(LeftProject, Trace)]
  }

  /** projectDstVidsFromGN writes the next frontier back to the start variable. */
  function ProjectDstVids(): seq<Instr> {
    [ProjectNode(BodyNeighbors, [Yield(Dst, Vid)], DstProject), DedupNode(DstProject, Start)]
  }

  /** projectSrcDstVidsFromGN. */
  function ProjectSrcDstVids(): seq<Instr> {
    [ProjectNode(BodyNeighbors, [Yield(Dst, Vid), Yield(Vid, SRC_VID)], SrcDstProject),
      DedupNode(SrcDstProject, SrcDst)]
  }

  /** traceToStartVid writes the longer traces back to the trace variable. */
  function TraceToStart(src: Col): seq<Instr> {
    [JoinNode(Read(Trace, LATEST), Read(SrcDst, LATEST), DST_VID, SRC_VID, TraceJoin),
     ProjectNode(TraceJoin, [Yield(src, src), Yield(Vid, DST_VID)], TraceProject),
     DedupNode(TraceProject, Trace)]
  }

  function FrontierBody(): seq<Instr> {
    [NeighborsNode(Start, Vid, BodyNeighbors)] + ProjectDstVids() + ProjectSrcDstVids()
  }

  function StepBody(src: Col): seq<Instr> {
    FrontierBody() + TraceToStart(src)
  }

  /** buildProjectSrcEdgePropsForGN and buildJoinPipeOrVariableInput. */
  function JoinInput(gn: Var, src: Col, version: int): seq<Instr> {
    [ProjectNode(gn, EDGE_COLS, EdgeTable),
     JoinNode(Read(EdgeTable, LATEST), Read(Trace, version), Vid, DST_VID, EdgeTrace),
     JoinNode(Read(EdgeTrace, LATEST), Read(Input, LATEST), src, src, Joined)]
  }

  /** oneStep, after the loop. */
  function LastStep(src: Col): seq<Instr> {
    [NeighborsNode(Start, Vid, LastNeighbors)] + JoinInput(LastNeighbors, src, LATEST)
  }

  function BeforeLoop(src: Col): seq<Instr> {
    RuntimeInput(src) + LeftVarForTraceJoin(src)
  }

  /** buildMToNPlan makes the trace only for a sentence that names an input property. */
  function BeforeMToN(src: Col, named: bool): seq<Instr> {
    if named then BeforeLoop(src) else RuntimeInput(src)
  }

  function TracedBody(src: Col): seq<Instr> {
    StepBody(src) + JoinInput(BodyNeighbors, src, PREVIOUS)
  }

  /** The body of the M to N loop makes the result of its step as well: from the joins for a sentence
      that names an input property, and otherwise from the neighbours. */
  function MToNBody(src: Col, named: bool, cols: seq<Yield>): seq<Instr> {
    if named then TracedBody(src) + [ProjectNode(Joined, cols, Result)]
    else FrontierBody() + [ProjectNode(BodyNeighbors, cols, Result)]
  }

  /** buildOneStepPlan: the edges of the starts join the input directly. */
  function OneStepNodes(src: Col): seq<Instr> {
    [NeighborsNode(Start, Vid, LastNeighbors),
     ProjectNode(LastNeighbors, EDGE_COLS, EdgeTable),
     JoinNode(Read(EdgeTable, LATEST), Read(Input, LATEST), Vid, src, Joined)]
  }

  function OneStep(store: Store, graph: Graph, src: Col): Table {
    Latest(ExecAll(ExecAll(store, graph, RuntimeInput(src)), graph, OneStepNodes(src)), Joined)
  }

  function NSteps(store: Store, graph: Graph, src: Col, steps: nat): Table
    requires steps >= 2
  {
    var before := ExecAll(store, graph, BeforeLoop(src));
    Latest(ExecAll(Rounds(before, graph, StepBody(src), steps - 1), graph, LastStep(src)), Joined)
  }

  /** What the plan for the given number of steps leaves in its last join. */
  function GoSteps(store: Store, graph: Graph, src: Col, steps: nat): Table
    requires steps >= 1
  {
    if steps == 1 then OneStep(store, graph, src) else NSteps(store, graph, src, steps)
  }
}
