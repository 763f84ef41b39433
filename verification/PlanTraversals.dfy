/** The executors of a plan: one for each reachable plan node, linked both ways. */
module ExecutorCreation {
  import opened OptPlan
  import opened OptConvert

  datatype Exec = Exec(id: int, depends: set<nat>, successors: set<nat>, bodies: seq<nat>)

  function SetOf(refs: seq<nat>): set<nat> {
    set i | 0 <= i < |refs| :: refs[i]
  }

  /** Executor `a` depends on `b` exactly when `a` is a successor of `b`. */
  predicate Mirrored(nodes: seq<Exec>) {
    && (forall a, b :: 0 <= a < |nodes| && b in nodes[a].depends ==> b < |nodes|)
    && (forall a, b :: 0 <= b < |nodes| && a in nodes[b].successors ==> a < |nodes|)
    && (forall a, b :: 0 <= a < |nodes| && 0 <= b < |nodes| ==> Mirror2(nodes, a, b))
  }

  predicate Mirror2(nodes: seq<Exec>, a: nat, b: nat)
    requires a < |nodes| && b < |nodes|
  {
    b in nodes[a].depends <==> a in nodes[b].successors
  }

  /** The executor of plan node `id` has its dependencies and bodies. */
  predicate Finished(plan: Plan, nodes: seq<Exec>, visited: map<int, nat>, id: int)
    requires id in visited
  {
    var v := visited[id];
    && id in plan && AllVisited(visited, plan[id].deps) && AllVisited(visited, plan[id].bodies)
    && v < |nodes| && nodes[v].id == id
    && nodes[v].depends == SetOf(Images(visited, plan[id].deps)) && nodes[v].bodies == Images(visited, plan[id].bodies)
  }

  predicate AllFinished(plan: Plan, nodes: seq<Exec>, visited: map<int, nat>) {
    forall id :: id in visited ==> Finished(plan, nodes, visited, id)
  }

  predicate SameButSuccessors(a: Exec, b: Exec) {
    a.id == b.id && a.depends == b.depends && a.bodies == b.bodies
  }

  /** Later work only adds executors and successors, and finishes every executor that it adds. */
  ghost predicate Later(n0: seq<Exec>, v0: map<int, nat>, n1: seq<Exec>, v1: map<int, nat>) {
    && |n0| <= |n1| && (forall i :: 0 <= i < |n0| ==> SameButSuccessors(n0[i], n1[i]))
    && Within(v0, v1)
    && (forall x :: x in v1 && x !in v0 ==> |n0| <= v1[x] < |n1|)
    && (forall i :: |n0| <= i < |n1| ==> n1[i].id in v1 && v1[n1[i].id] == i)
  }

  lemma LaterItself(n: seq<Exec>, v: map<int, nat>)
    ensures Later(n, v, n, v)
  {
  }

  lemma LaterTransitive(n0: seq<Exec>, v0: map<int, nat>, n1: seq<Exec>, v1: map<int, nat>, n2: seq<Exec>,
                        v2: map<int, nat>)
    requires Later(n0, v0, n1, v1) && Later(n1, v1, n2, v2)
    ensures Later(n0, v0, n2, v2)
  {
    forall x | x in v2 && x !in v0 ensures |n0| <= v2[x] < |n2| {
      if x in v1 {
        WithinAt(v1, v2, x);
      }
    }
    forall x | x in v0 ensures x in v2 && v2[x] == v0[x] {
      WithinAt(v0, v1, x);
      WithinAt(v1, v2, x);
    }
    forall i | |n0| <= i < |n2| ensures n2[i].id in v2 && v2[n2[i].id] == i {
      if i < |n1| {
        assert SameButSuccessors(n1[i], n2[i]);
        WithinAt(v1, v2, n1[i].id);
      }
    }
  }

  lemma FinishedKept(plan: Plan, n0: seq<Exec>, v0: map<int, nat>, n1: seq<Exec>, v1: map<int, nat>, id: int)
    requires id in v0 && Finished(plan, n0, v0, id) && Within(v0, v1) && |n0| <= |n1| &&
      SameButSuccessors(n0[v0[id]], n1[v0[id]])
    ensures id in v1 && Finished(plan, n1, v1, id)
  {
    WithinAt(v0, v1, id);
    ImagesKept(v0, v1, plan[id].deps);
    ImagesKept(v0, v1, plan[id].bodies);
  }

  /** Executor::dependsOn, for every dependency of executor `e`. */
  function Link(nodes: seq<Exec>, e: nat, deps: set<nat>, bodies: seq<nat>): (out: seq<Exec>)
    requires e < |nodes| && forall d :: d in deps ==> d < |nodes|
    ensures |out| == |nodes|
    ensures forall i :: 0 <= i < |nodes| ==>
      out[i] == Exec(nodes[i].id, nodes[i].depends + (if i == e then deps else {}),
                     nodes[i].successors + (if i in deps then {e} else {}), if i == e then bodies else nodes[i].bodies)
  {
    seq(|nodes|, i requires 0 <= i < |nodes| =>
      Exec(nodes[i].id, nodes[i].depends + (if i == e then deps else {}),
           nodes[i].successors + (if i in deps then {e} else {}), if i == e then bodies else nodes[i].bodies))
  }

  lemma LinkMirrored(nodes: seq<Exec>, e: nat, deps: set<nat>, bodies: seq<nat>)
    requires Mirrored(nodes) && e < |nodes| && forall d :: d in deps ==> d < |nodes|
    ensures Mirrored(Link(nodes, e, deps, bodies))
  {
    var out := Link(nodes, e, deps, bodies);
    forall a, b | 0 <= a < |out| && 0 <= b < |out| ensures Mirror2(out, a, b) {
      assert Mirror2(nodes, a, b);
    }
  }

  lemma BeginMirrored(nodes: seq<Exec>, id: int)
    requires Mirrored(nodes)
    ensures Mirrored(nodes + [Exec(id, {}, {}, [])])
  {
    var out := nodes + [Exec(id, {}, {}, [])];
    forall a, b | 0 <= a < |out| && 0 <= b < |out| ensures Mirror2(out, a, b) {
      if a < |nodes| && b < |nodes| {
        assert Mirror2(nodes, a, b);
      }
    }
  }

  lemma BeginFinished(plan: Plan, nodes: seq<Exec>, visited: map<int, nat>, id: int)
    requires AllFinished(plan, nodes, visited)
    ensures AllFinished(plan, nodes + [Exec(id, {}, {}, [])], visited)
  {
    forall x | x in visited ensures Finished(plan, nodes + [Exec(id, {}, {}, [])], visited, x) {
      FinishedKept(plan, nodes, visited, nodes + [Exec(id, {}, {}, [])], visited, x);
    }
  }

  lemma ImagesWithin(plan: Plan, nodes: seq<Exec>, visited: map<int, nat>, refs: seq<int>)
    requires AllFinished(plan, nodes, visited) && AllVisited(visited, refs)
    ensures forall d :: d in SetOf(Images(visited, refs)) ==> d < |nodes|
  {
    forall i | 0 <= i < |refs| ensures Images(visited, refs)[i] < |nodes| {
      assert Finished(plan, nodes, visited, refs[i]);
    }
  }

  lemma LinkFinished(plan: Plan, n0: seq<Exec>, v0: map<int, nat>, n1: seq<Exec>, v1: map<int, nat>, id: int)
    requires id in plan && id !in v1 && AllFinished(plan, n0, v0) && AllFinished(plan, n1, v1)
    requires Later(n0 + [Exec(id, {}, {}, [])], v0, n1, v1)
    requires AllVisited(v1, plan[id].deps) && AllVisited(v1, plan[id].bodies)
    requires forall d :: d in SetOf(Images(v1, plan[id].deps)) ==> d < |n1|
    ensures
      var n2, v2 := Link(n1, |n0|, SetOf(Images(v1, plan[id].deps)), Images(v1, plan[id].bodies)), v1[id := |n0|];
      AllFinished(plan, n2, v2) && Later(n0, v0, n2, v2)
  {
    var e := |n0|;
    var n2, v2 := Link(n1, e, SetOf(Images(v1, plan[id].deps)), Images(v1, plan[id].bodies)), v1[id := e];
    var begun := n0 + [Exec(id, {}, {}, [])];
    assert SameButSuccessors(begun[e], n1[e]);
    assert n2[e].depends == SetOf(Images(v1, plan[id].deps));
    assert Within(v1, v2);
    forall x | x in v1 ensures x in v2 && Finished(plan, n2, v2, x) && v1[x] != e {
      assert v1[x] != e by {
        if x in v0 {
          WithinAt(v0, v1, x);
          assert Finished(plan, n0, v0, x);
        }
      }
      assert Finished(plan, n1, v1, x);
      FinishedKept(plan, n1, v1, n2, v2, x);
    }
    ImagesKept(v1, v2, plan[id].deps);
    ImagesKept(v1, v2, plan[id].bodies);
    forall i | 0 <= i < e ensures SameButSuccessors(n0[i], n2[i]) {
      assert SameButSuccessors(begun[i], n1[i]);
    }
    forall x | x in v0 ensures x in v2 && v2[x] == v0[x] {
      WithinAt(v0, v1, x);
    }
  }

  class Creator {
    const plan: Plan
    ghost const rank: int -> nat
    ghost const root: int
    var nodes: seq<Exec>
    var visited: map<int, nat>

    ghost predicate Ok()
      reads this
    {
      && PlanOk(plan, rank) && Mirrored(nodes) && AllFinished(plan, nodes, visited)
      && forall x :: x in visited ==> Reachable(plan, root, x)
    }

    constructor (plan: Plan, root: int, ghost rank: int -> nat)
      requires PlanOk(plan, rank)
      ensures Ok() && this.plan == plan && this.root == root && this.rank == rank && nodes == [] && visited == map[]
    {
      this.plan, this.root, this.rank := plan, root, rank;
      nodes, visited := [], map[];
    }

    /** Executor::makeExecutor. */
    method Make(id: int) returns (e: nat)
      requires Ok() && id in plan && Reachable(plan, root, id)
      modifies this`nodes, this`visited
      ensures Ok() && id in visited && visited[id] == e
      ensures Later(old(nodes), old(visited), nodes, visited)
      ensures forall x :: x in visited && x !in old(visited) ==> rank(x) <= rank(id)
      decreases rank(id), 1
    {
      hide Mirrored, AllFinished, Later, Within, Reachable;
      LaterItself(nodes, visited);
      if id in visited {
        return visited[id];
      }
      e := |nodes|;
      BeginMirrored(nodes, id);
      BeginFinished(plan, nodes, visited, id);
      nodes := nodes + [Exec(id, {}, {}, [])];
      LaterItself(nodes, visited);
      ghost var begun := nodes;
      var bodies := MakeAll(id, plan[id].bodies, begun, visited);
      ghost var between := visited;
      var deps := MakeAll(id, plan[id].deps, begun, old(visited));
      assert AllVisited(visited, plan[id].bodies) && bodies == Images(visited, plan[id].bodies) by {
        ImagesKept(between, visited, plan[id].bodies);
      }
      ImagesWithin(plan, nodes, visited, plan[id].deps);
      LinkFinished(plan, old(nodes), old(visited), nodes, visited, id);
      LaterLonger(begun, old(visited), nodes, visited);
      LinkMirrored(nodes, e, SetOf(deps), bodies);
      nodes := Link(nodes, e, SetOf(deps), bodies);
      visited := visited[id := e];
    }

    method MakeAll(id: int, refs: seq<int>, ghost n0: seq<Exec>, ghost v0: map<int, nat>) returns (es: seq<nat>)
      requires Ok() && id in plan && Reachable(plan, root, id) && (refs == plan[id].deps || refs == plan[id].bodies)
      requires Later(n0, v0, nodes, visited)
      modifies this`nodes, this`visited
      ensures Ok() && Within(old(visited), visited) && AllVisited(visited, refs) && es == Images(visited, refs)
      ensures Later(n0, v0, nodes, visited)
      ensures forall x :: x in visited && x !in old(visited) ==> rank(x) < rank(id)
      decreases rank(id), 0
    {
      hide Mirrored, AllFinished, Later, Reachable;
      es := [];
      for i := 0 to |refs|
        invariant Ok() && Within(old(visited), visited) && AllVisited(visited, refs[..i]) &&
          es == Images(visited, refs[..i])
        invariant Later(n0, v0, nodes, visited)
        invariant forall x :: x in visited && x !in old(visited) ==> rank(x) < rank(id)
      {
        ghost var n1, v1 := nodes, visited;
        assert RefsOk(plan, rank, id, refs);
        RootReaches(plan, root, id, refs[i]);
        var e := Make(refs[i]);
        LaterTransitive(n0, v0, n1, v1, nodes, visited);
        LaterWithin(n1, v1, nodes, visited);
        ImagesKept(v1, visited, refs[..i]);
        es := es + [e];
        assert refs[..i + 1] == refs[..i] + [refs[i]];
      }
      assert refs[..|refs|] == refs;
    }
  }

  lemma LaterWithin(n0: seq<Exec>, v0: map<int, nat>, n1: seq<Exec>, v1: map<int, nat>)
    requires Later(n0, v0, n1, v1)
    ensures Within(v0, v1)
  {
  }

  lemma LaterLonger(n0: seq<Exec>, v0: map<int, nat>, n1: seq<Exec>, v1: map<int, nat>)
    requires Later(n0, v0, n1, v1)
    ensures |n0| <= |n1|
  {
  }

  lemma {:induction false} VisitedClosed(plan: Plan, nodes: seq<Exec>, visited: map<int, nat>, id: int, x: int,
                                         steps: nat)
    requires AllFinished(plan, nodes, visited) && id in visited && PlanReach(plan, id, x, steps)
    ensures x in visited
    decreases steps
  {
    if steps > 0 {
      assert Finished(plan, nodes, visited, id);
      var k :| k in plan[id].deps + plan[id].bodies && PlanReach(plan, k, x, steps - 1);
      VisitedClosed(plan, nodes, visited, k, x, steps - 1);
    }
  }

  /** Executor::create: executors and reachable plan nodes correspond one to one, with the plan's
      dependencies and bodies, and the dependency and successor sets mirror each other. */
  method Create(plan: Plan, root: int, ghost rank: int -> nat)
    returns (nodes: seq<Exec>, visited: map<int, nat>, e: nat)
    requires PlanOk(plan, rank) && root in plan
    ensures Mirrored(nodes) && AllFinished(plan, nodes, visited)
    ensures root in visited && visited[root] == e
    ensures forall x :: x in visited <==> Reachable(plan, root, x)
    ensures forall i :: 0 <= i < |nodes| ==> nodes[i].id in visited && visited[nodes[i].id] == i
  {
    var c := new Creator(plan, root, rank);
    assert PlanReach(plan, root, root, 0);
    e := c.Make(root);
    nodes, visited := c.nodes, c.visited;
    forall x | Reachable(plan, root, x) ensures x in visited {
      var steps: nat :| PlanReach(plan, root, x, steps);
      VisitedClosed(plan, nodes, visited, root, x, steps);
    }
  }
}

/** The numbered description of a plan. */
module PlanDescriptions {
  import opened OptPlan
  import opened OptConvert

  /** The index map and the list of described ids are inverse to each other. */
  ghost predicate Numbered(descs: seq<int>, index: map<int, nat>) {
    && (forall id :: id in index ==> index[id] < |descs| && descs[index[id]] == id)
    && (forall p :: 0 <= p < |descs| ==> descs[p] in index && index[descs[p]] == p)
  }

  predicate AllIn(index: map<int, nat>, refs: seq<int>) {
    forall i :: 0 <= i < |refs| ==> refs[i] in index
  }

  /** Every described node has the nodes below it described, but for those still at work. */
  ghost predicate ClosedBut(plan: Plan, index: map<int, nat>, busy: set<int>) {
    forall id :: id in index && id !in busy ==>
      id in plan && AllIn(index, plan[id].deps) && AllIn(index, plan[id].bodies)
  }

  class PlanDescription {
    const plan: Plan
    ghost const rank: int -> nat
    ghost const root: int
    var planNodeDescs: seq<int>
    var nodeIndexMap: map<int, nat>

    ghost predicate Ok()
      reads this
    {
      && PlanOk(plan, rank) && Numbered(planNodeDescs, nodeIndexMap)
      && forall x :: x in nodeIndexMap ==> Reachable(plan, root, x)
    }

    constructor (plan: Plan, root: int, ghost rank: int -> nat)
      requires PlanOk(plan, rank)
      ensures Ok() && this.plan == plan && this.root == root && this.rank == rank && planNodeDescs == [] &&
        nodeIndexMap == map[]
    {
      this.plan, this.root, this.rank := plan, root, rank;
      planNodeDescs, nodeIndexMap := [], map[];
    }

    /** makePlanNodeDesc: a node is numbered before the nodes below it. */
    method MakePlanNodeDesc(id: int, ghost busy: set<int>) returns (pos: nat)
      requires Ok() && id in plan && Reachable(plan, root, id) && ClosedBut(plan, nodeIndexMap, busy)
      modifies this`planNodeDescs, this`nodeIndexMap
      ensures Ok() && id in nodeIndexMap && nodeIndexMap[id] == pos && ClosedBut(plan, nodeIndexMap, busy)
      ensures old(planNodeDescs) <= planNodeDescs && old(nodeIndexMap).Keys <= nodeIndexMap.Keys
      ensures id !in old(nodeIndexMap) ==> pos == |old(planNodeDescs)|
      decreases rank(id), 1
    {
      if id in nodeIndexMap {
        return nodeIndexMap[id];
      }
      pos := |planNodeDescs|;
      nodeIndexMap := nodeIndexMap[id := pos];
      planNodeDescs := planNodeDescs + [id];
      assert ClosedBut(plan, nodeIndexMap, busy + {id});
      MakeAll(id, plan[id].bodies, busy + {id});
      ghost var between := nodeIndexMap.Keys;
      MakeAll(id, plan[id].deps, busy + {id});
      assert AllIn(nodeIndexMap, plan[id].bodies) by {
        forall i | 0 <= i < |plan[id].bodies| ensures plan[id].bodies[i] in nodeIndexMap {
          assert plan[id].bodies[i] in between;
        }
      }
      assert planNodeDescs[pos] == id;
    }

    method MakeAll(id: int, refs: seq<int>, ghost busy: set<int>)
      requires Ok() && id in plan && Reachable(plan, root, id) && (refs == plan[id].deps || refs == plan[id].bodies)
      requires ClosedBut(plan, nodeIndexMap, busy)
      modifies this`planNodeDescs, this`nodeIndexMap
      ensures Ok() && AllIn(nodeIndexMap, refs) && ClosedBut(plan, nodeIndexMap, busy)
      ensures old(planNodeDescs) <= planNodeDescs && old(nodeIndexMap).Keys <= nodeIndexMap.Keys
      decreases rank(id), 0
    {
      for i := 0 to |refs|
        invariant Ok() && AllIn(nodeIndexMap, refs[..i]) && ClosedBut(plan, nodeIndexMap, busy)
        invariant old(planNodeDescs) <= planNodeDescs && old(nodeIndexMap).Keys <= nodeIndexMap.Keys
      {
        ghost var before := nodeIndexMap.Keys;
        assert RefsOk(plan, rank, id, refs);
        RootReaches(plan, root, id, refs[i]);
        var pos := MakePlanNodeDesc(refs[i], busy);
        var done := refs[..i + 1];
        forall j | 0 <= j < |done| ensures done[j] in nodeIndexMap {
          if j < i {
            assert refs[..i][j] in before;
          }
        }
      }
      assert refs[..|refs|] == refs;
    }
  }

  lemma {:induction false} DescribedClosed(plan: Plan, index: map<int, nat>, id: int, x: int, steps: nat)
    requires ClosedBut(plan, index, {}) && id in index && PlanReach(plan, id, x, steps)
    ensures x in index
    decreases steps
  {
    if steps > 0 {
      var k :| k in plan[id].deps + plan[id].bodies && PlanReach(plan, k, x, steps - 1);
      DescribedClosed(plan, index, k, x, steps - 1);
    }
  }

  /** ExecutionPlan::fillPlanDescription: the index map is a bijection between the reachable ids and
      the positions of the descriptions, and the root comes first. */
  method FillPlanDescription(plan: Plan, root: int, ghost rank: int -> nat)
    returns (descs: seq<int>, index: map<int, nat>)
    requires PlanOk(plan, rank) && root in plan
    ensures Numbered(descs, index) && (forall x :: x in index <==> Reachable(plan, root, x))
    ensures |descs| > 0 && descs[0] == root
  {
    var d := new PlanDescription(plan, root, rank);
    assert PlanReach(plan, root, root, 0);
    var pos := d.MakePlanNodeDesc(root, {});
    descs, index := d.planNodeDescs, d.nodeIndexMap;
    forall x | Reachable(plan, root, x) ensures x in index {
      var steps: nat :| PlanReach(plan, root, x, steps);
      DescribedClosed(plan, index, root, x, steps);
    }
  }
}
