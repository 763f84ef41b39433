/** Plans: a graph of plan nodes with ids, and its unfolding into a tree. */
module OptPlan {
  import opened OptMemo

  datatype PlanNode = PlanNode(op: Op, deps: seq<int>, bodies: seq<int>)

  type Plan = map<int, PlanNode>

  datatype Tree = Tree(op: Op, deps: seq<Tree>, bodies: seq<Tree>)

  /** Edges stay inside the plan and go down in rank, so the plan is acyclic. */
  predicate PlanOk(plan: Plan, rank: int -> nat) {
    forall id :: id in plan ==>
      && Shaped(plan[id].op, |plan[id].deps|, |plan[id].bodies|)
      && RefsOk(plan, rank, id, plan[id].deps) && RefsOk(plan, rank, id, plan[id].bodies)
  }

  predicate RefsOk(plan: Plan, rank: int -> nat, id: int, refs: seq<int>) {
    forall i :: 0 <= i < |refs| ==> refs[i] in plan && rank(refs[i]) < rank(id)
  }

  ghost function Unfold(plan: Plan, rank: int -> nat, id: int): Tree
    requires PlanOk(plan, rank) && id in plan
    decreases rank(id), 1
  {
    Tree(plan[id].op, UnfoldAll(plan, rank, id, plan[id].deps), UnfoldAll(plan, rank, id, plan[id].bodies))
  }

  ghost function UnfoldAll(plan: Plan, rank: int -> nat, id: int, refs: seq<int>): (ts: seq<Tree>)
    requires PlanOk(plan, rank) && RefsOk(plan, rank, id, refs)
    ensures |ts| == |refs| && forall i :: 0 <= i < |refs| ==> ts[i] == Unfold(plan, rank, refs[i])
    decreases rank(id), 0, |refs|
  {
    if refs == [] then [] else [Unfold(plan, rank, refs[0])] + UnfoldAll(plan, rank, id, refs[1..])
  }

  ghost function TreeMeaning<M>(sem: Meaning<M>, t: Tree): M
    decreases t, 1
  {
    sem(t.op, AllMeanings(sem, t.deps), AllMeanings(sem, t.bodies))
  }

  ghost function AllMeanings<M>(sem: Meaning<M>, ts: seq<Tree>): (ms: seq<M>)
    ensures |ms| == |ts| && forall i :: 0 <= i < |ts| ==> ms[i] == TreeMeaning(sem, ts[i])
    decreases ts, 0
  {
    if ts == [] then [] else [TreeMeaning(sem, ts[0])] + AllMeanings(sem, ts[1..])
  }
}

/** The first phase: one group for each plan node. */
module OptConvert {
  import opened OptMemo
  import opened OptPlan

  function Images(visited: map<int, nat>, refs: seq<int>): seq<nat>
    requires forall i :: 0 <= i < |refs| ==> refs[i] in visited
  {
    seq(|refs|, i requires 0 <= i < |refs| => visited[refs[i]])
  }

  predicate AllVisited(visited: map<int, nat>, refs: seq<int>) {
    forall i :: 0 <= i < |refs| ==> refs[i] in visited
  }

  /** The group of plan node `id` holds one node, which has the same operation and edges. */
  predicate Copied(plan: Plan, memo: Memo, visited: map<int, nat>, id: int)
    requires id in visited
  {
    var v := visited[id];
    && id in plan && AllVisited(visited, plan[id].deps) && AllVisited(visited, plan[id].bodies)
    && v < |memo.groups| && |memo.groups[v]| == 1 && memo.groups[v][0] < |memo.nodes|
    && memo.nodes[memo.groups[v][0]] ==
         GroupNode(Draft(plan[id].op, Images(visited, plan[id].deps), Images(visited, plan[id].bodies)), v)
  }

  /** `origin` names the plan node of each group, finished or not. */
  predicate Mirror(plan: Plan, memo: Memo, visited: map<int, nat>, origin: seq<int>) {
    && |origin| == |memo.groups| == |memo.nodes|
    && (forall id :: id in visited ==> Copied(plan, memo, visited, id) && origin[visited[id]] == id)
  }

  ghost predicate PlanReach(plan: Plan, id: int, x: int, steps: nat)
    decreases steps
  {
    if steps == 0 then id == x
    else id in plan && exists k :: k in plan[id].deps + plan[id].bodies && PlanReach(plan, k, x, steps - 1)
  }

  ghost predicate Reachable(plan: Plan, id: int, x: int) {
    exists steps: nat :: PlanReach(plan, id, x, steps)
  }

  predicate Within(v0: map<int, nat>, v1: map<int, nat>) {
    forall x :: x in v0 ==> x in v1 && v1[x] == v0[x]
  }

  lemma WithinAt(v0: map<int, nat>, v1: map<int, nat>, x: int)
    requires Within(v0, v1) && x in v0
    ensures x in v1 && v1[x] == v0[x]
  {
  }

  /** Later work keeps what was there, and gives every new group a finished plan node. */
  ghost predicate Extended(m0: Memo, v0: map<int, nat>, o0: seq<int>, m1: Memo, v1: map<int, nat>, o1: seq<int>) {
    && m0.nodes <= m1.nodes && m0.groups <= m1.groups && o0 <= o1 && |o1| == |m1.groups|
    && m1.nodeMarks == m0.nodeMarks && m1.groupMarks == m0.groupMarks
    && Within(v0, v1)
    && (forall x :: x in v1 && x !in v0 ==> |m0.groups| <= v1[x] < |m1.groups|)
    && (forall g :: |m0.groups| <= g < |m1.groups| ==> o1[g] in v1 && v1[o1[g]] == g)
  }

  lemma ExtendedTransitive(m0: Memo, v0: map<int, nat>, o0: seq<int>, m1: Memo, v1: map<int, nat>, o1: seq<int>,
                           m2: Memo, v2: map<int, nat>, o2: seq<int>)
    requires Extended(m0, v0, o0, m1, v1, o1) && Extended(m1, v1, o1, m2, v2, o2)
    ensures Extended(m0, v0, o0, m2, v2, o2)
  {
    forall g | |m0.groups| <= g < |m2.groups| ensures o2[g] in v2 && v2[o2[g]] == g {
      if g < |m1.groups| {
        assert o2[g] == o1[g] && o1[g] in v1 && v1[o1[g]] == g;
      }
    }
    forall x | x in v2 && x !in v0 ensures |m0.groups| <= v2[x] < |m2.groups| {
      if x in v1 {
        assert v2[x] == v1[x] < |m1.groups|;
      }
    }
  }

  lemma ImagesKept(v0: map<int, nat>, v1: map<int, nat>, refs: seq<int>)
    requires Within(v0, v1) && AllVisited(v0, refs)
    ensures AllVisited(v1, refs) && Images(v1, refs) == Images(v0, refs)
  {
    forall i | 0 <= i < |refs| ensures refs[i] in v1 && v1[refs[i]] == v0[refs[i]] {
      WithinAt(v0, v1, refs[i]);
    }
  }

  lemma CopiedKept(plan: Plan, m0: Memo, v0: map<int, nat>, m1: Memo, v1: map<int, nat>, id: int)
    requires id in v0 && Copied(plan, m0, v0, id) && Within(v0, v1)
    requires m0.groups <= m1.groups && |m0.nodes| <= |m1.nodes| &&
      m1.nodes[m0.groups[v0[id]][0]] == m0.nodes[m0.groups[v0[id]][0]]
    ensures id in v1 && Copied(plan, m1, v1, id)
  {
    ImagesKept(v0, v1, plan[id].deps);
    ImagesKept(v0, v1, plan[id].bodies);
  }

  /** A new group with one node, not yet finished. */
  function Begin(memo: Memo, op: Op): Memo {
    Place(Open(memo), |memo.groups|, [Draft(op, [], [])])
  }

  lemma BeginMirrors(plan: Plan, memo: Memo, visited: map<int, nat>, origin: seq<int>, id: int)
    requires Mirror(plan, memo, visited, origin) && id in plan
    ensures Mirror(plan, Begin(memo, plan[id].op), visited, origin + [id])
  {
    forall x | x in visited
      ensures Copied(plan, Begin(memo, plan[id].op), visited, x) && (origin + [id])[visited[x]] == x
    {
      CopiedKept(plan, memo, visited, Begin(memo, plan[id].op), visited, x);
    }
  }

  /** The edges of node `n` are known. */
  function Finish(memo: Memo, n: nat, node: GroupNode): Memo
    requires n < |memo.nodes|
  {
    memo.(nodes := memo.nodes[n := node])
  }

  lemma FinishMirrors(plan: Plan, m0: Memo, v0: map<int, nat>, o0: seq<int>, m1: Memo, v1: map<int, nat>,
                      o1: seq<int>, id: int)
    requires id in plan && id !in v1 && Mirror(plan, m0, v0, o0) && Mirror(plan, m1, v1, o1)
    requires Extended(Begin(m0, plan[id].op), v0, o0 + [id], m1, v1, o1)
    requires AllVisited(v1, plan[id].deps) && AllVisited(v1, plan[id].bodies)
    ensures
      var g, n := |m0.groups|, |m0.nodes|;
      var node := GroupNode(Draft(plan[id].op, Images(v1, plan[id].deps), Images(v1, plan[id].bodies)), g);
      && n < |m1.nodes|
      && Mirror(plan, Finish(m1, n, node), v1[id := g], o1)
      && Extended(m0, v0, o0, Finish(m1, n, node), v1[id := g], o1)
  {
    var g, n := |m0.groups|, |m0.nodes|;
    var mid := Begin(m0, plan[id].op);
    assert mid.nodes[n].group == g && mid.groups[g] == [n] && m1.groups[g] == mid.groups[g] &&
      m1.nodes[n] == mid.nodes[n];
    var node := GroupNode(Draft(plan[id].op, Images(v1, plan[id].deps), Images(v1, plan[id].bodies)), g);
    var m2, v2 := Finish(m1, n, node), v1[id := g];
    assert o1[g] == (o0 + [id])[g] == id;
    forall x | x in v1 ensures x in v2 && v2[x] == v1[x] && Copied(plan, m2, v2, x) && o1[v2[x]] == x {
      assert v1[x] != g by { assert x in v0 ==> v1[x] == v0[x] && Copied(plan, m0, v0, x); }
      assert Copied(plan, m1, v1, x);
      CopiedKept(plan, m1, v1, m2, v2, x);
    }
    ImagesKept(v1, v2, plan[id].deps);
    ImagesKept(v1, v2, plan[id].bodies);
    assert m0.nodes <= m2.nodes;
    forall h | g <= h < |m2.groups| ensures o1[h] in v2 && v2[o1[h]] == h {
    }
    forall x | x in v2 && x !in v0 ensures g <= v2[x] < |m2.groups| {
    }
  }

  class Converter {
    const plan: Plan
    ghost const rank: int -> nat
    ghost const root: int
    var memo: Memo
    var visited: map<int, nat>
    ghost var origin: seq<int>

    ghost predicate Ok()
      reads this
    {
      && PlanOk(plan, rank) && Mirror(plan, memo, visited, origin)
      && forall x :: x in visited ==> Reachable(plan, root, x)
    }

    constructor (plan: Plan, root: int, ghost rank: int -> nat)
      requires PlanOk(plan, rank)
      ensures Ok() && this.plan == plan && this.root == root && this.rank == rank
      ensures memo == Memo([], [], {}, {}) && visited == map[] && origin == []
    {
      this.plan, this.root, this.rank := plan, root, rank;
      memo, visited, origin := Memo([], [], {}, {}), map[], [];
    }

    /** Optimizer::convertToGroup. */
    method Convert(id: int) returns (g: nat)
      requires Ok() && id in plan && Reachable(plan, root, id)
      modifies this`memo, this`visited, this`origin
      ensures Ok() && id in visited && visited[id] == g
      ensures Extended(old(memo), old(visited), old(origin), memo, visited, origin)
      ensures forall x :: x in visited && x !in old(visited) ==> rank(x) <= rank(id)
      decreases rank(id), 1
    {
      hide Mirror, Extended, Within, Reachable;
      ExtendedItself(plan, memo, visited, origin);
      if id in visited {
        return visited[id];
      }
      g := |memo.groups|;
      var n := |memo.nodes|;
      BeginMirrors(plan, memo, visited, origin, id);
      memo := Begin(memo, plan[id].op);
      origin := origin + [id];
      ExtendedItself(plan, memo, visited, origin);
      var bodies := ConvertAll(id, plan[id].bodies, memo, visited, origin);
      ghost var between := visited;
      var deps := ConvertAll(id, plan[id].deps, old(Begin(memo, plan[id].op)), old(visited), old(origin) + [id]);
      assert Images(visited, plan[id].bodies) == bodies && AllVisited(visited, plan[id].bodies) by {
        ImagesKept(between, visited, plan[id].bodies);
      }
      FinishMirrors(plan, old(memo), old(visited), old(origin), memo, visited, origin, id);
      memo := Finish(memo, n, GroupNode(Draft(plan[id].op, deps, bodies), g));
      visited := visited[id := g];
    }

    /** The groups of several plan nodes, in order. */
    method ConvertAll(id: int, refs: seq<int>, ghost m0: Memo, ghost v0: map<int, nat>,
                      ghost o0: seq<int>) returns (gs: seq<nat>)
      requires Ok() && id in plan && Reachable(plan, root, id) && (refs == plan[id].deps || refs == plan[id].bodies)
      requires Extended(m0, v0, o0, memo, visited, origin)
      modifies this`memo, this`visited, this`origin
      ensures Ok() && Within(old(visited), visited) && AllVisited(visited, refs) && gs == Images(visited, refs)
      ensures Extended(m0, v0, o0, memo, visited, origin)
      ensures forall x :: x in visited && x !in old(visited) ==> rank(x) < rank(id)
      decreases rank(id), 0
    {
      hide Mirror, Extended, Reachable;
      gs := [];
      for i := 0 to |refs|
        invariant Ok() && Within(old(visited), visited) && AllVisited(visited, refs[..i]) &&
          gs == Images(visited, refs[..i])
        invariant Extended(m0, v0, o0, memo, visited, origin)
        invariant forall x :: x in visited && x !in old(visited) ==> rank(x) < rank(id)
      {
        ghost var m1, v1, o1 := memo, visited, origin;
        assert RefsOk(plan, rank, id, refs);
        RootReaches(plan, root, id, refs[i]);
        var g := Convert(refs[i]);
        ExtendedTransitive(m0, v0, o0, m1, v1, o1, memo, visited, origin);
        ExtendedWithin(m1, v1, o1, memo, visited, origin);
        ImagesKept(v1, visited, refs[..i]);
        gs := gs + [g];
        assert refs[..i + 1] == refs[..i] + [refs[i]];
      }
      assert refs[..|refs|] == refs;
    }
  }

  lemma ExtendedItself(plan: Plan, memo: Memo, visited: map<int, nat>, origin: seq<int>)
    requires Mirror(plan, memo, visited, origin)
    ensures Extended(memo, visited, origin, memo, visited, origin)
  {
  }

  lemma ExtendedWithin(m0: Memo, v0: map<int, nat>, o0: seq<int>, m1: Memo, v1: map<int, nat>, o1: seq<int>)
    requires Extended(m0, v0, o0, m1, v1, o1)
    ensures Within(v0, v1)
  {
  }

  lemma {:induction false} ReachStep(plan: Plan, root: int, id: int, x: int, steps: nat)
    requires PlanReach(plan, root, id, steps) && id in plan && x in plan[id].deps + plan[id].bodies
    ensures PlanReach(plan, root, x, steps + 1)
    decreases steps
  {
    if steps == 0 {
      assert PlanReach(plan, x, x, 0);
    } else {
      var k :| k in plan[root].deps + plan[root].bodies && PlanReach(plan, k, id, steps - 1);
      ReachStep(plan, k, id, x, steps - 1);
    }
  }

  lemma RootReaches(plan: Plan, root: int, id: int, x: int)
    requires Reachable(plan, root, id) && id in plan && x in plan[id].deps + plan[id].bodies
    ensures Reachable(plan, root, x)
  {
    var steps: nat :| PlanReach(plan, root, id, steps);
    ReachStep(plan, root, id, x, steps);
  }
}
