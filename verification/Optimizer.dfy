/** What the first phase produces: a valid memo with one group for each reachable plan node. */
module OptPrepared {
  import opened OptMemo
  import opened OptPlan
  import opened OptConvert
  import opened OptCount

  /** Every group is finished. */
  predicate Complete(visited: map<int, nat>, origin: seq<int>) {
    forall g :: 0 <= g < |origin| ==> origin[g] in visited && visited[origin[g]] == g
  }

  /** The meaning of a group is the meaning of its plan node. */
  ghost function PlanMeanings<M>(plan: Plan, rank: int -> nat, sem: Meaning<M>, origin: seq<int>): (mu: seq<M>)
    requires PlanOk(plan, rank) && forall g :: 0 <= g < |origin| ==> origin[g] in plan
    ensures |mu| == |origin| && forall g :: 0 <= g < |mu| ==> mu[g] == TreeMeaning(sem, Unfold(plan, rank, origin[g]))
  {
    seq(|origin|, g requires 0 <= g < |origin| => TreeMeaning(sem, Unfold(plan, rank, origin[g])))
  }

  ghost predicate Prepared(plan: Plan, rank: int -> nat, memo: Memo, visited: map<int, nat>, origin: seq<int>) {
    && PlanOk(plan, rank) && Mirror(plan, memo, visited, origin) && Complete(visited, origin)
    && forall g :: 0 <= g < |origin| ==> origin[g] in plan
  }

  lemma RefMeanings<M>(plan: Plan, rank: int -> nat, sem: Meaning<M>, memo: Memo, visited: map<int, nat>,
                       origin: seq<int>, id: int, refs: seq<int>)
    requires Prepared(plan, rank, memo, visited, origin) && AllVisited(visited, refs) && RefsOk(plan, rank, id, refs)
    ensures forall i :: 0 <= i < |refs| ==> Images(visited, refs)[i] < |origin|
    ensures Values(PlanMeanings(plan, rank, sem, origin), Images(visited, refs)) ==
            AllMeanings(sem, UnfoldAll(plan, rank, id, refs))
  {
    forall i | 0 <= i < |refs| ensures visited[refs[i]] < |origin| && origin[visited[refs[i]]] == refs[i] {
      assert Copied(plan, memo, visited, refs[i]);
    }
  }

  lemma PreparedGroup<M>(plan: Plan, rank: int -> nat, sem: Meaning<M>, memo: Memo, visited: map<int, nat>,
                         origin: seq<int>, g: nat)
    requires Prepared(plan, rank, memo, visited, origin) && g < |memo.groups|
    ensures GroupOk(memo, sem, PlanMeanings(plan, rank, sem, origin), g) && memo.groups[g] != []
  {
    var id := origin[g];
    assert Copied(plan, memo, visited, id);
    RefMeanings(plan, rank, sem, memo, visited, origin, id, plan[id].deps);
    RefMeanings(plan, rank, sem, memo, visited, origin, id, plan[id].bodies);
    assert MemberOk(memo, sem, PlanMeanings(plan, rank, sem, origin), g, memo.groups[g][0]);
  }

  lemma PreparedEdge(plan: Plan, rank: int -> nat, memo: Memo, visited: map<int, nat>, origin: seq<int>, g: nat, h: nat)
    requires Prepared(plan, rank, memo, visited, origin) && Edge(memo, g, h)
    ensures h < |origin| && rank(origin[h]) < rank(origin[g])
  {
    var id := origin[g];
    assert Copied(plan, memo, visited, id);
    var d := memo.nodes[memo.groups[g][0]].draft;
    assert Child(memo, memo.groups[g][0], h);
    var refs := if h in d.deps then plan[id].deps else plan[id].bodies;
    assert h in Images(visited, refs);
    var i :| 0 <= i < |refs| && visited[refs[i]] == h;
    assert RefsOk(plan, rank, id, refs);
    assert Copied(plan, memo, visited, refs[i]);
  }

  lemma PreparedValid<M>(plan: Plan, rank: int -> nat, sem: Meaning<M>, memo: Memo, visited: map<int, nat>,
                         origin: seq<int>)
    requires Prepared(plan, rank, memo, visited, origin)
    ensures Valid(memo, sem, PlanMeanings(plan, rank, sem, origin))
  {
    forall g: nat | g < |memo.groups|
      ensures GroupOk(memo, sem, PlanMeanings(plan, rank, sem, origin), g) && memo.groups[g] != []
    {
      PreparedGroup(plan, rank, sem, memo, visited, origin, g);
    }
    var rank' := (g: nat) => if g < |origin| then rank(origin[g]) else 0;
    forall g: nat, h: nat | Edge(memo, g, h) ensures rank'(h) < rank'(g) {
      PreparedEdge(plan, rank, memo, visited, origin, g, h);
    }
    assert Ranked(memo, rank');
  }

  lemma {:induction false} ReachableVisited(plan: Plan, memo: Memo, visited: map<int, nat>, origin: seq<int>, id: int,
                                            x: int, steps: nat)
    requires Mirror(plan, memo, visited, origin) && id in visited && PlanReach(plan, id, x, steps)
    ensures x in visited
    decreases steps
  {
    if steps > 0 {
      assert Copied(plan, memo, visited, id);
      var k :| k in plan[id].deps + plan[id].bodies && PlanReach(plan, k, x, steps - 1);
      ReachableVisited(plan, memo, visited, origin, k, x, steps - 1);
    }
  }

  lemma {:induction false} CountOne(nodes: seq<GroupNode>, g: nat, n: nat)
    requires n < |nodes| && nodes[n].group == g
    ensures Count(nodes, [g]) >= 1
  {
    assert nodes == nodes[..n + 1] + nodes[n + 1..];
    CountConcat(nodes[..n + 1], nodes[n + 1..], [g]);
  }

  lemma PreparedCounted(plan: Plan, rank: int -> nat, memo: Memo, visited: map<int, nat>, origin: seq<int>)
    requires Prepared(plan, rank, memo, visited, origin)
    ensures Counted(memo)
  {
    forall g | 0 <= g < |memo.groups| ensures |memo.groups[g]| <= Count(memo.nodes, [g]) {
      assert Copied(plan, memo, visited, origin[g]);
      CountOne(memo.nodes, g, memo.groups[g][0]);
    }
  }

  /** Optimizer::prepare. The groups and the reachable plan nodes correspond one to one. */
  method Prepare(plan: Plan, root: int, ghost rank: int -> nat)
    returns (memo: Memo, g: nat, visited: map<int, nat>, ghost origin: seq<int>)
    requires PlanOk(plan, rank) && root in plan
    ensures Prepared(plan, rank, memo, visited, origin) && memo.nodeMarks == {} && memo.groupMarks == {}
    ensures root in visited && visited[root] == g && g < |memo.groups| && origin[g] == root
    ensures forall x :: x in visited <==> Reachable(plan, root, x)
    ensures forall x, y :: x in visited && y in visited && visited[x] == visited[y] ==> x == y
  {
    var c := new Converter(plan, root, rank);
    assert PlanReach(plan, root, root, 0);
    g := c.Convert(root);
    memo, visited, origin := c.memo, c.visited, c.origin;
    assert Copied(plan, memo, visited, root);
    forall g | 0 <= g < |origin| ensures origin[g] in plan {
      assert Copied(plan, memo, visited, origin[g]);
    }
    forall x | Reachable(plan, root, x) ensures x in visited {
      var steps: nat :| PlanReach(plan, root, x, steps);
      ReachableVisited(plan, memo, visited, origin, root, x, steps);
    }
  }
}

/** Picking a plan out of the memo. */
module OptExtract {
  import opened OptMemo
  import opened OptPlan
  import opened OptConvert

  function CostAt(memo: Memo, g: nat, i: nat): real
    requires g < |memo.groups| && i < |memo.groups[g]| && memo.groups[g][i] < |memo.nodes|
  {
    memo.nodes[memo.groups[g][i]].draft.op.cost
  }

  predicate MembersExist(memo: Memo, g: nat)
    requires g < |memo.groups|
  {
    forall i :: 0 <= i < |memo.groups[g]| ==> memo.groups[g][i] < |memo.nodes|
  }

  /** Member `i` is the first of those whose own cost is least. */
  predicate Cheapest(memo: Memo, g: nat, i: nat)
    requires g < |memo.groups| && MembersExist(memo, g)
  {
    && i < |memo.groups[g]|
    && (forall j :: 0 <= j < |memo.groups[g]| ==> CostAt(memo, g, i) <= CostAt(memo, g, j))
    && (forall j :: 0 <= j < i ==> CostAt(memo, g, i) < CostAt(memo, g, j))
  }

  /** OptGroup::findMinCostGroupNode, for costs below the largest double. */
  method FindMinCost(memo: Memo, g: nat) returns (best: nat)
    requires g < |memo.groups| && MembersExist(memo, g) && memo.groups[g] != []
    ensures Cheapest(memo, g, best)
  {
    best := 0;
    for i := 1 to |memo.groups[g]|
      invariant best < i
      invariant forall j :: 0 <= j < i ==> CostAt(memo, g, best) <= CostAt(memo, g, j)
      invariant forall j :: 0 <= j < best ==> CostAt(memo, g, best) < CostAt(memo, g, j)
    {
      if CostAt(memo, g, best) > CostAt(memo, g, i) {
        best := i;
      }
    }
  }

  /** Node `id` is the cheapest member of group `g`. */
  ghost predicate Chosen(memo: Memo, g: nat, id: int) {
    && g < |memo.groups| && MembersExist(memo, g)
    && exists i: nat :: Cheapest(memo, g, i) && id == memo.groups[g][i]
  }

  lemma ChosenOnce(memo: Memo, g: nat, a: int, b: int)
    requires Chosen(memo, g, a) && Chosen(memo, g, b)
    ensures a == b
  {
    var i: nat :| Cheapest(memo, g, i) && a == memo.groups[g][i];
    var j: nat :| Cheapest(memo, g, j) && b == memo.groups[g][j];
    assert CostAt(memo, g, i) <= CostAt(memo, g, j) && CostAt(memo, g, j) <= CostAt(memo, g, i);
    assert i <= j && j <= i;
  }

  ghost predicate AllChosen(memo: Memo, refs: seq<nat>, ids: seq<int>) {
    |ids| == |refs| && forall k :: 0 <= k < |refs| ==> Chosen(memo, refs[k], ids[k])
  }

  lemma AllChosenOnce(memo: Memo, refs: seq<nat>, a: seq<int>, b: seq<int>)
    requires AllChosen(memo, refs, a) && AllChosen(memo, refs, b)
    ensures a == b
  {
    forall k | 0 <= k < |refs| ensures a[k] == b[k] {
      ChosenOnce(memo, refs[k], a[k], b[k]);
    }
  }

  predicate InPlan(plan: Plan, ids: seq<int>) {
    forall k :: 0 <= k < |ids| ==> ids[k] in plan
  }

  /** The plan node is the cheapest member of its group and depends on the cheapest members of the
      groups below it. */
  ghost predicate Written(memo: Memo, plan: Plan, id: int)
    requires id in plan
  {
    && 0 <= id < |memo.nodes| && Chosen(memo, memo.nodes[id].group, id)
    && WrittenAs(memo, id, plan[id]) && InPlan(plan, plan[id].deps) && InPlan(plan, plan[id].bodies)
  }

  ghost predicate WrittenAs(memo: Memo, id: int, node: PlanNode)
    requires 0 <= id < |memo.nodes|
  {
    && node.op == memo.nodes[id].draft.op
    && AllChosen(memo, memo.nodes[id].draft.deps, node.deps)
    && AllChosen(memo, memo.nodes[id].draft.bodies, node.bodies)
  }

  ghost predicate AllWritten(memo: Memo, plan: Plan) {
    forall id :: id in plan ==> Written(memo, plan, id)
  }

  predicate Extends(before: Plan, after: Plan) {
    forall x :: x in before ==> x in after && after[x] == before[x]
  }

  lemma ExtendsAt(before: Plan, after: Plan, x: int)
    requires Extends(before, after) && x in before
    ensures x in after && after[x] == before[x]
  {
  }

  lemma ExtendsTransitive(a: Plan, b: Plan, c: Plan)
    requires Extends(a, b) && Extends(b, c)
    ensures Extends(a, c)
  {
  }

  lemma {:induction false} ReachExtends(before: Plan, after: Plan, id: int, x: int, steps: nat)
    requires Extends(before, after) && PlanReach(before, id, x, steps)
    ensures PlanReach(after, id, x, steps)
    decreases steps
  {
    if steps > 0 {
      var k :| k in before[id].deps + before[id].bodies && PlanReach(before, k, x, steps - 1);
      ReachExtends(before, after, k, x, steps - 1);
    }
  }

  lemma ReachableExtends(before: Plan, after: Plan, id: int, x: int)
    requires Extends(before, after) && Reachable(before, id, x)
    ensures Reachable(after, id, x)
  {
    var steps: nat :| PlanReach(before, id, x, steps);
    ReachExtends(before, after, id, x, steps);
  }

  /** What is new in the plan is reachable from one of the ids. */
  ghost predicate NewBelow(before: Plan, after: Plan, ids: seq<int>) {
    forall x :: x in after && x !in before ==> exists k :: 0 <= k < |ids| && Reachable(after, ids[k], x)
  }

  lemma NewBelowNext(p0: Plan, p1: Plan, p2: Plan, ids: seq<int>, id: int)
    requires NewBelow(p0, p1, ids) && NewBelow(p1, p2, [id]) && Extends(p1, p2)
    ensures NewBelow(p0, p2, ids + [id])
  {
    var all := ids + [id];
    forall x | x in p2 && x !in p0 ensures exists k :: 0 <= k < |all| && Reachable(p2, all[k], x) {
      if x in p1 {
        var k :| 0 <= k < |ids| && Reachable(p1, ids[k], x);
        ReachableExtends(p1, p2, ids[k], x);
        assert all[k] == ids[k];
      } else {
        assert Reachable(p2, [id][0], x);
        assert all[|ids|] == id;
      }
    }
  }

  lemma BelowReaches(plan: Plan, id: int, k: int, x: int)
    requires id in plan && k in plan[id].deps + plan[id].bodies && Reachable(plan, k, x)
    ensures Reachable(plan, id, x)
  {
    var steps: nat :| PlanReach(plan, k, x, steps);
    assert PlanReach(plan, id, x, steps + 1);
  }

  /** Writing a node whose dependencies are written; writing it again changes nothing. */
  lemma WriteNode(memo: Memo, before: Plan, id: int, node: PlanNode)
    requires AllWritten(memo, before) && 0 <= id < |memo.nodes| && Chosen(memo, memo.nodes[id].group, id)
    requires WrittenAs(memo, id, node) && InPlan(before, node.deps) && InPlan(before, node.bodies)
    ensures AllWritten(memo, before[id := node]) && Extends(before, before[id := node])
  {
    hide Chosen, AllChosen;
    var after := before[id := node];
    if id in before {
      assert Written(memo, before, id);
      AllChosenOnce(memo, memo.nodes[id].draft.deps, before[id].deps, node.deps);
      AllChosenOnce(memo, memo.nodes[id].draft.bodies, before[id].bodies, node.bodies);
    }
    forall x | x in after ensures Written(memo, after, x) {
      if x != id {
        assert Written(memo, before, x);
      }
    }
  }

  lemma WriteNew(p0: Plan, p1: Plan, p2: Plan, bodies: seq<int>, deps: seq<int>, id: int, node: PlanNode)
    requires NewBelow(p0, p1, bodies) && NewBelow(p1, p2, deps) && Extends(p1, p2)
    requires node.deps == deps && node.bodies == bodies && Extends(p2, p2[id := node])
    ensures NewBelow(p0, p2[id := node], [id])
  {
    var after := p2[id := node];
    forall x | x in after && x !in p0 ensures Reachable(after, [id][0], x) {
      if x == id {
        assert PlanReach(after, id, id, 0);
      } else if x in p1 {
        var k :| 0 <= k < |bodies| && Reachable(p1, bodies[k], x);
        ReachableExtends(p1, p2, bodies[k], x);
        ReachableExtends(p2, after, bodies[k], x);
        BelowReaches(after, id, bodies[k], x);
      } else {
        var k :| 0 <= k < |deps| && Reachable(p2, deps[k], x);
        ReachableExtends(p2, after, deps[k], x);
        BelowReaches(after, id, deps[k], x);
      }
    }
  }

  lemma ValidMember<M>(memo: Memo, sem: Meaning<M>, mu: seq<M>, g: nat, i: nat)
    requires Consistent(memo, sem, mu) && g < |memo.groups| && i < |memo.groups[g]|
    ensures g < |mu| == |memo.groups| && MembersExist(memo, g) && memo.nodes[memo.groups[g][i]].group == g
    ensures Means(sem, mu, memo.nodes[memo.groups[g][i]].draft, mu[g])
  {
    assert GroupOk(memo, sem, mu, g);
    forall j | 0 <= j < |memo.groups[g]| ensures memo.groups[g][j] < |memo.nodes| {
      assert MemberOk(memo, sem, mu, g, memo.groups[g][j]);
    }
    assert MemberOk(memo, sem, mu, g, memo.groups[g][i]);
  }

  lemma BelowRanked(memo: Memo, rank: nat -> nat, g: nat, i: nat, refs: seq<nat>)
    requires Ranked(memo, rank) && g < |memo.groups| && i < |memo.groups[g]| && memo.groups[g][i] < |memo.nodes|
    requires var d := memo.nodes[memo.groups[g][i]].draft; refs == d.deps || refs == d.bodies
    ensures forall k :: 0 <= k < |refs| ==> rank(refs[k]) < rank(g)
  {
    forall k | 0 <= k < |refs| ensures rank(refs[k]) < rank(g) {
      assert refs[k] in Children(memo.nodes[memo.groups[g][i]].draft);
      assert Child(memo, memo.groups[g][i], refs[k]);
      assert Edge(memo, g, refs[k]);
    }
  }

  class PlanWriter<M> {
    const memo: Memo
    ghost const sem: Meaning<M>
    ghost const mu: seq<M>
    ghost const rank: nat -> nat
    var plan: Plan

    ghost predicate Ok()
      reads this
    {
      Consistent(memo, sem, mu) && NoEmptyGroup(memo) && Ranked(memo, rank) && AllWritten(memo, plan)
    }

    constructor (memo: Memo, ghost sem: Meaning<M>, ghost mu: seq<M>, ghost rank: nat -> nat)
      requires Consistent(memo, sem, mu) && NoEmptyGroup(memo) && Ranked(memo, rank)
      ensures Ok() && plan == map[]
      ensures this.memo == memo && this.sem == sem && this.mu == mu && this.rank == rank
    {
      this.memo, this.sem, this.mu, this.rank := memo, sem, mu, rank;
      plan := map[];
    }

    /** OptGroup::getPlan and OptGroupNode::getPlan: the dependencies of the cheapest member are
        written into its plan node. */
    method GetPlan(g: nat) returns (id: int)
      requires Ok() && g < |memo.groups|
      modifies this`plan
      ensures Ok() && Extends(old(plan), plan) && Chosen(memo, g, id) && id in plan
      ensures NewBelow(old(plan), plan, [id])
      decreases rank(g), 1
    {
      hide AllWritten, Extends, NewBelow, Reachable, Consistent, Ranked, Means, AllChosen;
      ValidMember(memo, sem, mu, g, 0);
      var i := FindMinCost(memo, g);
      ValidMember(memo, sem, mu, g, i);
      id := memo.groups[g][i];
      assert Chosen(memo, g, id);
      var d := memo.nodes[id].draft;
      BelowRanked(memo, rank, g, i, d.bodies);
      BelowRanked(memo, rank, g, i, d.deps);
      DraftExists(sem, mu, d, mu[g]);
      var bodies := GetPlans(g, d.bodies);
      ghost var between := plan;
      var deps := GetPlans(g, d.deps);
      InPlanExtends(between, plan, bodies);
      var node := PlanNode(d.op, deps, bodies);
      WriteNode(memo, plan, id, node);
      WriteNew(old(plan), between, plan, bodies, deps, id, node);
      ExtendsTransitive(old(plan), between, plan);
      ExtendsTransitive(old(plan), plan, plan[id := node]);
      plan := plan[id := node];
    }

    method GetPlans(g: nat, refs: seq<nat>) returns (ids: seq<int>)
      requires Ok() && forall k :: 0 <= k < |refs| ==> refs[k] < |memo.groups| && rank(refs[k]) < rank(g)
      modifies this`plan
      ensures Ok() && Extends(old(plan), plan) && AllChosen(memo, refs, ids) && InPlan(plan, ids)
      ensures NewBelow(old(plan), plan, ids)
      decreases rank(g), 0
    {
      hide AllWritten, Extends, NewBelow, Consistent, Ranked, NoEmptyGroup, Chosen, AllChosen, InPlan;
      NothingYet(memo, plan);
      ids := [];
      for k := 0 to |refs|
        invariant Ok() && Extends(old(plan), plan) && AllChosen(memo, refs[..k], ids) && InPlan(plan, ids)
        invariant NewBelow(old(plan), plan, ids)
      {
        ghost var before := plan;
        var id := GetPlan(refs[k]);
        NewBelowNext(old(plan), before, plan, ids, id);
        ExtendsTransitive(old(plan), before, plan);
        InPlanNext(before, plan, ids, id);
        AllChosenNext(memo, refs, k, ids, id);
        ids := ids + [id];
      }
      assert refs[..|refs|] == refs;
    }
  }

  lemma InPlanExtends(before: Plan, after: Plan, ids: seq<int>)
    requires Extends(before, after) && InPlan(before, ids)
    ensures InPlan(after, ids)
  {
    forall k | 0 <= k < |ids| ensures ids[k] in after {
      ExtendsAt(before, after, ids[k]);
    }
  }

  lemma NothingYet(memo: Memo, plan: Plan)
    ensures Extends(plan, plan) && NewBelow(plan, plan, []) && AllChosen(memo, [], []) && InPlan(plan, [])
  {
  }

  lemma InPlanNext(before: Plan, after: Plan, ids: seq<int>, id: int)
    requires Extends(before, after) && InPlan(before, ids) && id in after
    ensures InPlan(after, ids + [id])
  {
    InPlanExtends(before, after, ids);
  }

  lemma AllChosenNext(memo: Memo, refs: seq<nat>, k: nat, ids: seq<int>, id: int)
    requires k < |refs| && AllChosen(memo, refs[..k], ids) && Chosen(memo, refs[k], id)
    ensures AllChosen(memo, refs[..k + 1], ids + [id])
  {
    hide Chosen;
    assert refs[..k + 1] == refs[..k] + [refs[k]];
  }

  lemma DraftExists<M>(sem: Meaning<M>, mu: seq<M>, d: Draft, v: M)
    requires Means(sem, mu, d, v)
    ensures forall k :: 0 <= k < |d.deps| ==> d.deps[k] < |mu|
    ensures forall k :: 0 <= k < |d.bodies| ==> d.bodies[k] < |mu|
  {
  }

  // ---- What the written plan means ----

  /** Plan nodes in the order of their groups. */
  ghost function Order(memo: Memo, rank: nat -> nat): int -> nat {
    (id: int) => OrderOf(memo, rank, id)
  }

  ghost function OrderOf(memo: Memo, rank: nat -> nat, id: int): nat {
    if 0 <= id < |memo.nodes| then rank(memo.nodes[id].group) else 0
  }

  lemma ChosenMember<M>(memo: Memo, sem: Meaning<M>, mu: seq<M>, g: nat, id: int)
    requires Consistent(memo, sem, mu) && Chosen(memo, g, id)
    ensures 0 <= id < |memo.nodes| && memo.nodes[id].group == g && g < |mu| &&
      Means(sem, mu, memo.nodes[id].draft, mu[g])
  {
    var i: nat :| Cheapest(memo, g, i) && id == memo.groups[g][i];
    ValidMember(memo, sem, mu, g, i);
  }

  lemma WrittenRefs<M>(memo: Memo, sem: Meaning<M>, mu: seq<M>, rank: nat -> nat, plan: Plan, id: int, refs: seq<nat>,
                       ids: seq<int>)
    requires Consistent(memo, sem, mu) && Ranked(memo, rank) && id in plan && Written(memo, plan, id)
    requires
      var d := memo.nodes[id].draft;
      (refs == d.deps && ids == plan[id].deps) || (refs == d.bodies && ids == plan[id].bodies)
    ensures |ids| == |refs| && RefsOk(plan, Order(memo, rank), id, ids)
    ensures forall k :: 0 <= k < |ids| ==>
      0 <= ids[k] < |memo.nodes| && refs[k] < |mu| && memo.nodes[ids[k]].group == refs[k]
  {
    var g := memo.nodes[id].group;
    var i: nat :| Cheapest(memo, g, i) && id == memo.groups[g][i];
    BelowRanked(memo, rank, g, i, refs);
    forall k | 0 <= k < |ids|
      ensures 0 <= ids[k] < |memo.nodes| && refs[k] < |mu| && memo.nodes[ids[k]].group == refs[k]
      ensures ids[k] in plan && Order(memo, rank)(ids[k]) < Order(memo, rank)(id)
    {
      ChosenMember(memo, sem, mu, refs[k], ids[k]);
    }
  }

  lemma WrittenOk<M>(memo: Memo, sem: Meaning<M>, mu: seq<M>, rank: nat -> nat, plan: Plan)
    requires Consistent(memo, sem, mu) && Ranked(memo, rank) && AllWritten(memo, plan)
    ensures PlanOk(plan, Order(memo, rank))
  {
    hide Consistent, Ranked, Order, Chosen, RefsOk;
    forall id | id in plan
      ensures Shaped(plan[id].op, |plan[id].deps|, |plan[id].bodies|)
      ensures RefsOk(plan, Order(memo, rank), id, plan[id].deps) && RefsOk(plan, Order(memo, rank), id, plan[id].bodies)
    {
      assert Written(memo, plan, id);
      ChosenMember(memo, sem, mu, memo.nodes[id].group, id);
      WrittenRefs(memo, sem, mu, rank, plan, id, memo.nodes[id].draft.deps, plan[id].deps);
      WrittenRefs(memo, sem, mu, rank, plan, id, memo.nodes[id].draft.bodies, plan[id].bodies);
    }
  }

  /** A written node means what its group means. */
  lemma {:induction false} WrittenMeans<M>(memo: Memo, sem: Meaning<M>, mu: seq<M>, rank: nat -> nat, plan: Plan,
                                           id: int)
    requires Consistent(memo, sem, mu) && Ranked(memo, rank) && AllWritten(memo, plan) && id in plan
    ensures 0 <= id < |memo.nodes| && memo.nodes[id].group < |mu| && PlanOk(plan, Order(memo, rank))
    ensures TreeMeaning(sem, Unfold(plan, Order(memo, rank), id)) == mu[memo.nodes[id].group]
    decreases Order(memo, rank)(id)
  {
    hide Consistent, Ranked, Order, Chosen, AllWritten;
    WrittenOk(memo, sem, mu, rank, plan);
    assert Written(memo, plan, id) by { WrittenAt(memo, plan, id); }
    ChosenMember(memo, sem, mu, memo.nodes[id].group, id);
    var d := memo.nodes[id].draft;
    WrittenBelow(memo, sem, mu, rank, plan, id, d.deps, plan[id].deps);
    WrittenBelow(memo, sem, mu, rank, plan, id, d.bodies, plan[id].bodies);
  }

  lemma WrittenAt(memo: Memo, plan: Plan, id: int)
    requires AllWritten(memo, plan) && id in plan
    ensures Written(memo, plan, id)
  {
  }

  lemma {:induction false} WrittenBelow<M>(memo: Memo, sem: Meaning<M>, mu: seq<M>, rank: nat -> nat, plan: Plan,
                                           id: int, refs: seq<nat>, ids: seq<int>)
    requires Consistent(memo, sem, mu) && Ranked(memo, rank) && AllWritten(memo, plan) && id in plan
    requires PlanOk(plan, Order(memo, rank)) && Written(memo, plan, id)
    requires
      var d := memo.nodes[id].draft;
      (refs == d.deps && ids == plan[id].deps) || (refs == d.bodies && ids == plan[id].bodies)
    ensures |ids| == |refs| && RefsOk(plan, Order(memo, rank), id, ids)
    ensures forall k :: 0 <= k < |refs| ==> refs[k] < |mu|
    ensures AllMeanings(sem, UnfoldAll(plan, Order(memo, rank), id, ids)) == Values(mu, refs)
    decreases Order(memo, rank)(id), 0
  {
    hide Consistent, Ranked, Order, Chosen, AllWritten, Written;
    WrittenRefs(memo, sem, mu, rank, plan, id, refs, ids);
    var ms := AllMeanings(sem, UnfoldAll(plan, Order(memo, rank), id, ids));
    forall k | 0 <= k < |ids| ensures ms[k] == mu[refs[k]] {
      WrittenMeans(memo, sem, mu, rank, plan, ids[k]);
    }
  }

  lemma {:induction false} WrittenClosed(memo: Memo, plan: Plan, id: int, x: int, steps: nat)
    requires AllWritten(memo, plan) && id in plan && PlanReach(plan, id, x, steps)
    ensures x in plan
    decreases steps
  {
    hide Chosen, WrittenAs;
    if steps > 0 {
      assert Written(memo, plan, id);
      var k :| k in plan[id].deps + plan[id].bodies && PlanReach(plan, k, x, steps - 1);
      WrittenClosed(memo, plan, k, x, steps - 1);
    }
  }

  /** The plan below the root group: the cheapest members reached from its own, each once, and with
      the meaning of the group. */
  method ExtractPlan<M>(memo: Memo, g: nat, ghost sem: Meaning<M>, ghost mu: seq<M>, ghost rank: nat -> nat)
    returns (plan: Plan, root: int)
    requires Consistent(memo, sem, mu) && NoEmptyGroup(memo) && Ranked(memo, rank) && g < |memo.groups|
    ensures AllWritten(memo, plan) && Chosen(memo, g, root) && root in plan
    ensures forall x :: x in plan <==> Reachable(plan, root, x)
    ensures PlanOk(plan, Order(memo, rank)) && TreeMeaning(sem, Unfold(plan, Order(memo, rank), root)) == mu[g]
  {
    var w := new PlanWriter(memo, sem, mu, rank);
    root := w.GetPlan(g);
    plan := w.plan;
    forall x | x in plan ensures Reachable(plan, root, x) {
      assert Reachable(plan, [root][0], x);
    }
    forall x | Reachable(plan, root, x) ensures x in plan {
      var steps: nat :| PlanReach(plan, root, x, steps);
      WrittenClosed(memo, plan, root, x, steps);
    }
    WrittenMeans(memo, sem, mu, rank, plan, root);
    ChosenMember(memo, sem, mu, g, root);
  }
}

/** The whole optimizer. */
module Optimizer {
  import opened OptMemo
  import opened OptRules
  import opened OptMarks
  import opened OptLog
  import opened OptCount
  import opened OptExplore
  import opened OptPlan
  import opened OptConvert
  import opened OptPrepared
  import opened OptExtract

  datatype Outcome = Best(plan: Plan, root: int) | Error | CutOff

  predicate RuleSetsOk(ruleSets: seq<seq<nat>>, rules: seq<Rule>) {
    forall i, j :: 0 <= i < |ruleSets| && 0 <= j < |ruleSets[i]| ==> ruleSets[i][j] < |rules|
  }

  ghost predicate Unmarked(memo: Memo, r: nat) {
    (forall n :: (r, n) !in memo.nodeMarks) && (forall g :: (r, g) !in memo.groupMarks)
  }

  /** Everything below the group, the group included, is explored for the rule. */
  ghost predicate ExploredBelow(memo: Memo, r: nat, g: nat) {
    forall h: nat, steps: nat :: Reaches(memo, g, h, steps) ==>
      h < |memo.groups| && (r, h) in memo.groupMarks && AllMarked(memo, r, h)
  }

  /** Exploring a rule from the root. For a rule that never erases all, one call explores every
      group and node below the root in at most two rounds. */
  method ExploreRoot<M(!new)>(e: Explorer<M>, r: nat, root: nat, fuel: nat) returns (st: Status, ghost rounds: nat)
    requires e.Ok() && r < |e.rules| && root < |e.memo.groups|
    modifies e`memo, e`mu, e`tried, e`log
    ensures e.Ok() && old(e.mu) <= e.mu && |e.memo.groups| >= old(|e.memo.groups|)
    ensures st.Failed? ==> CanFail(e.rules)
    ensures st.OutOfFuel? ==> fuel <= |e.memo.nodes|
    ensures old(e.log) <= e.log && (old(NoFailure(e.rules, e.log)) ==> (st.Failed? <==> !NoFailure(e.rules, e.log)))
    ensures st.Done? ==> AllTried(old(e.memo.nodeMarks), e.memo.nodeMarks, e.tried)
    ensures TriedSince(old(e.tried), old(e.memo.nodeMarks), e.tried) && Grown(old(e.memo), e.memo, r, [])
    ensures st.Done? ==> (r, root) in e.memo.groupMarks
    ensures st.Done? && Gentle(e.rules[r]) && old(Unmarked(e.memo, r)) ==> ExploredBelow(e.memo, r, root) && rounds <= 2
  {
    hide Logged, NoFailure, AllTried, TriedSince;
    ghost var start := e.memo;
    assert old(Unmarked(e.memo, r)) ==> Settled(start, r, []);
    assert [] + [root] == [root];
    st, rounds := e.ExploreUntilMaxRound(r, root, fuel, []);
    if st.Done? && Gentle(e.rules[r]) && old(Unmarked(e.memo, r)) {
      forall h: nat, steps: nat | Reaches(e.memo, root, h, steps)
        ensures h < |e.memo.groups| && (r, h) in e.memo.groupMarks && AllMarked(e.memo, r, h)
      {
        SettledBelow(e.memo, r, root, h, steps);
      }
    }
  }

  /** The rules of the sets, one after the other. */
  function InOrder(ruleSets: seq<seq<nat>>): seq<nat> {
    if ruleSets == [] then [] else InOrder(ruleSets[..|ruleSets| - 1]) + ruleSets[|ruleSets| - 1]
  }

  /** What exploration did: the memo it started from, its tries, and the memo and the number of tries
      after each rule. */
  datatype Story = Story(start: Memo, tried: seq<(nat, nat)>, log: seq<Attempt>, memos: seq<Memo>, ends: seq<nat>)

  /** After rule number `q` of the order, all that was tried for it is in the log, and for a rule that is
      new and never erases all every node below the root has been tried. */
  ghost predicate RuleDone(rules: seq<Rule>, order: seq<nat>, root: nat, s: Story, q: nat)
    requires q < |order| && q < |s.memos| && q < |s.ends|
  {
    && s.ends[q] <= |s.log| == |s.tried| && order[q] < |rules|
    && Logged(rules, s.start, s.tried[..s.ends[q]], s.log[..s.ends[q]], s.memos[q])
    && (order[q], root) in s.memos[q].groupMarks
    && (forall k :: (if q == 0 then 0 else s.ends[q - 1]) <= k < s.ends[q] ==> s.log[k].rule == order[q])
    && (Gentle(rules[order[q]]) && order[q] !in order[..q] ==>
          ExploredBelow(s.memos[q], order[q], root) && TriedBelow(s.memos[q], order[q], s.tried[..s.ends[q]]))
  }

  ghost predicate TriedBelow(memo: Memo, r: nat, tried: seq<(nat, nat)>) {
    forall n :: (r, n) in memo.nodeMarks ==> (r, n) in tried
  }

  /** The rules were explored in this order, each to its end, and nothing else happened. */
  ghost predicate Told(rules: seq<Rule>, order: seq<nat>, root: nat, s: Story, final: Memo) {
    && |s.memos| == |s.ends| == |order|
    && Logged(rules, s.start, s.tried, s.log, final)
    && (if order == [] then s.log == [] else s.ends[|order| - 1] == |s.log|)
    && forall q :: 0 <= q < |order| ==> RuleDone(rules, order, root, s, q)
  }

  lemma ToldNext(rules: seq<Rule>, order: seq<nat>, root: nat, s: Story, final: Memo, r: nat, tried: seq<(nat, nat)>,
                 log: seq<Attempt>, memo: Memo)
    requires Told(rules, order, root, s, final) && r < |rules| && s.log <= log && s.tried <= tried
    requires Logged(rules, s.start, tried, log, memo) && (r, root) in memo.groupMarks
    requires forall k :: |s.log| <= k < |log| ==> log[k].rule == r
    requires Gentle(rules[r]) && r !in order ==> ExploredBelow(memo, r, root) && TriedBelow(memo, r, tried)
    ensures Told(rules, order + [r], root, Story(s.start, tried, log, s.memos + [memo], s.ends + [|log|]), memo)
  {
    LoggedSize(rules, s.start, tried, log, memo);
    hide Logged, ExploredBelow, TriedBelow, Gentle;
    var next, more := Story(s.start, tried, log, s.memos + [memo], s.ends + [|log|]), order + [r];
    forall q | 0 <= q < |more| ensures RuleDone(rules, more, root, next, q) {
      if q < |order| {
        assert RuleDone(rules, order, root, s, q);
        EarlierRule(rules, order, root, s, q, r, next);
      } else {
        assert more[..q] == order && tried[..|log|] == tried && log[..|log|] == log;
      }
    }
  }

  lemma EarlierRule(rules: seq<Rule>, order: seq<nat>, root: nat, s: Story, q: nat, r: nat, next: Story)
    requires q < |order| && |s.memos| == |s.ends| == |order| && RuleDone(rules, order, root, s, q)
    requires next.start == s.start && s.log <= next.log && s.tried <= next.tried && |next.log| == |next.tried|
    requires |next.memos| == |next.ends| == |order| + 1 && s.memos <= next.memos && s.ends <= next.ends
    ensures RuleDone(rules, order + [r], root, next, q)
  {
    hide Logged, ExploredBelow, TriedBelow, Gentle;
    var more, n := order + [r], s.ends[q];
    assert more[..q] == order[..q] && more[q] == order[q];
    assert next.ends[q] == n && next.memos[q] == s.memos[q];
    assert next.log[..n] == s.log[..n] && next.tried[..n] == s.tried[..n];
    assert q > 0 ==> next.ends[q - 1] == s.ends[q - 1];
  }

  /** Only rules that were explored have marks. */
  ghost predicate MarksOf(memo: Memo, order: seq<nat>) {
    (forall x :: x in memo.nodeMarks ==> x.0 in order) && (forall x :: x in memo.groupMarks ==> x.0 in order)
  }

  lemma MarksOfNext(before: Memo, after: Memo, order: seq<nat>, r: nat)
    requires MarksOf(before, order) && Grown(before, after, r, [])
    ensures MarksOf(after, order + [r]) && (r !in order ==> Unmarked(before, r))
  {
  }

  /** The new tries are of the explored rule. */
  lemma NewTries(rules: seq<Rule>, start: Memo, was: seq<(nat, nat)>, tried: seq<(nat, nat)>, log: seq<Attempt>,
                 before: Memo, after: Memo, r: nat)
    requires Logged(rules, start, tried, log, after) && TriedSince(was, before.nodeMarks, tried)
    requires TriedOnce(tried, after) && Grown(before, after, r, [])
    ensures forall k :: |was| <= k < |log| ==> log[k].rule == r
  {
    hide Attempted;
    forall k | |was| <= k < |log| ensures log[k].rule == r {
      assert Entry(rules, start, tried, log, k);
      assert tried[k] in after.nodeMarks && tried[k] !in before.nodeMarks;
    }
  }

  lemma AllTriedBelow(marks: set<(nat, nat)>, memo: Memo, r: nat, tried: seq<(nat, nat)>, before: Memo)
    requires AllTried(marks, memo.nodeMarks, tried) && marks == before.nodeMarks && Unmarked(before, r)
    ensures TriedBelow(memo, r, tried)
  {
  }

  /** One rule from the root, and the story so far. */
  method ExploreNext<M(!new)>(e: Explorer<M>, r: nat, root: nat, fuel: nat, ghost order: seq<nat>, ghost s: Story)
    returns (st: Status, ghost next: Story)
    requires e.Ok() && r < |e.rules| && root < |e.memo.groups| && MarksOf(e.memo, order)
    requires Told(e.rules, order, root, s, e.memo) && s.start == e.start && s.tried == e.tried && s.log == e.log
    requires NoFailure(e.rules, e.log)
    modifies e`memo, e`mu, e`tried, e`log
    ensures e.Ok() && old(e.mu) <= e.mu && root < |e.memo.groups|
    ensures st.Failed? ==> CanFail(e.rules)
    ensures st.OutOfFuel? ==> fuel <= |e.memo.nodes|
    ensures st.Failed? <==> !NoFailure(e.rules, e.log)
    ensures st.Done? ==> MarksOf(e.memo, order + [r]) && Told(e.rules, order + [r], root, next, e.memo)
    ensures st.Done? ==> next.start == e.start && next.tried == e.tried && next.log == e.log
  {
    hide Logged, NoFailure, AllTried, TriedSince, Grown, Okay, Told, MarksOf, Unmarked, Gentle, ExploredBelow;
    hide TriedBelow, TriedOnce;
    ghost var before, was, wasLog := e.memo, e.tried, e.log;
    assert |was| == |wasLog| by { LoggedSize(e.rules, e.start, e.tried, e.log, e.memo); }
    ghost var rounds;
    st, rounds := ExploreRoot(e, r, root, fuel);
    next := s;
    MarksOfNext(before, e.memo, order, r);
    if st.Done? {
      OkayFacts(e.sem, e.rules, e.memo, e.mu, e.tried);
      NewTries(e.rules, e.start, was, e.tried, e.log, before, e.memo, r);
      TriedPrefix(was, before.nodeMarks, e.tried);
      if Gentle(e.rules[r]) && r !in order {
        AllTriedBelow(before.nodeMarks, e.memo, r, e.tried, before);
      }
      ToldNext(e.rules, order, root, s, before, r, e.tried, e.log, e.memo);
      next := Story(s.start, e.tried, e.log, s.memos + [e.memo], s.ends + [|e.log|]);
    }
  }

  lemma LoggedSize(rules: seq<Rule>, start: Memo, tried: seq<(nat, nat)>, log: seq<Attempt>, memo: Memo)
    requires Logged(rules, start, tried, log, memo)
    ensures |log| == |tried|
  {
  }

  lemma ToldNothing(rules: seq<Rule>, root: nat, memo: Memo)
    ensures Told(rules, [], root, Story(memo, [], [], [], []), memo)
  {
  }

  /** Optimizer::doExploration, over any rule sets in any order. */
  method DoExploration<M(!new)>(e: Explorer<M>, ruleSets: seq<seq<nat>>, root: nat, fuel: nat)
    returns (st: Status, ghost s: Story)
    requires e.Ok() && RuleSetsOk(ruleSets, e.rules) && root < |e.memo.groups|
    requires e.memo == e.start && e.log == [] && e.tried == [] && e.memo.nodeMarks == {} && e.memo.groupMarks == {}
    modifies e`memo, e`mu, e`tried, e`log
    ensures e.Ok() && old(e.mu) <= e.mu && root < |e.memo.groups|
    ensures st.Failed? ==> CanFail(e.rules)
    ensures st.OutOfFuel? ==> fuel <= |e.memo.nodes|
    ensures st.Failed? <==> !NoFailure(e.rules, e.log)
    ensures st.Done? ==> Told(e.rules, InOrder(ruleSets), root, s, e.memo)
    ensures st.Done? ==> s.start == e.start && s.log == e.log && s.tried == e.tried
  {
    hide Logged, NoFailure, Okay, Told, MarksOf;
    assert MarksOf(e.memo, []) by { NoMarks(e.memo); }
    ToldNothing(e.rules, root, e.memo);
    assert NoFailure(e.rules, []) by { NothingFails(e.rules); }
    s := Story(e.memo, [], [], [], []);
    for i := 0 to |ruleSets|
      invariant e.Ok() && old(e.mu) <= e.mu && root < |e.memo.groups| && NoFailure(e.rules, e.log)
      invariant MarksOf(e.memo, InOrder(ruleSets[..i])) && Told(e.rules, InOrder(ruleSets[..i]), root, s, e.memo)
      invariant s.start == e.start && s.tried == e.tried && s.log == e.log
    {
      ghost var before := InOrder(ruleSets[..i]);
      assert before + ruleSets[i][..0] == before;
      for j := 0 to |ruleSets[i]|
        invariant e.Ok() && old(e.mu) <= e.mu && root < |e.memo.groups| && NoFailure(e.rules, e.log)
        invariant MarksOf(e.memo, before + ruleSets[i][..j])
        invariant Told(e.rules, before + ruleSets[i][..j], root, s, e.memo)
        invariant s.start == e.start && s.tried == e.tried && s.log == e.log
      {
        st, s := ExploreNext(e, ruleSets[i][j], root, fuel, before + ruleSets[i][..j], s);
        if st != Done {
          return;
        }
        assert before + ruleSets[i][..j] + [ruleSets[i][j]] == before + ruleSets[i][..j + 1];
      }
      assert ruleSets[i][..|ruleSets[i]|] == ruleSets[i];
      assert ruleSets[..i + 1][..i] == ruleSets[..i];
    }
    assert ruleSets[..|ruleSets|] == ruleSets;
    st := Done;
  }

  lemma NoMarks(memo: Memo)
    requires memo.nodeMarks == {} && memo.groupMarks == {}
    ensures MarksOf(memo, [])
  {
  }

  lemma NothingFails(rules: seq<Rule>)
    ensures NoFailure(rules, [])
  {
  }

  /** Optimizer::findBestPlan. Whatever the plan, the rules and their order, the plan that comes
      out means what the plan that went in means. */
  method FindBestPlan<M(!new)>(plan: Plan, root: int, rules: seq<Rule>, ruleSets: seq<seq<nat>>, fuel: nat,
                         ghost rank: int -> nat, ghost sem: Meaning<M>)
    returns (out: Outcome, ghost final: Memo, ghost g: nat, ghost order: int -> nat, ghost s: Story,
             ghost visited: map<int, nat>, ghost origin: seq<int>)
    requires PlanOk(plan, rank) && root in plan && RuleSetsOk(ruleSets, rules) && AllSound(sem, rules)
    ensures out.Best? ==>
      && PlanOk(out.plan, order) && out.root in out.plan
      && TreeMeaning(sem, Unfold(out.plan, order, out.root)) == TreeMeaning(sem, Unfold(plan, rank, root))
    ensures out.Best? ==>
      && AllWritten(final, out.plan) && Chosen(final, g, out.root)
      && forall x :: x in out.plan <==> Reachable(out.plan, out.root, x)
    ensures Prepared(plan, rank, s.start, visited, origin) && root in visited && visited[root] == g
    ensures forall x :: x in visited <==> Reachable(plan, root, x)
    ensures out.Best? ==> Told(rules, InOrder(ruleSets), g, s, final) && NoFailure(rules, s.log)
    ensures NoEmptyGroup(final)
    ensures out.Error? ==> CanFail(rules) && !NoFailure(rules, s.log)
    ensures Logged(rules, s.start, s.tried, s.log, final)
    ensures out.CutOff? ==> fuel <= |final.nodes|
  {
    hide *;
    var e: Explorer<M>, rootGroup, st;
    e, rootGroup, st, s, visited, origin := Explored(plan, root, rules, ruleSets, fuel, rank, sem);
    final, g, order := e.memo, rootGroup, rank;
    assert NoEmptyGroup(final) by { ExplorerFacts(e); }
    if st.Failed? {
      out := Error;
    } else if st.OutOfFuel? {
      out := CutOff;
    } else {
      ExplorerFacts(e);
      ghost var ranks := RanksOf(e.memo);
      var best, top := ExtractPlan(e.memo, rootGroup, sem, e.mu, ranks);
      order := Order(e.memo, ranks);
      out := Best(best, top);
    }
  }

  lemma RanksOf(memo: Memo) returns (ranks: nat -> nat)
    requires Acyclic(memo)
    ensures Ranked(memo, ranks)
  {
    ranks :| Ranked(memo, ranks);
  }

  lemma ExplorerFacts<M(!new)>(e: Explorer<M>)
    requires e.Ok()
    ensures Consistent(e.memo, e.sem, e.mu) && NoEmptyGroup(e.memo) && Acyclic(e.memo)
    ensures Logged(e.rules, e.start, e.tried, e.log, e.memo)
  {
  }

  /** The first two phases: prepare and explore. */
  method Explored<M(!new)>(plan: Plan, root: int, rules: seq<Rule>, ruleSets: seq<seq<nat>>, fuel: nat,
                     ghost rank: int -> nat, ghost sem: Meaning<M>)
    returns (e: Explorer<M>, g: nat, st: Status, ghost s: Story, ghost visited: map<int, nat>, ghost origin: seq<int>)
    requires PlanOk(plan, rank) && root in plan && RuleSetsOk(ruleSets, rules) && AllSound(sem, rules)
    ensures e.Ok() && e.rules == rules && e.sem == sem && g < |e.memo.groups| && g < |e.mu|
    ensures e.mu[g] == TreeMeaning(sem, Unfold(plan, rank, root))
    ensures Prepared(plan, rank, s.start, visited, origin) && root in visited && visited[root] == g
    ensures forall x :: x in visited <==> Reachable(plan, root, x)
    ensures st.Done? ==> Told(rules, InOrder(ruleSets), g, s, e.memo) && NoFailure(rules, s.log)
    ensures st.Failed? ==> CanFail(rules) && !NoFailure(rules, s.log)
    ensures Logged(rules, s.start, s.tried, s.log, e.memo)
    ensures st.OutOfFuel? ==> fuel <= |e.memo.nodes|
  {
    hide *;
    var memo, seen;
    ghost var mu;
    memo, g, seen, origin, mu := PrepareMemo(plan, root, rank, sem);
    visited := seen;
    e := new Explorer(rules, memo, sem, mu);
    st, s := DoExploration(e, ruleSets, g, fuel);
    s := s.(start := e.start, tried := e.tried, log := e.log);
    ExplorerFacts(e);
    SameMeaning(e, mu, g);
  }

  lemma SameMeaning<M(!new)>(e: Explorer<M>, mu: seq<M>, g: nat)
    requires e.Ok() && mu <= e.mu && g < |mu|
    ensures g < |e.mu| == |e.memo.groups| && e.mu[g] == mu[g]
  {
  }

  method PrepareMemo<M(!new)>(plan: Plan, root: int, ghost rank: int -> nat, ghost sem: Meaning<M>)
    returns (memo: Memo, g: nat, visited: map<int, nat>, ghost origin: seq<int>, ghost mu: seq<M>)
    requires PlanOk(plan, rank) && root in plan
    ensures Prepared(plan, rank, memo, visited, origin) && memo.nodeMarks == {} && memo.groupMarks == {}
    ensures root in visited && visited[root] == g && forall x :: x in visited <==> Reachable(plan, root, x)
    ensures Valid(memo, sem, mu) && Counted(memo) && g < |memo.groups| && g < |mu|
    ensures mu[g] == TreeMeaning(sem, Unfold(plan, rank, root))
  {
    hide Prepared, Reachable, Valid, Counted;
    memo, g, visited, origin := Prepare(plan, root, rank);
    PreparedValid(plan, rank, sem, memo, visited, origin);
    PreparedCounted(plan, rank, memo, visited, origin);
    PreparedOrigin(plan, rank, memo, visited, origin);
    mu := PlanMeanings(plan, rank, sem, origin);
    assert |origin| == |memo.groups|;
  }

  lemma PreparedOrigin(plan: Plan, rank: int -> nat, memo: Memo, visited: map<int, nat>, origin: seq<int>)
    requires Prepared(plan, rank, memo, visited, origin)
    ensures |origin| == |memo.groups| && forall g :: 0 <= g < |origin| ==> origin[g] in plan
  {
  }
}
