/** Sound rules, so that what is assumed of rules can be met, and what the optimizer makes of them. */
module OptExample {
  import opened OptMemo
  import opened OptRules
  import opened OptMarks
  import opened OptPattern
  import opened OptLog
  import opened OptExplore
  import opened OptPlan
  import opened OptConvert
  import opened OptPrepared
  import opened OptExtract
  import opened Optimizer

  /** Replaces a node of the given kind by one with another operation on the same inputs. */
  function RewriteRule(kind: Kind, f: Op -> Op): Rule {
    Rule(Pattern(kind, []),
         (memo: Memo, m: Match) => true,
         (memo: Memo, m: Match) =>
           if m.node < |memo.nodes| then Result(true, false, [], [Rewritten(memo.nodes[m.node].draft, f)]) else Fail)
  }

  function Rewritten(d: Draft, f: Op -> Op): Draft {
    d.(op := f(d.op))
  }

  /** The new operation means the same and has the same shape. */
  ghost predicate SameOp<M(!new)>(sem: Meaning<M>, kind: Kind, f: Op -> Op) {
    && (forall op: Op, deps, bodies :: op.kind == kind ==> sem(f(op), deps, bodies) == sem(op, deps, bodies))
    && (forall op: Op :: op.kind == kind ==> f(op).kind == kind || (f(op).kind.Other? && kind.Other?))
  }

  lemma RewriteAcyclic(memo: Memo, r: nat, g: nat, i: nat, f: Op -> Op)
    requires Acyclic(memo) && Owned(memo) && g < |memo.groups| && i < |memo.groups[g]|
    ensures Acyclic(Apply(memo, r, g, i, Result(true, false, [], [Rewritten(memo.nodes[memo.groups[g][i]].draft, f)])))
  {
    var t := Result(true, false, [], [Rewritten(memo.nodes[memo.groups[g][i]].draft, f)]);
    var after := Apply(memo, r, g, i, t);
    var rank: nat -> nat :| Ranked(memo, rank);
    forall a: nat, b: nat | Edge(after, a, b) ensures rank(b) < rank(a) {
      var j :| 0 <= j < |after.groups[a]| && Child(after, after.groups[a][j], b);
      RewriteMember(memo, r, g, i, f, a, j, b);
      assert Edge(memo, a, b);
    }
    assert Ranked(after, rank);
  }

  /** A member of the result is a member of the original or stands for one. */
  lemma RewriteMember(memo: Memo, r: nat, g: nat, i: nat, f: Op -> Op, a: nat, j: nat, b: nat)
    requires Owned(memo) && g < |memo.groups| && i < |memo.groups[g]|
    requires
      var d := memo.nodes[memo.groups[g][i]].draft;
      var after := Apply(memo, r, g, i, Result(true, false, [], [Rewritten(d, f)]));
      a < |after.groups| && j < |after.groups[a]| && Child(after, after.groups[a][j], b)
    ensures Edge(memo, a, b)
  {
    var t := Result(true, false, [], [Rewritten(memo.nodes[memo.groups[g][i]].draft, f)]);
    var after := Apply(memo, r, g, i, t);
    assert AddGroups(memo, t.newGroups) == memo;
    if a != g {
      assert Child(memo, memo.groups[a][j], b);
    } else if j == |memo.groups[g]| - 1 {
      assert Child(memo, memo.groups[g][i], b);
    } else {
      var k := if j < i then j else j + 1;
      assert after.groups[g][j] == memo.groups[g][k];
      assert Child(memo, memo.groups[g][k], b);
    }
  }

  lemma RewriteMeans<M(!new)>(sem: Meaning<M>, mu: seq<M>, kind: Kind, f: Op -> Op, d: Draft, v: M)
    requires SameOp(sem, kind, f) && d.op.kind == kind && Means(sem, mu, d, v)
    ensures Means(sem, mu, Rewritten(d, f), v)
  {
    assert sem(f(d.op), Values(mu, d.deps), Values(mu, d.bodies)) ==
      sem(d.op, Values(mu, d.deps), Values(mu, d.bodies));
  }

  /** The rule meets the hypothesis for every memo, and never erases all. */
  lemma RewriteRuleSound<M(!new)>(sem: Meaning<M>, r: nat, kind: Kind, f: Op -> Op)
    requires SameOp(sem, kind, f)
    ensures Sound(sem, r, RewriteRule(kind, f)) && Gentle(RewriteRule(kind, f)) && Replacing(RewriteRule(kind, f))
  {
    hide SameOp;
    var rule := RewriteRule(kind, f);
    forall memo: Memo, mu: seq<M>, g: nat, i: nat, m: Match |
      (&& Valid(memo, sem, mu) && g < |memo.groups| && i < |memo.groups[g]|
       && Embeds(memo, rule.pattern, memo.groups[g][i], m)
       && rule.accepts(memo, m) && rule.transform(memo, m).Result?)
      ensures GoodResult(sem, memo, mu, r, g, i, rule.transform(memo, m))
    {
      var t := rule.transform(memo, m);
      ConsistentOwned(memo, sem, mu);
      RewriteAcyclic(memo, r, g, i, f);
      assert GroupOk(memo, sem, mu, g);
      assert MemberOk(memo, sem, mu, g, memo.groups[g][i]);
      RewriteMeans(sem, mu, kind, f, memo.nodes[m.node].draft, mu[g]);
      assert mu + [] == mu;
      assert Fits(sem, mu, g, t, []);
    }
  }

  // ---- A kind that a rule replaces ----

  lemma PreparedNeat(plan: Plan, rank: int -> nat, memo: Memo, visited: map<int, nat>, origin: seq<int>)
    requires Prepared(plan, rank, memo, visited, origin)
    ensures Neat(memo)
  {
    forall g | 0 <= g < |memo.groups|
      ensures |memo.groups[g]| == 1 && memo.groups[g][0] < |memo.nodes| && memo.nodes[memo.groups[g][0]].group == g
    {
      assert Copied(plan, memo, visited, origin[g]);
    }
  }

  /** After a new rule of this sort no group below the root has a member of its kind. */
  lemma KindGone(rules: seq<Rule>, order: seq<nat>, root: nat, s: Story, final: Memo, h: nat, steps: nat, n: nat)
    requires Told(rules, order, root, s, final) && Neat(s.start) && order != []
    requires
      var q := |order| - 1;
      && order[q] < |rules| && order[q] !in order[..q]
      && Gentle(rules[order[q]]) && Replacing(rules[order[q]])
    requires Reaches(final, root, h, steps) && h < |final.groups| && n in final.groups[h]
    ensures n < |final.nodes| && final.nodes[n].draft.op.kind != rules[order[|order| - 1]].pattern.kind
  {
    hide Logged, Gentle, Replacing, Neat, ExploredBelow, TriedBelow;
    var q := |order| - 1;
    var r, memo := order[q], s.memos[q];
    assert RuleDone(rules, order, root, s, q);
    assert s.log[..|s.log|] == s.log && s.tried[..|s.tried|] == s.tried;
    assert SameNodes(memo, final) by {
      LoggedSame(rules, s.start, s.tried, s.log, memo, final);
    }
    ReachesSame(final, memo, root, h, steps);
    assert (r, n) in s.tried by { TriedThere(memo, r, root, s.tried, h, steps, n); }
    NoneLeft(rules, s.start, s.tried, s.log, final, r, h, n);
  }

  lemma LoggedSame(rules: seq<Rule>, start: Memo, tried: seq<(nat, nat)>, log: seq<Attempt>, a: Memo, b: Memo)
    requires Logged(rules, start, tried, log, a) && Logged(rules, start, tried, log, b)
    ensures SameNodes(a, b)
  {
  }

  lemma {:induction false} ReachesSame(a: Memo, b: Memo, g: nat, h: nat, steps: nat)
    requires SameNodes(a, b) && Reaches(a, g, h, steps)
    ensures Reaches(b, g, h, steps)
    decreases steps
  {
    if steps > 0 {
      var k :| Edge(a, g, k) && Reaches(a, k, h, steps - 1);
      ReachesSame(a, b, k, h, steps - 1);
      var i :| 0 <= i < |a.groups[g]| && Child(a, a.groups[g][i], k);
      assert Child(b, b.groups[g][i], k);
      assert Edge(b, g, k);
    }
  }

  lemma TriedThere(memo: Memo, r: nat, root: nat, tried: seq<(nat, nat)>, h: nat, steps: nat, n: nat)
    requires ExploredBelow(memo, r, root) && TriedBelow(memo, r, tried) && Reaches(memo, root, h, steps)
    requires h < |memo.groups| && n in memo.groups[h]
    ensures (r, n) in tried
  {
    assert AllMarked(memo, r, h);
  }

  /** What a plan node reaches lies in a group that its group reaches. */
  lemma {:induction false} ReachGroups(memo: Memo, plan: Plan, id: int, x: int, steps: nat)
    requires AllWritten(memo, plan) && Neat(memo) && id in plan && PlanReach(plan, id, x, steps)
    ensures 0 <= id < |memo.nodes| && x in plan && 0 <= x < |memo.nodes|
    ensures Reaches(memo, memo.nodes[id].group, memo.nodes[x].group, steps)
    decreases steps
  {
    hide Neat, Written, Edge;
    WrittenIn(memo, plan, id);
    if steps > 0 {
      var k :| k in plan[id].deps + plan[id].bodies && PlanReach(plan, k, x, steps - 1);
      BelowGroup(memo, plan, id, k);
      ReachGroups(memo, plan, k, x, steps - 1);
    }
  }

  lemma WrittenIn(memo: Memo, plan: Plan, id: int)
    requires AllWritten(memo, plan) && id in plan
    ensures 0 <= id < |memo.nodes| && Written(memo, plan, id)
  {
  }

  lemma BelowGroup(memo: Memo, plan: Plan, id: int, k: int)
    requires id in plan && Written(memo, plan, id) && Neat(memo) && k in plan[id].deps + plan[id].bodies
    ensures k in plan && 0 <= k < |memo.nodes| && Edge(memo, memo.nodes[id].group, memo.nodes[k].group)
  {
    var d := memo.nodes[id].draft;
    var below := k in plan[id].deps;
    var refs, ids := if below then d.deps else d.bodies, if below then plan[id].deps else plan[id].bodies;
    var j :| 0 <= j < |ids| && ids[j] == k;
    assert Chosen(memo, refs[j], k);
    ChosenIn(memo, refs[j], k);
    ChosenIn(memo, memo.nodes[id].group, id);
    assert refs[j] in Children(d);
    var i :| 0 <= i < |memo.groups[memo.nodes[id].group]| && memo.groups[memo.nodes[id].group][i] == id;
    assert Child(memo, memo.groups[memo.nodes[id].group][i], refs[j]);
  }

  lemma ChosenIn(memo: Memo, g: nat, id: int)
    requires Chosen(memo, g, id) && Neat(memo)
    ensures 0 <= id < |memo.nodes| && memo.nodes[id].group == g && g < |memo.groups| && id in memo.groups[g]
  {
    var i: nat :| Cheapest(memo, g, i) && id == memo.groups[g][i];
  }

  /** Nor has the plan that comes out, whatever the plan that went in. */
  lemma KindGoneFromPlan(rules: seq<Rule>, order: seq<nat>, g: nat, s: Story, final: Memo, plan: Plan, root: int,
                         x: int)
    requires Told(rules, order, g, s, final) && Neat(s.start) && order != []
    requires
      var q := |order| - 1;
      && order[q] < |rules| && order[q] !in order[..q]
      && Gentle(rules[order[q]]) && Replacing(rules[order[q]])
    requires AllWritten(final, plan) && Chosen(final, g, root) && root in plan && Reachable(plan, root, x)
    ensures x in plan && plan[x].op.kind != rules[order[|order| - 1]].pattern.kind
  {
    hide Told, Gentle, Replacing, Neat, Cheapest;
    assert Neat(final) by { FinalNeat(rules, order, g, s, final); }
    var steps: nat :| PlanReach(plan, root, x, steps);
    ChosenIn(final, g, root);
    ReachGroups(final, plan, root, x, steps);
    assert Written(final, plan, x);
    ChosenIn(final, final.nodes[x].group, x);
    KindGone(rules, order, g, s, final, final.nodes[x].group, steps, x);
  }

  lemma FinalNeat(rules: seq<Rule>, order: seq<nat>, g: nat, s: Story, final: Memo)
    requires Told(rules, order, g, s, final) && Neat(s.start)
    ensures Neat(final)
  {
    hide Neat;
    StageNeat(rules, s.start, s.tried, s.log, final, |s.log|);
    SameNeat(Stage(s.start, s.log, |s.log|), final);
  }

  // ---- A cheaper node ----

  const DEAR := Op(Other(7), 0, 10.0)
  const CHEAP := Op(Other(8), 0, 1.0)

  function Cheapen(op: Op): Op {
    Op(Other(8), op.payload, 1.0)
  }

  function CheapenRule(): Rule {
    RewriteRule(Other(7), Cheapen)
  }

  ghost function Payload(): Meaning<int> {
    (op: Op, deps: seq<int>, bodies: seq<int>) => op.payload
  }

  predicate IsDear(memo: Memo) {
    memo.nodes == [GroupNode(Draft(DEAR, [], []), 0)] && memo.groups == [[0]]
  }

  predicate IsCheap(memo: Memo) {
    memo.nodes == [GroupNode(Draft(DEAR, [], []), 0), GroupNode(Draft(CHEAP, [], []), 0)] && memo.groups == [[1]]
  }

  lemma FirstTry(a: Attempt)
    requires Attempted([CheapenRule()], a) && IsDear(a.before)
    ensures IsCheap(a.after) && !Failing([CheapenRule()], a)
  {
    var rule := CheapenRule();
    LeafMatches(a.before, rule.pattern, 0);
    var t := Returned([rule], a);
    assert t == Result(true, false, [], [Draft(CHEAP, [], [])]);
    assert Left(a.before.groups[0], 0, t) == [];
    var added := a.after.groups[0][0..];
    assert added == a.after.groups[0] && |added| == 1 && added[0] == 1;
    assert a.after.groups[0] == [1];
  }

  lemma LaterTry(a: Attempt)
    requires Attempted([CheapenRule()], a) && IsCheap(a.before)
    ensures IsCheap(a.after) && !Failing([CheapenRule()], a)
  {
  }

  lemma {:induction false} CheapStages(start: Memo, tried: seq<(nat, nat)>, log: seq<Attempt>, memo: Memo, k: nat)
    requires Logged([CheapenRule()], start, tried, log, memo) && IsDear(start) && k <= |log|
    ensures k > 0 ==> IsCheap(Stage(start, log, k)) && !Failing([CheapenRule()], log[k - 1])
    decreases k
  {
    hide Attempted, CheapenRule;
    if k > 0 {
      CheapStages(start, tried, log, memo, k - 1);
      assert Entry([CheapenRule()], start, tried, log, k - 1);
      if k == 1 {
        FirstTry(log[0]);
      } else {
        LaterTry(log[k - 1]);
      }
    }
  }

  lemma NoneFails(start: Memo, tried: seq<(nat, nat)>, log: seq<Attempt>, memo: Memo)
    requires Logged([CheapenRule()], start, tried, log, memo) && IsDear(start)
    ensures NoFailure([CheapenRule()], log) && |memo.nodes| <= 2 && (log != [] ==> IsCheap(memo))
  {
    hide Failing, CheapenRule;
    forall k | 0 <= k < |log| ensures !Failing([CheapenRule()], log[k]) {
      CheapStages(start, tried, log, memo, k + 1);
    }
    CheapStages(start, tried, log, memo, |log|);
  }

  lemma DearPrepared(plan: Plan, rank: int -> nat, memo: Memo, visited: map<int, nat>, origin: seq<int>)
    requires plan == map[0 := PlanNode(DEAR, [], [])] && Prepared(plan, rank, memo, visited, origin)
    requires 0 in visited && forall x :: x in visited ==> Reachable(plan, 0, x)
    ensures IsDear(memo) && visited[0] == 0
  {
    forall g | 0 <= g < |origin| ensures origin[g] == 0 && g == visited[0] {
      assert Reachable(plan, 0, origin[g]);
      var steps: nat :| PlanReach(plan, 0, origin[g], steps);
    }
    assert Copied(plan, memo, visited, 0);
    var last := |origin| - 1;
    assert origin[0] == 0 && origin[last] == 0 && last == visited[0] == 0;
    assert |memo.nodes| == 1 && memo.groups[0] == [0];
    assert Images(visited, []) == [];
    assert memo.nodes == [memo.nodes[0]] && memo.groups == [memo.groups[0]];
  }

  /** The optimizer applies the rule: the plan that comes out is the cheaper node. */
  method CheaperIsChosen(fuel: nat) returns (out: Outcome)
    requires fuel >= 3
    ensures out.Best? && out.root in out.plan && out.plan[out.root] == PlanNode(CHEAP, [], [])
  {
    hide Logged, Told, Prepared, NoFailure, Reachable, AllWritten, Chosen, Attempted, RewriteRule;
    var plan := map[0 := PlanNode(DEAR, [], [])];
    ghost var rank: int -> nat := (x: int) => 0;
    assert SameOp(Payload(), Other(7), Cheapen);
    RewriteRuleSound(Payload(), 0, Other(7), Cheapen);
    var rules := [CheapenRule()];
    assert AllSound(Payload(), rules);
    ghost var final, g, order, s, visited, origin;
    out, final, g, order, s, visited, origin := FindBestPlan(plan, 0, rules, [[0]], fuel, rank, Payload());
    DearPrepared(plan, rank, s.start, visited, origin);
    NoneFails(s.start, s.tried, s.log, final);
    assert out.Best?;
    CheapRoot(rules, g, s, final, out.plan, out.root);
  }

  lemma CheapRoot(rules: seq<Rule>, g: nat, s: Story, final: Memo, plan: Plan, root: int)
    requires rules == [CheapenRule()] && Told(rules, InOrder([[0]]), g, s, final) && IsDear(s.start) && g == 0
    requires AllWritten(final, plan) && Chosen(final, g, root) && root in plan
    ensures plan[root] == PlanNode(CHEAP, [], [])
  {
    assert InOrder([[0]]) == [0] by { assert [[0]][..0] == []; }
    NoneFails(s.start, s.tried, s.log, final);
    assert s.log != [] by { MustTry(rules, g, s, final); }
    assert Written(final, plan, root);
    ChosenCheap(final, root);
  }

  lemma ChosenCheap(memo: Memo, id: int)
    requires IsCheap(memo) && Chosen(memo, 0, id)
    ensures id == 1
  {
  }

  /** Every node below the root is tried, so something is. */
  lemma MustTry(rules: seq<Rule>, g: nat, s: Story, final: Memo)
    requires rules == [CheapenRule()] && Told(rules, [0], g, s, final) && IsDear(s.start) && g == 0
    ensures s.log != []
  {
    hide Logged, CheapenRule, ExploredBelow, TriedBelow, Gentle, IsDear;
    assert Gentle(rules[0]) by { CheapenGentle(); }
    assert RuleDone(rules, [0], g, s, 0);
    assert s.log[..|s.log|] == s.log && s.tried[..|s.tried|] == s.tried;
    RootTried(rules, s.start, s.tried, s.log, s.memos[0]);
  }

  lemma CheapenGentle()
    ensures Gentle(CheapenRule())
  {
  }

  lemma RootTried(rules: seq<Rule>, start: Memo, tried: seq<(nat, nat)>, log: seq<Attempt>, memo: Memo)
    requires Logged(rules, start, tried, log, memo) && IsDear(start)
    requires ExploredBelow(memo, 0, 0) && TriedBelow(memo, 0, tried)
    ensures log != []
  {
    hide ExploredBelow, TriedBelow, Entry;
    if log == [] {
      assert Reaches(memo, 0, 0, 0);
      assert memo.groups[0] == [0];
      TriedThere(memo, 0, 0, tried, 0, 0, 0);
      assert false;
    }
  }
}
