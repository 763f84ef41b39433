/** The memo of the optimizer: groups of equivalent group nodes, and explored marks. */
module OptMemo {
  datatype Kind = Select | Loop | Other(id: int)

  /** What a plan node computes, apart from its inputs. */
  datatype Op = Op(kind: Kind, payload: int, cost: real)

  /** A plan node whose dependencies and bodies are groups. */
  datatype Draft = Draft(op: Op, deps: seq<nat>, bodies: seq<nat>)

  datatype GroupNode = GroupNode(draft: Draft, group: nat)

  /** Marks pair a rule with a node or a group. Rules, nodes and groups are known by position. */
  datatype Memo = Memo(nodes: seq<GroupNode>, groups: seq<seq<nat>>, nodeMarks: set<(nat, nat)>,
                       groupMarks: set<(nat, nat)>)

  type Meaning<!M> = (Op, seq<M>, seq<M>) -> M

  // ---- Invariant ----

  /** At most two dependencies; only a Select and a Loop have bodies. */
  predicate Shaped(op: Op, deps: nat, bodies: nat) {
    && deps <= 2
    && bodies == (if deps != 1 then 0 else match op.kind case Select => 2 case Loop => 1 case Other(_) => 0)
  }

  predicate DraftOk(d: Draft, size: nat) {
    && Shaped(d.op, |d.deps|, |d.bodies|)
    && (forall i :: 0 <= i < |d.deps| ==> d.deps[i] < size)
    && (forall i :: 0 <= i < |d.bodies| ==> d.bodies[i] < size)
  }

  function Children(d: Draft): seq<nat> {
    d.deps + d.bodies
  }

  ghost function Values<M>(mu: seq<M>, refs: seq<nat>): seq<M>
    requires forall i :: 0 <= i < |refs| ==> refs[i] < |mu|
  {
    seq(|refs|, i requires 0 <= i < |refs| => mu[refs[i]])
  }

  /** The meaning of a group node, given the meanings `mu` of the groups. */
  ghost function MeaningOf<M>(sem: Meaning<M>, mu: seq<M>, d: Draft): M
    requires DraftOk(d, |mu|)
  {
    sem(d.op, Values(mu, d.deps), Values(mu, d.bodies))
  }

  ghost predicate Means<M>(sem: Meaning<M>, mu: seq<M>, d: Draft, v: M) {
    DraftOk(d, |mu|) && MeaningOf(sem, mu, d) == v
  }

  /** Node `n` belongs to group `g` and means what the group means. */
  ghost predicate MemberOk<M>(memo: Memo, sem: Meaning<M>, mu: seq<M>, g: nat, n: nat)
    requires g < |mu|
  {
    n < |memo.nodes| && memo.nodes[n].group == g && Means(sem, mu, memo.nodes[n].draft, mu[g])
  }

  ghost predicate GroupOk<M>(memo: Memo, sem: Meaning<M>, mu: seq<M>, g: nat)
    requires g < |mu| && g < |memo.groups|
  {
    forall i :: 0 <= i < |memo.groups[g]| ==> MemberOk(memo, sem, mu, g, memo.groups[g][i])
  }

  /** All nodes of a group mean the same. */
  ghost predicate Consistent<M>(memo: Memo, sem: Meaning<M>, mu: seq<M>) {
    && |memo.groups| == |mu|
    && forall g :: 0 <= g < |mu| ==> GroupOk(memo, sem, mu, g)
  }

  predicate NoEmptyGroup(memo: Memo) {
    forall g :: 0 <= g < |memo.groups| ==> memo.groups[g] != []
  }

  /** Some node of group `g` has group `h` as a dependency or body. */
  predicate Edge(memo: Memo, g: nat, h: nat) {
    && g < |memo.groups|
    && exists i :: 0 <= i < |memo.groups[g]| && Child(memo, memo.groups[g][i], h)
  }

  predicate Child(memo: Memo, n: nat, h: nat) {
    n < |memo.nodes| && h in Children(memo.nodes[n].draft)
  }

  ghost predicate Ranked(memo: Memo, rank: nat -> nat) {
    forall g: nat, h: nat :: Edge(memo, g, h) ==> rank(h) < rank(g)
  }

  ghost predicate Acyclic(memo: Memo) {
    exists rank: nat -> nat :: Ranked(memo, rank)
  }

  ghost predicate Valid<M>(memo: Memo, sem: Meaning<M>, mu: seq<M>) {
    Consistent(memo, sem, mu) && NoEmptyGroup(memo) && Acyclic(memo)
  }

  // ---- Edits ----

  /** Appends fresh nodes to group `g` (OptGroupNode::create, addGroupNode, makeGroupNode). */
  function Place(memo: Memo, g: nat, drafts: seq<Draft>): Memo
    requires g < |memo.groups|
  {
    var created := seq(|drafts|, i requires 0 <= i < |drafts| => GroupNode(drafts[i], g));
    var ids: seq<nat> := seq(|drafts|, i requires 0 <= i < |drafts| => |memo.nodes| + i);
    memo.(nodes := memo.nodes + created, groups := memo.groups[g := memo.groups[g] + ids])
  }

  /** OptGroup::create. */
  function Open(memo: Memo): Memo {
    memo.(groups := memo.groups + [[]])
  }

  /** Fresh groups, each with its nodes. */
  function AddGroups(memo: Memo, groups: seq<seq<Draft>>): (m: Memo)
    ensures |m.groups| == |memo.groups| + |groups|
    decreases |groups|
  {
    if groups == [] then memo
    else AddGroups(Place(Open(memo), |memo.groups|, groups[0]), groups[1..])
  }

  function Without<T>(s: seq<T>, i: nat): seq<T>
    requires i < |s|
  {
    s[..i] + s[i + 1..]
  }

  function Clear(memo: Memo, g: nat): Memo
    requires g < |memo.groups|
  {
    memo.(groups := memo.groups[g := []])
  }

  function EraseAt(memo: Memo, g: nat, i: nat): Memo
    requires g < |memo.groups| && i < |memo.groups[g]|
  {
    memo.(groups := memo.groups[g := Without(memo.groups[g], i)])
  }

  /** Unmarking is by rule and group (OptGroup::setUnexplored). */
  function Unmark(memo: Memo, r: nat, g: nat): Memo {
    memo.(groupMarks := memo.groupMarks - {(r, g)})
  }

  // ---- What the edits keep ----

  lemma MeansKept<M>(sem: Meaning<M>, mu: seq<M>, more: seq<M>, d: Draft, v: M)
    requires Means(sem, mu, d, v)
    ensures Means(sem, mu + more, d, v)
  {
    assert Values(mu + more, d.deps) == Values(mu, d.deps);
    assert Values(mu + more, d.bodies) == Values(mu, d.bodies);
  }

  ghost predicate AllMean<M>(sem: Meaning<M>, mu: seq<M>, drafts: seq<Draft>, v: M) {
    forall i :: 0 <= i < |drafts| ==> Means(sem, mu, drafts[i], v)
  }

  /** The groups with their meanings `mu`, of which only the first have been created so far. */
  ghost predicate PartlyConsistent<M>(memo: Memo, sem: Meaning<M>, mu: seq<M>) {
    && |memo.groups| <= |mu|
    && forall g :: 0 <= g < |memo.groups| ==> GroupOk(memo, sem, mu, g)
  }

  lemma PlaceKeeps<M>(memo: Memo, sem: Meaning<M>, mu: seq<M>, g: nat, drafts: seq<Draft>)
    requires PartlyConsistent(memo, sem, mu) && g < |memo.groups|
    requires AllMean(sem, mu, drafts, mu[g])
    ensures PartlyConsistent(Place(memo, g, drafts), sem, mu)
  {
    var after := Place(memo, g, drafts);
    forall h | 0 <= h < |after.groups| ensures GroupOk(after, sem, mu, h) {
      assert GroupOk(memo, sem, mu, h);
      forall i | 0 <= i < |after.groups[h]| ensures MemberOk(after, sem, mu, h, after.groups[h][i]) {
        if i < |memo.groups[h]| {
          assert MemberOk(memo, sem, mu, h, memo.groups[h][i]);
        } else {
          assert Means(sem, mu, drafts[i - |memo.groups[h]|], mu[g]);
        }
      }
    }
  }

  lemma {:induction false} AddGroupsKeeps<M>(memo: Memo, sem: Meaning<M>, mu: seq<M>, groups: seq<seq<Draft>>)
    requires PartlyConsistent(memo, sem, mu) && |memo.groups| + |groups| == |mu|
    requires forall k :: 0 <= k < |groups| ==> AllMean(sem, mu, groups[k], mu[|memo.groups| + k])
    ensures PartlyConsistent(AddGroups(memo, groups), sem, mu)
    decreases |groups|
  {
    if groups != [] {
      var grown := Open(memo);
      forall g | 0 <= g < |grown.groups| ensures GroupOk(grown, sem, mu, g) {
        if g < |memo.groups| {
          assert GroupOk(memo, sem, mu, g);
          forall i | 0 <= i < |grown.groups[g]| ensures MemberOk(grown, sem, mu, g, grown.groups[g][i]) {
            assert MemberOk(memo, sem, mu, g, memo.groups[g][i]);
          }
        }
      }
      assert AllMean(sem, mu, groups[0], mu[|memo.groups| + 0]);
      PlaceKeeps(grown, sem, mu, |memo.groups|, groups[0]);
      var placed := Place(grown, |memo.groups|, groups[0]);
      forall k | 0 <= k < |groups[1..]| ensures AllMean(sem, mu, groups[1..][k], mu[|placed.groups| + k]) {
        assert AllMean(sem, mu, groups[k + 1], mu[|memo.groups| + (k + 1)]);
      }
      AddGroupsKeeps(placed, sem, mu, groups[1..]);
    }
  }

  lemma ExtendKeeps<M>(memo: Memo, sem: Meaning<M>, mu: seq<M>, more: seq<M>)
    requires Consistent(memo, sem, mu)
    ensures PartlyConsistent(memo, sem, mu + more)
  {
    forall g | 0 <= g < |memo.groups| ensures GroupOk(memo, sem, mu + more, g) {
      assert GroupOk(memo, sem, mu, g);
      forall i | 0 <= i < |memo.groups[g]| ensures MemberOk(memo, sem, mu + more, g, memo.groups[g][i]) {
        assert MemberOk(memo, sem, mu, g, memo.groups[g][i]);
        MeansKept(sem, mu, more, memo.nodes[memo.groups[g][i]].draft, mu[g]);
      }
    }
  }

  /** Dropping members keeps consistency. */
  lemma FewerKeeps<M>(memo: Memo, after: Memo, sem: Meaning<M>, mu: seq<M>)
    requires PartlyConsistent(memo, sem, mu)
    requires after.nodes == memo.nodes && |after.groups| == |memo.groups|
    requires forall g, i :: 0 <= g < |after.groups| && 0 <= i < |after.groups[g]| ==>
      after.groups[g][i] in memo.groups[g]
    ensures PartlyConsistent(after, sem, mu)
  {
    forall g | 0 <= g < |after.groups| ensures GroupOk(after, sem, mu, g) {
      assert GroupOk(memo, sem, mu, g);
      forall i | 0 <= i < |after.groups[g]| ensures MemberOk(after, sem, mu, g, after.groups[g][i]) {
        var j :| 0 <= j < |memo.groups[g]| && memo.groups[g][j] == after.groups[g][i];
        assert MemberOk(memo, sem, mu, g, memo.groups[g][j]);
      }
    }
  }
}

/** Patterns, rules and what is assumed of a rule. */
module OptRules {
  import opened OptMemo

  datatype Pattern = Pattern(kind: Kind, deps: seq<Pattern>)

  /** MatchedResult: one group node for each node of the pattern. */
  datatype Match = Match(node: nat, deps: seq<Match>)

  datatype Transform =
    | Fail
    | Result(eraseCurr: bool, eraseAll: bool, newGroups: seq<seq<Draft>>, newNodes: seq<Draft>)

  /** A rule reads the memo and a match; what it creates is in its result. */
  datatype Rule = Rule(pattern: Pattern, accepts: (Memo, Match) -> bool, transform: (Memo, Match) -> Transform)

  /** One node chosen for each dependency group embeds the pattern tree. */
  predicate Embeds(memo: Memo, p: Pattern, n: nat, m: Match)
    decreases p
  {
    && m.node == n
    && n < |memo.nodes|
    && memo.nodes[n].draft.op.kind == p.kind
    && if p.deps == [] then m.deps == [] else
         && |p.deps| == |memo.nodes[n].draft.deps| == |m.deps|
         && forall i :: 0 <= i < |p.deps| ==>
              InGroup(memo, memo.nodes[n].draft.deps[i], m.deps[i].node) &&
                Embeds(memo, p.deps[i], m.deps[i].node, m.deps[i])
  }

  predicate InGroup(memo: Memo, g: nat, n: nat) {
    g < |memo.groups| && n in memo.groups[g]
  }

  /** What `explore` does with a transform at position `i` of group `g`. */
  function Apply(memo: Memo, r: nat, g: nat, i: nat, t: Transform): Memo
    requires t.Result? && g < |memo.groups| && i < |memo.groups[g]|
  {
    var grown := AddGroups(memo, t.newGroups);
    AddGroupsAt(memo, t.newGroups, g);
    if t.eraseAll then Place(Clear(grown, g), g, t.newNodes)
    else
      var placed := Place(grown, g, t.newNodes);
      var unmarked := if t.newNodes != [] then Unmark(placed, r, g) else placed;
      if t.eraseCurr then EraseAt(unmarked, g, i) else unmarked
  }

  lemma {:induction false} AddGroupsAt(memo: Memo, groups: seq<seq<Draft>>, g: nat)
    requires g < |memo.groups|
    ensures AddGroups(memo, groups).groups[g] == memo.groups[g]
    decreases |groups|
  {
    if groups != [] {
      AddGroupsAt(Place(Open(memo), |memo.groups|, groups[0]), groups[1..], g);
    }
  }

  /** The new groups can be given meanings under which the new nodes mean the matched group. */
  ghost predicate Fits<M>(sem: Meaning<M>, mu: seq<M>, g: nat, t: Transform, more: seq<M>)
    requires t.Result? && g < |mu|
  {
    && |more| == |t.newGroups|
    && (forall k :: 0 <= k < |more| ==> t.newGroups[k] != [] && AllMean(sem, mu + more, t.newGroups[k], more[k]))
    && AllMean(sem, mu + more, t.newNodes, mu[g])
  }

  /** Replacements mean the same, erasing comes with a replacement, and no cycle arises. */
  ghost predicate GoodResult<M(!new)>(sem: Meaning<M>, memo: Memo, mu: seq<M>, r: nat, g: nat, i: nat, t: Transform)
    requires t.Result? && g < |mu| && g < |memo.groups| && i < |memo.groups[g]|
  {
    && (exists more :: Fits(sem, mu, g, t, more))
    && (t.eraseCurr || t.eraseAll ==> t.newNodes != [])
    && Acyclic(Apply(memo, r, g, i, t))
  }

  ghost predicate Sound<M(!new)>(sem: Meaning<M>, r: nat, rule: Rule) {
    forall memo: Memo, mu: seq<M>, g: nat, i: nat, m: Match ::
      (&& Valid(memo, sem, mu) && g < |memo.groups| && i < |memo.groups[g]|
       && Embeds(memo, rule.pattern, memo.groups[g][i], m)
       && rule.accepts(memo, m) && rule.transform(memo, m).Result?)
      ==> GoodResult(sem, memo, mu, r, g, i, rule.transform(memo, m))
  }

  /** One step of exploration keeps the memo valid. */
  lemma ApplyKeeps<M(!new)>(sem: Meaning<M>, memo: Memo, mu: seq<M>, r: nat, g: nat, i: nat,
                     t: Transform) returns (more: seq<M>)
    requires Valid(memo, sem, mu) && t.Result? && g < |memo.groups| && i < |memo.groups[g]|
    requires GoodResult(sem, memo, mu, r, g, i, t)
    ensures |more| == |t.newGroups| && Valid(Apply(memo, r, g, i, t), sem, mu + more)
  {
    more :| Fits(sem, mu, g, t, more);
    ExtendKeeps(memo, sem, mu, more);
    forall k | 0 <= k < |more| ensures AllMean(sem, mu + more, t.newGroups[k], (mu + more)[|memo.groups| + k]) {
      assert AllMean(sem, mu + more, t.newGroups[k], more[k]);
    }
    AddGroupsKeeps(memo, sem, mu + more, t.newGroups);
    var grown := AddGroups(memo, t.newGroups);
    AddGroupsAt(memo, t.newGroups, g);
    if t.eraseAll {
      FewerKeeps(grown, Clear(grown, g), sem, mu + more);
      PlaceKeeps(Clear(grown, g), sem, mu + more, g, t.newNodes);
    } else {
      PlaceKeeps(grown, sem, mu + more, g, t.newNodes);
      var placed := Place(grown, g, t.newNodes);
      FewerKeeps(placed, Apply(memo, r, g, i, t), sem, mu + more);
    }
    ApplyNonEmpty(memo, r, g, i, t);
  }

  lemma {:induction false} AddGroupsNonEmpty(memo: Memo, groups: seq<seq<Draft>>)
    requires NoEmptyGroup(memo) && forall k :: 0 <= k < |groups| ==> groups[k] != []
    ensures NoEmptyGroup(AddGroups(memo, groups))
    decreases |groups|
  {
    if groups != [] {
      AddGroupsNonEmpty(Place(Open(memo), |memo.groups|, groups[0]), groups[1..]);
    }
  }

  lemma ApplyNonEmpty(memo: Memo, r: nat, g: nat, i: nat, t: Transform)
    requires NoEmptyGroup(memo) && t.Result? && g < |memo.groups| && i < |memo.groups[g]|
    requires forall k :: 0 <= k < |t.newGroups| ==> t.newGroups[k] != []
    requires t.eraseCurr || t.eraseAll ==> t.newNodes != []
    ensures NoEmptyGroup(Apply(memo, r, g, i, t))
  {
    AddGroupsNonEmpty(memo, t.newGroups);
    AddGroupsAt(memo, t.newGroups, g);
  }
}
