/** What exploration has done: every try of a rule on a node, and what it did to the memo. */
module OptLog {
  import opened Wrappers
  import opened OptMemo
  import opened OptRules
  import opened OptMarks
  import opened OptPattern

  /** A rule tried on the member at `pos` of `group`, with the match that was found. */
  datatype Attempt = Attempt(rule: nat, group: nat, pos: nat, matched: Option<Match>, before: Memo, after: Memo)

  /** The members are nodes of group `g` with these drafts, none of them older than `since`. */
  predicate MembersAre(memo: Memo, g: nat, members: seq<nat>, drafts: seq<Draft>, since: nat) {
    && |members| == |drafts|
    && forall j :: 0 <= j < |members| ==>
      since <= members[j] < |memo.nodes| && memo.nodes[members[j]] == GroupNode(drafts[j], g)
  }

  predicate Distinct(members: seq<nat>) {
    forall i, j :: 0 <= i < j < |members| ==> members[i] != members[j]
  }

  /** The members that a transform at position `i` leaves in their places. */
  function Left(members: seq<nat>, i: nat, t: Transform): seq<nat>
    requires t.Result? && i < |members|
  {
    if t.eraseAll then [] else if t.eraseCurr then Without(members, i) else members
  }

  function Total(groups: seq<seq<Draft>>): nat {
    if groups == [] then 0 else |groups[0]| + Total(groups[1..])
  }

  /** The transform took effect: its new nodes joined the group behind what is left there, its new
      groups exist, and nothing else has changed. */
  ghost predicate Applied(before: Memo, after: Memo, g: nat, i: nat, t: Transform)
    requires t.Result? && g < |before.groups| && i < |before.groups[g]|
  {
    && before.nodes <= after.nodes && |after.nodes| == |before.nodes| + Total(t.newGroups) + |t.newNodes|
    && |after.groups| == |before.groups| + |t.newGroups|
    && (forall h :: 0 <= h < |before.groups| && h != g ==> after.groups[h] == before.groups[h])
    && (forall k :: 0 <= k < |t.newGroups| ==> NewGroup(before, after, k, t.newGroups[k]))
    && var left := Left(before.groups[g], i, t);
    && left <= after.groups[g] && Distinct(after.groups[g][|left|..])
    && MembersAre(after, g, after.groups[g][|left|..], t.newNodes, |before.nodes|)
  }

  ghost predicate NewGroup(before: Memo, after: Memo, k: nat, drafts: seq<Draft>) {
    && |before.groups| + k < |after.groups|
    && MembersAre(after, |before.groups| + k, after.groups[|before.groups| + k], drafts, |before.nodes|)
    && Distinct(after.groups[|before.groups| + k])
  }

  predicate SameNodes(a: Memo, b: Memo) {
    a.nodes == b.nodes && a.groups == b.groups
  }

  predicate Located(a: Attempt) {
    a.group < |a.before.groups| && a.pos < |a.before.groups[a.group]|
  }

  function NodeOf(a: Attempt): nat
    requires Located(a)
  {
    a.before.groups[a.group][a.pos]
  }

  /** The rule accepts the match that was found. */
  predicate Accepted(rules: seq<Rule>, a: Attempt) {
    a.rule < |rules| && a.matched.Some? && rules[a.rule].accepts(a.before, a.matched.value)
  }

  function Returned(rules: seq<Rule>, a: Attempt): Transform
    requires Accepted(rules, a)
  {
    rules[a.rule].transform(a.before, a.matched.value)
  }

  predicate Failing(rules: seq<Rule>, a: Attempt) {
    Accepted(rules, a) && Returned(rules, a).Fail?
  }

  /** The first match is found if there is one, and if the rule accepts it the transform takes effect. */
  ghost predicate Attempted(rules: seq<Rule>, a: Attempt) {
    && Located(a) && a.rule < |rules|
    && (if a.matched.Some? then First(a.before, rules[a.rule].pattern, NodeOf(a), a.matched.value)
        else !Matches(a.before, rules[a.rule].pattern, NodeOf(a)))
    && if Accepted(rules, a) && Returned(rules, a).Result? then
         Applied(a.before, a.after, a.group, a.pos, Returned(rules, a))
       else SameNodes(a.before, a.after)
  }

  /** The memo, up to marks, after the first `k` tries. */
  function Stage(start: Memo, log: seq<Attempt>, k: nat): Memo
    requires k <= |log|
  {
    if k == 0 then start else log[k - 1].after
  }

  /** The log accounts for the memo: it lists the tries in order, and between them only marks change. */
  ghost predicate Logged(rules: seq<Rule>, start: Memo, tried: seq<(nat, nat)>, log: seq<Attempt>, memo: Memo) {
    && |log| == |tried|
    && (forall k :: 0 <= k < |log| ==> Entry(rules, start, tried, log, k))
    && SameNodes(Stage(start, log, |log|), memo)
  }

  ghost predicate Entry(rules: seq<Rule>, start: Memo, tried: seq<(nat, nat)>, log: seq<Attempt>, k: nat)
    requires k < |log| == |tried|
  {
    && Attempted(rules, log[k]) && tried[k] == (log[k].rule, NodeOf(log[k]))
    && SameNodes(Stage(start, log, k), log[k].before)
  }

  /** No try ended in an error. */
  ghost predicate NoFailure(rules: seq<Rule>, log: seq<Attempt>) {
    forall k :: 0 <= k < |log| ==> !Failing(rules, log[k])
  }

  /** Every node marked since has been tried. */
  ghost predicate AllTried(marks: set<(nat, nat)>, now: set<(nat, nat)>, tried: seq<(nat, nat)>) {
    forall x :: x in now && x !in marks ==> x in tried
  }

  lemma AllTriedThen(a: set<(nat, nat)>, b: set<(nat, nat)>, c: set<(nat, nat)>, t: seq<(nat, nat)>, u: seq<(nat, nat)>)
    requires AllTried(a, b, t) && AllTried(b, c, u) && t <= u
    ensures AllTried(a, c, u)
  {
    forall x | x in c && x !in a ensures x in u {
      if x in b {
        var k :| 0 <= k < |t| && t[k] == x;
        assert u[k] == x;
      }
    }
  }

  lemma AllTriedNothing(marks: set<(nat, nat)>, tried: seq<(nat, nat)>)
    ensures AllTried(marks, marks, tried)
  {
  }

  lemma AllTriedOneMore(before: Memo, now: set<(nat, nat)>, tried: seq<(nat, nat)>, r: nat, n: nat)
    requires AllTried(MarkNode(before, r, n).nodeMarks, now, tried)
    ensures AllTried(before.nodeMarks, now, tried + [(r, n)])
  {
  }

  lemma LoggedMarks(rules: seq<Rule>, start: Memo, tried: seq<(nat, nat)>, log: seq<Attempt>, memo: Memo, after: Memo)
    requires Logged(rules, start, tried, log, memo) && SameNodes(memo, after)
    ensures Logged(rules, start, tried, log, after)
  {
  }

  lemma LoggedNext(rules: seq<Rule>, start: Memo, tried: seq<(nat, nat)>, log: seq<Attempt>, a: Attempt)
    requires Logged(rules, start, tried, log, a.before) && Attempted(rules, a)
    ensures Logged(rules, start, tried + [(a.rule, NodeOf(a))], log + [a], a.after)
  {
    assert Located(a);
    hide Attempted;
    var more, all := log + [a], tried + [(a.rule, NodeOf(a))];
    forall k | 0 <= k < |more| ensures Entry(rules, start, all, more, k) {
      if k < |log| {
        assert Entry(rules, start, tried, log, k);
      }
    }
  }

  lemma NoFailureNext(rules: seq<Rule>, log: seq<Attempt>, a: Attempt)
    ensures NoFailure(rules, log + [a]) <==> NoFailure(rules, log) && !Failing(rules, a)
  {
    var more := log + [a];
    if NoFailure(rules, more) {
      assert more[|log|] == a;
      forall k | 0 <= k < |log| ensures !Failing(rules, log[k]) {
        assert more[k] == log[k];
      }
    }
  }

  // ---- What applying does ----

  lemma {:induction false} AddGroupsGives(memo: Memo, groups: seq<seq<Draft>>)
    ensures
      var after := AddGroups(memo, groups);
      && memo.nodes <= after.nodes && memo.groups <= after.groups
      && |after.nodes| == |memo.nodes| + Total(groups)
      && forall k :: 0 <= k < |groups| ==> NewGroup(memo, after, k, groups[k])
    decreases |groups|
  {
    if groups != [] {
      var first := Place(Open(memo), |memo.groups|, groups[0]);
      var after := AddGroups(memo, groups);
      AddGroupsGives(first, groups[1..]);
      AddGroupsAt(first, groups[1..], |memo.groups|);
      forall k | 0 <= k < |groups| ensures NewGroup(memo, after, k, groups[k]) {
        if k > 0 {
          assert NewGroup(first, after, k - 1, groups[1..][k - 1]);
        }
      }
    }
  }

  /** The edits of the source do what the transform asks for. */
  lemma ApplyGives(memo: Memo, r: nat, g: nat, i: nat, t: Transform)
    requires t.Result? && g < |memo.groups| && i < |memo.groups[g]|
    ensures Applied(memo, Apply(memo, r, g, i, t), g, i, t)
  {
    var grown, after := AddGroups(memo, t.newGroups), Apply(memo, r, g, i, t);
    AddGroupsGives(memo, t.newGroups);
    AddGroupsAt(memo, t.newGroups, g);
    forall k | 0 <= k < |t.newGroups| ensures NewGroup(memo, after, k, t.newGroups[k]) {
      assert NewGroup(memo, grown, k, t.newGroups[k]);
    }
    ApplyGivesHere(memo, grown, r, g, i, t);
  }

  /** Placing appends the new nodes and keeps the rest. */
  lemma PlaceGives(memo: Memo, g: nat, drafts: seq<Draft>, since: nat)
    requires g < |memo.groups| && since <= |memo.nodes|
    ensures
      var after, n := Place(memo, g, drafts), |memo.groups[g]|;
      && |after.groups| == |memo.groups| && |after.groups[g]| == n + |drafts| && after.groups[g][..n] == memo.groups[g]
      && Distinct(after.groups[g][n..]) && MembersAre(after, g, after.groups[g][n..], drafts, since)
  {
    var after, n := Place(memo, g, drafts), |memo.groups[g]|;
    var ids: seq<nat> := seq(|drafts|, j requires 0 <= j < |drafts| => |memo.nodes| + j);
    assert after.groups[g] == memo.groups[g] + ids;
    assert after.groups[g][n..] == ids;
  }

  /** Erasing in front of the new members. */
  lemma EraseGives(placed: seq<nat>, members: seq<nat>, i: nat)
    requires |members| <= |placed| && placed[..|members|] == members && i < |members|
    ensures
      var left := Without(members, i);
      left <= Without(placed, i) && Without(placed, i)[|left|..] == placed[|members|..]
  {
    var left, after := Without(members, i), Without(placed, i);
    forall j | 0 <= j < |left| ensures after[j] == left[j] {
      var k := if j < i then j else j + 1;
      assert left[j] == members[k] == placed[..|members|][k] == placed[k];
    }
    assert after[|left|..] == placed[|members|..];
  }

  lemma ApplyGivesHere(memo: Memo, grown: Memo, r: nat, g: nat, i: nat, t: Transform)
    requires t.Result? && g < |memo.groups| && i < |memo.groups[g]|
    requires grown == AddGroups(memo, t.newGroups) && memo.nodes <= grown.nodes
    requires g < |grown.groups| && grown.groups[g] == memo.groups[g]
    ensures
      var after, left := Apply(memo, r, g, i, t), Left(memo.groups[g], i, t);
      && left <= after.groups[g] && Distinct(after.groups[g][|left|..])
      && MembersAre(after, g, after.groups[g][|left|..], t.newNodes, |memo.nodes|)
  {
    hide AddGroups, Place, Distinct, MembersAre, Without;
    if t.eraseAll {
      PlaceGives(Clear(grown, g), g, t.newNodes, |memo.nodes|);
    } else {
      PlaceGives(grown, g, t.newNodes, |memo.nodes|);
      var placed := Place(grown, g, t.newNodes);
      if t.eraseCurr {
        EraseGives(placed.groups[g], memo.groups[g], i);
      }
      MembersHere(placed, Apply(memo, r, g, i, t), g, placed.groups[g][|memo.groups[g]|..], t.newNodes, |memo.nodes|);
    }
  }

  lemma MembersHere(a: Memo, b: Memo, g: nat, members: seq<nat>, drafts: seq<Draft>, since: nat)
    requires a.nodes == b.nodes && MembersAre(a, g, members, drafts, since)
    ensures MembersAre(b, g, members, drafts, since)
  {
  }

  // ---- What holds at every stage ----

  /** Members belong to their group, and no group holds a node twice. */
  ghost predicate Neat(memo: Memo) {
    Owned(memo) && forall g :: 0 <= g < |memo.groups| ==> Distinct(memo.groups[g])
  }

  lemma WithoutDistinct(members: seq<nat>, i: nat)
    requires Distinct(members) && i < |members|
    ensures Distinct(Without(members, i)) && members[i] !in Without(members, i)
    ensures forall n :: n in Without(members, i) ==> n in members
  {
    var w := Without(members, i);
    assert forall j :: 0 <= j < |w| ==> w[j] == members[if j < i then j else j + 1];
  }

  lemma LeftDistinct(members: seq<nat>, i: nat, t: Transform)
    requires t.Result? && i < |members| && Distinct(members)
    ensures Distinct(Left(members, i, t)) && forall n :: n in Left(members, i, t) ==> n in members
    ensures t.eraseCurr || t.eraseAll ==> members[i] !in Left(members, i, t)
  {
    WithoutDistinct(members, i);
  }

  lemma DistinctConcat(a: seq<nat>, b: seq<nat>, limit: nat)
    requires Distinct(a) && Distinct(b) && (forall n :: n in a ==> n < limit) && (forall n :: n in b ==> n >= limit)
    ensures Distinct(a + b)
  {
    var c := a + b;
    forall i, j | 0 <= i < j < |c| ensures c[i] != c[j] {
      assert i < |a| ==> a[i] in a;
      assert j >= |a| ==> b[j - |a|] in b;
    }
  }

  lemma AppliedHere(before: Memo, after: Memo, g: nat, i: nat, t: Transform)
    requires t.Result? && g < |before.groups| && i < |before.groups[g]|
    requires Neat(before) && Applied(before, after, g, i, t)
    ensures Distinct(after.groups[g])
    ensures forall n :: n in after.groups[g] ==>
      n < |after.nodes| && after.nodes[n].group == g && (n in before.groups[g] || n >= |before.nodes|)
    ensures t.eraseCurr || t.eraseAll ==> before.groups[g][i] !in after.groups[g]
  {
    var members, left := before.groups[g], Left(before.groups[g], i, t);
    var added := after.groups[g][|left|..];
    LeftDistinct(members, i, t);
    assert after.groups[g] == left + added;
    forall n | n in left ensures n < |before.nodes| && before.nodes[n].group == g {
      var j :| 0 <= j < |members| && members[j] == n;
    }
    forall n | n in added ensures |before.nodes| <= n < |after.nodes| && after.nodes[n].group == g {
      var j :| 0 <= j < |added| && added[j] == n;
    }
    DistinctConcat(left, added, |before.nodes|);
    forall n | n in after.groups[g] ensures n in left || n in added {
    }
  }

  lemma AppliedNeat(before: Memo, after: Memo, g: nat, i: nat, t: Transform)
    requires t.Result? && g < |before.groups| && i < |before.groups[g]|
    requires Neat(before) && Applied(before, after, g, i, t)
    ensures Neat(after)
  {
    AppliedHere(before, after, g, i, t);
    forall h | 0 <= h < |after.groups| ensures Distinct(after.groups[h]) && OwnedGroup(after, h) {
      if h != g {
        if h >= |before.groups| {
          assert NewGroup(before, after, h - |before.groups|, t.newGroups[h - |before.groups|]);
        } else {
          assert after.groups[h] == before.groups[h];
        }
      } else {
        forall j | 0 <= j < |after.groups[g]|
          ensures after.groups[g][j] < |after.nodes| && after.nodes[after.groups[g][j]].group == g
        {
          assert after.groups[g][j] in after.groups[g];
        }
      }
    }
    forall h, j | 0 <= h < |after.groups| && 0 <= j < |after.groups[h]|
      ensures after.groups[h][j] < |after.nodes| && after.nodes[after.groups[h][j]].group == h
    {
      assert OwnedGroup(after, h);
    }
  }

  ghost predicate OwnedGroup(memo: Memo, g: nat)
    requires g < |memo.groups|
  {
    forall j :: 0 <= j < |memo.groups[g]| ==>
      memo.groups[g][j] < |memo.nodes| && memo.nodes[memo.groups[g][j]].group == g
  }

  lemma AttemptNeat(rules: seq<Rule>, a: Attempt)
    requires Attempted(rules, a) && Neat(a.before)
    ensures Neat(a.after) && a.before.nodes <= a.after.nodes && |a.before.groups| <= |a.after.groups|
  {
    hide Neat, First;
    if Accepted(rules, a) && Returned(rules, a).Result? {
      AppliedNeat(a.before, a.after, a.group, a.pos, Returned(rules, a));
    } else {
      SameNeat(a.before, a.after);
    }
  }

  lemma SameNeat(a: Memo, b: Memo)
    requires SameNodes(a, b) && Neat(a)
    ensures Neat(b)
  {
  }

  lemma {:induction false} StageNeat(rules: seq<Rule>, start: Memo, tried: seq<(nat, nat)>, log: seq<Attempt>,
                                     memo: Memo, k: nat)
    requires Logged(rules, start, tried, log, memo) && Neat(start) && k <= |log|
    ensures Neat(Stage(start, log, k))
    decreases k
  {
    hide Neat, Attempted;
    if k > 0 {
      StageNeat(rules, start, tried, log, memo, k - 1);
      assert Entry(rules, start, tried, log, k - 1);
      SameNeat(Stage(start, log, k - 1), log[k - 1].before);
      AttemptNeat(rules, log[k - 1]);
    }
  }

  /** A node that is in no group of its own stays out. */
  lemma AttemptStaysOut(rules: seq<Rule>, a: Attempt, n: nat, g: nat)
    requires Attempted(rules, a) && Neat(a.before) && n < |a.before.nodes| && g < |a.before.groups|
    requires n !in a.before.groups[g]
    ensures n < |a.after.nodes| && g < |a.after.groups| && n !in a.after.groups[g]
    ensures a.after.nodes[n] == a.before.nodes[n]
  {
    hide Neat, First;
    AttemptNeat(rules, a);
    if Accepted(rules, a) && Returned(rules, a).Result? && g == a.group {
      AppliedHere(a.before, a.after, a.group, a.pos, Returned(rules, a));
    }
  }

  lemma {:induction false} StaysOut(rules: seq<Rule>, start: Memo, tried: seq<(nat, nat)>, log: seq<Attempt>,
                                    memo: Memo, j: nat, k: nat, n: nat, g: nat)
    requires Logged(rules, start, tried, log, memo) && Neat(start) && j <= k <= |log|
    requires
      var early := Stage(start, log, j);
      n < |early.nodes| && g < |early.groups| && n !in early.groups[g]
    ensures
      var early, late := Stage(start, log, j), Stage(start, log, k);
      n < |late.nodes| && g < |late.groups| && n !in late.groups[g] && late.nodes[n] == early.nodes[n]
    decreases k
  {
    hide Neat, Attempted;
    if j < k {
      StaysOut(rules, start, tried, log, memo, j, k - 1, n, g);
      assert Entry(rules, start, tried, log, k - 1);
      StageNeat(rules, start, tried, log, memo, k - 1);
      SameNeat(Stage(start, log, k - 1), log[k - 1].before);
      AttemptStaysOut(rules, log[k - 1], n, g);
    }
  }

  /** A rule for single nodes of a kind that accepts every match and replaces the node. */
  ghost predicate Replacing(rule: Rule) {
    && rule.pattern.deps == []
    && forall memo: Memo, m: Match :: Embeds(memo, rule.pattern, m.node, m) ==>
      rule.accepts(memo, m) && rule.transform(memo, m).Result? && rule.transform(memo, m).eraseCurr
  }

  lemma LeafMatches(memo: Memo, p: Pattern, n: nat)
    requires p.deps == [] && n < |memo.nodes| && memo.nodes[n].draft.op.kind == p.kind
    ensures Matches(memo, p, n)
  {
    assert Embeds(memo, p, n, Match(n, []));
  }

  /** Trying such a rule on a node of its kind takes the node out of its group. */
  lemma ReplacedNow(rules: seq<Rule>, a: Attempt)
    requires Attempted(rules, a) && Neat(a.before) && Replacing(rules[a.rule]) && NodeOf(a) < |a.before.nodes|
    requires a.before.nodes[NodeOf(a)].draft.op.kind == rules[a.rule].pattern.kind
    ensures NodeOf(a) < |a.after.nodes| && a.group < |a.after.groups| && NodeOf(a) !in a.after.groups[a.group]
    ensures a.after.nodes[NodeOf(a)] == a.before.nodes[NodeOf(a)]
  {
    hide Neat;
    LeafMatches(a.before, rules[a.rule].pattern, NodeOf(a));
    assert a.matched.Some? && Embeds(a.before, rules[a.rule].pattern, a.matched.value.node, a.matched.value);
    AttemptNeat(rules, a);
    AppliedHere(a.before, a.after, a.group, a.pos, Returned(rules, a));
  }

  /** No member of a group has the kind of such a rule once the rule has been tried on it. */
  lemma NoneLeft(rules: seq<Rule>, start: Memo, tried: seq<(nat, nat)>, log: seq<Attempt>, memo: Memo, r: nat, g: nat,
                 n: nat)
    requires Logged(rules, start, tried, log, memo) && Neat(start) && r < |rules| && Replacing(rules[r])
    requires g < |memo.groups| && n in memo.groups[g] && (r, n) in tried
    ensures n < |memo.nodes| && memo.nodes[n].draft.op.kind != rules[r].pattern.kind
  {
    hide Neat, Attempted, Replacing;
    StageNeat(rules, start, tried, log, memo, |log|);
    SameNeat(Stage(start, log, |log|), memo);
    MemberOwned(memo, g, n);
    var k :| 0 <= k < |tried| && tried[k] == (r, n);
    var a := log[k];
    assert Entry(rules, start, tried, log, k);
    StageNeat(rules, start, tried, log, memo, k);
    SameNeat(Stage(start, log, k), a.before);
    AttemptOwned(rules, a);
    NodesKept(rules, start, tried, log, memo, k, |log|);
    assert a.group == g;
    if a.before.nodes[n].draft.op.kind == rules[r].pattern.kind {
      ReplacedNow(rules, a);
      StaysOut(rules, start, tried, log, memo, k + 1, |log|, n, g);
      assert false;
    }
  }

  lemma MemberOwned(memo: Memo, g: nat, n: nat)
    requires Neat(memo) && g < |memo.groups| && n in memo.groups[g]
    ensures n < |memo.nodes| && memo.nodes[n].group == g
  {
  }

  lemma AttemptOwned(rules: seq<Rule>, a: Attempt)
    requires Attempted(rules, a) && Neat(a.before)
    ensures Located(a) && NodeOf(a) < |a.before.nodes| && a.before.nodes[NodeOf(a)].group == a.group
  {
  }

  lemma {:induction false} NodesKept(rules: seq<Rule>, start: Memo, tried: seq<(nat, nat)>, log: seq<Attempt>,
                                     memo: Memo, j: nat, k: nat)
    requires Logged(rules, start, tried, log, memo) && Neat(start) && j <= k <= |log|
    ensures Stage(start, log, j).nodes <= Stage(start, log, k).nodes
    decreases k
  {
    hide Neat, Attempted;
    if j < k {
      NodesKept(rules, start, tried, log, memo, j, k - 1);
      assert Entry(rules, start, tried, log, k - 1);
      StageNeat(rules, start, tried, log, memo, k - 1);
      SameNeat(Stage(start, log, k - 1), log[k - 1].before);
      AttemptNeat(rules, log[k - 1]);
    }
  }
}
