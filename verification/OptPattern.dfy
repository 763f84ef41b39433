/** The search for a match of a rule's pattern. */
module OptPattern {
  import opened Wrappers
  import opened OptMemo
  import opened OptRules

  function Members(memo: Memo, g: nat): seq<nat> {
    if g < |memo.groups| then memo.groups[g] else []
  }

  ghost predicate Matches(memo: Memo, p: Pattern, n: nat) {
    exists m :: Embeds(memo, p, n, m)
  }

  /** The match takes, in every dependency group, the first member that matches. */
  ghost predicate First(memo: Memo, p: Pattern, n: nat, m: Match)
    decreases p
  {
    && Embeds(memo, p, n, m)
    && forall i :: 0 <= i < |p.deps| ==>
      && FirstMember(memo, p.deps[i], memo.nodes[n].draft.deps[i], m.deps[i].node)
      && First(memo, p.deps[i], m.deps[i].node, m.deps[i])
  }

  ghost predicate FirstMember(memo: Memo, p: Pattern, g: nat, n: nat) {
    exists at: nat :: at < |Members(memo, g)| && Members(memo, g)[at] == n && NoneBefore(memo, p, g, at)
  }

  ghost predicate NoneBefore(memo: Memo, p: Pattern, g: nat, at: nat) {
    at <= |Members(memo, g)| && forall j :: 0 <= j < at ==> !Matches(memo, p, Members(memo, g)[j])
  }

  lemma FirstMemberUnique(memo: Memo, p: Pattern, g: nat, a: nat, b: nat)
    requires FirstMember(memo, p, g, a) && FirstMember(memo, p, g, b) && Matches(memo, p, a) && Matches(memo, p, b)
    ensures a == b
  {
    var i: nat :| i < |Members(memo, g)| && Members(memo, g)[i] == a && NoneBefore(memo, p, g, i);
    var j: nat :| j < |Members(memo, g)| && Members(memo, g)[j] == b && NoneBefore(memo, p, g, j);
    assert i <= j && j <= i;
  }

  /** There is at most one such match. */
  lemma {:induction false} FirstUnique(memo: Memo, p: Pattern, n: nat, a: Match, b: Match)
    requires First(memo, p, n, a) && First(memo, p, n, b)
    ensures a == b
    decreases p
  {
    assert |a.deps| == |b.deps| == |p.deps|;
    forall i | 0 <= i < |p.deps| ensures a.deps[i] == b.deps[i] {
      FirstMemberUnique(memo, p.deps[i], memo.nodes[n].draft.deps[i], a.deps[i].node, b.deps[i].node);
      FirstUnique(memo, p.deps[i], a.deps[i].node, a.deps[i], b.deps[i]);
    }
  }

  /** Finds the first match, exactly when there is one. */
  method MatchNode(memo: Memo, p: Pattern, n: nat) returns (r: Option<Match>)
    ensures r.Some? ==> First(memo, p, n, r.value)
    ensures r.None? ==> !Matches(memo, p, n)
    decreases p, 0
  {
    if n >= |memo.nodes| || memo.nodes[n].draft.op.kind != p.kind {
      return None;
    }
    if p.deps == [] {
      r := Some(Match(n, []));
      assert Embeds(memo, p, n, r.value);
      return;
    }
    var deps := memo.nodes[n].draft.deps;
    if |deps| != |p.deps| {
      return None;
    }
    var found: seq<Match> := [];
    for i := 0 to |p.deps|
      invariant |found| == i
      invariant forall j :: 0 <= j < i ==>
        && InGroup(memo, deps[j], found[j].node)
        && FirstMember(memo, p.deps[j], deps[j], found[j].node) && First(memo, p.deps[j], found[j].node, found[j])
    {
      var status, at := MatchGroup(memo, p.deps[i], deps[i]);
      if status.None? {
        forall m ensures !Embeds(memo, p, n, m) {
          if Embeds(memo, p, n, m) {
            assert InGroup(memo, deps[i], m.deps[i].node) && Embeds(memo, p.deps[i], m.deps[i].node, m.deps[i]);
            assert Matches(memo, p.deps[i], m.deps[i].node);
          }
        }
        return None;
      }
      found := found + [status.value];
    }
    r := Some(Match(n, found));
  }

  /** The first member of the group that matches, if any does. */
  method MatchGroup(memo: Memo, p: Pattern, g: nat) returns (r: Option<Match>, at: nat)
    ensures r.Some? ==> at < |Members(memo, g)| && Members(memo, g)[at] == r.value.node
    ensures r.Some? ==> First(memo, p, r.value.node, r.value)
    ensures NoneBefore(memo, p, g, at)
    ensures r.None? ==> forall n :: InGroup(memo, g, n) ==> !Matches(memo, p, n)
    decreases p, 1
  {
    var members := Members(memo, g);
    for i := 0 to |members|
      invariant forall j :: 0 <= j < i ==> !Matches(memo, p, members[j])
    {
      r := MatchNode(memo, p, members[i]);
      if r.Some? {
        return r, i;
      }
    }
    return None, |members|;
  }
}
