/** Explored marks: what exploring one rule changes and what it leaves settled. */
module OptMarks {
  import opened OptMemo
  import opened OptRules

  /** Only existing nodes and groups are marked. */
  predicate MarksExist(memo: Memo) {
    && (forall x :: x in memo.nodeMarks ==> x.1 < |memo.nodes|)
    && (forall x :: x in memo.groupMarks ==> x.1 < |memo.groups|)
  }

  // ---- Paths of groups under exploration ----

  predicate Path(memo: Memo, stack: seq<nat>) {
    && (forall k :: 0 <= k < |stack| ==> stack[k] < |memo.groups|)
    && (forall k :: 0 < k < |stack| ==> Edge(memo, stack[k - 1], stack[k]))
  }

  lemma {:induction false} PathDescends(memo: Memo, rank: nat -> nat, stack: seq<nat>, i: nat, j: nat)
    requires Ranked(memo, rank) && Path(memo, stack) && i < j < |stack|
    ensures rank(stack[j]) < rank(stack[i])
    decreases j
  {
    assert Edge(memo, stack[j - 1], stack[j]);
    if i < j - 1 {
      PathDescends(memo, rank, stack, i, j - 1);
    }
  }

  /** A group below the path is not on it. */
  lemma PathSimple(memo: Memo, stack: seq<nat>, g: nat)
    requires Acyclic(memo) && Path(memo, stack + [g])
    ensures g !in stack
  {
    var rank :| Ranked(memo, rank);
    forall i | 0 <= i < |stack| ensures stack[i] != g {
      PathDescends(memo, rank, stack + [g], i, |stack|);
      assert (stack + [g])[i] == stack[i] && (stack + [g])[|stack|] == g;
    }
  }

  lemma PathKept(before: Memo, after: Memo, stack: seq<nat>)
    requires Path(before, stack) && before.nodes <= after.nodes && |before.groups| <= |after.groups|
    requires forall k :: 0 <= k < |stack| - 1 ==> after.groups[stack[k]] == before.groups[stack[k]]
    ensures Path(after, stack)
  {
    forall k | 0 < k < |stack| ensures Edge(after, stack[k - 1], stack[k]) {
      assert Edge(before, stack[k - 1], stack[k]);
      var i :| 0 <= i < |before.groups[stack[k - 1]]| && Child(before, before.groups[stack[k - 1]][i], stack[k]);
      assert after.groups[stack[k - 1]] == before.groups[stack[k - 1]];
      assert Child(after, after.groups[stack[k - 1]][i], stack[k]);
    }
  }

  lemma PathBelow(memo: Memo, stack: seq<nat>, n: nat, h: nat)
    requires Path(memo, stack) && |stack| > 0 && h < |memo.groups|
    requires n in memo.groups[stack[|stack| - 1]] && Child(memo, n, h)
    ensures Path(memo, stack + [h])
  {
    var g := stack[|stack| - 1];
    var i :| 0 <= i < |memo.groups[g]| && memo.groups[g][i] == n;
    assert Child(memo, memo.groups[g][i], h);
  }

  // ---- What exploring changes ----

  /** Nothing is lost, the groups in `busy` are left alone, and other rules keep their marks. */
  ghost predicate Grown(before: Memo, after: Memo, r: nat, busy: seq<nat>) {
    && before.nodes <= after.nodes
    && |before.groups| <= |after.groups|
    && (forall s :: s in busy && s < |before.groups| ==> after.groups[s] == before.groups[s])
    && before.nodeMarks <= after.nodeMarks
    && before.groupMarks <= after.groupMarks
    && (forall x :: x in after.nodeMarks && x !in before.nodeMarks ==>
          x.0 == r && x.1 < |after.nodes| && after.nodes[x.1].group !in busy)
    && (forall x :: x in after.groupMarks && x !in before.groupMarks ==> x.0 == r)
  }

  lemma GrownTransitive(a: Memo, b: Memo, c: Memo, r: nat, busy: seq<nat>)
    requires Grown(a, b, r, busy) && Grown(b, c, r, busy)
    ensures Grown(a, c, r, busy)
  {
  }

  // ---- What exploring settles ----

  predicate AllMarked(memo: Memo, r: nat, g: nat)
    requires g < |memo.groups|
  {
    forall i :: 0 <= i < |memo.groups[g]| ==> (r, memo.groups[g][i]) in memo.nodeMarks
  }

  /** If the node is marked then each group below it is marked or under exploration. */
  predicate ChildrenMarked(memo: Memo, r: nat, n: nat, busy: seq<nat>) {
    n < |memo.nodes| && (r, n) in memo.nodeMarks ==>
      forall h :: h in Children(memo.nodes[n].draft) ==> (r, h) in memo.groupMarks || h in busy
  }

  predicate BelowMarked(memo: Memo, r: nat, g: nat, busy: seq<nat>)
    requires g < |memo.groups|
  {
    forall i :: 0 <= i < |memo.groups[g]| ==> ChildrenMarked(memo, r, memo.groups[g][i], busy)
  }

  predicate GroupSettled(memo: Memo, r: nat, g: nat, busy: seq<nat>)
    requires g < |memo.groups|
  {
    && ((r, g) in memo.groupMarks ==> AllMarked(memo, r, g))
    && BelowMarked(memo, r, g, busy)
  }

  /** Every group that is not under exploration is settled. */
  predicate Settled(memo: Memo, r: nat, busy: seq<nat>) {
    forall g :: 0 <= g < |memo.groups| && g !in busy ==> GroupSettled(memo, r, g, busy)
  }

  ghost predicate Gentle(rule: Rule) {
    forall memo, m :: rule.transform(memo, m).Result? ==> !rule.transform(memo, m).eraseAll
  }

  ghost predicate Owned(memo: Memo) {
    forall g, i :: 0 <= g < |memo.groups| && 0 <= i < |memo.groups[g]| ==>
      memo.groups[g][i] < |memo.nodes| && memo.nodes[memo.groups[g][i]].group == g
  }

  lemma ConsistentOwned<M>(memo: Memo, sem: Meaning<M>, mu: seq<M>)
    requires Consistent(memo, sem, mu)
    ensures Owned(memo)
  {
    forall g, i | 0 <= g < |memo.groups| && 0 <= i < |memo.groups[g]|
      ensures memo.groups[g][i] < |memo.nodes| && memo.nodes[memo.groups[g][i]].group == g
    {
      assert GroupOk(memo, sem, mu, g);
      assert MemberOk(memo, sem, mu, g, memo.groups[g][i]);
    }
  }

  /** Starting on a group asks less of it. */
  lemma BusierSettled(memo: Memo, r: nat, busy: seq<nat>, g: nat)
    requires Settled(memo, r, busy)
    ensures Settled(memo, r, busy + [g])
    ensures g < |memo.groups| && g !in busy ==> BelowMarked(memo, r, g, busy + [g])
  {
    forall h | 0 <= h < |memo.groups| && h !in busy
      ensures BelowMarked(memo, r, h, busy + [g]) && ((r, h) in memo.groupMarks ==> AllMarked(memo, r, h))
    {
      assert GroupSettled(memo, r, h, busy);
      forall i | 0 <= i < |memo.groups[h]| ensures ChildrenMarked(memo, r, memo.groups[h][i], busy + [g]) {
        assert ChildrenMarked(memo, r, memo.groups[h][i], busy);
      }
    }
    forall h | 0 <= h < |memo.groups| && h !in busy + [g] ensures GroupSettled(memo, r, h, busy + [g]) {
      assert h !in busy;
    }
  }

  /** A group that is marked with all its nodes is done. */
  lemma DoneSettled(memo: Memo, r: nat, busy: seq<nat>, g: nat)
    requires Settled(memo, r, busy + [g]) && g < |memo.groups|
    requires (r, g) in memo.groupMarks && AllMarked(memo, r, g) && BelowMarked(memo, r, g, busy + [g])
    ensures Settled(memo, r, busy)
  {
    forall h | 0 <= h < |memo.groups| && h !in busy ensures GroupSettled(memo, r, h, busy) {
      assert h != g ==> GroupSettled(memo, r, h, busy + [g]);
      forall i | 0 <= i < |memo.groups[h]| ensures ChildrenMarked(memo, r, memo.groups[h][i], busy) {
        assert ChildrenMarked(memo, r, memo.groups[h][i], busy + [g]);
      }
    }
  }

  /** Marking a node of a group under exploration disturbs no other group. */
  lemma MarkNodeSettled(memo: Memo, r: nat, busy: seq<nat>, n: nat)
    requires Settled(memo, r, busy) && Owned(memo) && n < |memo.nodes| && memo.nodes[n].group in busy
    ensures Settled(memo.(nodeMarks := memo.nodeMarks + {(r, n)}), r, busy)
  {
    var after := memo.(nodeMarks := memo.nodeMarks + {(r, n)});
    forall g | 0 <= g < |memo.groups| && g !in busy ensures GroupSettled(after, r, g, busy) {
      assert GroupSettled(memo, r, g, busy);
      forall i | 0 <= i < |memo.groups[g]| ensures ChildrenMarked(after, r, after.groups[g][i], busy) {
        assert ChildrenMarked(memo, r, memo.groups[g][i], busy);
      }
    }
  }

  /** Marking or unmarking a group under exploration disturbs no group. */
  lemma MarkGroupSettled(memo: Memo, after: Memo, r: nat, busy: seq<nat>, g: nat)
    requires Settled(memo, r, busy) && g in busy
    requires after == memo.(groupMarks := after.groupMarks)
    requires forall h :: h != g ==> ((r, h) in after.groupMarks <==> (r, h) in memo.groupMarks)
    ensures Settled(after, r, busy)
  {
    forall h | 0 <= h < |memo.groups| && h !in busy ensures GroupSettled(after, r, h, busy) {
      assert GroupSettled(memo, r, h, busy);
      forall i | 0 <= i < |memo.groups[h]| ensures ChildrenMarked(after, r, after.groups[h][i], busy) {
        assert ChildrenMarked(memo, r, memo.groups[h][i], busy);
      }
    }
  }

  /** What exploring below `g` leaves true of the members of `g`. */
  lemma BelowKept(before: Memo, after: Memo, r: nat, g: nat, busy: seq<nat>, n: nat)
    requires Grown(before, after, r, busy) && g in busy && n < |before.nodes| && before.nodes[n].group == g
    requires ChildrenMarked(before, r, n, busy)
    ensures ChildrenMarked(after, r, n, busy)
  {
  }

  // ---- Applying a transform ----

  lemma {:induction false} AddGroupsExtends(memo: Memo, groups: seq<seq<Draft>>)
    ensures
      var after := AddGroups(memo, groups);
      && memo.nodes <= after.nodes && memo.groups <= after.groups
      && after.nodeMarks == memo.nodeMarks && after.groupMarks == memo.groupMarks
    ensures forall g, i ::
      |memo.groups| <= g < |AddGroups(memo, groups).groups| && 0 <= i < |AddGroups(memo, groups).groups[g]| ==>
      AddGroups(memo, groups).groups[g][i] >= |memo.nodes|
    decreases |groups|
  {
    if groups != [] {
      AddGroupsExtends(Place(Open(memo), |memo.groups|, groups[0]), groups[1..]);
    }
  }

  /** The members of the other groups stay, new groups hold new nodes, and marks stay but for (r, g). */
  lemma ApplyElsewhere(memo: Memo, r: nat, g: nat, i: nat, t: Transform)
    requires t.Result? && g < |memo.groups| && i < |memo.groups[g]|
    ensures
      var after := Apply(memo, r, g, i, t);
      && memo.nodes <= after.nodes && |memo.groups| <= |after.groups|
      && after.nodeMarks == memo.nodeMarks
      && after.groupMarks == (if t.newNodes != [] && !t.eraseAll then memo.groupMarks - {(r, g)} else memo.groupMarks)
      && (forall h :: 0 <= h < |memo.groups| && h != g ==> after.groups[h] == memo.groups[h])
      && (forall h, j :: |memo.groups| <= h < |after.groups| && 0 <= j < |after.groups[h]| ==>
        after.groups[h][j] >= |memo.nodes|)
  {
    AddGroupsExtends(memo, t.newGroups);
    AddGroupsAt(memo, t.newGroups, g);
  }

  /** In the explored group, members up to the current one stay in front and new ones come last. */
  lemma ApplyHere(memo: Memo, r: nat, g: nat, i: nat, t: Transform)
    requires t.Result? && !t.eraseAll && g < |memo.groups| && i < |memo.groups[g]|
    ensures
      var here, after := memo.groups[g], Apply(memo, r, g, i, t).groups[g];
      var kept := if t.eraseCurr then Without(here, i) else here;
      && |after| == |kept| + |t.newNodes|
      && (forall j :: 0 <= j < |kept| ==> after[j] == kept[j])
      && (forall j :: |kept| <= j < |after| ==> after[j] >= |memo.nodes|)
  {
    AddGroupsExtends(memo, t.newGroups);
    AddGroupsAt(memo, t.newGroups, g);
  }

  lemma ApplySettled(memo: Memo, r: nat, g: nat, i: nat, t: Transform, busy: seq<nat>)
    requires t.Result? && g < |memo.groups| && i < |memo.groups[g]|
    requires Settled(memo, r, busy) && g in busy && MarksExist(memo)
    ensures Settled(Apply(memo, r, g, i, t), r, busy)
  {
    var after := Apply(memo, r, g, i, t);
    ApplyElsewhere(memo, r, g, i, t);
    forall h | 0 <= h < |after.groups| && h !in busy ensures GroupSettled(after, r, h, busy) {
      if h < |memo.groups| {
        assert GroupSettled(memo, r, h, busy);
        forall j | 0 <= j < |after.groups[h]| ensures ChildrenMarked(after, r, after.groups[h][j], busy) {
          assert ChildrenMarked(memo, r, memo.groups[h][j], busy);
        }
      }
    }
  }

  /** The members of the explored group: those up to `upto` are marked, and every marked one is settled below. */
  predicate Explored(memo: Memo, r: nat, g: nat, upto: nat, busy: seq<nat>)
    requires g < |memo.groups|
  {
    && upto <= |memo.groups[g]|
    && (forall j :: 0 <= j < upto ==> (r, memo.groups[g][j]) in memo.nodeMarks)
    && BelowMarked(memo, r, g, busy)
  }

  lemma ApplyExplored(memo: Memo, r: nat, g: nat, i: nat, t: Transform, busy: seq<nat>)
    requires t.Result? && !t.eraseAll && g < |memo.groups| && i < |memo.groups[g]|
    requires Explored(memo, r, g, i + 1, busy) && g in busy && MarksExist(memo)
    ensures Explored(Apply(memo, r, g, i, t), r, g, if t.eraseCurr then i else i + 1, busy)
  {
    var after := Apply(memo, r, g, i, t);
    ApplyElsewhere(memo, r, g, i, t);
    ApplyHere(memo, r, g, i, t);
    var kept := if t.eraseCurr then Without(memo.groups[g], i) else memo.groups[g];
    forall j | 0 <= j < |after.groups[g]| ensures ChildrenMarked(after, r, after.groups[g][j], busy) {
      if j < |kept| {
        var k := if t.eraseCurr && j >= i then j + 1 else j;
        assert kept[j] == memo.groups[g][k];
        assert ChildrenMarked(memo, r, memo.groups[g][k], busy);
      }
    }
  }

  // ---- Steps of exploration ----

  /** Marks have no meaning. */
  lemma MarksMeanNothing<M>(before: Memo, after: Memo, sem: Meaning<M>, mu: seq<M>)
    requires Valid(before, sem, mu) && after.nodes == before.nodes && after.groups == before.groups
    ensures Valid(after, sem, mu)
  {
    forall g | 0 <= g < |mu| ensures GroupOk(after, sem, mu, g) {
      assert GroupOk(before, sem, mu, g);
      forall i | 0 <= i < |after.groups[g]| ensures MemberOk(after, sem, mu, g, after.groups[g][i]) {
        assert MemberOk(before, sem, mu, g, before.groups[g][i]);
      }
    }
    assert Acyclic(before);
    var rank: nat -> nat :| Ranked(before, rank);
    forall g: nat, h: nat | Edge(after, g, h) ensures rank(h) < rank(g) {
      var i :| 0 <= i < |after.groups[g]| && Child(after, after.groups[g][i], h);
      assert Child(before, before.groups[g][i], h);
      assert Edge(before, g, h);
    }
    assert Ranked(after, rank);
  }

  lemma MarkGroupExplored(before: Memo, after: Memo, r: nat, g: nat, busy: seq<nat>)
    requires g < |before.groups| && BelowMarked(before, r, g, busy)
    requires after == before.(groupMarks := before.groupMarks + {(r, g)})
    ensures Explored(after, r, g, 0, busy)
  {
    forall i | 0 <= i < |before.groups[g]| ensures ChildrenMarked(after, r, after.groups[g][i], busy) {
      assert ChildrenMarked(before, r, before.groups[g][i], busy);
    }
  }

  function MarkGroup(memo: Memo, r: nat, g: nat): Memo {
    memo.(groupMarks := memo.groupMarks + {(r, g)})
  }

  function MarkNode(memo: Memo, r: nat, n: nat): Memo {
    memo.(nodeMarks := memo.nodeMarks + {(r, n)})
  }

  /** Once the groups below member `i` are explored, one more member is. */
  lemma MemberExplored(before: Memo, after: Memo, r: nat, g: nat, i: nat, busy: seq<nat>)
    requires g < |before.groups| && i < |before.groups[g]| && Explored(before, r, g, i, busy)
    requires g in busy && Owned(before) && Grown(MarkNode(before, r, before.groups[g][i]), after, r, busy)
    requires ChildrenMarked(after, r, before.groups[g][i], busy)
    ensures Explored(after, r, g, i + 1, busy)
  {
    forall j | 0 <= j < |after.groups[g]| ensures ChildrenMarked(after, r, after.groups[g][j], busy) {
      var n := before.groups[g][j];
      if n != before.groups[g][i] {
        assert ChildrenMarked(before, r, n, busy);
        BelowKept(MarkNode(before, r, before.groups[g][i]), after, r, g, busy, n);
      }
    }
  }

  lemma MemberGrown(start: Memo, before: Memo, after: Memo, r: nat, g: nat, n: nat, stack: seq<nat>)
    requires Grown(start, before, r, stack) && n < |before.nodes| && before.nodes[n].group == g && g !in stack
    requires Grown(MarkNode(before, r, n), after, r, stack + [g])
    ensures Grown(start, after, r, stack)
  {
    assert forall s :: s in stack ==> s in stack + [g];
  }

  // ---- What is settled below a group ----

  ghost predicate Reaches(memo: Memo, g: nat, h: nat, steps: nat)
    decreases steps
  {
    if steps == 0 then g == h else exists k :: Edge(memo, g, k) && Reaches(memo, k, h, steps - 1)
  }

  /** When nothing is under exploration, a marked group has everything below it explored. */
  lemma {:induction false} SettledBelow(memo: Memo, r: nat, g: nat, h: nat, steps: nat)
    requires Settled(memo, r, []) && MarksExist(memo) && g < |memo.groups| && (r, g) in memo.groupMarks &&
      Reaches(memo, g, h, steps)
    ensures h < |memo.groups| && (r, h) in memo.groupMarks && AllMarked(memo, r, h)
    decreases steps
  {
    assert GroupSettled(memo, r, g, []);
    if steps > 0 {
      var k :| Edge(memo, g, k) && Reaches(memo, k, h, steps - 1);
      var i :| 0 <= i < |memo.groups[g]| && Child(memo, memo.groups[g][i], k);
      assert ChildrenMarked(memo, r, memo.groups[g][i], []);
      SettledBelow(memo, r, k, h, steps - 1);
    }
  }
}

/** Counting nodes by group: a bound on how long one pass can take. */
module OptCount {
  import opened OptMemo
  import opened OptRules
  import opened OptMarks

  /** How many nodes were ever created for the groups of `stack`. */
  function Count(nodes: seq<GroupNode>, stack: seq<nat>): (k: nat)
    ensures k <= |nodes|
  {
    if nodes == [] then 0
    else Count(nodes[..|nodes| - 1], stack) + if nodes[|nodes| - 1].group in stack then 1 else 0
  }

  lemma {:induction false} CountConcat(a: seq<GroupNode>, b: seq<GroupNode>, stack: seq<nat>)
    ensures Count(a + b, stack) == Count(a, stack) + Count(b, stack)
    decreases |b|
  {
    if b == [] {
      assert a + b == a;
    } else {
      assert (a + b)[..|a + b| - 1] == a + b[..|b| - 1];
      CountConcat(a, b[..|b| - 1], stack);
    }
  }

  lemma CountGrows(a: seq<GroupNode>, b: seq<GroupNode>, stack: seq<nat>)
    requires a <= b
    ensures Count(a, stack) <= Count(b, stack)
  {
    assert b == a + b[|a|..];
    CountConcat(a, b[|a|..], stack);
  }

  lemma {:induction false} CountPush(nodes: seq<GroupNode>, stack: seq<nat>, g: nat)
    requires g !in stack
    ensures Count(nodes, stack + [g]) == Count(nodes, stack) + Count(nodes, [g])
    decreases |nodes|
  {
    if nodes != [] {
      CountPush(nodes[..|nodes| - 1], stack, g);
    }
  }

  lemma {:induction false} CountAll(nodes: seq<GroupNode>, g: nat)
    requires forall i :: 0 <= i < |nodes| ==> nodes[i].group == g
    ensures Count(nodes, [g]) == |nodes|
    decreases |nodes|
  {
    if nodes != [] {
      CountAll(nodes[..|nodes| - 1], g);
    }
  }

  /** No group holds more nodes than were created for it. */
  predicate Counted(memo: Memo) {
    forall g :: 0 <= g < |memo.groups| ==> |memo.groups[g]| <= Count(memo.nodes, [g])
  }

  lemma PlaceCounted(memo: Memo, g: nat, drafts: seq<Draft>)
    requires Counted(memo) && g < |memo.groups|
    ensures Counted(Place(memo, g, drafts))
    ensures Count(Place(memo, g, drafts).nodes, [g]) == Count(memo.nodes, [g]) + |drafts|
  {
    var after := Place(memo, g, drafts);
    var created := after.nodes[|memo.nodes|..];
    assert after.nodes == memo.nodes + created;
    CountConcat(memo.nodes, created, [g]);
    CountAll(created, g);
    forall h | 0 <= h < |after.groups| ensures |after.groups[h]| <= Count(after.nodes, [h]) {
      if h != g {
        CountGrows(memo.nodes, after.nodes, [h]);
      }
    }
  }

  lemma {:induction false} AddGroupsCounted(memo: Memo, groups: seq<seq<Draft>>)
    requires Counted(memo)
    ensures Counted(AddGroups(memo, groups))
    decreases |groups|
  {
    if groups != [] {
      PlaceCounted(Open(memo), |memo.groups|, groups[0]);
      AddGroupsCounted(Place(Open(memo), |memo.groups|, groups[0]), groups[1..]);
    }
  }

  lemma ApplyCounted(memo: Memo, r: nat, g: nat, i: nat, t: Transform)
    requires Counted(memo) && t.Result? && g < |memo.groups| && i < |memo.groups[g]|
    ensures Counted(Apply(memo, r, g, i, t))
    ensures Count(Apply(memo, r, g, i, t).nodes, [g]) >= Count(memo.nodes, [g]) + |t.newNodes|
  {
    var grown := AddGroups(memo, t.newGroups);
    AddGroupsCounted(memo, t.newGroups);
    AddGroupsExtends(memo, t.newGroups);
    AddGroupsAt(memo, t.newGroups, g);
    CountGrows(memo.nodes, grown.nodes, [g]);
    if t.eraseAll {
      PlaceCounted(Clear(grown, g), g, t.newNodes);
    } else {
      PlaceCounted(grown, g, t.newNodes);
    }
  }

  /** What a pass has left to visit, plus what it has visited, was created for the group. */
  lemma ApplyLeft(memo: Memo, r: nat, g: nat, i: nat, t: Transform)
    requires Counted(memo) && t.Result? && !t.eraseAll && g < |memo.groups| && i < |memo.groups[g]|
    ensures
      var after, next := Apply(memo, r, g, i, t), if t.eraseCurr then i else i + 1;
      |after.groups[g]| - next + 1 + Count(memo.nodes, [g]) <= |memo.groups[g]| - i + Count(after.nodes, [g])
  {
    ApplyCounted(memo, r, g, i, t);
    ApplyHere(memo, r, g, i, t);
  }
}
