/** Exploration: applying the rules to the memo, group by group. */
module OptExplore {
  import opened Wrappers
  import opened OptMemo
  import opened OptRules
  import opened OptMarks
  import opened OptPattern
  import opened OptLog
  import opened OptCount

  const MAX_EXPLORATION_ROUND := 128

  /** A rule may add nodes forever, so every run is cut off after `fuel` visits; a run that
      is cut off returns OutOfFuel. All statements are for every fuel. */
  datatype Status = Done | Failed | OutOfFuel

  /** No rule tried a node twice, and the tried nodes are marked. */
  ghost predicate TriedOnce(tried: seq<(nat, nat)>, memo: Memo) {
    && (forall i :: 0 <= i < |tried| ==> tried[i] in memo.nodeMarks)
    && (forall i, j :: 0 <= i < j < |tried| ==> tried[i] != tried[j])
  }

  /** What was tried since was unmarked then. */
  ghost predicate TriedSince(was: seq<(nat, nat)>, marks: set<(nat, nat)>, tried: seq<(nat, nat)>) {
    was <= tried && forall k :: |was| <= k < |tried| ==> tried[k] !in marks
  }

  lemma TriedSinceThen(a: seq<(nat, nat)>, b: seq<(nat, nat)>, c: seq<(nat, nat)>, early: set<(nat, nat)>,
                       late: set<(nat, nat)>)
    requires TriedSince(a, early, b) && TriedSince(b, late, c) && early <= late
    ensures TriedSince(a, early, c)
  {
  }

  lemma TriedPrefix(was: seq<(nat, nat)>, marks: set<(nat, nat)>, tried: seq<(nat, nat)>)
    requires TriedSince(was, marks, tried)
    ensures was <= tried
  {
  }

  lemma TriedNothing(tried: seq<(nat, nat)>, marks: set<(nat, nat)>)
    ensures TriedSince(tried, marks, tried)
  {
  }

  lemma TriedOneMore(was: seq<(nat, nat)>, tried: seq<(nat, nat)>, before: Memo, r: nat, n: nat)
    requires TriedSince(was, MarkNode(before, r, n).nodeMarks, tried) && (r, n) !in before.nodeMarks
    ensures TriedSince(was, before.nodeMarks, tried + [(r, n)])
  {
  }

  ghost predicate AllSound<M(!new)>(sem: Meaning<M>, rules: seq<Rule>) {
    forall r :: 0 <= r < |rules| ==> Sound(sem, r, rules[r])
  }

  /** The attempt is at this place and accounts for this change. */
  predicate Tries(a: Attempt, r: nat, g: nat, i: nat, before: Memo, after: Memo) {
    a.rule == r && a.group == g && a.pos == i && a.before == before && a.after == after
  }

  /** Some rule can report an error. */
  ghost predicate CanFail(rules: seq<Rule>) {
    exists r, memo, m :: 0 <= r < |rules| && rules[r].transform(memo, m).Fail?
  }

  /** What every step of exploration keeps. */
  ghost predicate Okay<M(!new)>(sem: Meaning<M>, rules: seq<Rule>, memo: Memo, mu: seq<M>, tried: seq<(nat, nat)>) {
    Valid(memo, sem, mu) && MarksExist(memo) && Counted(memo) && TriedOnce(tried, memo) && AllSound(sem, rules)
  }

  lemma MarkGroupOkay<M(!new)>(sem: Meaning<M>, rules: seq<Rule>, memo: Memo, mu: seq<M>, tried: seq<(nat, nat)>,
                        r: nat, g: nat)
    requires Okay(sem, rules, memo, mu, tried) && g < |memo.groups|
    ensures Okay(sem, rules, MarkGroup(memo, r, g), mu, tried)
  {
    MarksMeanNothing(memo, MarkGroup(memo, r, g), sem, mu);
  }

  lemma MarkNodeOkay<M(!new)>(sem: Meaning<M>, rules: seq<Rule>, memo: Memo, mu: seq<M>, tried: seq<(nat, nat)>,
                       r: nat, n: nat)
    requires Okay(sem, rules, memo, mu, tried) && n < |memo.nodes|
    ensures Okay(sem, rules, MarkNode(memo, r, n), mu, tried)
  {
    MarksMeanNothing(memo, MarkNode(memo, r, n), sem, mu);
  }

  /** Trying a node for the first time. */
  lemma TryOkay<M(!new)>(sem: Meaning<M>, rules: seq<Rule>, before: Memo, memo: Memo, mu: seq<M>,
                         wasTried: seq<(nat, nat)>, tried: seq<(nat, nat)>, r: nat, n: nat)
    requires Okay(sem, rules, memo, mu, tried) && TriedOnce(wasTried, before) && (r, n) !in before.nodeMarks
    requires (r, n) in memo.nodeMarks && TriedSince(wasTried, MarkNode(before, r, n).nodeMarks, tried)
    ensures Okay(sem, rules, memo, mu, tried + [(r, n)])
  {
    hide Valid, AllSound, MarksExist, Counted;
    forall i | 0 <= i < |tried| ensures tried[i] != (r, n) {
      if i < |wasTried| {
        assert tried[i] == wasTried[i];
      }
    }
  }

  /** Applying the transform of a sound rule. */
  lemma ApplyOkay<M(!new)>(sem: Meaning<M>, rules: seq<Rule>, memo: Memo, mu: seq<M>, tried: seq<(nat, nat)>,
                           r: nat, g: nat, i: nat, m: Match) returns (more: seq<M>)
    requires Okay(sem, rules, memo, mu, tried) && r < |rules| && g < |memo.groups| && i < |memo.groups[g]|
    requires Embeds(memo, rules[r].pattern, memo.groups[g][i], m) && rules[r].accepts(memo, m)
    requires rules[r].transform(memo, m).Result?
    ensures Okay(sem, rules, Apply(memo, r, g, i, rules[r].transform(memo, m)), mu + more, tried)
  {
    hide Valid;
    var t := rules[r].transform(memo, m);
    assert Sound(sem, r, rules[r]);
    assert g < |mu| by { ConsistentOf(memo, sem, mu); }
    assert GoodResult(sem, memo, mu, r, g, i, t);
    more := ApplyKeeps(sem, memo, mu, r, g, i, t);
    ApplyElsewhere(memo, r, g, i, t);
    ApplyCounted(memo, r, g, i, t);
  }

  lemma ConsistentOf<M>(memo: Memo, sem: Meaning<M>, mu: seq<M>)
    requires Valid(memo, sem, mu)
    ensures Consistent(memo, sem, mu) && Acyclic(memo) && Owned(memo) && |mu| == |memo.groups|
  {
    ConsistentOwned(memo, sem, mu);
  }

  lemma ApplyPathGrown(start: Memo, before: Memo, r: nat, g: nat, i: nat, t: Transform, stack: seq<nat>)
    requires Grown(start, before, r, stack) && (r, g) !in start.groupMarks
    requires Path(before, stack + [g]) && g !in stack
    requires t.Result? && g < |before.groups| && i < |before.groups[g]|
    ensures Grown(start, Apply(before, r, g, i, t), r, stack) && Path(Apply(before, r, g, i, t), stack + [g])
  {
    ApplyElsewhere(before, r, g, i, t);
    PathKept(before, Apply(before, r, g, i, t), stack + [g]);
  }

  lemma MarkGroupPathGrown(memo: Memo, r: nat, g: nat, stack: seq<nat>)
    requires Path(memo, stack + [g])
    ensures Grown(memo, MarkGroup(memo, r, g), r, stack) && Path(MarkGroup(memo, r, g), stack + [g])
  {
    PathKept(memo, MarkGroup(memo, r, g), stack + [g]);
  }

  /** What exploring a member of `g` leaves of the loop's own facts. */
  lemma MemberPathGrown(start: Memo, before: Memo, after: Memo, r: nat, g: nat, i: nat, stack: seq<nat>)
    requires Grown(start, before, r, stack) && Path(before, stack + [g]) && Owned(before) && g !in stack
    requires g < |before.groups| && i < |before.groups[g]|
    requires Grown(MarkNode(before, r, before.groups[g][i]), after, r, stack + [g])
    ensures Grown(start, after, r, stack) && Path(after, stack + [g])
    ensures g < |after.groups| && after.groups[g] == before.groups[g] && (r, before.groups[g][i]) in after.nodeMarks
    ensures before.nodes <= after.nodes
  {
    MemberGrown(start, before, after, r, g, before.groups[g][i], stack);
    PathKept(before, after, stack + [g]);
    assert g in stack + [g];
    assert (r, before.groups[g][i]) in MarkNode(before, r, before.groups[g][i]).nodeMarks;
  }

  // ---- Rules that erase all ----

  /** Whatever the rule changes, it replaces the whole group. */
  ghost predicate Erasing(rule: Rule) {
    forall memo, m :: rule.transform(memo, m).Result? ==> rule.transform(memo, m).eraseAll
  }

  /** The group is marked and as it was, and its first `i` members are marked. */
  ghost predicate Untouched(start: Memo, memo: Memo, r: nat, g: nat, i: nat) {
    && g < |start.groups| <= |memo.groups| && start.nodes <= memo.nodes
    && (r, g) in memo.groupMarks && memo.groups[g] == start.groups[g] && i <= |memo.groups[g]|
    && forall j :: 0 <= j < i ==> (r, memo.groups[g][j]) in memo.nodeMarks
  }

  /** The group is marked, but its members are all new and none of them is. */
  ghost predicate Erased(start: Memo, memo: Memo, r: nat, g: nat) {
    && g < |memo.groups| && (r, g) in memo.groupMarks && memo.groups[g] != []
    && forall j :: 0 <= j < |memo.groups[g]| ==>
      memo.groups[g][j] >= |start.nodes| && (r, memo.groups[g][j]) !in memo.nodeMarks
  }

  /** Either the rule found nothing to do, or what it put into the group is left unexplored. */
  ghost predicate OneShot(start: Memo, memo: Memo, r: nat, g: nat) {
    || (g < |memo.groups| && Untouched(start, memo, r, g, |memo.groups[g]|))
    || Erased(start, memo, r, g)
  }

  lemma OneShotOf(start: Memo, memo: Memo, r: nat, g: nat)
    requires g < |memo.groups| && (Untouched(start, memo, r, g, |memo.groups[g]|) || Erased(start, memo, r, g))
    ensures OneShot(start, memo, r, g)
  {
  }

  lemma UntouchedNext(start: Memo, memo: Memo, r: nat, g: nat, i: nat)
    requires Untouched(start, memo, r, g, i) && i < |memo.groups[g]| && (r, memo.groups[g][i]) in memo.nodeMarks
    ensures Untouched(start, memo, r, g, i + 1)
  {
  }

  lemma UntouchedMember(start: Memo, before: Memo, after: Memo, r: nat, g: nat, i: nat, stack: seq<nat>)
    requires Untouched(start, before, r, g, i) && i < |before.groups[g]|
    requires Grown(MarkNode(before, r, before.groups[g][i]), after, r, stack + [g])
    ensures Untouched(start, after, r, g, i + 1)
  {
    assert g in stack + [g];
    assert (r, before.groups[g][i]) in MarkNode(before, r, before.groups[g][i]).nodeMarks;
  }

  lemma ErasedNow<M(!new)>(sem: Meaning<M>, rules: seq<Rule>, start: Memo, memo: Memo, mu: seq<M>, more: seq<M>,
                           tried: seq<(nat, nat)>, r: nat, g: nat, i: nat, t: Transform)
    requires Okay(sem, rules, memo, mu, tried) && Untouched(start, memo, r, g, i + 1) && t.Result? && t.eraseAll
    requires Okay(sem, rules, Apply(memo, r, g, i, t), mu + more, tried)
    ensures Erased(start, Apply(memo, r, g, i, t), r, g)
  {
    AddGroupsExtends(memo, t.newGroups);
    AddGroupsAt(memo, t.newGroups, g);
    assert Apply(memo, r, g, i, t).groups[g] != [];
  }

  class Explorer<M(!new)> {
    const rules: seq<Rule>
    ghost const sem: Meaning<M>
    var memo: Memo
    ghost var mu: seq<M>
    ghost const start: Memo
    ghost var tried: seq<(nat, nat)>
    ghost var log: seq<Attempt>

    /** The memo is valid, no rule tried a node twice, and the log accounts for all that has changed. */
    ghost predicate Ok()
      reads this
    {
      Okay(sem, rules, memo, mu, tried) && Logged(rules, start, tried, log, memo)
    }

    constructor (rules: seq<Rule>, memo: Memo, ghost sem: Meaning<M>, ghost mu: seq<M>)
      requires Valid(memo, sem, mu) && Counted(memo) && memo.nodeMarks == {} && memo.groupMarks == {}
      requires AllSound(sem, rules)
      ensures Ok() && this.rules == rules && this.memo == memo && this.sem == sem && this.mu == mu
      ensures start == memo && tried == [] && log == []
    {
      this.rules := rules;
      this.memo := memo;
      this.start := memo;
      this.sem := sem;
      this.mu := mu;
      this.tried := [];
      this.log := [];
    }

    /** OptGroup::explore: one pass over the members of `g`, including those added on the way. */
    method ExploreGroup(r: nat, g: nat, fuel: nat, ghost stack: seq<nat>) returns (st: Status)
      requires Ok() && r < |rules| && Path(memo, stack + [g]) && g < |memo.groups|
      modifies this`memo, this`mu, this`tried, this`log
      ensures Ok() && old(mu) <= mu
      ensures Grown(old(memo), memo, r, stack)
      ensures TriedSince(old(tried), old(memo.nodeMarks), tried)
      ensures st.Failed? ==> CanFail(rules)
      ensures old(log) <= log && (old(NoFailure(rules, log)) ==> (st.Failed? <==> !NoFailure(rules, log)))
      ensures st.Done? ==> AllTried(old(memo.nodeMarks), memo.nodeMarks, tried)
      ensures st.OutOfFuel? ==> fuel + Count(memo.nodes, stack) <= |memo.nodes|
      ensures st.Done? && Gentle(rules[r]) && (r, g) !in old(memo.groupMarks) ==>
        (old(Settled(memo, r, stack + [g]) && BelowMarked(memo, r, g, stack + [g])) ==>
          Settled(memo, r, stack + [g]) && Explored(memo, r, g, |memo.groups[g]|, stack + [g]))
      ensures st.Done? && old(AllMarked(memo, r, g)) ==> (r, g) in memo.groupMarks
      ensures st.Done? && Erasing(rules[r]) && (r, g) !in old(memo.groupMarks) ==> OneShot(old(memo), memo, r, g)
      decreases fuel, 1
    {
      hide Okay, Logged, NoFailure, AllTried, Grown, Path, Settled, Explored, BelowMarked, Gentle, Consistent, Owned;
      hide Acyclic, TriedOnce, TriedSince, Count;
      hide Erasing, Untouched, Erased, OneShot, CanFail, MarkNode, AllMarked;
      GrownItself(memo, r, stack);
      TriedNothing(tried, memo.nodeMarks);
      AllTriedNothing(memo.nodeMarks, tried);
      if (r, g) in memo.groupMarks {
        return Done;
      }
      ghost var busy := stack + [g];
      ghost var calm := Gentle(rules[r]) && Settled(memo, r, busy) && BelowMarked(memo, r, g, busy);
      ghost var once := Erasing(rules[r]);
      ghost var start := memo;
      assert g !in stack by { OkayFacts(sem, rules, memo, mu, tried); PathSimple(memo, stack, g); }
      MarkGroupOkay(sem, rules, memo, mu, tried, r, g);
      MarkGroupPathGrown(memo, r, g, stack);
      LoggedMarks(rules, this.start, tried, log, memo, MarkGroup(memo, r, g));
      memo := MarkGroup(memo, r, g);
      if calm {
        MarkGroupSettled(start, memo, r, busy, g);
        MarkGroupExplored(start, memo, r, g, busy);
      }
      MarkGroupUntouched(start, r, g);
      st := ExploreMembers(r, g, fuel, start, stack, calm, once);
    }

    /** The pass over the members of a group that has just been marked. */
    method ExploreMembers(r: nat, g: nat, fuel: nat, ghost start: Memo, ghost stack: seq<nat>, ghost calm: bool,
                          ghost once: bool)
      returns (st: Status)
      requires Ok() && r < |rules| && g < |start.groups| && (r, g) !in start.groupMarks &&
        memo == MarkGroup(start, r, g)
      requires Grown(start, memo, r, stack) && Path(memo, stack + [g]) && g !in stack
      requires calm ==> Gentle(rules[r]) && Settled(memo, r, stack + [g]) && Explored(memo, r, g, 0, stack + [g])
      requires once ==> Erasing(rules[r]) && Untouched(start, memo, r, g, 0)
      modifies this`memo, this`mu, this`tried, this`log
      ensures Ok() && old(mu) <= mu
      ensures Grown(start, memo, r, stack)
      ensures TriedSince(old(tried), start.nodeMarks, tried)
      ensures st.Failed? ==> CanFail(rules)
      ensures old(log) <= log && (old(NoFailure(rules, log)) ==> (st.Failed? <==> !NoFailure(rules, log)))
      ensures st.Done? ==> AllTried(start.nodeMarks, memo.nodeMarks, tried)
      ensures st.OutOfFuel? ==> fuel + Count(memo.nodes, stack) <= |memo.nodes|
      ensures st.Done? && calm ==>
        g < |memo.groups| && Settled(memo, r, stack + [g]) && Explored(memo, r, g, |memo.groups[g]|, stack + [g])
      ensures st.Done? && AllMarked(start, r, g) ==> memo == MarkGroup(start, r, g)
      ensures st.Done? && once ==> OneShot(start, memo, r, g)
      decreases fuel, 0
    {
      hide Okay, Logged, NoFailure, AllTried, Grown, Path, Settled, Explored, BelowMarked, Gentle, Consistent;
      hide Owned, Acyclic, TriedOnce, TriedSince, Count, Erasing, Untouched, Erased, OneShot, CanFail, MarkNode;
      hide AllMarked;
      ghost var busy, quiet := stack + [g], AllMarked(start, r, g);
      TriedNothing(tried, start.nodeMarks);
      AllTriedNothing(start.nodeMarks, tried);
      CountedAt(sem, rules, memo, mu, tried, g);
      var i: nat, budget := 0, fuel;
      while i < |memo.groups[g]|
        invariant 0 <= budget <= fuel
        invariant Ok() && old(mu) <= mu
        invariant Grown(start, memo, r, stack) && Path(memo, busy) && g < |memo.groups| && i <= |memo.groups[g]|
        invariant TriedSince(old(tried), start.nodeMarks, tried) && AllTried(start.nodeMarks, memo.nodeMarks, tried)
        invariant old(log) <= log && (old(NoFailure(rules, log)) ==> NoFailure(rules, log))
        invariant calm ==> Settled(memo, r, busy) && Explored(memo, r, g, i, busy)
        invariant quiet ==> memo == MarkGroup(start, r, g)
        invariant once ==> Untouched(start, memo, r, g, i)
        invariant |memo.groups[g]| - i + (fuel - budget) <= Count(memo.nodes, [g])
        decreases budget
      {
        CountPush(memo.nodes, stack, g);
        if budget == 0 {
          return OutOfFuel;
        }
        budget := budget - 1;
        var n := memo.groups[g][i];
        if quiet {
          QuietMarked(start, r, g, i);
        }
        if (r, n) in memo.nodeMarks {
          if calm {
            ExploredNext(memo, r, g, i, busy);
          }
          if once {
            UntouchedNext(start, memo, r, g, i);
          }
          i := i + 1;
          continue;
        }
        ghost var before, wasTried := memo, tried;
        var stop;
        st, i, stop := VisitMember(r, g, i, budget, start, stack, calm, once);
        MarkedBefore(start, before, r, n, stack);
        TriedSinceThen(old(tried), wasTried, tried, start.nodeMarks, before.nodeMarks);
        if st.Done? {
          TriedPrefix(wasTried, before.nodeMarks, tried);
          AllTriedThen(start.nodeMarks, before.nodeMarks, memo.nodeMarks, wasTried, tried);
        }
        if st != Done {
          CountPush(memo.nodes, stack, g);
          return;
        }
        if stop {
          if once {
            OneShotOf(start, memo, r, g);
          }
          return;
        }
      }
      st := Done;
      if once {
        OneShotOf(start, memo, r, g);
      }
    }

    /** One unexplored member: the groups below it first, then the rule itself. */
    method VisitMember(r: nat, g: nat, i: nat, fuel: nat, ghost start: Memo, ghost stack: seq<nat>, ghost calm: bool,
                       ghost once: bool)
      returns (st: Status, next: nat, stop: bool)
      requires Ok() && r < |rules| && g < |memo.groups| && i < |memo.groups[g]| &&
        (r, memo.groups[g][i]) !in memo.nodeMarks
      requires Grown(start, memo, r, stack) && (r, g) !in start.groupMarks && Path(memo, stack + [g]) && g !in stack
      requires calm ==> Gentle(rules[r]) && Settled(memo, r, stack + [g]) && Explored(memo, r, g, i, stack + [g])
      requires once ==> Erasing(rules[r]) && Untouched(start, memo, r, g, i)
      modifies this`memo, this`mu, this`tried, this`log
      ensures Ok() && old(mu) <= mu
      ensures Grown(start, memo, r, stack) && Path(memo, stack + [g]) && g < |memo.groups|
      ensures TriedSince(old(tried), old(memo.nodeMarks), tried)
      ensures st.Failed? ==> CanFail(rules)
      ensures old(log) <= log && (old(NoFailure(rules, log)) ==> (st.Failed? <==> !NoFailure(rules, log)))
      ensures st.Done? ==> AllTried(old(memo.nodeMarks), memo.nodeMarks, tried)
      ensures st.OutOfFuel? ==> fuel + Count(memo.nodes, stack + [g]) <= |memo.nodes|
      ensures Count(old(memo.nodes), [g]) <= Count(memo.nodes, [g])
      ensures st.Done? && !stop ==> next <= |memo.groups[g]|
      ensures st.Done? && !stop ==>
        |memo.groups[g]| - next + 1 + Count(old(memo.nodes), [g]) <= old(|memo.groups[g]|) - i + Count(memo.nodes, [g])
      ensures st.Done? && calm ==> !stop && Settled(memo, r, stack + [g]) && Explored(memo, r, g, next, stack + [g])
      ensures st.Done? && once ==> if stop then Erased(start, memo, r, g) else Untouched(start, memo, r, g, next)
      decreases fuel, 4
    {
      hide Okay, Logged, NoFailure, AllTried, Grown, Path, Settled, Explored, BelowMarked, AllMarked, Gentle;
      hide Apply, Embeds, Consistent, Owned, Acyclic;
      hide TriedOnce, TriedSince, ChildrenMarked, Count, Erasing, Untouched, Erased;
      ghost var busy := stack + [g];
      ghost var before, wasTried := memo, tried;
      var n := memo.groups[g][i];
      stop, next := false, i + 1;
      OkayFacts(sem, rules, memo, mu, tried);
      assert n in memo.groups[busy[|busy| - 1]];
      st := ExploreNode(r, n, fuel, busy);
      MemberPathGrown(start, before, memo, r, g, i, stack);
      CountGrows(before.nodes, memo.nodes, [g]);
      if st != Done {
        TriedNothing(wasTried, before.nodeMarks);
        TriedSinceThen(wasTried, wasTried, tried, before.nodeMarks, MarkNode(before, r, n).nodeMarks);
        return;
      }
      if calm {
        MemberExplored(before, memo, r, g, i, busy);
      }
      if once {
        UntouchedMember(start, before, memo, r, g, i, stack);
      }
      TryOkay(sem, rules, before, memo, mu, wasTried, tried, r, n);
      TriedOneMore(wasTried, tried, before, r, n);
      AllTriedOneMore(before, memo.nodeMarks, tried, r, n);
      st, next, stop := TryMember(r, g, i, start, stack, calm, once);
    }

    /** Finds more equivalents: the rule is tried on a member, and what it returns takes effect. */
    method TryMember(r: nat, g: nat, i: nat, ghost start: Memo, ghost stack: seq<nat>, ghost calm: bool,
                     ghost once: bool)
      returns (st: Status, next: nat, stop: bool)
      requires Ok() && r < |rules| && g < |memo.groups| && i < |memo.groups[g]|
      requires Okay(sem, rules, memo, mu, tried + [(r, memo.groups[g][i])])
      requires Grown(start, memo, r, stack) && (r, g) !in start.groupMarks && Path(memo, stack + [g]) && g !in stack
      requires calm ==> Gentle(rules[r]) && Settled(memo, r, stack + [g]) && Explored(memo, r, g, i + 1, stack + [g])
      requires once ==> Erasing(rules[r]) && Untouched(start, memo, r, g, i + 1)
      modifies this`memo, this`mu, this`tried, this`log
      ensures Ok() && old(mu) <= mu && memo.nodeMarks == old(memo.nodeMarks)
      ensures tried == old(tried) + [(r, old(memo.groups[g][i]))]
      ensures |log| == |old(log)| + 1 && old(log) <= log && Tries(log[|old(log)|], r, g, i, old(memo), memo)
      ensures Grown(start, memo, r, stack) && Path(memo, stack + [g]) && g < |memo.groups|
      ensures st.Done? || st.Failed?
      ensures st.Failed? <==> Failing(rules, log[|old(log)|])
      ensures st.Failed? ==> CanFail(rules)
      ensures NoFailure(rules, log) <==> old(NoFailure(rules, log)) && !st.Failed?
      ensures Count(old(memo.nodes), [g]) <= Count(memo.nodes, [g])
      ensures st.Done? && !stop ==> next <= |memo.groups[g]|
      ensures st.Done? && !stop ==>
        |memo.groups[g]| - next + 1 + Count(old(memo.nodes), [g]) <= old(|memo.groups[g]|) - i + Count(memo.nodes, [g])
      ensures st.Done? && calm ==> !stop && Settled(memo, r, stack + [g]) && Explored(memo, r, g, next, stack + [g])
      ensures st.Done? && once ==> if stop then Erased(start, memo, r, g) else Untouched(start, memo, r, g, next)
    {
      hide Okay, Logged, NoFailure, Grown, Path, Settled, Explored, Gentle, Apply, Embeds, First, Count;
      hide Erasing, Untouched, Erased, Applied, Matches;
      var n := memo.groups[g][i];
      st, stop, next := Done, false, i + 1;
      var matched := MatchNode(memo, rules[r].pattern, n);
      ghost var attempt := Attempt(r, g, i, matched, memo, memo);
      if matched.None? || !rules[r].accepts(memo, matched.value) {
        Record(attempt);
        return;
      }
      var t := rules[r].transform(memo, matched.value);
      if t.Fail? {
        Record(attempt);
        st := Failed;
        return;
      }
      next, stop := ApplyMatch(r, g, i, matched.value, start, stack, calm, once);
    }

    /** An accepted match whose transform is a result. */
    method ApplyMatch(r: nat, g: nat, i: nat, m: Match, ghost start: Memo, ghost stack: seq<nat>, ghost calm: bool,
                      ghost once: bool)
      returns (next: nat, stop: bool)
      requires Ok() && r < |rules| && g < |memo.groups| && i < |memo.groups[g]|
      requires Okay(sem, rules, memo, mu, tried + [(r, memo.groups[g][i])])
      requires First(memo, rules[r].pattern, memo.groups[g][i], m)
      requires rules[r].accepts(memo, m) && rules[r].transform(memo, m).Result?
      requires Grown(start, memo, r, stack) && (r, g) !in start.groupMarks && Path(memo, stack + [g]) && g !in stack
      requires calm ==> Gentle(rules[r]) && Settled(memo, r, stack + [g]) && Explored(memo, r, g, i + 1, stack + [g])
      requires once ==> Erasing(rules[r]) && Untouched(start, memo, r, g, i + 1)
      modifies this`memo, this`mu, this`tried, this`log
      ensures Ok() && old(mu) <= mu && memo.nodeMarks == old(memo.nodeMarks)
      ensures tried == old(tried) + [(r, old(memo.groups[g][i]))]
      ensures log == old(log) + [Attempt(r, g, i, Some(m), old(memo), memo)]
      ensures !Failing(rules, log[|old(log)|]) && (NoFailure(rules, log) <==> old(NoFailure(rules, log)))
      ensures Grown(start, memo, r, stack) && Path(memo, stack + [g]) && g < |memo.groups|
      ensures Count(old(memo.nodes), [g]) <= Count(memo.nodes, [g])
      ensures !stop ==> next <= |memo.groups[g]|
      ensures !stop ==>
        |memo.groups[g]| - next + 1 + Count(old(memo.nodes), [g]) <= old(|memo.groups[g]|) - i + Count(memo.nodes, [g])
      ensures calm ==> !stop && Settled(memo, r, stack + [g]) && Explored(memo, r, g, next, stack + [g])
      ensures once ==> if stop then Erased(start, memo, r, g) else Untouched(start, memo, r, g, next)
    {
      hide Okay, Logged, NoFailure, Grown, Path, Settled, Explored, Gentle, Apply, Embeds, First, Count, Attempted;
      hide Erasing, Untouched, Erased, Applied;
      var n := memo.groups[g][i];
      var t := rules[r].transform(memo, m);
      FirstEmbeds(memo, rules[r].pattern, n, m);
      ghost var all, after := tried + [(r, n)], Apply(memo, r, g, i, t);
      ghost var more := ApplyOkay(sem, rules, memo, mu, all, r, g, i, m);
      ApplyPathGrown(start, memo, r, g, i, t, stack);
      ApplyCounts(sem, rules, memo, mu, tried, r, g, i, t);
      assert after.nodeMarks == memo.nodeMarks by { ApplyElsewhere(memo, r, g, i, t); }
      if calm {
        GentleResult(rules[r], memo, m);
        ApplyExploredSettled(sem, rules, memo, mu, tried, r, g, i, t, stack + [g]);
      }
      if once {
        ErasingResult(rules[r], memo, m);
        ErasedNow(sem, rules, start, memo, mu, more, all, r, g, i, t);
      }
      AppliedAttempt(rules, memo, r, g, i, m);
      ghost var attempt := Attempt(r, g, i, Some(m), memo, after);
      mu := mu + more;
      next := ApplyTransform(r, g, i, t);
      Record(attempt);
      stop := t.eraseAll;
    }

    /** Notes a try and what came of it. */
    ghost method Record(a: Attempt)
      requires Logged(rules, start, tried, log, a.before) && Attempted(rules, a)
      modifies this`tried, this`log
      ensures tried == old(tried) + [(a.rule, NodeOf(a))] && log == old(log) + [a]
      ensures Logged(rules, start, tried, log, a.after)
      ensures NoFailure(rules, log) <==> old(NoFailure(rules, log)) && !Failing(rules, a)
    {
      LoggedNext(rules, start, tried, log, a);
      NoFailureNext(rules, log, a);
      tried, log := tried + [(a.rule, NodeOf(a))], log + [a];
    }

    /** The edits of one transform, in the order of the source. */
    method ApplyTransform(r: nat, g: nat, i: nat, t: Transform) returns (next: nat)
      requires t.Result? && g < |memo.groups| && i < |memo.groups[g]|
      modifies this`memo
      ensures memo == Apply(old(memo), r, g, i, t)
      ensures g < |memo.groups| && (!t.eraseAll ==> next <= |memo.groups[g]|)
      ensures next == if t.eraseCurr || t.eraseAll then i else i + 1
    {
      AddGroupsAt(memo, t.newGroups, g);
      memo := AddGroups(memo, t.newGroups);
      if t.eraseAll {
        memo := Clear(memo, g);
        memo := Place(memo, g, t.newNodes);
        return i;
      }
      memo := Place(memo, g, t.newNodes);
      if t.newNodes != [] {
        memo := Unmark(memo, r, g);
      }
      if t.eraseCurr {
        memo := EraseAt(memo, g, i);
        return i;
      }
      return i + 1;
    }

    /** OptGroup::exploreUntilMaxRound. */
    method ExploreUntilMaxRound(r: nat, g: nat, fuel: nat, ghost stack: seq<nat>)
      returns (st: Status, ghost rounds: nat)
      requires Ok() && r < |rules| && Path(memo, stack + [g]) && g < |memo.groups|
      modifies this`memo, this`mu, this`tried, this`log
      ensures Ok() && old(mu) <= mu
      ensures Grown(old(memo), memo, r, stack)
      ensures TriedSince(old(tried), old(memo.nodeMarks), tried)
      ensures st.Failed? ==> CanFail(rules)
      ensures old(log) <= log && (old(NoFailure(rules, log)) ==> (st.Failed? <==> !NoFailure(rules, log)))
      ensures st.Done? ==> AllTried(old(memo.nodeMarks), memo.nodeMarks, tried)
      ensures st.OutOfFuel? ==> fuel + Count(memo.nodes, stack) <= |memo.nodes|
      ensures rounds <= MAX_EXPLORATION_ROUND
      ensures st.Done? ==> (r, g) in memo.groupMarks
      ensures st.Done? && Gentle(rules[r]) && old(Settled(memo, r, stack)) ==> Settled(memo, r, stack) && rounds <= 2
      ensures st.Done? && Erasing(rules[r]) && (r, g) !in old(memo.groupMarks) ==>
        rounds == 1 && OneShot(old(memo), memo, r, g)
      decreases fuel, 2
    {
      hide Okay, Logged, NoFailure, AllTried, Grown, Path, Settled, Explored, BelowMarked, AllMarked, Gentle;
      hide Count, CanFail, Erasing, OneShot, TriedSince;
      GrownItself(memo, r, stack);
      TriedNothing(tried, memo.nodeMarks);
      AllTriedNothing(memo.nodeMarks, tried);
      var maxRound := MAX_EXPLORATION_ROUND;
      ghost var start, busy := memo, stack + [g];
      ghost var calm := Gentle(rules[r]) && Settled(memo, r, stack);
      ghost var once := Erasing(rules[r]) && (r, g) !in memo.groupMarks;
      assert g !in stack by { OkayFacts(sem, rules, memo, mu, tried); PathSimple(memo, stack, g); }
      if calm {
        BusierSettled(memo, r, stack, g);
      }
      rounds := 0;
      while (r, g) !in memo.groupMarks
        invariant Ok() && old(mu) <= mu
        invariant Grown(start, memo, r, stack) && Path(memo, busy) && g < |memo.groups|
        invariant TriedSince(old(tried), start.nodeMarks, tried) && AllTried(start.nodeMarks, memo.nodeMarks, tried)
        invariant old(log) <= log && (old(NoFailure(rules, log)) ==> NoFailure(rules, log))
        invariant 0 <= maxRound && rounds + maxRound == MAX_EXPLORATION_ROUND
        invariant rounds == 0 ==> memo == start
        invariant calm ==> Settled(memo, r, busy) && BelowMarked(memo, r, g, busy)
        invariant calm && rounds >= 1 ==> AllMarked(memo, r, g)
        invariant calm ==> rounds <= 2
        invariant calm && rounds >= 2 ==> (r, g) in memo.groupMarks
        invariant once && rounds >= 1 ==> rounds == 1 && (r, g) in memo.groupMarks && OneShot(start, memo, r, g)
        decreases maxRound
      {
        ghost var before, wasTried := memo, tried;
        if 0 < maxRound {
          maxRound := maxRound - 1;
          rounds := rounds + 1;
          st := ExploreGroup(r, g, fuel, stack);
          RoundGrown(start, before, memo, r, g, stack);
          TriedSinceThen(old(tried), wasTried, tried, start.nodeMarks, before.nodeMarks);
          if st != Done {
            return;
          }
          TriedPrefix(wasTried, before.nodeMarks, tried);
          AllTriedThen(start.nodeMarks, before.nodeMarks, memo.nodeMarks, wasTried, tried);
          if calm {
            ExploredAll(memo, r, g, busy);
          }
          if once {
            OneShotMarked(before, memo, r, g);
          }
        } else {
          MarkGroupOkay(sem, rules, memo, mu, tried, r, g);
          MarkGroupPathGrown(memo, r, g, stack);
          LoggedMarks(rules, this.start, tried, log, memo, MarkGroup(memo, r, g));
          memo := MarkGroup(memo, r, g);
          RoundGrown(start, before, memo, r, g, stack);
          break;
        }
      }
      st := Done;
      if calm && rounds > 0 {
        DoneSettled(memo, r, stack, g);
      }
    }

    /** OptGroupNode::explore: the groups below the node, dependencies before bodies. */
    method ExploreNode(r: nat, n: nat, fuel: nat, ghost stack: seq<nat>) returns (st: Status)
      requires Ok() && r < |rules| && Path(memo, stack) && stack != [] && n in memo.groups[stack[|stack| - 1]]
      modifies this`memo, this`mu, this`tried, this`log
      ensures Ok() && old(mu) <= mu
      ensures Grown(MarkNode(old(memo), r, n), memo, r, stack)
      ensures TriedSince(old(tried), MarkNode(old(memo), r, n).nodeMarks, tried)
      ensures st.Failed? ==> CanFail(rules)
      ensures old(log) <= log && (old(NoFailure(rules, log)) ==> (st.Failed? <==> !NoFailure(rules, log)))
      ensures st.Done? ==> AllTried(MarkNode(old(memo), r, n).nodeMarks, memo.nodeMarks, tried)
      ensures st.OutOfFuel? ==> fuel + Count(memo.nodes, stack) <= |memo.nodes|
      ensures st.Done? && Gentle(rules[r]) && old(Settled(memo, r, stack) && (r, n) !in memo.nodeMarks) ==>
        Settled(memo, r, stack) && ChildrenMarked(memo, r, n, stack)
      decreases fuel, 3, 1
    {
      hide Okay, Logged, NoFailure, AllTried, Grown, Path, Settled, Gentle, Consistent, Owned;
      hide Acyclic, TriedOnce, TriedSince, Child, Count, CanFail, Erasing, OneShot, ChildrenMarked;
      PathWithin(memo, stack);
      GrownItself(MarkNode(memo, r, n), r, stack);
      TriedNothing(tried, MarkNode(memo, r, n).nodeMarks);
      AllTriedNothing(MarkNode(memo, r, n).nodeMarks, tried);
      if (r, n) in memo.nodeMarks {
        assert MarkNode(memo, r, n) == memo;
        return Done;
      }
      ghost var g := stack[|stack| - 1];
      OkayFacts(sem, rules, memo, mu, tried);
      OwnedBy(memo, g, n);
      ghost var calm := Gentle(rules[r]) && Settled(memo, r, stack);
      if calm {
        MarkNodeSettled(memo, r, stack, n);
      }
      MarkNodeOkay(sem, rules, memo, mu, tried, r, n);
      PathKept(memo, MarkNode(memo, r, n), stack);
      LoggedMarks(rules, start, tried, log, memo, MarkNode(memo, r, n));
      memo := MarkNode(memo, r, n);
      st := ExploreBelow(r, n, fuel, stack, calm);
    }

    method ExploreBelow(r: nat, n: nat, fuel: nat, ghost stack: seq<nat>, ghost calm: bool) returns (st: Status)
      requires Ok() && r < |rules| && Path(memo, stack) && stack != [] && stack[|stack| - 1] < |memo.groups|
      requires n in memo.groups[stack[|stack| - 1]] && (calm ==> Gentle(rules[r]) && Settled(memo, r, stack))
      modifies this`memo, this`mu, this`tried, this`log
      ensures Ok() && old(mu) <= mu
      ensures Grown(old(memo), memo, r, stack)
      ensures TriedSince(old(tried), old(memo.nodeMarks), tried)
      ensures st.Failed? ==> CanFail(rules)
      ensures old(log) <= log && (old(NoFailure(rules, log)) ==> (st.Failed? <==> !NoFailure(rules, log)))
      ensures st.Done? ==> AllTried(old(memo.nodeMarks), memo.nodeMarks, tried)
      ensures st.OutOfFuel? ==> fuel + Count(memo.nodes, stack) <= |memo.nodes|
      ensures st.Done? ==> ChildrenMarked(memo, r, n, stack)
      ensures st.Done? && calm ==> Settled(memo, r, stack)
      decreases fuel, 3, 0
    {
      hide Okay, Logged, NoFailure, AllTried, Grown, Path, Settled, Gentle, Consistent, Owned, Acyclic, TriedOnce;
      hide TriedSince, Child, Count, CanFail, Erasing, OneShot, ChildrenMarked;
      ghost var g, marked := stack[|stack| - 1], memo;
      GrownItself(memo, r, stack);
      TriedNothing(tried, memo.nodeMarks);
      AllTriedNothing(memo.nodeMarks, tried);
      OkayFacts(sem, rules, memo, mu, tried);
      OwnedBy(memo, g, n);
      var below := Children(memo.nodes[n].draft);
      for i := 0 to |below|
        invariant Ok() && old(mu) <= mu
        invariant Grown(marked, memo, r, stack) && Path(memo, stack)
        invariant g < |memo.groups| && n in memo.groups[g] && marked.nodes <= memo.nodes &&
          marked.nodeMarks <= memo.nodeMarks
        invariant TriedSince(old(tried), marked.nodeMarks, tried) && AllTried(marked.nodeMarks, memo.nodeMarks, tried)
        invariant old(log) <= log && (old(NoFailure(rules, log)) ==> NoFailure(rules, log))
        invariant calm ==> Settled(memo, r, stack)
        invariant GroupsMarked(r, below[..i], memo.groupMarks)
      {
        ghost var before, wasTried := memo, tried;
        OkayFacts(sem, rules, memo, mu, tried);
        ChildExists(memo, sem, mu, g, n, below[i]);
        PathBelow(memo, stack, n, below[i]);
        ghost var rounds;
        st, rounds := ExploreUntilMaxRound(r, below[i], fuel, stack);
        BelowGrown(marked, before, memo, r, g, stack);
        TriedSinceThen(old(tried), wasTried, tried, marked.nodeMarks, before.nodeMarks);
        if st != Done {
          return;
        }
        TriedPrefix(wasTried, before.nodeMarks, tried);
        AllTriedThen(marked.nodeMarks, before.nodeMarks, memo.nodeMarks, wasTried, tried);
        MarkedStill(r, below[..i], before.groupMarks, memo.groupMarks);
        assert below[..i + 1] == below[..i] + [below[i]];
      }
      st := Done;
      assert below[..|below|] == below;
      BelowAreMarked(memo, r, n, stack);
    }
  }

  predicate GroupsMarked(r: nat, groups: seq<nat>, marks: set<(nat, nat)>) {
    forall j :: 0 <= j < |groups| ==> (r, groups[j]) in marks
  }

  lemma MarkedStill(r: nat, groups: seq<nat>, before: set<(nat, nat)>, after: set<(nat, nat)>)
    requires GroupsMarked(r, groups, before) && before <= after
    ensures GroupsMarked(r, groups, after)
  {
  }

  lemma BelowAreMarked(memo: Memo, r: nat, n: nat, stack: seq<nat>)
    requires n < |memo.nodes| && GroupsMarked(r, Children(memo.nodes[n].draft), memo.groupMarks)
    ensures ChildrenMarked(memo, r, n, stack)
  {
  }

  lemma CountedAt<M(!new)>(sem: Meaning<M>, rules: seq<Rule>, memo: Memo, mu: seq<M>, tried: seq<(nat, nat)>, g: nat)
    requires Okay(sem, rules, memo, mu, tried) && g < |memo.groups|
    ensures |memo.groups[g]| <= Count(memo.nodes, [g])
  {
  }

  lemma ApplyCounts<M(!new)>(sem: Meaning<M>, rules: seq<Rule>, memo: Memo, mu: seq<M>, tried: seq<(nat, nat)>,
                             r: nat, g: nat, i: nat, t: Transform)
    requires Okay(sem, rules, memo, mu, tried) && t.Result? && g < |memo.groups| && i < |memo.groups[g]|
    ensures
      var after, next := Apply(memo, r, g, i, t), if t.eraseCurr || t.eraseAll then i else i + 1;
      && Count(memo.nodes, [g]) <= Count(after.nodes, [g])
      && g < |after.groups|
      && (!t.eraseAll ==>
            |after.groups[g]| - next + 1 + Count(memo.nodes, [g]) <= |memo.groups[g]| - i + Count(after.nodes, [g]))
  {
    ApplyElsewhere(memo, r, g, i, t);
    CountGrows(memo.nodes, Apply(memo, r, g, i, t).nodes, [g]);
    if !t.eraseAll {
      ApplyLeft(memo, r, g, i, t);
    }
  }

  lemma PathWithin(memo: Memo, stack: seq<nat>)
    requires Path(memo, stack)
    ensures forall k :: 0 <= k < |stack| ==> stack[k] < |memo.groups|
  {
  }

  lemma OwnedBy(memo: Memo, g: nat, n: nat)
    requires Owned(memo) && g < |memo.groups| && n in memo.groups[g]
    ensures n < |memo.nodes| && memo.nodes[n].group == g
  {
  }

  lemma GrownItself(memo: Memo, r: nat, busy: seq<nat>)
    ensures Grown(memo, memo, r, busy)
  {
  }

  lemma RoundGrown(start: Memo, before: Memo, after: Memo, r: nat, g: nat, stack: seq<nat>)
    requires Grown(start, before, r, stack) && Grown(before, after, r, stack) && Path(before, stack + [g])
    ensures Grown(start, after, r, stack) && Path(after, stack + [g]) && g < |after.groups|
    ensures start.nodeMarks <= before.nodeMarks
  {
    GrownTransitive(start, before, after, r, stack);
    PathKept(before, after, stack + [g]);
    assert (stack + [g])[|stack|] == g;
  }

  lemma BelowGrown(marked: Memo, before: Memo, after: Memo, r: nat, g: nat, stack: seq<nat>)
    requires Grown(marked, before, r, stack) && Grown(before, after, r, stack) && Path(before, stack) && g in stack
    ensures Grown(marked, after, r, stack) && Path(after, stack) && g < |before.groups| <= |after.groups| &&
      after.groups[g] == before.groups[g]
    ensures before.nodes <= after.nodes && before.nodeMarks <= after.nodeMarks && before.groupMarks <= after.groupMarks
    ensures marked.nodeMarks <= before.nodeMarks
  {
    GrownTransitive(marked, before, after, r, stack);
    PathKept(before, after, stack);
  }

  lemma MarkedBefore(start: Memo, before: Memo, r: nat, n: nat, stack: seq<nat>)
    requires Grown(start, before, r, stack)
    ensures start.nodeMarks <= before.nodeMarks <= MarkNode(before, r, n).nodeMarks
  {
  }

  lemma ExploredNext(memo: Memo, r: nat, g: nat, i: nat, busy: seq<nat>)
    requires g < |memo.groups| && i < |memo.groups[g]| && Explored(memo, r, g, i, busy) &&
      (r, memo.groups[g][i]) in memo.nodeMarks
    ensures Explored(memo, r, g, i + 1, busy)
  {
  }

  lemma ExploredAll(memo: Memo, r: nat, g: nat, busy: seq<nat>)
    requires g < |memo.groups| && Explored(memo, r, g, |memo.groups[g]|, busy)
    ensures AllMarked(memo, r, g) && BelowMarked(memo, r, g, busy)
  {
  }

  lemma OneShotMarked(start: Memo, memo: Memo, r: nat, g: nat)
    requires OneShot(start, memo, r, g)
    ensures (r, g) in memo.groupMarks
  {
  }

  lemma ErasingResult(rule: Rule, memo: Memo, m: Match)
    requires Erasing(rule) && rule.transform(memo, m).Result?
    ensures rule.transform(memo, m).eraseAll
  {
  }

  lemma QuietMarked(memo: Memo, r: nat, g: nat, i: nat)
    requires g < |memo.groups| && AllMarked(memo, r, g) && i < |memo.groups[g]|
    ensures (r, memo.groups[g][i]) in memo.nodeMarks
  {
  }

  lemma MarkGroupUntouched(memo: Memo, r: nat, g: nat)
    requires g < |memo.groups|
    ensures Untouched(memo, MarkGroup(memo, r, g), r, g, 0)
  {
  }

  lemma GentleResult(rule: Rule, memo: Memo, m: Match)
    requires Gentle(rule) && rule.transform(memo, m).Result?
    ensures !rule.transform(memo, m).eraseAll
  {
  }

  lemma ApplyExploredSettled<M(!new)>(sem: Meaning<M>, rules: seq<Rule>, memo: Memo, mu: seq<M>, tried: seq<(nat, nat)>,
                                      r: nat, g: nat, i: nat, t: Transform, busy: seq<nat>)
    requires Okay(sem, rules, memo, mu, tried) && t.Result? && !t.eraseAll && g < |memo.groups| && i < |memo.groups[g]|
    requires Settled(memo, r, busy) && Explored(memo, r, g, i + 1, busy) && g in busy
    ensures Settled(Apply(memo, r, g, i, t), r, busy)
    ensures Explored(Apply(memo, r, g, i, t), r, g, if t.eraseCurr then i else i + 1, busy)
  {
    ApplySettled(memo, r, g, i, t, busy);
    ApplyExplored(memo, r, g, i, t, busy);
  }

  lemma OkayFacts<M(!new)>(sem: Meaning<M>, rules: seq<Rule>, memo: Memo, mu: seq<M>, tried: seq<(nat, nat)>)
    requires Okay(sem, rules, memo, mu, tried)
    ensures Consistent(memo, sem, mu) && Acyclic(memo) && Owned(memo) && TriedOnce(tried, memo)
  {
    ConsistentOf(memo, sem, mu);
  }

  lemma AppliedAttempt(rules: seq<Rule>, memo: Memo, r: nat, g: nat, i: nat, m: Match)
    requires r < |rules| && g < |memo.groups| && i < |memo.groups[g]|
    requires First(memo, rules[r].pattern, memo.groups[g][i], m)
    requires rules[r].accepts(memo, m) && rules[r].transform(memo, m).Result?
    ensures
      var a := Attempt(r, g, i, Some(m), memo, Apply(memo, r, g, i, rules[r].transform(memo, m)));
      Attempted(rules, a) && Located(a) && NodeOf(a) == memo.groups[g][i] && !Failing(rules, a)
  {
    hide Apply, Applied, First;
    ApplyGives(memo, r, g, i, rules[r].transform(memo, m));
  }

  lemma FirstEmbeds(memo: Memo, p: Pattern, n: nat, m: Match)
    requires First(memo, p, n, m)
    ensures Embeds(memo, p, n, m)
  {
  }

  lemma ChildExists<M>(memo: Memo, sem: Meaning<M>, mu: seq<M>, g: nat, n: nat, h: nat)
    requires Consistent(memo, sem, mu) && g < |memo.groups| && n in memo.groups[g]
    requires n < |memo.nodes| && h in Children(memo.nodes[n].draft)
    ensures h < |memo.groups| && Child(memo, n, h)
  {
    assert GroupOk(memo, sem, mu, g);
    assert MemberOk(memo, sem, mu, g, n);
  }
}
