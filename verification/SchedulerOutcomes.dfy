/** What the results of `execute` lead to. */
module SchedulerOutcomes {
  import opened ExecutorGraph
  import opened PassThroughGate
  import opened SchedulerSteps
  import opened SchedulerInvariant
  import opened SchedulerRuns
  import opened SchedulerTheorems
  import opened SchedulerFailures

  // ---- Failing ----

  lemma {:induction false} PrefixValid(p: Plan, run: seq<Step>, k: nat)
    requires Shape(p) && ValidRun(p, run) && k <= |run|
    ensures ValidRun(p, run[..k])
    decreases |run|
  {
    if k == |run| {
      assert run[..k] == run;
    } else {
      var before := run[..|run| - 1];
      PrefixValid(p, before, k);
      assert before[..k] == run[..k];
    }
  }

  /** Step `k` of the run is bad. */
  ghost predicate BadAt(p: Plan, run: seq<Step>, k: nat) {
    && Shape(p) && k < |run| && ValidRun(p, run[..k]) && InNodes(p, After(p, run[..k]))
    && BadStep(p, After(p, run[..k]), run[k])
  }

  /** An `execute` that fails ends its activation, with its own outcome or, for a Select or a Loop,
      with an exception. */
  lemma BadStepFails(p: Plan, st: State, s: Step)
    requires Shape(p) && InNodes(p, st) && Enabled(p, st, s) && BadStep(p, st, s)
    ensures s.i < |Apply(p, st, s).acts| && Failed(Apply(p, st, s).acts[s.i])
    ensures
      var kind := p.nodes[st.acts[s.i].exec].kind;
      Apply(p, st, s).acts[s.i].phase == Done(if kind.Ordinary? || kind.PassThrough? then s.o else Thrown)
  {
  }

  lemma StepOf(p: Plan, run: seq<Step>, k: nat)
    requires Shape(p) && ValidRun(p, run) && k < |run|
    ensures ValidRun(p, run[..k]) && ValidRun(p, run[..k + 1]) && InNodes(p, After(p, run[..k]))
    ensures Enabled(p, After(p, run[..k]), run[k]) && After(p, run[..k + 1]) == Apply(p, After(p, run[..k]), run[k])
  {
    hide Shape;
    PrefixValid(p, run, k);
    PrefixValid(p, run, k + 1);
    assert run[..k + 1][..k] == run[..k] && run[..k + 1][k] == run[k];
  }

  /** In every run in which an `execute` has failed, the activation has failed, and neither the root of
      its round nor the root of the plan has ended well. */
  lemma BadStepIsFatal(p: Plan, lay: Layout, run: seq<Step>, k: nat)
    requires WellFormed(p, lay) && ValidRun(p, run) && BadAt(p, run, k)
    ensures
      var acts, i := After(p, run).acts, run[k].i;
      && i < |acts| && Failed(acts[i])
      && acts[i].round < |acts| && acts[acts[i].round].phase != Done(Ok)
      && acts[0].phase != Done(Ok)
  {
    hide WellFormed, Shape, After, ValidRun, Enabled, Apply, BadStep;
    HasShape(p, lay);
    StepOf(p, run, k);
    BadStepFails(p, After(p, run[..k]), run[k]);
    var i, failed := run[k].i, run[..k + 1];
    StillFailed(p, lay, failed, run, i);
    FailureSpoilsRound(p, lay, failed, run, i);
    if i > 0 {
      InvHolds(p, lay, failed);
      var chain := CallersOf(After(p, failed).acts, i);
      CallersChain(p, lay, After(p, failed), i);
      FailureClimbs(p, lay, failed, run, chain, |chain| - 1);
    }
  }

  /** In that run no activation that called it, directly or not, has ended well or executed since. */
  lemma BadStepStopsCallers(p: Plan, lay: Layout, run: seq<Step>, k: nat, chain: seq<nat>, j: nat)
    requires WellFormed(p, lay) && ValidRun(p, run) && BadAt(p, run, k) && ValidRun(p, run[..k + 1])
    requires Chain(After(p, run[..k + 1]), chain) && chain[0] == run[k].i && 0 < j < |chain|
    ensures
      var acts, acts' := After(p, run[..k + 1]).acts, After(p, run).acts;
      && chain[j] < |acts| && chain[j] < |acts'| && acts'[chain[j]].phase != Done(Ok)
      && !acts'[chain[j]].phase.Executing? && acts'[chain[j]].runs == acts[chain[j]].runs
  {
    hide WellFormed, Shape, After, ValidRun, Enabled, Apply, BadStep;
    HasShape(p, lay);
    StepOf(p, run, k);
    BadStepFails(p, After(p, run[..k]), run[k]);
    FailureClimbs(p, lay, run[..k + 1], run, chain, j);
  }

  function CallersOf(acts: seq<Act>, i: nat): (chain: seq<nat>)
    ensures |chain| > 0 && chain[0] == i
    decreases i
  {
    if i < |acts| && acts[i].caller < i then [i] + CallersOf(acts, acts[i].caller) else [i]
  }

  lemma {:induction false} CallersChain(p: Plan, lay: Layout, st: State, i: nat)
    requires Inv(p, lay, st) && i < |st.acts|
    ensures
      var chain := CallersOf(st.acts, i);
      Chain(st, chain) && chain[|chain| - 1] == 0 && (i > 0 ==> |chain| > 1)
    decreases i
  {
    hide WellFormed, Local, Flow, Rooted, Doors, Promises, RoundsInTurn;
    assert Linked(p, lay, st, i);
    if i > 0 {
      CallersChain(p, lay, st, st.acts[i].caller);
      var rest := CallersOf(st.acts, st.acts[i].caller);
      var chain := [i] + rest;
      forall k | 0 <= k < |chain| - 1 ensures chain[k] > 0 && st.acts[chain[k]].caller == chain[k + 1] {
        if k > 0 {
          assert chain[k] == rest[k - 1] && chain[k + 1] == rest[k];
        }
      }
    }
  }

  lemma {:induction false} SomeBadStep(p: Plan, run: seq<Step>) returns (k: nat)
    requires Shape(p) && ValidRun(p, run) && !FailureFree(p, run)
    ensures BadAt(p, run, k)
    decreases |run|
  {
    hide Shape, BadStep;
    var n := |run| - 1;
    if FailureFree(p, run[..n]) {
      k := n;
    } else {
      k := SomeBadStep(p, run[..n]);
      assert run[..n][..k] == run[..k];
    }
  }

  /** A root that has ended well has no failed `execute` behind it. */
  lemma EndsWellOnlyIf(p: Plan, lay: Layout, run: seq<Step>)
    requires WellFormed(p, lay) && ValidRun(p, run)
    requires |After(p, run).acts| > 0 && After(p, run).acts[0].phase == Done(Ok)
    ensures FailureFree(p, run)
  {
    hide WellFormed, Shape, BadStep, After;
    HasShape(p, lay);
    if !FailureFree(p, run) {
      var k := SomeBadStep(p, run);
      BadStepIsFatal(p, lay, run, k);
      assert false;
    }
  }

  /** A run that cannot go on has its root ended well exactly when no `execute` has failed. */
  lemma EndsWellExactly(p: Plan, lay: Layout, run: seq<Step>)
    requires WellFormed(p, lay) && ValidRun(p, run) && InNodes(p, After(p, run)) && Stuck(p, After(p, run))
    ensures |After(p, run).acts| > 0
    ensures After(p, run).acts[0].phase == Done(Ok) <==> FailureFree(p, run)
  {
    hide WellFormed, Shape, BadStep, After, ValidRun, FailureFree;
    HasShape(p, lay);
    InvHolds(p, lay, run);
    if FailureFree(p, run) {
      FailureFreeCompletes(p, lay, run);
    }
    if After(p, run).acts[0].phase == Done(Ok) {
      EndsWellOnlyIf(p, lay, run);
    }
  }

  // ---- Conditions ----

  function Times(run: seq<Step>, s: Step): nat {
    if run == [] then 0 else Times(run[..|run| - 1], s) + if run[|run| - 1] == s then 1 else 0
  }

  /** What the conditions of a Loop or a Select have started. */
  ghost predicate Decided(p: Plan, acts: seq<Act>, run: seq<Step>, i: nat)
    requires i < |acts| && acts[i].exec in p.nodes
  {
    var n, b := p.nodes[acts[i].exec], acts[i].bodies;
    var yes, no := Times(run, Finish(i, Ok, True)), Times(run, Finish(i, Ok, False));
    && (n.kind.Loop? ==>
          && |b| == yes && |n.bodies| == 1 && (forall k :: 0 <= k < |b| ==> Runs(acts, b[k], n.bodies[0]))
          && no <= 1 && (no == 1 <==> acts[i].phase == Done(Ok)))
    && (n.kind.Select? ==>
          && |b| == yes + no && yes + no <= 1 && |n.bodies| == 2
          && (yes == 1 ==> Runs(acts, b[0], n.bodies[0])) && (no == 1 ==> Runs(acts, b[0], n.bodies[1])))
  }

  predicate Runs(acts: seq<Act>, j: nat, e: Exec) {
    j < |acts| && acts[j].exec == e
  }

  /** The activations of the steps exist. */
  ghost predicate StepsWithin(run: seq<Step>, n: nat) {
    forall k :: 0 <= k < |run| ==> run[k].i < n
  }

  lemma {:induction false} NoTimes(run: seq<Step>, n: nat, s: Step)
    requires StepsWithin(run, n) && s.i >= n
    ensures Times(run, s) == 0
    decreases |run|
  {
    if run != [] {
      NoTimes(run[..|run| - 1], n, s);
    }
  }

  /** A step replaces the activation it is about and adds at most one. */
  lemma OthersKept(p: Plan, st: State, s: Step, j: nat)
    requires Shape(p) && InNodes(p, st) && Enabled(p, st, s) && j < |st.acts|
    ensures |st.acts| <= |Apply(p, st, s).acts| <= |st.acts| + 1
    ensures j != s.i ==> Apply(p, st, s).acts[j] == st.acts[j]
    ensures Apply(p, st, s).acts[j].exec == st.acts[j].exec
  {
    hide Shape;
  }

  lemma NewcomerFresh(p: Plan, st: State, s: Step)
    requires Shape(p) && InNodes(p, st) && Enabled(p, st, s) && |Apply(p, st, s).acts| == |st.acts| + 1
    ensures
      var a := Apply(p, st, s).acts[|st.acts|];
      a.bodies == [] && !a.phase.Done? && a.exec in p.nodes
  {
  }

  /** A step that is no well-ended `execute` starts no body, and ends no Loop well. */
  lemma NotDeciding(p: Plan, st: State, s: Step)
    requires Shape(p) && InNodes(p, st) && Enabled(p, st, s)
    requires !(s.Finish? && s.o == Ok && !s.c.NotBool?)
    requires var kind := p.nodes[st.acts[s.i].exec].kind; kind.Loop? || kind.Select?
    ensures Apply(p, st, s).acts[s.i].bodies == st.acts[s.i].bodies && st.acts[s.i].phase != Done(Ok)
    ensures p.nodes[st.acts[s.i].exec].kind.Loop? ==> Apply(p, st, s).acts[s.i].phase != Done(Ok)
  {
    hide Shape;
  }

  lemma Deciding(p: Plan, st: State, i: nat, c: Cond)
    requires Shape(p) && InNodes(p, st) && Enabled(p, st, Finish(i, Ok, c)) && !c.NotBool?
    requires var kind := p.nodes[st.acts[i].exec].kind; kind.Loop? || kind.Select?
    ensures
      var n, after := p.nodes[st.acts[i].exec], Apply(p, st, Finish(i, Ok, c)).acts;
      && st.acts[i].phase != Done(Ok)
      && if n.kind.Loop? && c.False? then
           after == st.acts[i := st.acts[i].(phase := Done(Ok))]
         else
           && |after| == |st.acts| + 1 && after[i].bodies == st.acts[i].bodies + [|st.acts|]
           && after[i].phase == InBody
           && after[|st.acts|].exec == n.bodies[if n.kind.Select? && c.False? then 1 else 0]
  {
  }

  lemma InitDecided(p: Plan)
    requires Shape(p)
    ensures |Init(p).acts| == 1 && Init(p).acts[0].bodies == [] && !Init(p).acts[0].phase.Done?
    ensures Init(p).acts[0].exec in p.nodes
  {
  }

  lemma {:induction false} StepsExist(p: Plan, run: seq<Step>)
    requires Shape(p) && ValidRun(p, run)
    ensures StepsWithin(run, |After(p, run).acts|)
    decreases |run|
  {
    hide Shape, Apply;
    if run != [] {
      var n := |run| - 1;
      StepsExist(p, run[..n]);
      OthersKept(p, After(p, run[..n]), run[n], run[n].i);
      forall k | 0 <= k < |run| ensures run[k].i < |After(p, run).acts| {
        assert k < n ==> run[..n][k] == run[k];
      }
    }
  }

  lemma KindSizes(p: Plan, e: Exec)
    requires Shape(p) && e in p.nodes
    ensures p.nodes[e].kind.Loop? ==> |p.nodes[e].bodies| == 1
    ensures p.nodes[e].kind.Select? ==> |p.nodes[e].bodies| == 2
  {
  }

  lemma TimesNext(run: seq<Step>, s: Step, last: Step)
    ensures Times(run + [last], s) == Times(run, s) + if last == s then 1 else 0
  {
    assert (run + [last])[..|run|] == run;
  }

  /** A new activation has decided nothing. */
  lemma NewDecided(p: Plan, acts: seq<Act>, run: seq<Step>, i: nat)
    requires Shape(p) && i < |acts| && acts[i].exec in p.nodes && acts[i].bodies == [] && !acts[i].phase.Done?
    requires StepsWithin(run, i)
    ensures Decided(p, acts, run, i)
  {
    hide Shape;
    KindSizes(p, acts[i].exec);
    NoTimes(run, i, Finish(i, Ok, True));
    NoTimes(run, i, Finish(i, Ok, False));
  }

  /** An activation that the last step is not about. */
  lemma OtherDecided(p: Plan, acts: seq<Act>, after: seq<Act>, run: seq<Step>, last: Step, i: nat)
    requires i < |acts| <= |after| && acts[i].exec in p.nodes && Decided(p, acts, run, i) && last.i != i
    requires forall j :: 0 <= j < |acts| ==> after[j].exec == acts[j].exec
    requires after[i] == acts[i]
    ensures Decided(p, after, run + [last], i)
  {
    TimesNext(run, Finish(i, Ok, True), last);
    TimesNext(run, Finish(i, Ok, False), last);
    BodiesKept(acts, after, acts[i].bodies);
  }

  lemma BodiesKept(acts: seq<Act>, after: seq<Act>, bodies: seq<nat>)
    requires |acts| <= |after| && forall j :: 0 <= j < |acts| ==> after[j].exec == acts[j].exec
    ensures forall k, e :: 0 <= k < |bodies| && Runs(acts, bodies[k], e) ==> Runs(after, bodies[k], e)
  {
  }

  /** The activation that the last step is about. */
  lemma StepDecided(p: Plan, lay: Layout, st: State, run: seq<Step>, s: Step)
    requires Shape(p) && Inv(p, lay, st) && Enabled(p, st, s) && s.i < |st.acts| && Decided(p, st.acts, run, s.i)
    ensures s.i < |Apply(p, st, s).acts| && Apply(p, st, s).acts[s.i].exec in p.nodes
    ensures Decided(p, Apply(p, st, s).acts, run + [s], s.i)
  {
    hide Shape, Apply, Enabled, WellFormed, Skeleton, Doors, Promises, RoundsInTurn;
    var i, after := s.i, Apply(p, st, s).acts;
    SelfKept(p, st, s);
    KindSizes(p, st.acts[i].exec);
    var kind := p.nodes[st.acts[i].exec].kind;
    TimesNext(run, Finish(i, Ok, True), s);
    TimesNext(run, Finish(i, Ok, False), s);
    if kind.Loop? || kind.Select? {
      BodiesKept(st.acts, after, st.acts[i].bodies);
      if s.Finish? && s.o == Ok && !s.c.NotBool? {
        SelectOnce(p, lay, st, s);
        Deciding(p, st, i, s.c);
      } else {
        NotDeciding(p, st, s);
      }
    }
  }

  lemma SelfKept(p: Plan, st: State, s: Step)
    requires Shape(p) && InNodes(p, st) && Enabled(p, st, s)
    ensures s.i < |st.acts| <= |Apply(p, st, s).acts|
    ensures forall j :: 0 <= j < |st.acts| ==> Apply(p, st, s).acts[j].exec == st.acts[j].exec
  {
    hide Shape, Apply;
    OthersKept(p, st, s, s.i);
    forall j | 0 <= j < |st.acts| ensures Apply(p, st, s).acts[j].exec == st.acts[j].exec {
      OthersKept(p, st, s, j);
    }
  }

  /** A Select that is executing has started no body. */
  lemma SelectOnce(p: Plan, lay: Layout, st: State, s: Step)
    requires Inv(p, lay, st) && Enabled(p, st, s) && s.Finish?
    ensures p.nodes[st.acts[s.i].exec].kind.Select? ==> st.acts[s.i].bodies == []
  {
    hide WellFormed, Linked, Flow, Rooted, Doors, Promises, RoundsInTurn;
    assert Local(p, st.acts[s.i]);
  }

  lemma ExecIn(p: Plan, lay: Layout, st: State, i: nat)
    requires Inv(p, lay, st) && i < |st.acts|
    ensures InNodes(p, st) && st.acts[i].exec in p.nodes
  {
  }

  /** In every run the conditions decide: a Loop has run its body once for each true condition and ends
      well exactly with a false one; a Select has run the branch that its condition names. */
  lemma {:induction false} ConditionsDecide(p: Plan, lay: Layout, run: seq<Step>, i: nat)
    requires WellFormed(p, lay) && ValidRun(p, run) && i < |After(p, run).acts|
    ensures After(p, run).acts[i].exec in p.nodes && Decided(p, After(p, run).acts, run, i)
    decreases |run|
  {
    hide WellFormed, Shape, Apply, Init, Decided, Inv;
    HasShape(p, lay);
    InvHolds(p, lay, run);
    ExecIn(p, lay, After(p, run), i);
    if run == [] {
      InitDecided(p);
      NewDecided(p, After(p, run).acts, run, i);
    } else {
      var n := |run| - 1;
      var before, s := run[..n], run[n];
      var st := After(p, before);
      assert before + [s] == run;
      InvHolds(p, lay, before);
      SelfKept(p, st, s);
      OthersKept(p, st, s, s.i);
      if i == |st.acts| {
        NewcomerFresh(p, st, s);
        StepsExist(p, before);
        NewDecided(p, After(p, run).acts, run, i);
      } else {
        OthersKept(p, st, s, i);
        ConditionsDecide(p, lay, before, i);
        if i == s.i {
          StepDecided(p, lay, st, before, s);
        } else {
          OtherDecided(p, st.acts, After(p, run).acts, before, s, i);
        }
      }
    }
  }
}
