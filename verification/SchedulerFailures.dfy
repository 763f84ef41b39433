/** Failure-free schedules, and what a failure stops. */
module SchedulerFailures {
  import opened ExecutorGraph
  import opened PassThroughGate
  import opened Wrappers
  import opened SchedulerSteps
  import opened SchedulerInvariant
  import opened SchedulerPreservation
  import opened SchedulerRuns
  import opened SchedulerTheorems

  // ---- Failure-free schedules ----

  /** The step ends an `execute` with a failure, or that of a Loop without a truth value. */
  ghost predicate BadStep(p: Plan, st: State, s: Step)
    requires InNodes(p, st)
  {
    && s.Finish? && s.i < |st.acts|
    && (s.o != Ok || (s.c.NotBool? && p.nodes[st.acts[s.i].exec].kind.Loop?))
  }

  /** No step of the run is bad. */
  ghost predicate FailureFree(p: Plan, run: seq<Step>)
    requires Shape(p) && ValidRun(p, run)
    decreases |run|
  {
    run == [] ||
    (FailureFree(p, run[..|run| - 1]) && !BadStep(p, After(p, run[..|run| - 1]), run[|run| - 1]))
  }

  /** Whatever has ended has ended well. */
  ghost predicate AllWell(st: State) {
    && (forall i :: 0 <= i < |st.acts| ==> EndedWell(st.acts[i]))
    && (forall e, g :: e in st.gates && 0 <= g < |st.gates[e].promises| ==> PromisedWell(st.gates[e].promises[g]))
  }

  ghost predicate EndedWell(a: Act) {
    a.phase.Done? ==> a.phase == Done(Ok)
  }

  ghost predicate PromisedWell(o: Option<Outcome>) {
    o.Some? ==> o == Some(Ok)
  }

  lemma CollectWell(p: Plan, lay: Layout, st: State, i: nat)
    requires Inv(p, lay, st) && AllWell(st) && Enabled(p, st, Collect(i))
    ensures AllWell(Apply(p, st, Collect(i)))
  {
    hide WellFormed, Shape, Linked, Rooted, Flow, InStep, CountdownOk, LeaderOk, KeptPromise;
    HasShape(p, lay);
    assert Local(p, st.acts[i]) && PromiseOk(p, st, i);
    forall d | d in st.acts[i].kids && st.acts[i].kids[d] < |st.acts| ensures EndedWell(st.acts[st.acts[i].kids[d]]) { }
  }

  lemma SetWell(st: State, i: nat, a: Act)
    requires AllWell(st) && i < |st.acts| && EndedWell(a)
    ensures AllWell(SetAct(st, i, a))
  {
  }

  lemma EnterWell(p: Plan, st: State, e: Exec, caller: nat, round: nat)
    requires Shape(p) && InNodes(p, st) && e in p.nodes && AllWell(st)
    ensures AllWell(Enter(p, st, e, caller, round))
  {
    hide Shape;
    var st' := Enter(p, st, e, caller, round);
    assert EndedWell(st'.acts[|st.acts|]);
    forall f, g | f in st'.gates && 0 <= g < |st'.gates[f].promises| ensures PromisedWell(st'.gates[f].promises[g]) {
      assert f in st.gates && g < |st.gates[f].promises| ==> PromisedWell(st.gates[f].promises[g]);
    }
  }

  lemma FinishWell(p: Plan, st: State, i: nat, o: Outcome, c: Cond)
    requires Shape(p) && InNodes(p, st) && AllWell(st) && Enabled(p, st, Finish(i, o, c))
    requires !BadStep(p, st, Finish(i, o, c))
    ensures AllWell(Apply(p, st, Finish(i, o, c)))
  {
    hide AllWell, Enter;
    var a := st.acts[i];
    var n := p.nodes[a.exec];
    SetWell(st, i, a.(phase := Done(Ok)));
    if !(n.kind.Ordinary? || n.kind.PassThrough? || (n.kind.Loop? && c.False?)) {
      var b := if n.kind.Select? && c.False? then n.bodies[1] else n.bodies[0];
      var called := a.(phase := InBody, bodies := a.bodies + [|st.acts|]);
      SetWell(st, i, called);
      EnterWell(p, SetAct(st, i, called), b, i, |st.acts|);
    }
  }

  lemma CallWell(p: Plan, st: State, i: nat, d: Exec)
    requires Shape(p) && InNodes(p, st) && AllWell(st) && Enabled(p, st, Call(i, d))
    ensures AllWell(Apply(p, st, Call(i, d)))
  {
    hide AllWell, Enter;
    var called := st.acts[i].(kids := st.acts[i].kids[d := |st.acts|]);
    SetWell(st, i, called);
    EnterWell(p, SetAct(st, i, called), d, i, st.acts[i].round);
  }

  lemma StepWell(p: Plan, lay: Layout, st: State, s: Step)
    requires Inv(p, lay, st) && AllWell(st) && Enabled(p, st, s) && !BadStep(p, st, s)
    ensures AllWell(Apply(p, st, s))
  {
    hide WellFormed, Shape, Inv;
    InvShape(p, lay, st);
    match s
    case Call(i, d) => CallWell(p, st, i, d);
    case Collect(i) => CollectWell(p, lay, st, i);
    case Finish(i, o, c) => FinishWell(p, st, i, o, c);
    case BodyDone(i) => assert EndedWell(st.acts[st.acts[i].bodies[|st.acts[i].bodies| - 1]]);
    case Resume(i) => assert PromisedWell(st.gates[st.acts[i].exec].promises[st.acts[i].gen]);
  }

  lemma InvShape(p: Plan, lay: Layout, st: State)
    requires Inv(p, lay, st)
    ensures Shape(p) && InNodes(p, st)
  {
  }

  /** In every failure-free run all that has ended has ended well. */
  lemma {:induction false} FailureFreeWell(p: Plan, lay: Layout, run: seq<Step>)
    requires WellFormed(p, lay) && ValidRun(p, run) && FailureFree(p, run)
    ensures AllWell(After(p, run))
    decreases |run|
  {
    hide WellFormed, Inv, AllWell;
    HasShape(p, lay);
    if run == [] {
      InitWell(p);
    } else {
      var before := run[..|run| - 1];
      FailureFreeWell(p, lay, before);
      InvHolds(p, lay, before);
      StepWell(p, lay, After(p, before), run[|run| - 1]);
    }
  }

  lemma InitWell(p: Plan)
    requires Shape(p)
    ensures AllWell(Init(p))
  {
  }

  /** In every failure-free run, each finished round (of the root, of a Select branch or of a
      Loop body) has executed every executor of its body exactly once: there is one activation
      that scheduled its dependencies, it has ended well, and it called `execute` once, or, for
      a Loop, once more than its body ran; no other activation of that round called it. */
  lemma ExactlyOncePerRound(p: Plan, lay: Layout, run: seq<Step>, r: nat, e: Exec) returns (i: nat)
    requires WellFormed(p, lay) && ValidRun(p, run) && FailureFree(p, run)
    requires r < |After(p, run).acts| && After(p, run).acts[r].phase.Done?
    requires e in p.nodes && lay.region[e] == After(p, run).acts[r].exec
    ensures RanOnce(p, After(p, run).acts, r, e, i)
  {
    hide WellFormed, ValidRun, After, Shape;
    HasShape(p, lay);
    FailureFreeWell(p, lay, run);
    assert EndedWell(After(p, run).acts[r]);
    i := RoundRanOnce(p, lay, run, r, e);
  }

  ghost predicate RanOnce(p: Plan, acts: seq<Act>, r: nat, e: Exec, i: nat)
    requires e in p.nodes
  {
    && i < |acts| && acts[i].exec == e && acts[i].round == r && acts[i].leads && acts[i].phase == Done(Ok)
    && acts[i].runs == (if p.nodes[e].kind.Loop? then |acts[i].bodies| + 1 else 1)
    && (forall j :: 0 <= j < |acts| && acts[j].exec == e && acts[j].round == r && j != i ==> acts[j].runs == 0)
  }

  /** A failure-free run that cannot go on has completed its root, and well. */
  lemma FailureFreeCompletes(p: Plan, lay: Layout, run: seq<Step>)
    requires WellFormed(p, lay) && ValidRun(p, run) && FailureFree(p, run)
    requires InNodes(p, After(p, run)) && Stuck(p, After(p, run))
    ensures |After(p, run).acts| > 0 && After(p, run).acts[0].phase == Done(Ok)
  {
    hide WellFormed, Shape, ValidRun, After;
    HasShape(p, lay);
    InvHolds(p, lay, run);
    FailureFreeWell(p, lay, run);
    assert EndedWell(After(p, run).acts[0]);
    if RootPending(After(p, run)) {
      NeverStuck(p, lay, run);
      assert false;
    }
  }

  // ---- What a failure stops ----

  /** An activation that has ended, and not well. */
  ghost predicate Failed(a: Act) {
    a.phase.Done? && a.phase != Done(Ok)
  }

  /** Each activation of the chain was called by the next: by an executor that depends on it,
      or by the Select or Loop whose body it runs. */
  ghost predicate Chain(st: State, chain: seq<nat>) {
    && |chain| > 0
    && (forall k :: 0 <= k < |chain| ==> chain[k] < |st.acts|)
    && (forall k :: 0 <= k < |chain| - 1 ==> chain[k] > 0 && st.acts[chain[k]].caller == chain[k + 1])
  }

  /** The caller `c` of an activation `x` that has not ended well: it has not ended well either
      and is not executing. If it depends on `x` it has never executed; if `x` is its body, `x` is
      the last round. */
  ghost predicate Held(p: Plan, lay: Layout, st: State, x: nat, c: nat)
    requires x < |st.acts| && c < |st.acts| && st.acts[c].exec in p.nodes
  {
    && st.acts[c].leads && st.acts[c].phase != Done(Ok) && !st.acts[c].phase.Executing?
    && (!IsRoot(lay, st.acts[x].exec) ==> st.acts[c].runs == 0)
    && (IsRoot(lay, st.acts[x].exec) ==>
          && !p.nodes[st.acts[c].exec].kind.PassThrough?
          && st.acts[c].bodies != [] && st.acts[c].bodies[|st.acts[c].bodies| - 1] == x)
  }

  lemma CallerHeld(p: Plan, lay: Layout, st: State, x: nat)
    requires Inv(p, lay, st) && 0 < x < |st.acts| && st.acts[x].phase != Done(Ok)
    ensures st.acts[x].caller < x && Held(p, lay, st, x, st.acts[x].caller)
  {
    hide WellFormed, InStep, CountdownOk, LeaderOk, KeptPromise, PromiseOk;
    assert Linked(p, lay, st, x);
    var c := st.acts[x].caller;
    assert Local(p, st.acts[c]) && Flow(st, c) && Rooted(p, st, c);
    if IsRoot(lay, st.acts[x].exec) {
      var k :| 0 <= k < |st.acts[c].bodies| && st.acts[c].bodies[k] == x;
    }
  }

  lemma {:induction false} ChainHeld(p: Plan, lay: Layout, st: State, chain: seq<nat>, k: nat)
    requires Inv(p, lay, st) && Chain(st, chain) && 0 < k < |chain| && st.acts[chain[0]].phase != Done(Ok)
    ensures Held(p, lay, st, chain[k - 1], chain[k])
    decreases k
  {
    hide Inv;
    if k > 1 {
      ChainHeld(p, lay, st, chain, k - 1);
    }
    CallerHeld(p, lay, st, chain[k - 1]);
  }

  /** `execute` is counted when it is called. */
  lemma RunsCounted(p: Plan, st: State, s: Step, i: nat)
    requires Shape(p) && InNodes(p, st) && Enabled(p, st, s) && i < |st.acts|
    ensures i < |Apply(p, st, s).acts|
    ensures Apply(p, st, s).acts[i].runs == st.acts[i].runs || Apply(p, st, s).acts[i].phase.Executing?
  {
  }

  lemma StillFailed(p: Plan, lay: Layout, run: seq<Step>, more: seq<Step>, j: nat)
    requires WellFormed(p, lay) && ValidRun(p, run) && ValidRun(p, more) && run <= more
    requires j < |After(p, run).acts| && Failed(After(p, run).acts[j])
    ensures j < |After(p, more).acts| && Failed(After(p, more).acts[j])
  {
    hide WellFormed, ValidRun, After, Shape;
    HasShape(p, lay);
    RunGrows(p, lay, run, more);
    assert Kept(After(p, run).acts[j], After(p, more).acts[j]);
  }

  /** Once an activation has failed, in every continuation of the run the root of its round does
      not end well. */
  lemma FailureSpoilsRound(p: Plan, lay: Layout, run: seq<Step>, more: seq<Step>, j: nat)
    requires WellFormed(p, lay) && ValidRun(p, run) && ValidRun(p, more) && run <= more
    requires j < |After(p, run).acts| && Failed(After(p, run).acts[j])
    ensures var acts := After(p, more).acts;
            j < |acts| && acts[j].round < |acts| && acts[acts[j].round].phase != Done(Ok)
  {
    hide WellFormed, ValidRun, After, Shape;
    HasShape(p, lay);
    StillFailed(p, lay, run, more, j);
    InvHolds(p, lay, more);
    var st := After(p, more);
    assert Linked(p, lay, st, j);
    if st.acts[st.acts[j].round].phase == Done(Ok) {
      RoundDone(p, lay, st, j);
    }
  }

  /** Once an activation has failed, everything above it stops, in every continuation of the run:
      no activation on the chain of callers, through dependencies and through the Selects and
      Loops that own the bodies, up to the root, ends well or calls `execute` again, and a body
      that failed is the last one its owner starts. */
  lemma FailureClimbs(p: Plan, lay: Layout, run: seq<Step>, more: seq<Step>, chain: seq<nat>, k: nat)
    requires WellFormed(p, lay) && ValidRun(p, run) && ValidRun(p, more) && run <= more
    requires Chain(After(p, run), chain) && 0 < k < |chain| && Failed(After(p, run).acts[chain[0]])
    ensures var acts, acts' := After(p, run).acts, After(p, more).acts;
            && Chain(After(p, more), chain) && acts'[chain[k]].exec in p.nodes
            && Held(p, lay, After(p, more), chain[k - 1], chain[k])
            && acts'[chain[k]].runs == acts[chain[k]].runs
    decreases |more|
  {
    hide WellFormed, ValidRun, After, Shape, Held;
    HasShape(p, lay);
    InvHolds(p, lay, more);
    ChainKept(p, lay, run, more, chain);
    StillFailed(p, lay, run, more, chain[0]);
    ChainHeld(p, lay, After(p, more), chain, k);
    RunsKept(p, lay, run, more, chain, k);
  }

  lemma ChainKept(p: Plan, lay: Layout, run: seq<Step>, more: seq<Step>, chain: seq<nat>)
    requires WellFormed(p, lay) && ValidRun(p, run) && ValidRun(p, more) && run <= more && Chain(After(p, run), chain)
    ensures Chain(After(p, more), chain)
  {
    hide WellFormed, ValidRun, After, Shape;
    HasShape(p, lay);
    RunGrows(p, lay, run, more);
    forall k | 0 <= k < |chain| ensures Kept(After(p, run).acts[chain[k]], After(p, more).acts[chain[k]]) { }
  }

  lemma {:induction false} RunsKept(p: Plan, lay: Layout, run: seq<Step>, more: seq<Step>, chain: seq<nat>, k: nat)
    requires WellFormed(p, lay) && ValidRun(p, run) && ValidRun(p, more) && run <= more
    requires Chain(After(p, run), chain) && 0 < k < |chain| && Failed(After(p, run).acts[chain[0]])
    ensures chain[k] < |After(p, more).acts| && After(p, more).acts[chain[k]].runs == After(p, run).acts[chain[k]].runs
    decreases |more|
  {
    hide WellFormed, Shape, Inv;
    HasShape(p, lay);
    if |more| > |run| {
      var m := more[..|more| - 1];
      RunsKept(p, lay, run, m, chain, k);
      InvHolds(p, lay, more);
      ChainKept(p, lay, run, more, chain);
      StillFailed(p, lay, run, more, chain[0]);
      ChainHeld(p, lay, After(p, more), chain, k);
      RunsCounted(p, After(p, m), more[|more| - 1], chain[k]);
    } else {
      assert run == more;
    }
  }

  /** And nothing that depends, directly or not, on an executor above the failure ever executes
      in the round of that executor. */
  lemma FailureStops(p: Plan, lay: Layout, run: seq<Step>, more: seq<Step>, chain: seq<nat>, k: nat, i: nat,
                     path: seq<Exec>)
    requires WellFormed(p, lay) && ValidRun(p, run) && ValidRun(p, more) && run <= more
    requires Chain(After(p, run), chain) && 0 < k < |chain| && Failed(After(p, run).acts[chain[0]])
    requires DependencyPath(p, path) && |path| > 1 && chain[k] < |After(p, more).acts| && i < |After(p, more).acts|
    requires var acts := After(p, more).acts;
             acts[i].exec == path[0] && acts[chain[k]].exec == path[|path| - 1] && acts[i].round == acts[chain[k]].round
    ensures After(p, more).acts[i].runs == 0
  {
    hide WellFormed, ValidRun, After, Shape;
    HasShape(p, lay);
    FailureClimbs(p, lay, run, more, chain, k);
    InvHolds(p, lay, more);
    var st := After(p, more);
    if st.acts[i].runs > 0 {
      var l := DependenciesEnded(p, lay, st, i, path);
      UniqueLeader(p, lay, st, l, chain[k]);
      assert false;
    }
  }
}
