/** A PassThrough without successors, such as the root of a Loop body. */
module SchedulerGates {
  import opened Wrappers
  import opened ExecutorGraph
  import opened PassThroughGate
  import opened SchedulerSteps

  ghost predicate Lone(p: Plan, e: Exec) {
    e in p.nodes && p.nodes[e].kind.PassThrough? && p.Successors(e) == {}
  }

  ghost predicate LoneAct(a: Act, e: Exec, g: Gate)
    requires |g.promises| == 2
  {
    a.exec == e ==> a.leads && a.gen == 1 && (a.runs > 0 ==> g.promises[1].Some?)
  }

  /** Its gate opens one promise, for its first activation; one activation at most executes. */
  ghost predicate LoneOk(st: State, e: Exec) {
    && e in st.gates
    && var g := st.gates[e];
    if g.numOutputs == 0 then
      g.promises == [None] && forall i :: 0 <= i < |st.acts| ==> st.acts[i].exec != e
    else
      && g.numOutputs < 0 && |g.promises| == 2
      && (forall i :: 0 <= i < |st.acts| ==> LoneAct(st.acts[i], e, g))
      && (forall i, j :: 0 <= i < |st.acts| && 0 <= j < |st.acts| && Ran(st.acts[i], e) && Ran(st.acts[j], e) ==>
        i == j)
  }

  ghost predicate Ran(a: Act, e: Exec) {
    a.exec == e && a.runs > 0
  }

  lemma SetLone(st: State, i: nat, a: Act, e: Exec)
    requires LoneOk(st, e) && i < |st.acts| && a.exec == st.acts[i].exec && a.leads == st.acts[i].leads
    requires a.gen == st.acts[i].gen && (a.exec == e ==> a.runs == st.acts[i].runs)
    ensures LoneOk(SetAct(st, i, a), e)
  {
    var st', g := SetAct(st, i, a), st.gates[e];
    if g.numOutputs != 0 {
      assert LoneAct(st.acts[i], e, g);
    }
    forall j | 0 <= j < |st.acts| ensures Ran(st'.acts[j], e) <==> Ran(st.acts[j], e) { }
  }

  lemma EnterLone(p: Plan, st: State, f: Exec, caller: nat, round: nat, e: Exec)
    requires Shape(p) && InNodes(p, st) && f in p.nodes && LoneOk(st, e) && Lone(p, e)
    ensures LoneOk(Enter(p, st, f, caller, round), e)
  {
    hide Shape;
    var st', n := Enter(p, st, f, caller, round), |st.acts|;
    var g, g' := st.gates[e], st'.gates[e];
    if f == e {
      assert |p.Successors(e)| == 0;
      assert g' == Arrive(g, 0);
    }
    assert forall i :: 0 <= i < n ==> st'.acts[i] == st.acts[i];
    assert !Ran(st'.acts[n], e);
    forall i | 0 <= i < |st'.acts| ensures g'.numOutputs != 0 ==> |g'.promises| == 2 && LoneAct(st'.acts[i], e, g') {
      assert i < n && g.numOutputs != 0 ==> LoneAct(st.acts[i], e, g);
    }
    forall i, j | 0 <= i < |st'.acts| && 0 <= j < |st'.acts| && Ran(st'.acts[i], e) &&
      Ran(st'.acts[j], e) ensures i == j {
      assert Ran(st.acts[i], e) && Ran(st.acts[j], e);
    }
  }

  lemma CollectLone(p: Plan, st: State, i: nat, e: Exec)
    requires Shape(p) && InNodes(p, st) && Enabled(p, st, Collect(i)) && LoneOk(st, e) && Lone(p, e)
    ensures LoneOk(Apply(p, st, Collect(i)), e)
  {
    hide Shape;
    var st', g := Apply(p, st, Collect(i)), st.gates[e];
    var g' := st'.gates[e];
    if st.acts[i].exec == e {
      assert LoneAct(st.acts[i], e, g);
      forall j | 0 <= j < |st.acts| ensures LoneAct(st'.acts[j], e, g') { assert LoneAct(st.acts[j], e, g); }
      forall j, k | 0 <= j < |st.acts| && 0 <= k < |st.acts| && Ran(st'.acts[j], e) &&
        Ran(st'.acts[k], e) ensures j == k {
        assert LoneAct(st.acts[j], e, g) && LoneAct(st.acts[k], e, g);
        assert j != i ==> Ran(st.acts[j], e);
        assert k != i ==> Ran(st.acts[k], e);
      }
    } else {
      SetLone(st, i, st'.acts[i], e);
      assert st'.acts == SetAct(st, i, st'.acts[i]).acts && g' == g;
    }
  }

  lemma FinishLone(p: Plan, st: State, i: nat, o: Outcome, c: Cond, e: Exec)
    requires Shape(p) && InNodes(p, st) && Enabled(p, st, Finish(i, o, c)) && LoneOk(st, e) && Lone(p, e)
    ensures LoneOk(Apply(p, st, Finish(i, o, c)), e)
  {
    hide LoneOk, Enter;
    var a := st.acts[i];
    var n := p.nodes[a.exec];
    SetLone(st, i, a.(phase := Done(o)), e);
    SetLone(st, i, a.(phase := Done(Thrown)), e);
    SetLone(st, i, a.(phase := Done(Ok)), e);
    if !(n.kind.Ordinary? || n.kind.PassThrough? || o != Ok || c.NotBool? || (n.kind.Loop? && c.False?)) {
      var b := if n.kind.Select? && c.False? then n.bodies[1] else n.bodies[0];
      var called := a.(phase := InBody, bodies := a.bodies + [|st.acts|]);
      SetLone(st, i, called, e);
      EnterLone(p, SetAct(st, i, called), b, i, |st.acts|, e);
    }
  }

  lemma CallLone(p: Plan, st: State, i: nat, d: Exec, e: Exec)
    requires Shape(p) && InNodes(p, st) && Enabled(p, st, Call(i, d)) && LoneOk(st, e) && Lone(p, e)
    ensures LoneOk(Apply(p, st, Call(i, d)), e)
  {
    hide LoneOk, Enter;
    var called := st.acts[i].(kids := st.acts[i].kids[d := |st.acts|]);
    SetLone(st, i, called, e);
    EnterLone(p, SetAct(st, i, called), d, i, st.acts[i].round, e);
  }

  lemma StepLone(p: Plan, st: State, s: Step, e: Exec)
    requires Shape(p) && InNodes(p, st) && Enabled(p, st, s) && LoneOk(st, e) && Lone(p, e)
    ensures LoneOk(Apply(p, st, s), e)
  {
    hide Shape, LoneOk, Enter;
    match s
    case Call(i, d) => CallLone(p, st, i, d, e);
    case Collect(i) => CollectLone(p, st, i, e);
    case Finish(i, o, c) => FinishLone(p, st, i, o, c, e);
    case BodyDone(i) => SetLone(st, i, Apply(p, st, s).acts[i], e);
    case Resume(i) => SetLone(st, i, Apply(p, st, s).acts[i], e);
  }

  lemma InitLone(p: Plan, e: Exec)
    requires Shape(p) && Lone(p, e)
    ensures LoneOk(Init(p), e)
  {
    var gates := map f | f in p.nodes && p.nodes[f].kind.PassThrough? :: Fresh(|p.Successors(f)|);
    assert LoneOk(State([], gates), e);
    EnterLone(p, State([], gates), p.root, 0, 0, e);
  }

  lemma {:induction false} LoneHolds(p: Plan, run: seq<Step>, e: Exec)
    requires Shape(p) && ValidRun(p, run) && Lone(p, e)
    ensures LoneOk(After(p, run), e)
    decreases |run|
  {
    hide Shape, LoneOk;
    if run == [] {
      InitLone(p, e);
    } else {
      LoneHolds(p, run[..|run| - 1], e);
      StepLone(p, After(p, run[..|run| - 1]), run[|run| - 1], e);
    }
  }

  /** In every run of every plan, a PassThrough without successors executes at most once: used as
      the root of a Loop body it works for one round only. */
  lemma LoneExecutesOnce(p: Plan, run: seq<Step>, e: Exec, i: nat, j: nat)
    requires Shape(p) && ValidRun(p, run) && Lone(p, e)
    requires i < |After(p, run).acts| && j < |After(p, run).acts|
    requires Ran(After(p, run).acts[i], e) && Ran(After(p, run).acts[j], e)
    ensures i == j
  {
    hide Shape, After, ValidRun;
    LoneHolds(p, run, e);
  }

  /** Once it has executed, every other activation of it ends with an exception when its
      dependencies have ended. */
  lemma LoneThenThrows(p: Plan, run: seq<Step>, e: Exec, i: nat, j: nat)
    requires Shape(p) && ValidRun(p, run) && Lone(p, e) && InNodes(p, After(p, run))
    requires i < |After(p, run).acts| && Ran(After(p, run).acts[i], e)
    requires Enabled(p, After(p, run), Collect(j)) && After(p, run).acts[j].exec == e
    ensures Apply(p, After(p, run), Collect(j)) == SetAct(After(p, run), j,
      After(p, run).acts[j].(phase := Done(Thrown)))
  {
    hide Shape, After, ValidRun;
    LoneHolds(p, run, e);
    assert LoneAct(After(p, run).acts[i], e, After(p, run).gates[e]);
  }
}
