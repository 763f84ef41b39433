/** What the scheduler promises about whole runs. */
module SchedulerTheorems {
  import opened Wrappers
  import opened ExecutorGraph
  import opened PassThroughGate
  import opened SchedulerSteps
  import opened SchedulerInvariant
  import opened SchedulerPreservation
  import opened SchedulerRuns
  import Arith

  // ---- Progress ----

  ghost predicate Stuck(p: Plan, st: State)
    requires Shape(p) && InNodes(p, st)
  {
    forall s: Step :: !Enabled(p, st, s)
  }

  lemma StuckSaturated(p: Plan, lay: Layout, st: State, r: nat)
    requires Inv(p, lay, st) && Stuck(p, st)
    ensures Saturated(p, st, r)
  {
    hide WellFormed, Shape;
    HasShape(p, lay);
    forall i | 0 <= i < |st.acts| && st.acts[i].round == r && st.acts[i].leads
      ensures st.acts[i].kids.Keys == p.nodes[st.acts[i].exec].deps
    {
      AllCalled(p, lay, st, i);
    }
  }

  lemma AllCalled(p: Plan, lay: Layout, st: State, i: nat)
    requires Inv(p, lay, st) && Stuck(p, st) && i < |st.acts| && st.acts[i].leads
    ensures st.acts[i].kids.Keys == p.nodes[st.acts[i].exec].deps
  {
    hide WellFormed, Shape;
    HasShape(p, lay);
    assert Local(p, st.acts[i]) && Rooted(p, st, i);
    if st.acts[i].phase.Calling? {
      forall d
        ensures d in st.acts[i].kids.Keys <==> d in p.nodes[st.acts[i].exec].deps
      {
        assert !Enabled(p, st, Call(i, d));
      }
    }
  }

  lemma PhaseCases(ph: Phase)
    ensures ph in {Calling, Parked, Executing, InBody, Done(Ok), Done(BadStatus), Done(Thrown)}
  {
    if ph.Done? {
      match ph.outcome {
        case Ok =>
        case BadStatus =>
        case Thrown =>
      }
    }
  }

  /** If nothing can move, an exception has climbed all the way to the root. */
  lemma ThrownReachesRoot(p: Plan, lay: Layout, st: State, i: nat)
    requires Inv(p, lay, st) && Stuck(p, st)
    requires i < |st.acts| && st.acts[i].phase == Done(Thrown) && st.acts[i].leads
    ensures st.acts[0].phase == Done(Thrown)
    decreases i
  {
    hide WellFormed, Shape;
    HasShape(p, lay);
    assert Linked(p, lay, st, i);
    if i > 0 {
      var c := st.acts[i].caller;
      assert Local(p, st.acts[c]) && Flow(st, c) && Rooted(p, st, c);
      PhaseCases(st.acts[c].phase);
      if IsRoot(lay, st.acts[i].exec) {
        var k :| 0 <= k < |st.acts[c].bodies| && st.acts[c].bodies[k] == i;
        assert !Enabled(p, st, BodyDone(c));
      } else {
        AllCalled(p, lay, st, c);
        assert KidThrown(st, c);
        assert !Enabled(p, st, Collect(c));
        assert !KidsOk(st, c);
      }
      ThrownReachesRoot(p, lay, st, c);
    }
  }

  /** If nothing can move and no exception was raised, nothing is unfinished. The
      unfinished activation of least rank would have a move. */
  lemma NothingPending(p: Plan, lay: Layout, st: State, i: nat)
    requires Inv(p, lay, st) && Stuck(p, st) && i < |st.acts|
    requires forall j :: 0 <= j < |st.acts| && st.acts[j].leads ==> st.acts[j].phase != Done(Thrown)
    ensures st.acts[i].phase.Done?
    decreases if st.acts[i].exec in lay.rank then lay.rank[st.acts[i].exec] else 0, if st.acts[i].leads then 0 else 1
  {
    hide WellFormed, Shape;
    HasShape(p, lay);
    var a := st.acts[i];
    assert Local(p, a) && Rooted(p, st, i) && Flow(st, i) && Linked(p, lay, st, i);
    NodeFacts(p, lay, a.exec);
    assert !Enabled(p, st, Finish(i, Ok, True)) && !Enabled(p, st, BodyDone(i)) && !Enabled(p, st, Collect(i));
    if a.phase.InBody? {
      var b := a.bodies[|a.bodies| - 1];
      BodyFacts(p, lay, a.exec, st.acts[b].exec);
      NothingPending(p, lay, st, b);
    } else if a.phase.Calling? {
      AllCalled(p, lay, st, i);
      forall d | d in a.kids
        ensures st.acts[a.kids[d]].phase.Done?
      {
        DependencyFacts(p, lay, a.exec, d);
        NothingPending(p, lay, st, a.kids[d]);
      }
    } else if a.phase.Parked? {
      ParkedMoves(p, lay, st, i);
      var l := ParkedLeader(p, lay, st, i);
      assert PromiseOk(p, st, l);
      NothingPending(p, lay, st, l);
    }
  }

  lemma ParkedMoves(p: Plan, lay: Layout, st: State, i: nat)
    requires Inv(p, lay, st) && Stuck(p, st) && i < |st.acts| && st.acts[i].phase.Parked?
    ensures st.acts[i].gen < |st.gates[st.acts[i].exec].promises|
    ensures st.gates[st.acts[i].exec].promises[st.acts[i].gen].None?
  {
    hide WellFormed, Shape;
    HasShape(p, lay);
    assert Local(p, st.acts[i]) && PromiseOk(p, st, i);
    assert !Enabled(p, st, Resume(i));
  }

  lemma ParkedLeader(p: Plan, lay: Layout, st: State, i: nat) returns (l: nat)
    requires Inv(p, lay, st) && Stuck(p, st) && i < |st.acts| && st.acts[i].phase.Parked?
    ensures IsLeader(st, l, st.acts[i].exec, st.acts[i].gen)
  {
    hide WellFormed, Shape;
    var e, r := st.acts[i].exec, st.acts[i].round;
    assert Local(p, st.acts[i]) && Linked(p, lay, st, i);
    NodeFacts(p, lay, e);
    StuckSaturated(p, lay, st, r);
    l := LeaderPresent(p, lay, st, r, e);
    assert InStep(p, st, l, i) && InStep(p, st, i, l);
  }

  ghost predicate RootPending(st: State) {
    |st.acts| > 0 && !st.acts[0].phase.Done?
  }

  /** In every run, failing or not, there is a step to take until the root's future is
      complete: no interleaving deadlocks. */
  lemma NeverStuck(p: Plan, lay: Layout, run: seq<Step>)
    requires WellFormed(p, lay) && ValidRun(p, run) && RootPending(After(p, run))
    ensures InNodes(p, After(p, run))
    ensures exists s: Step :: Enabled(p, After(p, run), s)
  {
    hide WellFormed, Shape, ValidRun, After;
    HasShape(p, lay);
    InvHolds(p, lay, run);
    var st := After(p, run);
    if Stuck(p, st) {
      forall j | 0 <= j < |st.acts| && st.acts[j].leads
        ensures st.acts[j].phase != Done(Thrown)
      {
        if st.acts[j].phase == Done(Thrown) {
          ThrownReachesRoot(p, lay, st, j);
        }
      }
      NothingPending(p, lay, st, 0);
      assert false;
    }
  }

  // ---- Order ----

  /** Activation `j` of a dependency has ended, as far as its dependents need it to. */
  ghost predicate EndedFor(p: Plan, st: State, i: nat, j: nat, d: Exec)
    requires d in p.nodes
  {
    && i < |st.acts| && j < |st.acts|
    && st.acts[j].exec == d && st.acts[j].round == st.acts[i].round && st.acts[j].leads
    && st.acts[j].runs > 0
    && (!p.nodes[d].kind.PassThrough? ==> st.acts[j].phase == Done(Ok))
  }

  lemma DirectDependencyEnded(p: Plan, lay: Layout, st: State, i: nat, d: Exec) returns (j: nat)
    requires Inv(p, lay, st) && i < |st.acts| && st.acts[i].runs > 0
    requires d in p.nodes[st.acts[i].exec].deps && d in p.nodes
    ensures EndedFor(p, st, i, j, d)
  {
    hide WellFormed, CountdownOk, LeaderOk;
    DependencyFacts(p, lay, st.acts[i].exec, d);
    assert Local(p, st.acts[i]) && Flow(st, i) && Rooted(p, st, i);
    j := st.acts[i].kids[d];
    assert Local(p, st.acts[j]) && Linked(p, lay, st, j) && PromiseOk(p, st, j);
    if !st.acts[j].leads {
      var w, g := j, st.acts[j].gen;
      assert KeptPromise(st, d, g);
      j :| HasRun(st, j, d, g);
      assert InStep(p, st, w, j) && InStep(p, st, j, w);
    }
  }

  lemma DependenciesEnded(p: Plan, lay: Layout, st: State, i: nat, path: seq<Exec>) returns (j: nat)
    requires Inv(p, lay, st) && i < |st.acts| && st.acts[i].runs > 0
    requires DependencyPath(p, path) && |path| > 1 && path[0] == st.acts[i].exec
    ensures EndedFor(p, st, i, j, path[|path| - 1])
    decreases |path|
  {
    hide Inv, EndedFor;
    j := DirectDependencyEnded(p, lay, st, i, path[1]);
    if |path| > 2 {
      EndedForHasRun(p, st, i, j, path[1]);
      var k := DependenciesEnded(p, lay, st, j, path[1..]);
      EndedForCompose(p, st, i, j, k, path[1], path[|path| - 1]);
      j := k;
    }
  }

  lemma EndedForHasRun(p: Plan, st: State, i: nat, j: nat, d: Exec)
    requires d in p.nodes && EndedFor(p, st, i, j, d)
    ensures j < |st.acts| && st.acts[j].runs > 0 && st.acts[j].exec == d
  {
  }

  lemma EndedForCompose(p: Plan, st: State, i: nat, j: nat, k: nat, d: Exec, f: Exec)
    requires d in p.nodes && f in p.nodes && EndedFor(p, st, i, j, d) && EndedFor(p, st, j, k, f)
    ensures EndedFor(p, st, i, k, f)
  {
  }

  /** In every run, an executor that has called `execute` did so after everything it
      transitively depends on: each ordinary dependency of that round has closed well, and
      each PassThrough on the way has at least been released. */
  lemma StartsAfterDependencies(p: Plan, lay: Layout, run: seq<Step>, i: nat, path: seq<Exec>) returns (j: nat)
    requires WellFormed(p, lay) && ValidRun(p, run)
    requires i < |After(p, run).acts| && After(p, run).acts[i].runs > 0
    requires DependencyPath(p, path) && |path| > 1 && path[0] == After(p, run).acts[i].exec
    ensures EndedFor(p, After(p, run), i, j, path[|path| - 1])
  {
    InvHolds(p, lay, run);
    j := DependenciesEnded(p, lay, After(p, run), i, path);
  }

  // ---- Exactly once ----

  /** Once a body activation has ended well (the root, a Select branch, or one
      round of a Loop), each executor of that body has exactly one activation that scheduled
      its dependencies, that activation has ended well, and it called `execute` once, or,
      for a Loop, once more than its body ran. */
  lemma RoundRanOnce(p: Plan, lay: Layout, run: seq<Step>, r: nat, e: Exec) returns (i: nat)
    requires WellFormed(p, lay) && ValidRun(p, run)
    requires r < |After(p, run).acts| && After(p, run).acts[r].phase == Done(Ok)
    requires e in p.nodes && lay.region[e] == After(p, run).acts[r].exec
    ensures var acts := After(p, run).acts;
            && i < |acts| && acts[i].exec == e && acts[i].round == r && acts[i].leads && acts[i].phase == Done(Ok)
            && acts[i].runs == (if p.nodes[e].kind.Loop? then |acts[i].bodies| + 1 else 1)
            && (forall j :: 0 <= j < |acts| && acts[j].exec == e && acts[j].round == r && j != i ==> acts[j].runs == 0)
  {
    hide WellFormed, After, ValidRun, Shape;
    HasShape(p, lay);
    InvHolds(p, lay, run);
    NodeFacts(p, lay, e);
    var st := After(p, run);
    DoneIsSaturated(p, lay, st, r);
    i := LeaderPresent(p, lay, st, r, e);
    RoundDone(p, lay, st, i);
    assert Local(p, st.acts[i]);
    forall j | 0 <= j < |st.acts| && st.acts[j].exec == e && st.acts[j].round == r && j != i
      ensures st.acts[j].runs == 0
    {
      assert Local(p, st.acts[j]);
      if st.acts[j].leads {
        UniqueLeader(p, lay, st, i, j);
        assert false;
      }
    }
  }

  // ---- Failure ----

  /** A step creates at most one activation, and of a PassThrough only by a Call. */
  ghost predicate Effect(p: Plan, st: State, st': State) {
    && Grows(st, st')
    && (|st'.acts| == |st.acts| ||
        (|st'.acts| == |st.acts| + 1 && st'.acts[|st.acts|].exec in p.nodes &&
         !p.nodes[st'.acts[|st.acts|].exec].kind.PassThrough?))
  }

  lemma FinishEffect(p: Plan, lay: Layout, st: State, i: nat, o: Outcome, c: Cond)
    requires WellFormed(p, lay) && InNodes(p, st) && Enabled(p, st, Finish(i, o, c))
    ensures Effect(p, st, Apply(p, st, Finish(i, o, c))) && Apply(p, st, Finish(i, o, c)).gates == st.gates
  {
    hide WellFormed, Effect;
    HasShape(p, lay);
    var n := p.nodes[st.acts[i].exec];
    if n.kind.Ordinary? || n.kind.PassThrough? || o != Ok || c.NotBool? || (n.kind.Loop? && c.False?) {
      FinishHere(p, st, i, o, c);
    } else {
      var b := if n.kind.Select? && c.False? then n.bodies[1] else n.bodies[0];
      FinishShape(p, lay, st, i, b, o, c);
      BodyEffect(p, st, Apply(p, st, Finish(i, o, c)), i, b);
    }
  }

  lemma FinishHere(p: Plan, st: State, i: nat, o: Outcome, c: Cond)
    requires Shape(p) && InNodes(p, st) && Enabled(p, st, Finish(i, o, c))
    requires var n := p.nodes[st.acts[i].exec];
      n.kind.Ordinary? || n.kind.PassThrough? || o != Ok || c.NotBool? || (n.kind.Loop? && c.False?)
    ensures Effect(p, st, Apply(p, st, Finish(i, o, c))) && Apply(p, st, Finish(i, o, c)).gates == st.gates
  {
    var st' := Apply(p, st, Finish(i, o, c));
    GrowsBy(st, st', i, st'.acts[i], []);
  }

  lemma BodyEffect(p: Plan, st: State, st': State, i: nat, b: Exec)
    requires Shape(p) && InNodes(p, st) && StartsBody(p, st, st', i, b)
    ensures Effect(p, st, st') && st'.gates == st.gates
  {
  }

  lemma PlainEffect(p: Plan, st: State, s: Step)
    requires Shape(p) && InNodes(p, st) && Enabled(p, st, s) && (s.BodyDone? || s.Resume?)
    ensures Effect(p, st, Apply(p, st, s)) && Apply(p, st, s).gates == st.gates
  {
    var st' := Apply(p, st, s);
    GrowsBy(st, st', s.i, st'.acts[s.i], []);
  }

  lemma CollectEffect(p: Plan, lay: Layout, st: State, i: nat)
    requires Inv(p, lay, st) && Enabled(p, st, Collect(i))
    ensures Effect(p, st, Apply(p, st, Collect(i))) && SameCounts(st, Apply(p, st, Collect(i)))
  {
    hide WellFormed, Shape, Apply;
    HasShape(p, lay);
    assert Local(p, st.acts[i]) && PromiseOk(p, st, i);
    CollectShape(p, st, i);
  }

  lemma StepGrows(p: Plan, lay: Layout, st: State, s: Step)
    requires Inv(p, lay, st) && Enabled(p, st, s)
    ensures Grows(st, Apply(p, st, s))
  {
    hide WellFormed, Shape, Grows, Apply, Enabled;
    HasShape(p, lay);
    match s
    case Call(i, d) => CallShape(p, st, i, d);
    case Collect(i) => CollectEffect(p, lay, st, i);
    case Finish(i, o, c) => FinishEffect(p, lay, st, i, o, c);
    case BodyDone(i) => PlainEffect(p, st, s);
    case Resume(i) => PlainEffect(p, st, s);
  }

  lemma GrowsOn(st: State, su: State, sv: State)
    requires Grows(st, su) && Grows(su, sv)
    ensures Grows(st, sv)
  {
    forall j | 0 <= j < |st.acts|
      ensures Kept(st.acts[j], sv.acts[j])
    {
      assert Kept(st.acts[j], su.acts[j]) && Kept(su.acts[j], sv.acts[j]);
    }
  }

  lemma {:induction false} RunGrows(p: Plan, lay: Layout, run: seq<Step>, more: seq<Step>)
    requires WellFormed(p, lay) && ValidRun(p, run) && ValidRun(p, more) && run <= more
    ensures Grows(After(p, run), After(p, more))
    decreases |more|
  {
    hide WellFormed, Shape, Grows, After, ValidRun;
    HasShape(p, lay);
    if |more| > |run| {
      var m := more[..|more| - 1];
      LastStepGrows(p, lay, more);
      RunGrows(p, lay, run, m);
      GrowsOn(After(p, run), After(p, m), After(p, more));
    } else {
      assert run == more;
      GrowsFromSelf(After(p, run));
    }
  }

  lemma GrowsFromSelf(st: State)
    ensures Grows(st, st)
  {
  }

  lemma LastStepGrows(p: Plan, lay: Layout, run: seq<Step>)
    requires WellFormed(p, lay) && ValidRun(p, run) && run != []
    ensures ValidRun(p, run[..|run| - 1]) && Grows(After(p, run[..|run| - 1]), After(p, run))
  {
    hide WellFormed, Grows, Inv;
    HasShape(p, lay);
    InvHolds(p, lay, run[..|run| - 1]);
    StepGrows(p, lay, After(p, run[..|run| - 1]), run[|run| - 1]);
  }

  /** The leader of `d` is finished and will not release what depends on it: an ordinary
      executor that failed, or a PassThrough whose dependencies failed. */
  ghost predicate Blocks(p: Plan, a: Act)
    requires a.exec in p.nodes
  {
    && a.leads && a.phase.Done?
    && (a.runs == 0 || (!p.nodes[a.exec].kind.PassThrough? && a.phase != Done(Ok)))
  }

  /** Once an executor has failed in a round, nothing that transitively depends on it
      executes in that round, however the run goes on. */
  lemma FailureBlocks(p: Plan, lay: Layout, run: seq<Step>, more: seq<Step>, j: nat, i: nat, path: seq<Exec>)
    requires WellFormed(p, lay) && ValidRun(p, run) && ValidRun(p, more) && run <= more
    requires DependencyPath(p, path) && |path| > 1
    requires var acts := After(p, run).acts;
             j < |acts| && acts[j].exec == path[|path| - 1] && Blocks(p, acts[j])
    requires var acts := After(p, more).acts;
             i < |acts| && acts[i].exec == path[0] && j < |acts| && acts[i].round == acts[j].round
    ensures After(p, more).acts[i].runs == 0
  {
    hide WellFormed, ValidRun, After;
    HasShape(p, lay);
    RunGrows(p, lay, run, more);
    InvHolds(p, lay, more);
    var st := After(p, more);
    assert Kept(After(p, run).acts[j], st.acts[j]);
    if st.acts[i].runs > 0 {
      var k := DependenciesEnded(p, lay, st, i, path);
      UniqueLeader(p, lay, st, k, j);
      assert false;
    }
  }

  // ---- The promise protocol ----

  /** In every run a promise is only replaced after it has been fulfilled, and fulfilled well. */
  lemma PromiseNotReplacedEarly(p: Plan, lay: Layout, run: seq<Step>, i: nat, d: Exec)
    requires WellFormed(p, lay) && ValidRun(p, run) && InNodes(p, After(p, run))
    requires Enabled(p, After(p, run), Call(i, d)) && p.nodes[d].kind.PassThrough?
    requires After(p, run).gates[d].numOutputs == 0
    ensures Current(After(p, run).gates[d]) == Some(Ok)
  {
    InvHolds(p, lay, run);
    assert After(p, run).acts[i].exec in p.Successors(d);
    ArrivalReset(p, lay, After(p, run), i, d);
  }

  /** In every run the promise a PassThrough is about to fulfil is still open. */
  lemma PromiseFulfilledOnce(p: Plan, lay: Layout, run: seq<Step>, i: nat)
    requires WellFormed(p, lay) && ValidRun(p, run) && InNodes(p, After(p, run))
    requires Enabled(p, After(p, run), Collect(i))
    requires p.nodes[After(p, run).acts[i].exec].kind.PassThrough?
    ensures Current(After(p, run).gates[After(p, run).acts[i].exec]).None?
  {
    hide WellFormed, Shape, After, ValidRun;
    HasShape(p, lay);
    InvHolds(p, lay, run);
    assert PromiseOk(p, After(p, run), i) && Local(p, After(p, run).acts[i]);
  }

  /** How often `e` has been called, and how often its dependencies have been scheduled. */
  function Arrivals(acts: seq<Act>, e: Exec): nat {
    if acts == [] then 0
    else Arrivals(acts[..|acts| - 1], e) + if acts[|acts| - 1].exec == e then 1 else 0
  }

  function Leaders(acts: seq<Act>, e: Exec): nat {
    if acts == [] then 0
    else Leaders(acts[..|acts| - 1], e) + if acts[|acts| - 1].exec == e && acts[|acts| - 1].leads then 1 else 0
  }

  lemma {:induction false} CountsKept(acts: seq<Act>, acts': seq<Act>, e: Exec)
    requires |acts| == |acts'| && forall i :: 0 <= i < |acts| ==> Kept(acts[i], acts'[i])
    ensures Arrivals(acts', e) == Arrivals(acts, e) && Leaders(acts', e) == Leaders(acts, e)
  {
    if acts != [] {
      var n := |acts| - 1;
      assert Kept(acts[n], acts'[n]);
      CountsKept(acts[..n], acts'[..n], e);
    }
  }

  /** A step leaves the countdown of `e` alone or is one arrival at `e`. */
  ghost predicate Counted(p: Plan, st: State, st': State, e: Exec)
    requires e in st.gates && e in st'.gates
  {
    && Grows(st, st')
    && if |st'.acts| == |st.acts| then st'.gates[e].numOutputs == st.gates[e].numOutputs
       else && |st'.acts| == |st.acts| + 1
            && var b := st'.acts[|st.acts|];
            if b.exec != e then st'.gates[e].numOutputs == st.gates[e].numOutputs
            else && st'.gates[e].numOutputs == Arrive(st.gates[e], |p.Successors(e)|).numOutputs
                 && b.leads == (st'.gates[e].numOutputs <= 0)
  }

  lemma CallCounted(p: Plan, st: State, i: nat, d: Exec, e: Exec)
    requires Shape(p) && InNodes(p, st) && Enabled(p, st, Call(i, d)) && Shared(p, e)
    ensures e in Apply(p, st, Call(i, d)).gates && Counted(p, st, Apply(p, st, Call(i, d)), e)
  {
    hide Shape, Grows, Apply;
    CallShape(p, st, i, d);
  }

  lemma StepCounted(p: Plan, lay: Layout, st: State, s: Step, e: Exec)
    requires Inv(p, lay, st) && Enabled(p, st, s) && Shared(p, e)
    ensures e in Apply(p, st, s).gates && Counted(p, st, Apply(p, st, s), e)
  {
    hide WellFormed, Shape, Grows, Apply, Enabled;
    HasShape(p, lay);
    match s
    case Call(i, d) => CallCounted(p, st, i, d, e);
    case Collect(i) => CollectEffect(p, lay, st, i);
    case Finish(i, o, c) => FinishEffect(p, lay, st, i, o, c);
    case BodyDone(i) => PlainEffect(p, st, s);
    case Resume(i) => PlainEffect(p, st, s);
  }

  /** In every run, after `a` calls of a PassThrough with `k` successors its dependencies
      have been scheduled `a / k` times, and the countdown is what is left of the round. */
  lemma {:induction false} ScheduledOncePerRound(p: Plan, lay: Layout, run: seq<Step>, e: Exec)
    requires WellFormed(p, lay) && ValidRun(p, run) && Shared(p, e)
    ensures e in After(p, run).gates && |p.Successors(e)| > 0
    ensures var a, k := Arrivals(After(p, run).acts, e), |p.Successors(e)|;
            && Leaders(After(p, run).acts, e) == a / k
            && After(p, run).gates[e].numOutputs == Countdown(a, k)
    decreases |run|
  {
    var k := |p.Successors(e)|;
    if run == [] {
      InitCounts(p, lay, e);
    } else {
      var before := run[..|run| - 1];
      ScheduledOncePerRound(p, lay, before, e);
      InvHolds(p, lay, before);
      StepCounted(p, lay, After(p, before), run[|run| - 1], e);
      CountsFollow(p, After(p, before), After(p, run), e);
    }
  }

  lemma InitCounts(p: Plan, lay: Layout, e: Exec)
    requires WellFormed(p, lay) && Shared(p, e)
    ensures e in Init(p).gates && |p.Successors(e)| > 0
    ensures Arrivals(Init(p).acts, e) == 0 && Leaders(Init(p).acts, e) == 0
    ensures Init(p).gates[e].numOutputs == |p.Successors(e)|
  {
    hide WellFormed, Shape, Init, Local, PromiseOk;
    HasShape(p, lay);
    RootFacts(p, lay);
    InitShape(p);
  }

  lemma CountsFollow(p: Plan, st: State, st': State, e: Exec)
    requires e in st.gates && e in st'.gates && Counted(p, st, st', e) && |p.Successors(e)| > 0
    requires var a, k := Arrivals(st.acts, e), |p.Successors(e)|;
             Leaders(st.acts, e) == a / k && st.gates[e].numOutputs == Countdown(a, k)
    ensures var a, k := Arrivals(st'.acts, e), |p.Successors(e)|;
            Leaders(st'.acts, e) == a / k && st'.gates[e].numOutputs == Countdown(a, k)
  {
    var n := |st.acts|;
    CountsKept(st.acts, st'.acts[..n], e);
    Arith.CountOne(Arrivals(st.acts, e), |p.Successors(e)|);
    assert |st'.acts| == n ==> st'.acts[..n] == st'.acts;
  }

  /** The waiter `w` can resume, and ends with outcome `o` when it does. */
  ghost predicate Wakes(p: Plan, st: State, w: nat, o: Outcome)
    requires Shape(p) && InNodes(p, st)
  {
    Enabled(p, st, Resume(w)) && Apply(p, st, Resume(w)) == SetAct(st, w, st.acts[w].(phase := Done(o)))
  }

  /** A PassThrough releases its waiters as soon as its dependencies have ended well, before
      (and whatever becomes of) its own `execute`. */
  lemma WaitersReleased(p: Plan, lay: Layout, run: seq<Step>, l: nat, w: nat)
    requires WellFormed(p, lay) && ValidRun(p, run) && InNodes(p, After(p, run))
    requires var acts := After(p, run).acts;
             && l < |acts| && w < |acts| && acts[l].exec == acts[w].exec && acts[l].round == acts[w].round
             && acts[l].leads && !acts[w].leads && acts[l].runs > 0 && acts[w].phase.Parked?
    ensures Wakes(p, After(p, run), w, Ok)
  {
    hide WellFormed, Shape, After, ValidRun;
    HasShape(p, lay);
    InvHolds(p, lay, run);
    var st := After(p, run);
    assert Local(p, st.acts[w]) && PromiseOk(p, st, w) && PromiseOk(p, st, l);
    assert InStep(p, st, l, w) && InStep(p, st, w, l);
  }

  /** Activation `w` waits on a promise that is still open although its leader `l` has given up. */
  ghost predicate Abandoned(st: State, e: Exec, l: nat, w: nat) {
    && l < |st.acts| && w < |st.acts| && st.acts[w].exec == e && st.acts[w].phase.Parked?
    && IsLeader(st, l, e, st.acts[w].gen) && st.acts[l].phase == Done(Thrown)
    && e in st.gates && st.acts[w].gen < |st.gates[e].promises| && st.gates[e].promises[st.acts[w].gen].None?
  }

  lemma OthersUntouched(p: Plan, st: State, s: Step, w: nat)
    requires Shape(p) && InNodes(p, st) && Enabled(p, st, s) && w < |st.acts| && w != s.i
    ensures w < |Apply(p, st, s).acts| && Apply(p, st, s).acts[w] == st.acts[w]
  {
  }

  lemma CollectAbandoned(p: Plan, lay: Layout, st: State, i: nat, e: Exec, l: nat, w: nat)
    requires Inv(p, lay, st) && Enabled(p, st, Collect(i)) && Abandoned(st, e, l, w)
    requires e in p.nodes && p.nodes[e].kind.PassThrough?
    ensures Abandoned(Apply(p, st, Collect(i)), e, l, w)
  {
    hide WellFormed, Shape, Apply;
    HasShape(p, lay);
    assert Local(p, st.acts[i]) && PromiseOk(p, st, i);
    CollectShape(p, st, i);
    if st.acts[i].exec == e && st.acts[i].gen == st.acts[w].gen {
      SoleLeader(p, lay, st, i, l);
      assert false;
    }
  }

  lemma NotAWaiter(p: Plan, lay: Layout, st: State, s: Step, e: Exec, l: nat, w: nat)
    requires Inv(p, lay, st) && Enabled(p, st, s) && Abandoned(st, e, l, w)
    ensures s.i != w && s.i != l
  {
  }

  lemma StepAbandoned(p: Plan, lay: Layout, st: State, s: Step, e: Exec, l: nat, w: nat)
    requires Inv(p, lay, st) && Enabled(p, st, s) && Abandoned(st, e, l, w)
    requires e in p.nodes && p.nodes[e].kind.PassThrough?
    ensures Abandoned(Apply(p, st, s), e, l, w)
  {
    hide WellFormed, Shape, Apply, Enabled;
    HasShape(p, lay);
    NotAWaiter(p, lay, st, s, e, l, w);
    OthersUntouched(p, st, s, w);
    OthersUntouched(p, st, s, l);
    match s
    case Call(i, d) => CallShape(p, st, i, d);
    case Collect(i) => CollectAbandoned(p, lay, st, i, e, l, w);
    case Finish(i, o, c) => FinishEffect(p, lay, st, i, o, c);
    case BodyDone(i) => PlainEffect(p, st, s);
    case Resume(i) => PlainEffect(p, st, s);
  }

  /** When the dependencies of a PassThrough raise an exception, its promise is never
      fulfilled: however the run goes on, the waiters of that round stay parked. */
  lemma {:induction false} WaitersAbandoned(p: Plan, lay: Layout, run: seq<Step>, more: seq<Step>, e: Exec, l: nat,
                                            w: nat)
    requires WellFormed(p, lay) && ValidRun(p, run) && ValidRun(p, more) && run <= more
    requires e in p.nodes && p.nodes[e].kind.PassThrough? && Abandoned(After(p, run), e, l, w)
    ensures Abandoned(After(p, more), e, l, w)
    decreases |more|
  {
    if |more| > |run| {
      var m := more[..|more| - 1];
      WaitersAbandoned(p, lay, run, m, e, l, w);
      InvHolds(p, lay, m);
      StepAbandoned(p, lay, After(p, m), more[|more| - 1], e, l, w);
    } else {
      assert run == more;
    }
  }
}
