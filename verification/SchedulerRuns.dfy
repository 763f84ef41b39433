/** The invariant holds in every state of every run. */
module SchedulerRuns {
  import opened ExecutorGraph
  import opened PassThroughGate
  import opened SchedulerSteps
  import opened SchedulerInvariant
  import opened SchedulerPreservation

  // ---- Call ----

  lemma CallShape(p: Plan, st: State, i: nat, d: Exec)
    requires Shape(p) && InNodes(p, st) && Enabled(p, st, Call(i, d))
    ensures var st' := Apply(p, st, Call(i, d));
            var a := st.acts[i];
            && InNodes(p, st') && Spawns(st, st', i)
            && st'.acts[i] == a.(kids := a.kids[d := |st.acts|])
            && st'.acts[|st.acts|] == StartAct(p, d, i, a.round, ArriveAt(p, st, d))
            && (p.nodes[d].kind.PassThrough? ==> st'.gates == st.gates[d := Arrive(st.gates[d], |p.Successors(d)|)])
            && (!p.nodes[d].kind.PassThrough? ==> st'.gates == st.gates)
  {
    var st' := Apply(p, st, Call(i, d));
    var a := st.acts[i];
    GrowsBy(st, st', i, a.(kids := a.kids[d := |st.acts|]), [st'.acts[|st.acts|]]);
  }

  lemma StartLocal(p: Plan, e: Exec, caller: nat, round: nat, g: Gate)
    requires Shape(p) && e in p.nodes && (p.nodes[e].kind.PassThrough? ==> |g.promises| > 0)
    ensures var b := StartAct(p, e, caller, round, g);
            Local(p, b) && b.kids == map[] && b.bodies == [] && b.exec == e && b.caller == caller && b.round == round
  {
  }

  lemma CallSkeleton(p: Plan, lay: Layout, st: State, st': State, i: nat, d: Exec)
    requires WellFormed(p, lay) && InNodes(p, st) && Skeleton(p, lay, st)
    requires Enabled(p, st, Call(i, d)) && Spawns(st, st', i)
    requires st'.acts[i] == st.acts[i].(kids := st.acts[i].kids[d := |st.acts|])
    requires st'.acts[|st.acts|] == StartAct(p, d, i, st.acts[i].round, ArriveAt(p, st, d))
    ensures Skeleton(p, lay, st')
  {
    var n := |st.acts|;
    DependencyFacts(p, lay, st.acts[i].exec, d);
    StartLocal(p, d, i, st.acts[i].round, ArriveAt(p, st, d));
    hide WellFormed, StartAct, ArriveAt, Shape;
    assert Linked(p, lay, st, i) && Local(p, st.acts[i]) && Rooted(p, st, i) && Flow(st, i);
    RootedGains(p, st, st', i, d);
    assert Kept(st.acts[st.acts[i].round], st'.acts[st.acts[i].round]);
    SkeletonSpawns(p, lay, st, st', i);
  }

  lemma RootedGains(p: Plan, st: State, st': State, i: nat, d: Exec)
    requires Spawns(st, st', i) && Rooted(p, st, i) && d in p.nodes[st.acts[i].exec].deps
    requires st'.acts[i] == st.acts[i].(kids := st.acts[i].kids[d := |st.acts|])
    requires st'.acts[|st.acts|].exec == d && st'.acts[|st.acts|].caller == i
    ensures Rooted(p, st', i)
  {
    assert forall j :: 0 <= j < |st.acts| ==> Kept(st.acts[j], st'.acts[j]);
  }

  lemma CallKeeps(p: Plan, lay: Layout, st: State, i: nat, d: Exec)
    requires Inv(p, lay, st) && Enabled(p, st, Call(i, d))
    ensures Inv(p, lay, Apply(p, st, Call(i, d)))
  {
    hide WellFormed, Shape, Linked, Rooted, Local, Flow, InStep, LeaderOk, CountdownOk, KeptPromise;
    HasShape(p, lay);
    var st' := Apply(p, st, Call(i, d));
    CallShape(p, st, i, d);
    CallSkeleton(p, lay, st, st', i, d);
    DependencyFacts(p, lay, st.acts[i].exec, d);
    RoundsSpawns(p, lay, st, st', i);
    if p.nodes[d].kind.PassThrough? {
      assert st.acts[i].exec in p.Successors(d);
      DoorsArrive(p, lay, st, st', i, d);
      PromisesArrive(p, lay, st, st', i, d);
    } else {
      CallersInRange(p, lay, st);
      DoorsSpawnPlain(p, st, st', i);
      assert PromiseOk(p, st, i);
      PromisesSpawnPlain(p, st, st', i);
    }
  }

  // ---- Collect ----

  lemma CollectShape(p: Plan, st: State, i: nat)
    requires Shape(p) && InNodes(p, st) && Enabled(p, st, Collect(i))
    requires p.nodes[st.acts[i].exec].kind.PassThrough? ==> Current(st.gates[st.acts[i].exec]).None?
    ensures var st' := Apply(p, st, Collect(i));
            var a := st.acts[i];
            var ok := !KidThrown(st, i) && KidsOk(st, i);
            && InNodes(p, st') && Moves(st, st', i) && SameCounts(st, st')
            && st'.acts[i] == (if ok then a.(phase := Executing, runs := a.runs + 1) else a.(phase := Done(Thrown)))
            && st'.gates == (if p.nodes[a.exec].kind.PassThrough? && !KidThrown(st, i)
                             then st.gates[a.exec := Fulfil(st.gates[a.exec], if ok then Ok else BadStatus)]
                             else st.gates)
  {
    var st' := Apply(p, st, Collect(i));
    GrowsBy(st, st', i, st'.acts[i], []);
  }

  lemma CollectSkeleton(p: Plan, lay: Layout, st: State, st': State, i: nat)
    requires InNodes(p, st) && Skeleton(p, lay, st) && Moves(st, st', i)
    requires st.acts[i].phase.Calling? && st.acts[i].kids.Keys == p.nodes[st.acts[i].exec].deps
    requires var a := st.acts[i];
             st'.acts[i] == (if !KidThrown(st, i) && KidsOk(st, i)
                             then a.(phase := Executing, runs := a.runs + 1) else a.(phase := Done(Thrown)))
    ensures Skeleton(p, lay, st')
  {
    var a := st.acts[i];
    assert Local(p, a) && Flow(st, i) && Rooted(p, st, i);
    if KidsOk(st, i) {
      forall d | d in a.kids
        ensures st'.acts[a.kids[d]].phase == Done(Ok)
      {
        assert Kept(st.acts[a.kids[d]], st'.acts[a.kids[d]]);
      }
    }
    SkeletonMoves(p, lay, st, st', i);
  }

  lemma CollectKeeps(p: Plan, lay: Layout, st: State, i: nat)
    requires Inv(p, lay, st) && Enabled(p, st, Collect(i))
    ensures Inv(p, lay, Apply(p, st, Collect(i)))
  {
    hide WellFormed, Shape, Linked, Rooted, Flow, InStep, LeaderOk, CountdownOk, KeptPromise;
    HasShape(p, lay);
    var st' := Apply(p, st, Collect(i));
    assert PromiseOk(p, st, i) && Local(p, st.acts[i]);
    CollectShape(p, st, i);
    CollectSkeleton(p, lay, st, st', i);
    RoundsMoves(p, lay, st, st', i);
    DoorsMoves(p, st, st', i);
    if p.nodes[st.acts[i].exec].kind.PassThrough? && !KidThrown(st, i) {
      PromisesFulfil(p, lay, st, st', i, if KidsOk(st, i) then Ok else BadStatus);
    } else {
      PromisesMoves(p, st, st', i);
    }
  }

  // ---- Finish, BodyDone, Resume ----

  /** A phase change that starts nothing and fulfils nothing. */
  lemma PhaseKeeps(p: Plan, lay: Layout, st: State, i: nat, a: Act)
    requires Inv(p, lay, st) && i < |st.acts| && Kept(st.acts[i], a)
    requires a.kids == st.acts[i].kids && a.bodies == st.acts[i].bodies
    requires Local(p, a) && Flow(SetAct(st, i, a), i)
    requires InNodes(p, SetAct(st, i, a)) && PromiseOk(p, SetAct(st, i, a), i)
    ensures Inv(p, lay, SetAct(st, i, a))
  {
    hide WellFormed, Linked, Rooted, Flow, Local, InStep, LeaderOk, CountdownOk, KeptPromise, PromiseOk;
    var st' := SetAct(st, i, a);
    GrowsBy(st, st', i, a, []);
    SkeletonMoves(p, lay, st, st', i);
    RoundsMoves(p, lay, st, st', i);
    DoorsMoves(p, st, st', i);
    PromisesMoves(p, st, st', i);
  }

  lemma ResumeKeeps(p: Plan, lay: Layout, st: State, i: nat)
    requires Inv(p, lay, st) && Enabled(p, st, Resume(i))
    ensures Inv(p, lay, Apply(p, st, Resume(i)))
  {
    hide WellFormed, Linked, Rooted, InStep, LeaderOk, CountdownOk, KeptPromise;
    var a := st.acts[i];
    assert Local(p, a) && PromiseOk(p, st, i);
    PhaseKeeps(p, lay, st, i, a.(phase := Done(st.gates[a.exec].promises[a.gen].value)));
  }

  lemma FlowSame(st: State, i: nat, a: Act)
    requires i < |st.acts| && Kept(st.acts[i], a) && a.bodies == st.acts[i].bodies
    requires Flow(st, i) && a.kids == st.acts[i].kids && (a.runs > 0 ==> KidsOk(st, i))
    requires forall d :: d in a.kids ==> a.kids[d] != i
    requires forall k :: 0 <= k < |a.bodies| ==> a.bodies[k] != i
    requires |a.bodies| > 0 ==>
               var last := st.acts[a.bodies[|a.bodies| - 1]].phase;
               && (a.phase.Executing? || a.phase == Done(Ok) ==> last == Done(Ok))
               && (a.phase == Done(BadStatus) ==> last == Done(BadStatus))
    ensures Flow(SetAct(st, i, a), i)
  {
  }

  lemma BodyDoneKeeps(p: Plan, lay: Layout, st: State, i: nat)
    requires Inv(p, lay, st) && Enabled(p, st, BodyDone(i))
    ensures Inv(p, lay, Apply(p, st, BodyDone(i)))
  {
    hide WellFormed, Linked, InStep, LeaderOk, CountdownOk, KeptPromise;
    var a := st.acts[i];
    assert Local(p, a) && PromiseOk(p, st, i) && Flow(st, i) && Rooted(p, st, i);
    var o := st.acts[a.bodies[|a.bodies| - 1]].phase.outcome;
    var b := if p.nodes[a.exec].kind.Select? then a.(phase := Done(o))
             else if o == Ok then a.(phase := Executing, runs := a.runs + 1)
             else a.(phase := Done(Thrown));
    FlowSame(st, i, b);
    PhaseKeeps(p, lay, st, i, b);
  }

  lemma FinishEndKeeps(p: Plan, lay: Layout, st: State, i: nat, o: Outcome)
    requires Inv(p, lay, st) && i < |st.acts| && st.acts[i].phase.Executing?
    requires p.nodes[st.acts[i].exec].kind.Select? ==> o == Thrown
    requires p.nodes[st.acts[i].exec].kind.Loop? ==> o != BadStatus
    ensures Inv(p, lay, SetAct(st, i, st.acts[i].(phase := Done(o))))
  {
    hide WellFormed, Linked, InStep, LeaderOk, CountdownOk, KeptPromise;
    var a := st.acts[i];
    assert Local(p, a) && PromiseOk(p, st, i) && Flow(st, i) && Rooted(p, st, i);
    FlowSame(st, i, a.(phase := Done(o)));
    PhaseKeeps(p, lay, st, i, a.(phase := Done(o)));
  }

  /** `st'` is `st` after activation `i` has started body `b`. */
  ghost predicate StartsBody(p: Plan, st: State, st': State, i: nat, b: Exec)
    requires Shape(p) && InNodes(p, st)
  {
    && i < |st.acts| && b in p.nodes[st.acts[i].exec].bodies && b in p.nodes && !p.nodes[b].kind.PassThrough?
    && st.acts[i].phase.Executing?
    && Spawns(st, st', i) && st'.gates == st.gates && InNodes(p, st')
    && st'.acts[i] == st.acts[i].(phase := InBody, bodies := st.acts[i].bodies + [|st.acts|])
    && st'.acts[|st.acts|] == StartAct(p, b, i, |st.acts|, Fresh(0))
  }

  lemma FinishShape(p: Plan, lay: Layout, st: State, i: nat, b: Exec, o: Outcome, c: Cond)
    requires WellFormed(p, lay) && InNodes(p, st) && Enabled(p, st, Finish(i, o, c))
    requires o == Ok && !c.NotBool?
    requires p.nodes[st.acts[i].exec].kind.Select? || (p.nodes[st.acts[i].exec].kind.Loop? && c.True?)
    requires var n := p.nodes[st.acts[i].exec]; b == if n.kind.Select? && c.False? then n.bodies[1] else n.bodies[0]
    ensures StartsBody(p, st, Apply(p, st, Finish(i, o, c)), i, b)
  {
    hide WellFormed, Shape;
    HasShape(p, lay);
    BodyFacts(p, lay, st.acts[i].exec, b);
    var st' := Apply(p, st, Finish(i, o, c));
    assert st' == Enter(p, SetAct(st, i, st.acts[i].(phase := InBody, bodies := st.acts[i].bodies + [|st.acts|])), b,
      i, |st.acts|);
    GrowsBy(st, st', i, st.acts[i].(phase := InBody, bodies := st.acts[i].bodies + [|st.acts|]), [st'.acts[|st.acts|]]);
  }

  lemma RootedBody(p: Plan, st: State, st': State, i: nat)
    requires Spawns(st, st', i) && Rooted(p, st, i) && Flow(st, i)
    requires st.acts[i].phase.Executing?
    requires st'.acts[i] == st.acts[i].(phase := InBody, bodies := st.acts[i].bodies + [|st.acts|])
    requires st'.acts[|st.acts|].exec in p.nodes[st.acts[i].exec].bodies && st'.acts[|st.acts|].caller == i
    ensures Rooted(p, st', i) && Flow(st', i)
  {
    assert forall j :: 0 <= j < |st.acts| ==> Kept(st.acts[j], st'.acts[j]);
  }

  lemma BodySkeleton(p: Plan, lay: Layout, st: State, st': State, i: nat, b: Exec)
    requires WellFormed(p, lay) && InNodes(p, st) && Skeleton(p, lay, st) && StartsBody(p, st, st', i, b)
    requires p.nodes[st.acts[i].exec].kind.Select? || p.nodes[st.acts[i].exec].kind.Loop?
    ensures Skeleton(p, lay, st')
  {
    BodyFacts(p, lay, st.acts[i].exec, b);
    StartLocal(p, b, i, |st.acts|, Fresh(0));
    hide WellFormed, StartAct, Shape;
    assert Local(p, st.acts[i]) && Rooted(p, st, i) && Flow(st, i) && Linked(p, lay, st, 0);
    RootedBody(p, st, st', i);
    SkeletonSpawns(p, lay, st, st', i);
  }

  lemma BodyKeeps(p: Plan, lay: Layout, st: State, st': State, i: nat, b: Exec)
    requires Inv(p, lay, st) && StartsBody(p, st, st', i, b)
    requires p.nodes[st.acts[i].exec].kind.Select? || p.nodes[st.acts[i].exec].kind.Loop?
    ensures Inv(p, lay, st')
  {
    hide WellFormed, Shape, Linked, Rooted, Local, Flow, InStep, LeaderOk, CountdownOk, KeptPromise;
    BodySkeleton(p, lay, st, st', i, b);
    forall r | 0 <= r < |st.acts| && st.acts[r].exec == b
      ensures st.acts[r].phase == Done(Ok)
    {
      BodyFree(p, lay, st, i, b, r);
    }
    RoundsSpawns(p, lay, st, st', i);
    CallersInRange(p, lay, st);
    DoorsSpawnPlain(p, st, st', i);
    PromisesSpawnPlain(p, st, st', i);
  }

  lemma FinishKeeps(p: Plan, lay: Layout, st: State, i: nat, o: Outcome, c: Cond)
    requires Inv(p, lay, st) && Enabled(p, st, Finish(i, o, c))
    ensures Inv(p, lay, Apply(p, st, Finish(i, o, c)))
  {
    var n := p.nodes[st.acts[i].exec];
    if n.kind.Ordinary? || n.kind.PassThrough? {
      FinishEndKeeps(p, lay, st, i, o);
    } else if o != Ok || c.NotBool? {
      FinishEndKeeps(p, lay, st, i, Thrown);
    } else if n.kind.Loop? && c.False? {
      FinishEndKeeps(p, lay, st, i, Ok);
    } else {
      var b := if n.kind.Select? && c.False? then n.bodies[1] else n.bodies[0];
      FinishShape(p, lay, st, i, b, o, c);
      BodyKeeps(p, lay, st, Apply(p, st, Finish(i, o, c)), i, b);
    }
  }

  // ---- Init, and whole runs ----

  /** The first state: the root is activated, every other gate is fresh, and a PassThrough
      root (which nothing depends on) leads. */
  lemma InitShape(p: Plan)
    requires Shape(p)
    ensures var st := Init(p);
            && InNodes(p, st) && |st.acts| == 1
            && st.acts[0].exec == p.root && st.acts[0].caller == 0 && st.acts[0].round == 0
            && st.acts[0].kids == map[] && st.acts[0].bodies == []
            && (p.Successors(p.root) == {} ==> st.acts[0].leads)
            && Local(p, st.acts[0]) && PromiseOk(p, st, 0)
            && (forall e :: e in p.nodes && p.nodes[e].kind.PassThrough? && e != p.root ==>
                  st.gates[e] == Fresh(|p.Successors(e)|))
            && (p.nodes[p.root].kind.PassThrough? ==> forall g :: 0 <= g < |st.gates[p.root].promises| ==>
                  st.gates[p.root].promises[g].None?)
  {
  }

  lemma InitSkeleton(p: Plan, lay: Layout)
    requires WellFormed(p, lay)
    ensures Shape(p) && InNodes(p, Init(p)) && Skeleton(p, lay, Init(p))
  {
    hide WellFormed, Init, Local, PromiseOk;
    HasShape(p, lay);
    RootFacts(p, lay);
    InitShape(p);
    assert Linked(p, lay, Init(p), 0);
  }

  lemma RootFacts(p: Plan, lay: Layout)
    requires WellFormed(p, lay)
    ensures p.root in p.nodes && IsRoot(lay, p.root) && p.Successors(p.root) == {}
  {
    NodeFacts(p, lay, p.root);
  }

  lemma InitDoors(p: Plan, lay: Layout, e: Exec)
    requires WellFormed(p, lay) && InNodes(p, Init(p)) && Shared(p, e)
    ensures CountdownOk(p, Init(p), e) && LeaderOk(p, Init(p), e, 0) && |Init(p).gates[e].promises| == 1
  {
    hide WellFormed, Init, Local, PromiseOk, Shape;
    HasShape(p, lay);
    RootFacts(p, lay);
    InitShape(p);
    var st := Init(p);
    assert forall j: nat, s :: !Arrives(st, j, e, 0, s);
    assert forall j: nat :: !IsLeader(st, j, e, 0);
    assert Callers(p, st, e, 0) == {};
  }

  lemma InitHolds(p: Plan, lay: Layout)
    requires WellFormed(p, lay)
    ensures Shape(p) && Inv(p, lay, Init(p))
  {
    hide WellFormed, Init, Skeleton, PromiseOk, CountdownOk, LeaderOk, Shape;
    HasShape(p, lay);
    InitShape(p);
    InitSkeleton(p, lay);
    forall e | Shared(p, e)
      ensures CountdownOk(p, Init(p), e) && LeaderOk(p, Init(p), e, 0) && |Init(p).gates[e].promises| == 1
    {
      InitDoors(p, lay, e);
    }
  }

  lemma StepKeeps(p: Plan, lay: Layout, st: State, s: Step)
    requires Inv(p, lay, st) && Enabled(p, st, s)
    ensures Inv(p, lay, Apply(p, st, s))
  {
    hide Inv, Enabled;
    match s
    case Call(i, d) => CallKeeps(p, lay, st, i, d);
    case Collect(i) => CollectKeeps(p, lay, st, i);
    case Finish(i, o, c) => FinishKeeps(p, lay, st, i, o, c);
    case BodyDone(i) => BodyDoneKeeps(p, lay, st, i);
    case Resume(i) => ResumeKeeps(p, lay, st, i);
  }

  /** Every state of every run satisfies the invariant. */
  lemma {:induction false} InvHolds(p: Plan, lay: Layout, run: seq<Step>)
    requires WellFormed(p, lay) && ValidRun(p, run)
    ensures Inv(p, lay, After(p, run))
  {
    if run == [] {
      InitHolds(p, lay);
    } else {
      InvHolds(p, lay, run[..|run| - 1]);
      StepKeeps(p, lay, After(p, run[..|run| - 1]), run[|run| - 1]);
    }
  }
}
