/** Runs, one step at a time, for the examples. */
module SchedulerReach {
  import opened ExecutorGraph
  import opened PassThroughGate
  import opened SchedulerSteps

  /** Some run reaches the state. */
  ghost predicate Reached(p: Plan, st: State)
    requires Shape(p)
  {
    InNodes(p, st) && exists run :: ValidRun(p, run) && After(p, run) == st
  }

  lemma EnterIn(p: Plan, st: State, e: Exec, caller: nat, round: nat)
    requires Shape(p) && InNodes(p, st) && e in p.nodes
    ensures InNodes(p, Enter(p, st, e, caller, round))
  {
    hide Shape;
  }

  lemma StepIn(p: Plan, st: State, s: Step)
    requires Shape(p) && InNodes(p, st) && Enabled(p, st, s)
    ensures InNodes(p, Apply(p, st, s))
  {
    hide InNodes;
    match s
    case Call(i, d) =>
      CallIn(p, st, i, d);
    case Collect(i) =>
      CollectIn(p, st, i);
    case Finish(i, o, c) =>
      FinishIn(p, st, i, o, c);
    case _ =>
      LaterIn(p, st, s);
  }

  lemma CallIn(p: Plan, st: State, i: nat, d: Exec)
    requires Shape(p) && InNodes(p, st) && Enabled(p, st, Call(i, d))
    ensures InNodes(p, Apply(p, st, Call(i, d)))
  {
    EnterIn(p, SetAct(st, i, st.acts[i].(kids := st.acts[i].kids[d := |st.acts|])), d, i, st.acts[i].round);
  }

  lemma CollectIn(p: Plan, st: State, i: nat)
    requires Shape(p) && InNodes(p, st) && Enabled(p, st, Collect(i))
    ensures InNodes(p, Apply(p, st, Collect(i)))
  {
    hide Shape, KidsOk, KidThrown;
  }

  lemma LaterIn(p: Plan, st: State, s: Step)
    requires Shape(p) && InNodes(p, st) && Enabled(p, st, s) && (s.BodyDone? || s.Resume?)
    ensures InNodes(p, Apply(p, st, s))
  {
    hide Shape;
  }

  lemma FinishIn(p: Plan, st: State, i: nat, o: Outcome, c: Cond)
    requires Shape(p) && InNodes(p, st) && Enabled(p, st, Finish(i, o, c))
    ensures InNodes(p, Apply(p, st, Finish(i, o, c)))
  {
    var a := st.acts[i];
    var n := p.nodes[a.exec];
    if (n.kind.Select? || n.kind.Loop?) && o == Ok && !c.NotBool? && !(n.kind.Loop? && c.False?) {
      var b := if n.kind.Select? && c.False? then n.bodies[1] else n.bodies[0];
      EnterIn(p, SetAct(st, i, a.(phase := InBody, bodies := a.bodies + [|st.acts|])), b, i, |st.acts|);
    }
  }

  lemma InitReached(p: Plan)
    requires Shape(p)
    ensures Reached(p, Init(p))
  {
    hide Shape;
    var gates := map e | e in p.nodes && p.nodes[e].kind.PassThrough? :: Fresh(|p.Successors(e)|);
    assert InNodes(p, State([], gates));
    assert p.root in p.nodes by { RootIn(p); }
    EnterIn(p, State([], gates), p.root, 0, 0);
    assert ValidRun(p, []) && After(p, []) == Init(p);
  }

  lemma RootIn(p: Plan)
    requires Shape(p)
    ensures p.root in p.nodes
  {
  }

  lemma TakeStep(p: Plan, st: State, s: Step)
    requires Shape(p) && Reached(p, st) && Enabled(p, st, s)
    ensures Reached(p, Apply(p, st, s))
  {
    hide Shape, Enabled, Apply, InNodes;
    var run :| ValidRun(p, run) && After(p, run) == st;
    assert (run + [s])[..|run|] == run;
    assert ValidRun(p, run + [s]) && After(p, run + [s]) == Apply(p, st, s);
    StepIn(p, st, s);
  }

  /** Calling an executor that is no PassThrough. */
  lemma CallPlain(p: Plan, st: State, i: nat, d: Exec)
    requires Shape(p) && Reached(p, st) && i < |st.acts| && st.acts[i].phase.Calling?
    requires d in p.nodes[st.acts[i].exec].deps && d !in st.acts[i].kids && d in p.nodes && p.nodes[d].kind.Ordinary?
    ensures
      var a, n, leaf := st.acts[i], |st.acts|, p.nodes[d].deps == {};
      Reached(p, State(st.acts[i := a.(kids := a.kids[d := n])] +
                       [Act(d, i, a.round, 0, true, map[], [], if leaf then 1 else 0,
                         if leaf then Executing else Calling)],
                       st.gates))
  {
    hide Reached;
    ReachedIn(p, st);
    TakeStep(p, st, Call(i, d));
  }

  lemma CallGate(p: Plan, st: State, i: nat, d: Exec)
    requires Shape(p) && Reached(p, st) && i < |st.acts| && st.acts[i].phase.Calling?
    requires d in p.nodes[st.acts[i].exec].deps && d !in st.acts[i].kids && d in p.nodes && p.nodes[d].kind.PassThrough?
    requires d in st.gates && |st.gates[d].promises| > 0
    ensures
      var a, n, g := st.acts[i], |st.acts|, Arrive(st.gates[d], |p.Successors(d)|);
      Reached(p, State(st.acts[i := a.(kids := a.kids[d := n])] +
                       [Act(d, i, a.round, |g.promises| - 1, Leads(g), map[], [], 0,
                         if Leads(g) then Calling else Parked)],
                       st.gates[d := g]))
  {
    hide Reached;
    ReachedIn(p, st);
    TakeStep(p, st, Call(i, d));
  }

  lemma FinishPlain(p: Plan, st: State, i: nat, o: Outcome)
    requires Shape(p) && Reached(p, st) && i < |st.acts| && st.acts[i].phase.Executing?
    requires st.acts[i].exec in p.nodes &&
      (p.nodes[st.acts[i].exec].kind.Ordinary? || p.nodes[st.acts[i].exec].kind.PassThrough?)
    ensures Reached(p, State(st.acts[i := st.acts[i].(phase := Done(o))], st.gates))
  {
    hide Reached;
    ReachedIn(p, st);
    TakeStep(p, st, Finish(i, o, True));
  }

  /** The dependencies have ended well. */
  lemma CollectPlain(p: Plan, st: State, i: nat)
    requires Shape(p) && Reached(p, st) && i < |st.acts| && st.acts[i].phase.Calling? && KidsOk(st, i)
    requires st.acts[i].exec in p.nodes && !p.nodes[st.acts[i].exec].kind.PassThrough?
    requires st.acts[i].kids.Keys == p.nodes[st.acts[i].exec].deps
    ensures Reached(p, State(st.acts[i := st.acts[i].(phase := Executing, runs := st.acts[i].runs + 1)], st.gates))
  {
    hide Reached;
    ReachedIn(p, st);
    TakeStep(p, st, Collect(i));
  }

  lemma CollectGate(p: Plan, st: State, i: nat)
    requires Shape(p) && Reached(p, st) && i < |st.acts| && st.acts[i].phase.Calling? && KidsOk(st, i)
    requires var e := st.acts[i].exec;
             && e in p.nodes && p.nodes[e].kind.PassThrough? && st.acts[i].kids.Keys == p.nodes[e].deps
             && e in st.gates && |st.gates[e].promises| > 0 && Current(st.gates[e]).None?
    ensures var e := st.acts[i].exec;
            Reached(p, State(st.acts[i := st.acts[i].(phase := Executing, runs := st.acts[i].runs + 1)],
                             st.gates[e := Fulfil(st.gates[e], Ok)]))
  {
    hide Reached;
    ReachedIn(p, st);
    TakeStep(p, st, Collect(i));
  }

  lemma CollectThrown(p: Plan, st: State, i: nat)
    requires Shape(p) && Reached(p, st) && i < |st.acts| && st.acts[i].phase.Calling? && KidThrown(st, i)
    requires st.acts[i].exec in p.nodes && st.acts[i].kids.Keys == p.nodes[st.acts[i].exec].deps
    ensures Reached(p, State(st.acts[i := st.acts[i].(phase := Done(Thrown))], st.gates))
  {
    hide Reached;
    ReachedIn(p, st);
    TakeStep(p, st, Collect(i));
  }

  lemma ResumeWaiter(p: Plan, st: State, i: nat)
    requires Shape(p) && Reached(p, st) && i < |st.acts| && st.acts[i].phase.Parked?
    requires var e := st.acts[i].exec;
             && e in p.nodes && p.nodes[e].kind.PassThrough? && e in st.gates
             && st.acts[i].gen < |st.gates[e].promises| && st.gates[e].promises[st.acts[i].gen].Some?
    ensures var o := st.gates[st.acts[i].exec].promises[st.acts[i].gen].value;
            Reached(p, State(st.acts[i := st.acts[i].(phase := Done(o))], st.gates))
  {
    hide Reached;
    ReachedIn(p, st);
    TakeStep(p, st, Resume(i));
  }

  /** The condition of a Loop holds: another round of its body, whose root is no PassThrough. */
  lemma NextRound(p: Plan, st: State, i: nat)
    requires Shape(p) && Reached(p, st) && i < |st.acts| && st.acts[i].phase.Executing?
    requires st.acts[i].exec in p.nodes && p.nodes[st.acts[i].exec].kind.Loop? && |p.nodes[st.acts[i].exec].bodies| == 1
    requires
      var b := p.nodes[st.acts[i].exec].bodies[0];
      b in p.nodes && p.nodes[b].kind.Ordinary? && p.nodes[b].deps != {}
    ensures
      var a, n, b := st.acts[i], |st.acts|, p.nodes[st.acts[i].exec].bodies[0];
      Reached(p, State(st.acts[i := a.(phase := InBody, bodies := a.bodies + [n])] +
                       [Act(b, i, n, 0, true, map[], [], 0, Calling)], st.gates))
  {
    hide Reached;
    ReachedIn(p, st);
    TakeStep(p, st, Finish(i, Ok, True));
  }

  /** The same for a body whose root is a PassThrough. */
  lemma NextGateRound(p: Plan, st: State, i: nat)
    requires Shape(p) && Reached(p, st) && i < |st.acts| && st.acts[i].phase.Executing?
    requires st.acts[i].exec in p.nodes && p.nodes[st.acts[i].exec].kind.Loop? && |p.nodes[st.acts[i].exec].bodies| == 1
    requires
      var b := p.nodes[st.acts[i].exec].bodies[0];
      b in p.nodes && p.nodes[b].kind.PassThrough? && b in st.gates && |st.gates[b].promises| > 0
    ensures
      var a, n, b := st.acts[i], |st.acts|, p.nodes[st.acts[i].exec].bodies[0];
      var g := Arrive(st.gates[b], |p.Successors(b)|);
      Reached(p, State(st.acts[i := a.(phase := InBody, bodies := a.bodies + [n])] +
                       [Act(b, i, n, |g.promises| - 1, Leads(g), map[], [], 0, if Leads(g) then Calling else Parked)],
                       st.gates[b := g]))
  {
    hide Reached;
    ReachedIn(p, st);
    TakeStep(p, st, Finish(i, Ok, True));
  }

  lemma RoundOver(p: Plan, st: State, i: nat)
    requires Shape(p) && Reached(p, st) && i < |st.acts| && st.acts[i].phase.InBody?
    requires st.acts[i].exec in p.nodes && p.nodes[st.acts[i].exec].kind.Loop? && LastBodyDone(st, i)
    requires st.acts[st.acts[i].bodies[|st.acts[i].bodies| - 1]].phase == Done(Ok)
    ensures Reached(p, State(st.acts[i := st.acts[i].(phase := Executing, runs := st.acts[i].runs + 1)], st.gates))
  {
    hide Reached;
    ReachedIn(p, st);
    TakeStep(p, st, BodyDone(i));
  }

  lemma ReachedIn(p: Plan, st: State)
    requires Shape(p) && Reached(p, st)
    ensures InNodes(p, st)
  {
  }
}
