/** A small graph that uses the whole protocol, and runs of it that reach what the theorems
    speak about: a released waiter, an abandoned waiter and a gate used for a second round. */
module SchedulerExample {
  import opened ExecutorGraph
  import opened PassThroughGate
  import opened Wrappers
  import opened SchedulerSteps
  import opened SchedulerReach
  import opened SchedulerTheorems

  /** Executor 0 is a Loop over the body 2, in which 2 and 4 both depend on the PassThrough 3. */
  function NodeOf(e: Exec): Node {
    if e == 0 then Node(Loop, {1}, [2])
    else if e == 2 then Node(Ordinary, {3, 4}, [])
    else if e == 3 then Node(PassThrough, {5}, [])
    else if e == 4 then Node(Ordinary, {3}, [])
    else Node(Ordinary, {}, [])
  }

  function RankOf(e: Exec): nat {
    if e == 0 then 4 else if e == 2 then 3 else if e == 4 then 2 else if e == 3 then 1 else 0
  }

  function RegionOf(e: Exec): Exec {
    if e <= 1 then 0 else 2
  }

  function Diamond(): Plan {
    Plan(0, map e: Exec | 0 <= e < 6 :: NodeOf(e))
  }

  function DiamondLayout(): Layout {
    Layout(map e: Exec | 0 <= e < 6 :: RankOf(e), 5, map e: Exec | 0 <= e < 6 :: RegionOf(e))
  }

  lemma DiamondShape()
    ensures Shape(Diamond())
  {
    var p := Diamond();
    forall e | e in p.nodes ensures p.nodes[e].deps <= p.nodes.Keys { }
  }

  lemma Edges(e: Exec, d: Exec)
    ensures d in NodeOf(e).deps <==>
            (e == 0 && d == 1) || (e == 2 && (d == 3 || d == 4)) || (e == 3 && d == 5) || (e == 4 && d == 3)
    ensures d in NodeOf(e).bodies <==> e == 0 && d == 2
    ensures NodeOf(e).kind.PassThrough? <==> e == 3
  {
  }

  lemma DiamondRanked()
    requires Shape(Diamond())
    ensures Ranked(Diamond(), DiamondLayout())
  {
    hide Shape, NodeOf;
    forall e, d | 0 <= e < 6 && d in NodeOf(e).deps ensures 0 <= d < 6 && RankOf(d) < RankOf(e) {
      Edges(e, d);
    }
    forall e, b | 0 <= e < 6 && b in NodeOf(e).bodies ensures 0 <= b < 6 && RankOf(b) < RankOf(e) {
      Edges(e, b);
    }
  }

  lemma Shared(e: Exec, s: Exec, t: Exec)
    requires e in NodeOf(s).deps && e in NodeOf(t).deps && !NodeOf(e).kind.PassThrough?
    ensures s == t
  {
    Edges(s, e);
    Edges(t, e);
    Edges(e, e);
  }

  lemma SuccessorOf(e: Exec)
    requires 0 <= e < 6 && RegionOf(e) != e
    ensures Diamond().Successors(e) != {}
  {
    var s := if e == 1 then 0 else if e == 5 then 3 else 2;
    Edges(s, e);
    assert s in Diamond().Successors(e);
  }

  lemma Members()
    ensures Diamond().root == 0 && forall e :: e in Diamond().nodes <==> 0 <= e < 6
    ensures forall e :: e in Diamond().nodes ==> Diamond().nodes[e] == NodeOf(e)
    ensures DiamondLayout().region.Keys == Diamond().nodes.Keys
    ensures forall e :: IsRoot(DiamondLayout(), e) <==> e == 0 || e == 2
    ensures forall e :: e in Diamond().nodes ==> DiamondLayout().region[e] == RegionOf(e)
  {
  }

  lemma InsideRegions(p: Plan, lay: Layout)
    requires p == Diamond() && lay == DiamondLayout() && Shape(p) && lay.region.Keys == p.nodes.Keys
    ensures forall e, d :: e in p.nodes && d in p.nodes[e].deps ==> lay.region[d] == lay.region[e] && !IsRoot(lay, d)
  {
    hide Shape, NodeOf, Diamond, DiamondLayout, IsRoot;
    Members();
    forall e, d | e in p.nodes && d in p.nodes[e].deps
      ensures d in p.nodes && lay.region[d] == lay.region[e] && !IsRoot(lay, d)
    {
      Edges(e, d);
    }
  }

  lemma BodyRoots(p: Plan, lay: Layout)
    requires p == Diamond() && lay == DiamondLayout()
    ensures forall e, b :: e in p.nodes && b in p.nodes[e].bodies ==> IsRoot(lay, b) && b != p.root
  {
    hide NodeOf, Diamond, DiamondLayout, IsRoot;
    Members();
    forall e, b | e in p.nodes && b in p.nodes[e].bodies ensures IsRoot(lay, b) && b != p.root {
      assert b in NodeOf(e).bodies && 0 <= e < 6;
      Edges(e, b);
      assert b == 2 && p.root == 0;
    }
  }

  lemma OneBody(p: Plan)
    requires p == Diamond()
    ensures forall e, f, b ::
      (e in p.nodes && f in p.nodes && b in p.nodes[e].bodies && b in p.nodes[f].bodies) ==> e == f
  {
    hide NodeOf, Diamond, DiamondLayout, IsRoot;
    Members();
    forall e, f, b | e in p.nodes && f in p.nodes && b in p.nodes[e].bodies && b in p.nodes[f].bodies ensures e == f {
      Edges(e, b);
      Edges(f, b);
    }
  }

  lemma OneSuccessorUnlessShared(p: Plan)
    requires p == Diamond() && Shape(p)
    ensures forall e, s, t ::
      (s in p.nodes && t in p.nodes && e in p.nodes[s].deps && e in p.nodes[t].deps &&
       !p.nodes[e].kind.PassThrough?) ==> s == t
  {
    hide NodeOf, Diamond, DiamondLayout, IsRoot;
    Members();
    forall e, s, t |
      (s in p.nodes && t in p.nodes && e in p.nodes[s].deps && e in p.nodes[t].deps && !p.nodes[e].kind.PassThrough?)
      ensures s == t
    {
      Shared(e, s, t);
    }
  }

  lemma Roots(p: Plan, lay: Layout)
    requires p == Diamond() && lay == DiamondLayout()
    ensures lay.region.Keys == p.nodes.Keys && IsRoot(lay, p.root)
    ensures forall e :: e in p.nodes ==> IsRoot(lay, lay.region[e])
    ensures forall e :: e in p.nodes && !IsRoot(lay, e) ==> p.Successors(e) != {}
    ensures forall e :: e in p.nodes && p.nodes[e].kind.PassThrough? ==> e == p.root || !IsRoot(lay, e)
  {
    hide NodeOf, Diamond, DiamondLayout, IsRoot;
    Members();
    forall e | e in p.nodes && !IsRoot(lay, e) ensures p.Successors(e) != {} {
      SuccessorOf(e);
    }
    forall e | e in p.nodes && p.nodes[e].kind.PassThrough? ensures !IsRoot(lay, e) {
      Edges(e, e);
    }
  }

  lemma DiamondRegions(p: Plan, lay: Layout)
    requires p == Diamond() && lay == DiamondLayout() && Shape(p)
    ensures Regions(p, lay)
  {
    hide NodeOf, Diamond, DiamondLayout, IsRoot, Shape;
    Roots(p, lay);
    InsideRegions(p, lay);
    BodyRoots(p, lay);
    OneBody(p);
    OneSuccessorUnlessShared(p);
  }

  lemma DiamondWellFormed()
    ensures WellFormed(Diamond(), DiamondLayout())
  {
    hide Ranked, Regions;
    DiamondShape();
    DiamondRanked();
    DiamondRegions(Diamond(), DiamondLayout());
  }

  // ---- Runs ----

  /** Executor 3 has two successors. */
  lemma TwoSuccessors()
    ensures |Diamond().Successors(3)| == 2
  {
    Members();
    forall s ensures s in Diamond().Successors(3) <==> s in {2, 4} {
      Edges(s, 3);
    }
    assert Diamond().Successors(3) == {2, 4};
  }

  // The activations, in the order in which the runs make them: the Loop, executor 1, the body, the
  // waiter at the PassThrough, executor 4, the leader at the PassThrough, executor 5.

  function Root(kids: map<Exec, nat>, bodies: seq<nat>, runs: nat, phase: Phase): Act {
    Act(0, 0, 0, 0, true, kids, bodies, runs, phase)
  }

  function One(phase: Phase): Act {
    Act(1, 0, 0, 0, true, map[], [], 1, phase)
  }

  function Body(kids: map<Exec, nat>, runs: nat, phase: Phase): Act {
    Act(2, 0, 2, 0, true, kids, [], runs, phase)
  }

  function Waiter(phase: Phase): Act {
    Act(3, 2, 2, 0, false, map[], [], 0, phase)
  }

  function Four(kids: map<Exec, nat>, runs: nat, phase: Phase): Act {
    Act(4, 2, 2, 0, true, kids, [], runs, phase)
  }

  function Leader(kids: map<Exec, nat>, runs: nat, phase: Phase): Act {
    Act(3, 4, 2, 0, true, kids, [], runs, phase)
  }

  function Five(phase: Phase): Act {
    Act(5, 5, 2, 0, true, map[], [], 1, phase)
  }

  function GateOf(left: int, promise: Option<Outcome>): map<Exec, Gate> {
    map[3 := Gate(left, [promise])]
  }

  /** Some run of the graph reaches these activations and this gate. */
  ghost predicate At(acts: seq<Act>, left: int, promise: Option<Outcome>) {
    Shape(Diamond()) && Reached(Diamond(), State(acts, GateOf(left, promise)))
  }

  lemma FirstGates()
    ensures Diamond().root == 0
    ensures (map e | e in Diamond().nodes &&
      Diamond().nodes[e].kind.PassThrough? :: Fresh(|Diamond().Successors(e)|)) == GateOf(2, None)
  {
    hide Diamond;
    Members();
    TwoSuccessors();
  }

  lemma FirstState()
    requires Shape(Diamond())
    ensures Init(Diamond()) == State([Root(map[], [], 0, Calling)], GateOf(2, None))
  {
    hide Shape, Diamond;
    Members();
    FirstGates();
  }

  lemma Start()
    ensures At([Root(map[], [], 0, Calling)], 2, None)
  {
    hide Shape, Diamond, Init, Reached;
    DiamondShape();
    FirstState();
    InitReached(Diamond());
  }

  function LoopIn(): seq<Act> {
    [Root(map[1 := 1], [2], 1, InBody), One(Done(Ok))]
  }

  lemma DependencyDone()
    ensures At([Root(map[1 := 1], [], 0, Calling), One(Done(Ok))], 2, None)
  {
    hide Shape, Reached, Diamond;
    var p, g := Diamond(), GateOf(2, None);
    var s0, s1 := [Root(map[], [], 0, Calling)], [Root(map[1 := 1], [], 0, Calling), One(Executing)];
    Start();
    Members();
    CallPlain(p, State(s0, g), 0, 1);
    assert s0[0 := s1[0]] + [One(Executing)] == s1;
    FinishPlain(p, State(s1, g), 1, Ok);
    assert s1[1 := One(Done(Ok))] == [Root(map[1 := 1], [], 0, Calling), One(Done(Ok))];
  }

  lemma IntoBody()
    ensures At(LoopIn() + [Body(map[], 0, Calling)], 2, None)
  {
    hide Shape, Reached, Diamond;
    var p, g := Diamond(), GateOf(2, None);
    DependencyDone();
    Members();
    var s2 := [Root(map[1 := 1], [], 0, Calling), One(Done(Ok))];
    CollectPlain(p, State(s2, g), 0);
    var s3 := [Root(map[1 := 1], [], 1, Executing), One(Done(Ok))];
    assert s2[0 := s3[0]] == s3;
    NextRound(p, State(s3, g), 0);
    assert [] + [2] == [2];
    assert s3[0 := Root(map[1 := 1], [2], 1, InBody)] + [Body(map[], 0, Calling)] ==
           LoopIn() + [Body(map[], 0, Calling)];
  }

  /** The first successor of the PassThrough calls it and has to wait. */
  lemma Waits()
    ensures At(LoopIn() + [Body(map[3 := 3], 0, Calling), Waiter(Parked)], 1, None)
  {
    hide Shape, Reached, Diamond;
    var p := Diamond();
    IntoBody();
    Members();
    TwoSuccessors();
    var s4 := LoopIn() + [Body(map[], 0, Calling)];
    CallGate(p, State(s4, GateOf(2, None)), 2, 3);
    assert GateOf(2, None)[3 := Gate(1, [None])] == GateOf(1, None);
    assert s4[2 := Body(map[3 := 3], 0, Calling)] + [Waiter(Parked)] == LoopIn() +
      [Body(map[3 := 3], 0, Calling), Waiter(Parked)];
  }

  function Calls(): map<Exec, nat> {
    map[3 := 3, 4 := 4]
  }

  lemma CallsFour()
    ensures At(LoopIn() + [Body(Calls(), 0, Calling), Waiter(Parked), Four(map[], 0, Calling)], 1, None)
  {
    hide Shape, Reached, Diamond;
    Waits();
    Members();
    var s5 := LoopIn() + [Body(map[3 := 3], 0, Calling), Waiter(Parked)];
    CallPlain(Diamond(), State(s5, GateOf(1, None)), 2, 4);
    assert s5[2 := Body(Calls(), 0, Calling)] + [Four(map[], 0, Calling)] ==
           LoopIn() + [Body(Calls(), 0, Calling), Waiter(Parked), Four(map[], 0, Calling)];
  }

  /** The second successor calls it and leads. */
  lemma Leads2()
    ensures At(LoopIn() + [Body(Calls(), 0, Calling), Waiter(Parked), Four(map[3 := 5], 0, Calling),
      Leader(map[], 0, Calling)], 0, None)
  {
    hide Shape, Reached, Diamond;
    CallsFour();
    Members();
    TwoSuccessors();
    var s6 := LoopIn() + [Body(Calls(), 0, Calling), Waiter(Parked), Four(map[], 0, Calling)];
    CallGate(Diamond(), State(s6, GateOf(1, None)), 4, 3);
    assert GateOf(1, None)[3 := Gate(0, [None])] == GateOf(0, None);
    assert s6[4 := Four(map[3 := 5], 0, Calling)] + [Leader(map[], 0, Calling)] ==
           LoopIn() + [Body(Calls(), 0, Calling), Waiter(Parked), Four(map[3 := 5], 0, Calling),
             Leader(map[], 0, Calling)];
  }

  /** All activations of the first round of the body. */
  function Round(body: Act, waiter: Act, four: Act, leader: Act, five: Act): seq<Act> {
    LoopIn() + [body, waiter, four, leader, five]
  }

  function BodyCalls(): Act {
    Body(Calls(), 0, Calling)
  }

  function FourCalls(): Act {
    Four(map[3 := 5], 0, Calling)
  }

  lemma CallsFive()
    ensures At(Round(BodyCalls(), Waiter(Parked), FourCalls(), Leader(map[5 := 6], 0, Calling), Five(Executing)), 0,
      None)
  {
    hide Shape, Reached, Diamond;
    Leads2();
    Members();
    var s7 := LoopIn() + [BodyCalls(), Waiter(Parked), FourCalls(), Leader(map[], 0, Calling)];
    CallPlain(Diamond(), State(s7, GateOf(0, None)), 5, 5);
    assert s7[5 := Leader(map[5 := 6], 0, Calling)] + [Five(Executing)] ==
           Round(BodyCalls(), Waiter(Parked), FourCalls(), Leader(map[5 := 6], 0, Calling), Five(Executing));
  }

  lemma FiveDone(o: Outcome)
    ensures At(Round(BodyCalls(), Waiter(Parked), FourCalls(), Leader(map[5 := 6], 0, Calling), Five(Done(o))), 0, None)
  {
    hide Shape, Reached, Diamond;
    CallsFive();
    Members();
    var s8 := Round(BodyCalls(), Waiter(Parked), FourCalls(), Leader(map[5 := 6], 0, Calling), Five(Executing));
    FinishPlain(Diamond(), State(s8, GateOf(0, None)), 6, o);
    assert s8[6 := Five(Done(o))] == Round(BodyCalls(), Waiter(Parked), FourCalls(), Leader(map[5 := 6], 0, Calling),
      Five(Done(o)));
  }

  /** The leader releases the waiter and goes on to execute. */
  lemma Released()
    ensures At(Round(BodyCalls(), Waiter(Parked), FourCalls(), Leader(map[5 := 6], 1, Executing), Five(Done(Ok))), 0,
      Some(Ok))
  {
    hide Shape, Reached, Diamond;
    FiveDone(Ok);
    Members();
    var s := Round(BodyCalls(), Waiter(Parked), FourCalls(), Leader(map[5 := 6], 0, Calling), Five(Done(Ok)));
    CollectGate(Diamond(), State(s, GateOf(0, None)), 5);
    var none, ok: seq<Option<Outcome>> := [None], [Some(Ok)];
    assert none[0 := Some(Ok)] == ok;
    assert GateOf(0, None)[3 := Gate(0, ok)] == GateOf(0, Some(Ok));
    assert s[5 := Leader(map[5 := 6], 1, Executing)] == Round(BodyCalls(), Waiter(Parked), FourCalls(),
      Leader(map[5 := 6], 1, Executing), Five(Done(Ok)));
  }

  /** The leader gives up, and the waiter stays. */
  lemma Abandons()
    ensures At(Round(BodyCalls(), Waiter(Parked), FourCalls(), Leader(map[5 := 6], 0, Done(Thrown)),
      Five(Done(Thrown))), 0, None)
  {
    hide Shape, Reached, Diamond;
    FiveDone(Thrown);
    Members();
    var s := Round(BodyCalls(), Waiter(Parked), FourCalls(), Leader(map[5 := 6], 0, Calling), Five(Done(Thrown)));
    assert 5 in s[5].kids && s[5].kids[5] == 6 && s[6].phase == Done(Thrown);
    CollectThrown(Diamond(), State(s, GateOf(0, None)), 5);
    assert s[5 := Leader(map[5 := 6], 0, Done(Thrown))] == Round(BodyCalls(), Waiter(Parked), FourCalls(),
      Leader(map[5 := 6], 0, Done(Thrown)), Five(Done(Thrown)));
  }

  lemma Resumes()
    ensures At(Round(BodyCalls(), Waiter(Done(Ok)), FourCalls(), Leader(map[5 := 6], 1, Executing), Five(Done(Ok))),
      0, Some(Ok))
  {
    hide Shape, Reached, Diamond;
    Released();
    Members();
    var s := Round(BodyCalls(), Waiter(Parked), FourCalls(), Leader(map[5 := 6], 1, Executing), Five(Done(Ok)));
    ResumeWaiter(Diamond(), State(s, GateOf(0, Some(Ok))), 3);
    assert s[3 := Waiter(Done(Ok))] == Round(BodyCalls(), Waiter(Done(Ok)), FourCalls(),
      Leader(map[5 := 6], 1, Executing), Five(Done(Ok)));
  }

  lemma LeaderDone()
    ensures At(Round(BodyCalls(), Waiter(Done(Ok)), FourCalls(), Leader(map[5 := 6], 1, Done(Ok)), Five(Done(Ok))), 0,
      Some(Ok))
  {
    hide Shape, Reached, Diamond;
    Resumes();
    Members();
    var s := Round(BodyCalls(), Waiter(Done(Ok)), FourCalls(), Leader(map[5 := 6], 1, Executing), Five(Done(Ok)));
    FinishPlain(Diamond(), State(s, GateOf(0, Some(Ok))), 5, Ok);
    assert s[5 := Leader(map[5 := 6], 1, Done(Ok))] == Round(BodyCalls(), Waiter(Done(Ok)), FourCalls(),
      Leader(map[5 := 6], 1, Done(Ok)), Five(Done(Ok)));
  }

  lemma FourRuns()
    ensures At(Round(BodyCalls(), Waiter(Done(Ok)), Four(map[3 := 5], 1, Executing), Leader(map[5 := 6], 1, Done(Ok)),
      Five(Done(Ok))), 0, Some(Ok))
  {
    hide Shape, Reached, Diamond;
    LeaderDone();
    Members();
    var s := Round(BodyCalls(), Waiter(Done(Ok)), FourCalls(), Leader(map[5 := 6], 1, Done(Ok)), Five(Done(Ok)));
    CollectPlain(Diamond(), State(s, GateOf(0, Some(Ok))), 4);
    assert s[4 := Four(map[3 := 5], 1, Executing)] == Round(BodyCalls(), Waiter(Done(Ok)),
      Four(map[3 := 5], 1, Executing), Leader(map[5 := 6], 1, Done(Ok)), Five(Done(Ok)));
  }

  lemma FourDone()
    ensures At(Round(BodyCalls(), Waiter(Done(Ok)), Four(map[3 := 5], 1, Done(Ok)), Leader(map[5 := 6], 1, Done(Ok)),
      Five(Done(Ok))), 0, Some(Ok))
  {
    hide Shape, Reached, Diamond;
    FourRuns();
    Members();
    var s := Round(BodyCalls(), Waiter(Done(Ok)), Four(map[3 := 5], 1, Executing), Leader(map[5 := 6], 1, Done(Ok)),
      Five(Done(Ok)));
    FinishPlain(Diamond(), State(s, GateOf(0, Some(Ok))), 4, Ok);
    assert s[4 := Four(map[3 := 5], 1, Done(Ok))] == Round(BodyCalls(), Waiter(Done(Ok)),
      Four(map[3 := 5], 1, Done(Ok)), Leader(map[5 := 6], 1, Done(Ok)), Five(Done(Ok)));
  }

  lemma BodyRuns()
    ensures At(Round(Body(Calls(), 1, Executing), Waiter(Done(Ok)), Four(map[3 := 5], 1, Done(Ok)),
      Leader(map[5 := 6], 1, Done(Ok)), Five(Done(Ok))), 0, Some(Ok))
  {
    hide Shape, Reached, Diamond;
    FourDone();
    Members();
    var s := Round(BodyCalls(), Waiter(Done(Ok)), Four(map[3 := 5], 1, Done(Ok)), Leader(map[5 := 6], 1, Done(Ok)),
      Five(Done(Ok)));
    CollectPlain(Diamond(), State(s, GateOf(0, Some(Ok))), 2);
    assert s[2 := Body(Calls(), 1, Executing)] == Round(Body(Calls(), 1, Executing), Waiter(Done(Ok)),
      Four(map[3 := 5], 1, Done(Ok)), Leader(map[5 := 6], 1, Done(Ok)), Five(Done(Ok)));
  }

  lemma BodyEnds()
    ensures At(Round(Body(Calls(), 1, Done(Ok)), Waiter(Done(Ok)), Four(map[3 := 5], 1, Done(Ok)),
      Leader(map[5 := 6], 1, Done(Ok)), Five(Done(Ok))), 0, Some(Ok))
  {
    hide Shape, Reached, Diamond;
    BodyRuns();
    Members();
    var s := Round(Body(Calls(), 1, Executing), Waiter(Done(Ok)), Four(map[3 := 5], 1, Done(Ok)),
      Leader(map[5 := 6], 1, Done(Ok)), Five(Done(Ok)));
    FinishPlain(Diamond(), State(s, GateOf(0, Some(Ok))), 2, Ok);
    assert s[2 := Body(Calls(), 1, Done(Ok))] == Round(Body(Calls(), 1, Done(Ok)), Waiter(Done(Ok)),
      Four(map[3 := 5], 1, Done(Ok)), Leader(map[5 := 6], 1, Done(Ok)), Five(Done(Ok)));
  }

  /** The activations of a round that is over. */
  function RoundOk(): seq<Act> {
    [One(Done(Ok)), Body(Calls(), 1, Done(Ok)), Waiter(Done(Ok)), Four(map[3 := 5], 1, Done(Ok)),
      Leader(map[5 := 6], 1, Done(Ok)), Five(Done(Ok))]
  }

  lemma SecondRound()
    ensures At([Root(map[1 := 1], [2, 7], 2, InBody)] + RoundOk() + [Act(2, 0, 7, 0, true, map[], [], 0, Calling)], 0,
      Some(Ok))
  {
    hide Shape, Reached, Diamond;
    var p, g := Diamond(), GateOf(0, Some(Ok));
    BodyEnds();
    Members();
    var s := Round(Body(Calls(), 1, Done(Ok)), Waiter(Done(Ok)), Four(map[3 := 5], 1, Done(Ok)),
      Leader(map[5 := 6], 1, Done(Ok)), Five(Done(Ok)));
    assert s == [Root(map[1 := 1], [2], 1, InBody)] + RoundOk();
    RoundOver(p, State(s, g), 0);
    var t := [Root(map[1 := 1], [2], 2, Executing)] + RoundOk();
    assert s[0 := t[0]] == t;
    NextRound(p, State(t, g), 0);
    assert [2] + [7] == [2, 7];
    assert t[0 := Root(map[1 := 1], [2, 7], 2, InBody)] == [Root(map[1 := 1], [2, 7], 2, InBody)] + RoundOk();
  }

  /** What WaitersReleased asks of a run. */
  ghost predicate ReleasesWaiter(p: Plan, lay: Layout, run: seq<Step>, l: nat, w: nat) {
    && WellFormed(p, lay) && ValidRun(p, run) && InNodes(p, After(p, run))
    && var acts := After(p, run).acts;
    && l < |acts| && w < |acts| && acts[l].exec == acts[w].exec && acts[l].round == acts[w].round
    && acts[l].leads && !acts[w].leads && acts[l].runs > 0 && acts[w].phase.Parked?
  }

  /** What WaitersAbandoned asks of a run. */
  ghost predicate AbandonsWaiter(p: Plan, lay: Layout, run: seq<Step>, e: Exec, l: nat, w: nat) {
    && WellFormed(p, lay) && ValidRun(p, run)
    && e in p.nodes && p.nodes[e].kind.PassThrough? && Abandoned(After(p, run), e, l, w)
  }

  /** What PromiseNotReplacedEarly asks of a run. */
  ghost predicate CallsSpentGate(p: Plan, lay: Layout, run: seq<Step>, i: nat, d: Exec) {
    && WellFormed(p, lay) && ValidRun(p, run) && InNodes(p, After(p, run))
    && Enabled(p, After(p, run), Call(i, d)) && d in p.nodes && p.nodes[d].kind.PassThrough?
    && After(p, run).gates[d].numOutputs == 0
  }

  ghost predicate RunsTo(p: Plan, lay: Layout, run: seq<Step>, st: State) {
    WellFormed(p, lay) && ValidRun(p, run) && InNodes(p, st) && After(p, run) == st
  }

  lemma RunTo(acts: seq<Act>, left: int, promise: Option<Outcome>) returns (run: seq<Step>)
    requires At(acts, left, promise)
    ensures RunsTo(Diamond(), DiamondLayout(), run, State(acts, GateOf(left, promise)))
  {
    hide WellFormed, Shape, Diamond, DiamondLayout;
    DiamondWellFormed();
    run :| ValidRun(Diamond(), run) && After(Diamond(), run) == State(acts, GateOf(left, promise));
  }

  /** A run that reaches a waiter whose leader has released it and is executing. */
  lemma ReachesReleasedWaiter() returns (run: seq<Step>)
    ensures ReleasesWaiter(Diamond(), DiamondLayout(), run, 5, 3)
  {
    hide WellFormed, Shape, Diamond, DiamondLayout, At, After, ValidRun;
    Released();
    run := RunTo(Round(BodyCalls(), Waiter(Parked), FourCalls(), Leader(map[5 := 6], 1, Executing), Five(Done(Ok))),
      0, Some(Ok));
  }

  /** A run that leaves a waiter abandoned. */
  lemma ReachesAbandonedWaiter() returns (run: seq<Step>)
    ensures AbandonsWaiter(Diamond(), DiamondLayout(), run, 3, 5, 3)
  {
    hide WellFormed, Shape, Diamond, DiamondLayout, At, After, ValidRun;
    Abandons();
    Members();
    run := RunTo(Round(BodyCalls(), Waiter(Parked), FourCalls(), Leader(map[5 := 6], 0, Done(Thrown)),
      Five(Done(Thrown))), 0, None);
  }

  /** A run in which the second round of the Loop calls the PassThrough, whose countdown is spent. */
  lemma ReachesSpentGate() returns (run: seq<Step>)
    ensures CallsSpentGate(Diamond(), DiamondLayout(), run, 7, 3)
  {
    hide WellFormed, Shape, Diamond, DiamondLayout, At, After, ValidRun;
    SecondRound();
    Members();
    run := RunTo([Root(map[1 := 1], [2, 7], 2, InBody)] + RoundOk() + [Act(2, 0, 7, 0, true, map[], [], 0, Calling)],
      0, Some(Ok));
  }
}
