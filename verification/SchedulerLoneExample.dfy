/** A Loop whose body is a PassThrough without successors: its second round throws. */
module SchedulerLoneExample {
  import opened ExecutorGraph
  import opened PassThroughGate
  import opened Wrappers
  import opened SchedulerSteps
  import opened SchedulerGates
  import opened SchedulerReach

  /** Executor 0 is a Loop over the PassThrough 2, which depends on 3. */
  function NodeOf(e: Exec): Node {
    if e == 0 then Node(Loop, {1}, [2])
    else if e == 2 then Node(PassThrough, {3}, [])
    else Node(Ordinary, {}, [])
  }

  function LonePlan(): Plan {
    Plan(0, map e: Exec | 0 <= e < 4 :: NodeOf(e))
  }

  lemma Members()
    ensures var p := LonePlan(); p.root == 0 && (forall e :: e in p.nodes <==> 0 <= e < 4)
    ensures LonePlan().nodes[0] == Node(Loop, {1}, [2]) && LonePlan().nodes[2] == Node(PassThrough, {3}, [])
    ensures LonePlan().nodes[1] == Node(Ordinary, {}, []) && LonePlan().nodes[3] == Node(Ordinary, {}, [])
  {
  }

  lemma LoneShape()
    ensures Shape(LonePlan()) && LonePlan().Successors(2) == {}
  {
    hide LonePlan;
    Members();
    var p := LonePlan();
    forall e | e in p.nodes
      ensures 2 !in p.nodes[e].deps && p.nodes[e].deps <= p.nodes.Keys
      ensures |p.nodes[e].bodies| == (match p.nodes[e].kind case Loop => 1 case Select => 2 case _ => 0)
      ensures !p.nodes[e].kind.Ordinary? ==> p.nodes[e].deps != {}
      ensures forall b :: b in p.nodes[e].bodies ==> b in p.nodes
    {
      assert e == 0 || e == 1 || e == 2 || e == 3;
      assert 3 in p.nodes[2].deps && 1 in p.nodes[0].deps;
    }
  }

  function Root(kids: map<Exec, nat>, bodies: seq<nat>, runs: nat, phase: Phase): Act {
    Act(0, 0, 0, 0, true, kids, bodies, runs, phase)
  }

  function One(phase: Phase): Act {
    Act(1, 0, 0, 0, true, map[], [], 1, phase)
  }

  /** An activation of the PassThrough, number `i`, and of the executor that it depends on. */
  function Gated(i: nat, kids: map<Exec, nat>, runs: nat, phase: Phase): Act {
    Act(2, 0, i, 1, true, kids, [], runs, phase)
  }

  function Three(i: nat, phase: Phase): Act {
    Act(3, i, i, 0, true, map[], [], 1, phase)
  }

  function GateOf(left: int, promises: seq<Option<Outcome>>): map<Exec, Gate> {
    map[2 := Gate(left, promises)]
  }

  ghost predicate At(acts: seq<Act>, left: int, promises: seq<Option<Outcome>>) {
    && Shape(LonePlan()) && LonePlan().Successors(2) == {}
    && Reached(LonePlan(), State(acts, GateOf(left, promises)))
  }

  lemma FirstState()
    requires Shape(LonePlan())
    ensures Init(LonePlan()) == State([Root(map[], [], 0, Calling)], GateOf(0, [None]))
  {
    hide Shape, LonePlan;
    Members();
    LoneShape();
    var p := LonePlan();
    var gates := map e | e in p.nodes && p.nodes[e].kind.PassThrough? :: Fresh(|p.Successors(e)|);
    assert gates == GateOf(0, [None]);
  }

  lemma Entered()
    ensures At([Root(map[1 := 1], [], 0, Calling), One(Done(Ok))], 0, [None])
  {
    hide Shape, Reached, LonePlan, Init;
    var p, g := LonePlan(), GateOf(0, [None]);
    Members();
    LoneShape();
    FirstState();
    InitReached(p);
    var s0, s1 := [Root(map[], [], 0, Calling)], [Root(map[1 := 1], [], 0, Calling), One(Executing)];
    CallPlain(p, State(s0, g), 0, 1);
    assert s0[0 := s1[0]] + [One(Executing)] == s1;
    FinishPlain(p, State(s1, g), 1, Ok);
    assert s1[1 := One(Done(Ok))] == [Root(map[1 := 1], [], 0, Calling), One(Done(Ok))];
  }

  /** The first round: the gate opens its second and last promise. */
  lemma FirstRound()
    ensures At([Root(map[1 := 1], [2], 1, InBody), One(Done(Ok)), Gated(2, map[], 0, Calling)], -1, [None, None])
  {
    hide Shape, Reached, LonePlan;
    var p, g := LonePlan(), GateOf(0, [None]);
    Members();
    Entered();
    var s2 := [Root(map[1 := 1], [], 0, Calling), One(Done(Ok))];
    CollectPlain(p, State(s2, g), 0);
    var s3 := [Root(map[1 := 1], [], 1, Executing), One(Done(Ok))];
    assert s2[0 := s3[0]] == s3;
    NextGateRound(p, State(s3, g), 0);
    assert [] + [2] == [2];
    var one, two: seq<Option<Outcome>> := [None], [None, None];
    assert one + [None] == two;
    assert g[2 := Gate(-1, two)] == GateOf(-1, two);
    assert s3[0 := Root(map[1 := 1], [2], 1, InBody)] + [Gated(2, map[], 0, Calling)] ==
           [Root(map[1 := 1], [2], 1, InBody), One(Done(Ok)), Gated(2, map[], 0, Calling)];
  }

  function Round(gated: Act, three: Act): seq<Act> {
    [Root(map[1 := 1], [2], 1, InBody), One(Done(Ok)), gated, three]
  }

  lemma FirstCollected()
    ensures At(Round(Gated(2, map[3 := 3], 0, Calling), Three(2, Done(Ok))), -1, [None, None])
  {
    hide Shape, Reached, LonePlan;
    var p, g := LonePlan(), GateOf(-1, [None, None]);
    Members();
    FirstRound();
    var s4 := [Root(map[1 := 1], [2], 1, InBody), One(Done(Ok)), Gated(2, map[], 0, Calling)];
    CallPlain(p, State(s4, g), 2, 3);
    var s5 := Round(Gated(2, map[3 := 3], 0, Calling), Three(2, Executing));
    assert s4[2 := s5[2]] + [Three(2, Executing)] == s5;
    FinishPlain(p, State(s5, g), 3, Ok);
    assert s5[3 := Three(2, Done(Ok))] == Round(Gated(2, map[3 := 3], 0, Calling), Three(2, Done(Ok)));
  }

  lemma FirstDone()
    ensures At(Round(Gated(2, map[3 := 3], 1, Done(Ok)), Three(2, Done(Ok))), -1, [None, Some(Ok)])
  {
    hide Shape, Reached, LonePlan;
    var p := LonePlan();
    var open, spent: seq<Option<Outcome>> := [None, None], [None, Some(Ok)];
    Members();
    FirstCollected();
    var s6 := Round(Gated(2, map[3 := 3], 0, Calling), Three(2, Done(Ok)));
    CollectGate(p, State(s6, GateOf(-1, open)), 2);
    assert open[1 := Some(Ok)] == spent;
    assert GateOf(-1, open)[2 := Gate(-1, spent)] == GateOf(-1, spent);
    var s7 := Round(Gated(2, map[3 := 3], 1, Executing), Three(2, Done(Ok)));
    assert s6[2 := s7[2]] == s7;
    FinishPlain(p, State(s7, GateOf(-1, spent)), 2, Ok);
    assert s7[2 := Gated(2, map[3 := 3], 1, Done(Ok))] == Round(Gated(2, map[3 := 3], 1, Done(Ok)), Three(2, Done(Ok)));
  }

  function Before(): seq<Act> {
    [Root(map[1 := 1], [2, 4], 2, InBody), One(Done(Ok)), Gated(2, map[3 := 3], 1, Done(Ok)), Three(2, Done(Ok))]
  }

  /** The second round: no promise is opened. */
  lemma SecondRound()
    ensures At(Before() + [Gated(4, map[], 0, Calling)], -2, [None, Some(Ok)])
  {
    hide Shape, Reached, LonePlan;
    var p := LonePlan();
    var spent: seq<Option<Outcome>> := [None, Some(Ok)];
    var g := GateOf(-1, spent);
    Members();
    FirstDone();
    var s8 := Round(Gated(2, map[3 := 3], 1, Done(Ok)), Three(2, Done(Ok)));
    RoundOver(p, State(s8, g), 0);
    var s9 := s8[0 := Root(map[1 := 1], [2], 2, Executing)];
    NextGateRound(p, State(s9, g), 0);
    assert [2] + [4] == [2, 4];
    assert g[2 := Gate(-2, spent)] == GateOf(-2, spent);
    assert s9[0 := Root(map[1 := 1], [2, 4], 2, InBody)] == Before();
  }

  /** A run that reaches the second round of a Loop over a PassThrough, about to collect. */
  lemma ReachesSecondRound() returns (run: seq<Step>)
    ensures ThrowsNext(LonePlan(), run, 2, 2, 4)
  {
    hide Shape, Reached, LonePlan;
    var p := LonePlan();
    var g := GateOf(-2, [None, Some(Ok)]);
    Members();
    SecondRound();
    var t0 := Before() + [Gated(4, map[], 0, Calling)];
    CallPlain(p, State(t0, g), 4, 3);
    var t1 := Before() + [Gated(4, map[3 := 5], 0, Calling), Three(4, Executing)];
    assert t0[4 := t1[4]] + [Three(4, Executing)] == t1;
    FinishPlain(p, State(t1, g), 5, Ok);
    var t2 := Before() + [Gated(4, map[3 := 5], 0, Calling), Three(4, Done(Ok))];
    assert t1[5 := Three(4, Done(Ok))] == t2;
    run := RunOf(p, State(t2, g));
    assert KidsDone(State(t2, g), 4);
  }

  lemma RunOf(p: Plan, st: State) returns (run: seq<Step>)
    requires Shape(p) && Reached(p, st)
    ensures ValidRun(p, run) && After(p, run) == st && InNodes(p, st)
  {
    hide Shape;
    run :| ValidRun(p, run) && After(p, run) == st;
  }

  /** What LoneThenThrows asks of a run. */
  ghost predicate ThrowsNext(p: Plan, run: seq<Step>, e: Exec, i: nat, j: nat) {
    && Shape(p) && ValidRun(p, run) && Lone(p, e) && InNodes(p, After(p, run))
    && i < |After(p, run).acts| && Ran(After(p, run).acts[i], e)
    && Enabled(p, After(p, run), Collect(j)) && After(p, run).acts[j].exec == e
  }
}
