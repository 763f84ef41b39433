/** The PassThrough gate: the countdown and the shared promise that let several
    successors trigger one run of a shared executor. */
module PassThroughGate {
  import Arith
  import opened Wrappers

  /** How a future ends: a status that is OK, a status that is not, or an exception. */
  datatype Outcome = Ok | BadStatus | Thrown

  /** `promises` lists every promise the gate has held; the last one is the current one,
      and earlier ones survive only in the futures handed to waiters. */
  datatype Gate = Gate(numOutputs: int, promises: seq<Option<Outcome>>)

  function Fresh(successors: nat): Gate {
    Gate(successors, [None])
  }

  /** One call of `doSchedule` on the gate, the part done under the lock. */
  function Arrive(g: Gate, successors: nat): Gate {
    var g1 := if g.numOutputs == 0 then Gate(successors, g.promises + [None]) else g;
    g1.(numOutputs := g1.numOutputs - 1)
  }

  /** The arrival that brings the countdown to zero schedules the dependencies. */
  predicate Leads(g: Gate) {
    g.numOutputs <= 0
  }

  function Current(g: Gate): Option<Outcome>
    requires |g.promises| > 0
  {
    g.promises[|g.promises| - 1]
  }

  function Fulfil(g: Gate, o: Outcome): Gate
    requires |g.promises| > 0
  {
    g.(promises := g.promises[|g.promises| - 1 := Some(o)])
  }

  // ---- What a number of arrivals does to a gate ----

  /** What is left of the round after `a` arrivals at a gate with `k` successors. */
  function Countdown(a: nat, k: nat): int {
    if k == 0 then 0 - a else if a > 0 && a % k == 0 then 0 else k - a % k
  }

  /** How many promises `a` arrivals have used: one for each round begun. A gate without
      successors opens one promise on its first arrival and never again. */
  function Opened(a: nat, k: nat): nat {
    if a == 0 then 1 else if k == 0 then 2 else (a - 1) / k + 1
  }

  /** One more arrival, seen through the counts. */
  lemma ArrivalCounts(g: Gate, a: nat, k: nat)
    requires g.numOutputs == Countdown(a, k) && |g.promises| == Opened(a, k)
    ensures
      var g' := Arrive(g, k);
      && g'.numOutputs == Countdown(a + 1, k) && |g'.promises| == Opened(a + 1, k)
      && (Leads(g') <==> k == 0 || (a + 1) % k == 0)
      && g'.promises == g.promises + (if Opened(a + 1, k) > Opened(a, k) then [None] else [])
      && (k > 0 ==> (Opened(a + 1, k) > Opened(a, k) <==> a > 0 && a % k == 0))
  {
    if k > 0 {
      Arith.CountOne(a, k);
      if a > 0 {
        Arith.CountOne(a - 1, k);
      }
    }
  }

  /** The gate as the scheduler keeps it: updated in place, under its lock. */
  class PassThroughData {
    const successors: nat
    var numOutputs: int
    var promises: seq<Option<Outcome>>
    ghost var arrivals: nat

    ghost function View(): Gate
      reads this
    {
      Gate(numOutputs, promises)
    }

    ghost predicate Valid()
      reads this
    {
      numOutputs == Countdown(arrivals, successors) && |promises| == Opened(arrivals, successors)
    }

    constructor (outputs: nat)
      ensures Valid() && successors == outputs && arrivals == 0 && Current(View()).None?
    {
      successors, numOutputs, promises, arrivals := outputs, outputs, [None], 0;
    }

    /** An arrival leads exactly when it completes a round, and opens a promise exactly when it
        begins a round after the first. */
    method Schedule() returns (leads: bool)
      requires Valid()
      modifies this
      ensures Valid() && arrivals == old(arrivals) + 1 && View() == Arrive(old(View()), successors)
      ensures leads <==> successors == 0 || arrivals % successors == 0
      ensures successors > 0 ==>
        promises == old(promises) + if old(arrivals) > 0 && old(arrivals) % successors == 0 then [None] else []
    {
      ArrivalCounts(View(), arrivals, successors);
      if numOutputs == 0 {
        numOutputs := successors;
        promises := promises + [None];
      }
      numOutputs := numOutputs - 1;
      leads := !(numOutputs > 0);
      arrivals := arrivals + 1;
    }

    /** `setValue` on a promise that already has a value throws. */
    method SetValue(o: Outcome) returns (accepted: bool)
      requires Valid()
      modifies this
      ensures Valid() && arrivals == old(arrivals) && numOutputs == old(numOutputs)
      ensures accepted <==> Current(old(View())).None?
      ensures Current(View()).Some? && (accepted ==> Current(View()) == Some(o))
      ensures !accepted ==> promises == old(promises)
      ensures forall g :: 0 <= g < |promises| - 1 ==> promises[g] == old(promises)[g]
    {
      accepted := promises[|promises| - 1].None?;
      if accepted {
        promises := promises[|promises| - 1 := Some(o)];
      }
    }
  }

  // ---- Round after round ----

  function ArriveTimes(g: Gate, k: nat, n: nat): Gate {
    if n == 0 then g else Arrive(ArriveTimes(g, k, n - 1), k)
  }

  /** The arrivals that make up a round. */
  function Turns(k: nat): nat {
    if k == 0 then 1 else k
  }

  /** The gate after rounds with the given outcomes; a refused value changes nothing. */
  function AfterRounds(k: nat, outs: seq<Outcome>): (g: Gate)
    ensures |g.promises| > 0
  {
    if outs == [] then Fresh(k)
    else
      var arrived := ArriveTimes(AfterRounds(k, outs[..|outs| - 1]), k, Turns(k));
      ArrivedHasPromise(AfterRounds(k, outs[..|outs| - 1]), k, Turns(k));
      if Current(arrived).None? then Fulfil(arrived, outs[|outs| - 1]) else arrived
  }

  lemma {:induction false} ArrivedHasPromise(g: Gate, k: nat, n: nat)
    requires |g.promises| > 0
    ensures |ArriveTimes(g, k, n).promises| > 0
    decreases n
  {
    if n > 0 {
      ArrivedHasPromise(g, k, n - 1);
    }
  }

  lemma {:induction false} ArriveTimesCounts(g: Gate, a: nat, k: nat, n: nat)
    requires g.numOutputs == Countdown(a, k) && |g.promises| == Opened(a, k)
    ensures
      var g' := ArriveTimes(g, k, n);
      && g'.numOutputs == Countdown(a + n, k) && |g'.promises| == Opened(a + n, k)
      && g.promises <= g'.promises && forall i :: |g.promises| <= i < |g'.promises| ==> g'.promises[i].None?
    decreases n
  {
    if n > 0 {
      ArriveTimesCounts(g, a, k, n - 1);
      ArrivalCounts(ArriveTimes(g, k, n - 1), a + (n - 1), k);
    }
  }

  lemma RoundArith(n: nat, k: nat)
    requires k > 0
    ensures n * k + k == (n + 1) * k && Opened(n * k, k) == (if n == 0 then 1 else n) && Opened((n + 1) * k, k) == n + 1
  {
    if n > 0 {
      Arith.DivModUnique(n * k - 1, k, n - 1, k - 1);
    }
    Arith.DivModUnique((n + 1) * k - 1, k, n, k - 1);
  }

  lemma {:induction false} AfterRoundsCounts(k: nat, outs: seq<Outcome>)
    ensures var a := |outs| * Turns(k);
            AfterRounds(k, outs).numOutputs == Countdown(a, k) && |AfterRounds(k, outs).promises| == Opened(a, k)
    ensures outs != [] ==> Current(AfterRounds(k, outs)).Some?
    decreases |outs|
  {
    hide Countdown, Opened, Turns, ArriveTimes;
    if outs != [] {
      var n := |outs| - 1;
      AfterRoundsCounts(k, outs[..n]);
      ArriveTimesCounts(AfterRounds(k, outs[..n]), n * Turns(k), k, Turns(k));
      OneMore(n, Turns(k));
    } else {
      NoRounds(k);
    }
  }

  lemma OneMore(n: nat, t: nat)
    ensures n * t + t == (n + 1) * t
  {
  }

  lemma NoRounds(k: nat)
    ensures 0 * Turns(k) == 0 && Countdown(0, k) == k && Opened(0, k) == 1
  {
  }

  /** A gate can be used for another round exactly when it has a successor: without one, the
      promise of its first round is still the current one, and the next value is refused. */
  lemma NextRoundIsOpen(k: nat, outs: seq<Outcome>)
    ensures
      var g := ArriveTimes(AfterRounds(k, outs), k, Turns(k));
      |g.promises| > 0 && (Current(g).None? <==> k > 0 || outs == [])
  {
    var n := |outs|;
    AfterRoundsCounts(k, outs);
    ArriveTimesCounts(AfterRounds(k, outs), n * Turns(k), k, Turns(k));
    if k > 0 {
      RoundArith(n, k);
    }
  }
}

/** The scheduler as a step system. Each call of `doSchedule` creates an activation; the
    steps are the points at which a thread may interleave. */
module SchedulerSteps {
  import opened ExecutorGraph
  import opened PassThroughGate

  datatype Phase =
    | Calling            // dependencies are being scheduled or awaited
    | Parked             // waiting on the promise of a PassThrough
    | Executing          // open / execute / close is in flight
    | InBody             // a Select branch or a Loop body is running
    | Done(outcome: Outcome)

  /** One call of `doSchedule(exec)`. `round` is the activation of the body root it runs
      under, `gen` the promise current at arrival, `leads` whether this activation
      schedules the dependencies, `runs` how often it has called `execute`. */
  datatype Act = Act(exec: Exec, caller: nat, round: nat, gen: nat, leads: bool,
                     kids: map<Exec, nat>, bodies: seq<nat>, runs: nat, phase: Phase)

  datatype State = State(acts: seq<Act>, gates: map<Exec, Gate>)

  /** The value left by a Loop or Select condition. */
  datatype Cond = True | False | NotBool

  datatype Step =
    | Call(i: nat, d: Exec)                    // next iteration of the loop in doScheduleParallel
    | Collect(i: nat)                          // folly::collect completes, continuation runs
    | Finish(i: nat, o: Outcome, c: Cond)      // execute() completes
    | BodyDone(i: nat)                         // the branch or loop body completes
    | Resume(i: nat)                           // the promise wakes a waiter

  predicate InNodes(p: Plan, st: State) {
    && (forall i :: 0 <= i < |st.acts| ==> st.acts[i].exec in p.nodes)
    && (forall e :: e in p.nodes && p.nodes[e].kind.PassThrough? ==> e in st.gates && |st.gates[e].promises| > 0)
  }

  function StartAct(p: Plan, e: Exec, caller: nat, round: nat, g: Gate): Act
    requires e in p.nodes && (p.nodes[e].kind.PassThrough? ==> |g.promises| > 0)
  {
    if p.nodes[e].kind.PassThrough? then
      Act(e, caller, round, |g.promises| - 1, Leads(g), map[], [], 0, if Leads(g) then Calling else Parked)
    else if p.nodes[e].deps == {} then
      Act(e, caller, round, 0, true, map[], [], 1, Executing)
    else
      Act(e, caller, round, 0, true, map[], [], 0, Calling)
  }

  function ArriveAt(p: Plan, st: State, e: Exec): Gate
    requires Shape(p) && InNodes(p, st) && e in p.nodes
    ensures p.nodes[e].kind.PassThrough? ==> |ArriveAt(p, st, e).promises| > 0
  {
    if p.nodes[e].kind.PassThrough? then Arrive(st.gates[e], |p.Successors(e)|) else Fresh(0)
  }

  /** `doSchedule(e)`: append the activation, and count an arrival at a PassThrough. */
  function Enter(p: Plan, st: State, e: Exec, caller: nat, round: nat): State
    requires Shape(p) && InNodes(p, st) && e in p.nodes
  {
    var g := ArriveAt(p, st, e);
    State(st.acts + [StartAct(p, e, caller, round, g)],
          if p.nodes[e].kind.PassThrough? then st.gates[e := g] else st.gates)
  }

  function Init(p: Plan): State
    requires Shape(p)
  {
    var gates := map e | e in p.nodes && p.nodes[e].kind.PassThrough? :: Fresh(|p.Successors(e)|);
    Enter(p, State([], gates), p.root, 0, 0)
  }

  function SetAct(st: State, i: nat, a: Act): State
    requires i < |st.acts|
  {
    st.(acts := st.acts[i := a])
  }

  predicate KidsDone(st: State, i: nat)
    requires i < |st.acts|
  {
    forall d :: d in st.acts[i].kids ==>
      st.acts[i].kids[d] < |st.acts| && st.acts[st.acts[i].kids[d]].phase.Done?
  }

  predicate KidsOk(st: State, i: nat)
    requires i < |st.acts|
  {
    forall d :: d in st.acts[i].kids ==>
      st.acts[i].kids[d] < |st.acts| && st.acts[st.acts[i].kids[d]].phase == Done(Ok)
  }

  predicate KidThrown(st: State, i: nat)
    requires i < |st.acts|
  {
    exists d :: d in st.acts[i].kids && st.acts[i].kids[d] < |st.acts| &&
                st.acts[st.acts[i].kids[d]].phase == Done(Thrown)
  }

  predicate LastBodyDone(st: State, i: nat)
    requires i < |st.acts|
  {
    var b := st.acts[i].bodies;
    |b| > 0 && b[|b| - 1] < |st.acts| && st.acts[b[|b| - 1]].phase.Done?
  }

  predicate Enabled(p: Plan, st: State, s: Step)
    requires Shape(p) && InNodes(p, st)
  {
    s.i < |st.acts| &&
    var a := st.acts[s.i];
    var n := p.nodes[a.exec];
    match s
    case Call(_, d) => a.phase.Calling? && d in n.deps && d !in a.kids
    case Collect(_) =>
      && a.phase.Calling? && a.kids.Keys == n.deps
      && (KidThrown(st, s.i) || KidsDone(st, s.i))
    case Finish(_, _, c) => a.phase.Executing? && (n.kind.Select? ==> c != NotBool)
    case BodyDone(_) => a.phase.InBody? && (n.kind.Select? || n.kind.Loop?) && LastBodyDone(st, s.i)
    case Resume(_) =>
      && a.phase.Parked? && n.kind.PassThrough?
      && a.gen < |st.gates[a.exec].promises| && st.gates[a.exec].promises[a.gen].Some?
  }

  /** The continuation registered on `doScheduleParallel(deps)`. An exception skips it;
      a PassThrough fulfils its promise first, and fulfilling one twice throws. */
  function ApplyCollect(p: Plan, st: State, i: nat): State
    requires Shape(p) && InNodes(p, st) && Enabled(p, st, Collect(i))
  {
    var a := st.acts[i];
    var ok := KidsOk(st, i);
    var failed := SetAct(st, i, a.(phase := Done(Thrown)));
    var running := SetAct(st, i, a.(phase := Executing, runs := a.runs + 1));
    if KidThrown(st, i) then
      failed
    else if p.nodes[a.exec].kind.PassThrough? then
      var g := st.gates[a.exec];
      if Current(g).Some? then failed
      else if ok then running.(gates := st.gates[a.exec := Fulfil(g, Ok)])
      else failed.(gates := st.gates[a.exec := Fulfil(g, BadStatus)])
    else
      if ok then running else failed
  }

  /** What follows `execute()`: the end for most executors, the branch for a Select,
      the condition test of `iterate` for a Loop. */
  function ApplyFinish(p: Plan, st: State, i: nat, o: Outcome, c: Cond): State
    requires Shape(p) && InNodes(p, st) && Enabled(p, st, Finish(i, o, c))
  {
    var a := st.acts[i];
    var n := p.nodes[a.exec];
    if n.kind.Ordinary? || n.kind.PassThrough? then
      SetAct(st, i, a.(phase := Done(o)))
    else if o != Ok || c.NotBool? then
      SetAct(st, i, a.(phase := Done(Thrown)))
    else if n.kind.Loop? && c.False? then
      SetAct(st, i, a.(phase := Done(Ok)))
    else
      var b := if n.kind.Select? && c.False? then n.bodies[1] else n.bodies[0];
      Enter(p, SetAct(st, i, a.(phase := InBody, bodies := a.bodies + [|st.acts|])), b, i, |st.acts|)
  }

  function ApplyBodyDone(p: Plan, st: State, i: nat): State
    requires Shape(p) && InNodes(p, st) && Enabled(p, st, BodyDone(i))
  {
    var a := st.acts[i];
    var o := st.acts[a.bodies[|a.bodies| - 1]].phase.outcome;
    if p.nodes[a.exec].kind.Select? then
      SetAct(st, i, a.(phase := Done(o)))
    else if o == Ok then
      SetAct(st, i, a.(phase := Executing, runs := a.runs + 1))
    else
      SetAct(st, i, a.(phase := Done(Thrown)))
  }

  function Apply(p: Plan, st: State, s: Step): State
    requires Shape(p) && InNodes(p, st) && Enabled(p, st, s)
  {
    var a := st.acts[s.i];
    match s
    case Call(i, d) => Enter(p, SetAct(st, i, a.(kids := a.kids[d := |st.acts|])), d, i, a.round)
    case Collect(i) => ApplyCollect(p, st, i)
    case Finish(i, o, c) => ApplyFinish(p, st, i, o, c)
    case BodyDone(i) => ApplyBodyDone(p, st, i)
    case Resume(i) => SetAct(st, i, a.(phase := Done(st.gates[a.exec].promises[a.gen].value)))
  }

  /** A run is a sequence of steps, each enabled when it is taken. */
  ghost predicate ValidRun(p: Plan, run: seq<Step>)
    requires Shape(p)
    decreases |run|, 0
  {
    run == [] ||
    (ValidRun(p, run[..|run| - 1]) &&
     InNodes(p, After(p, run[..|run| - 1])) &&
     Enabled(p, After(p, run[..|run| - 1]), run[|run| - 1]))
  }

  ghost function After(p: Plan, run: seq<Step>): State
    requires Shape(p) && ValidRun(p, run)
    decreases |run|, 1
  {
    if run == [] then Init(p) else Apply(p, After(p, run[..|run| - 1]), run[|run| - 1])
  }
}
