/** What every reachable state of the scheduler satisfies. */
module SchedulerInvariant {
  import opened Wrappers
  import opened ExecutorGraph
  import opened PassThroughGate
  import opened SchedulerSteps

  /** Activation `i` hangs off its caller and knows the body activation it runs under. */
  ghost predicate Linked(p: Plan, lay: Layout, st: State, i: nat)
    requires i < |st.acts|
  {
    var a := st.acts[i];
    && a.exec in lay.region
    && (i == 0 <==> a.exec == p.root)
    && (if i == 0 then a.caller == 0 else a.caller < i)
    && a.round <= i
    && st.acts[a.round].exec == lay.region[a.exec]
    && (IsRoot(lay, a.exec) ==> a.round == i && (i > 0 ==> i in st.acts[a.caller].bodies))
    && (!IsRoot(lay, a.exec) ==>
          i > 0 &&
          var c := st.acts[a.caller];
          c.round == a.round && a.exec in c.kids && c.kids[a.exec] == i)
  }

  /** The children of activation `i` point back to it. */
  ghost predicate Rooted(p: Plan, st: State, i: nat)
    requires i < |st.acts|
  {
    var a := st.acts[i];
    && a.exec in p.nodes
    && (forall d :: d in a.kids ==>
          d in p.nodes[a.exec].deps && i < a.kids[d] < |st.acts| &&
          st.acts[a.kids[d]].exec == d && st.acts[a.kids[d]].caller == i)
    && (forall k :: 0 <= k < |a.bodies| ==>
          i < a.bodies[k] < |st.acts| && st.acts[a.bodies[k]].caller == i &&
          st.acts[a.bodies[k]].exec in p.nodes[a.exec].bodies)
  }

  /** The phase of an activation agrees with its own counters. */
  ghost predicate Local(p: Plan, a: Act) {
    a.exec in p.nodes &&
    var n := p.nodes[a.exec];
    && (!a.leads ==> n.kind.PassThrough? && a.kids == map[] && a.bodies == [] && a.runs == 0 &&
                     (a.phase.Parked? || a.phase.Done?))
    && (a.leads ==> !a.phase.Parked? && (!a.phase.Calling? ==> a.kids.Keys == n.deps))
    && (a.phase.Calling? ==> a.runs == 0)
    && (a.bodies != [] ==> a.runs > 0 && (n.kind.Loop? || (n.kind.Select? && |a.bodies| == 1)))
    && (a.phase.Executing? ==> a.runs == |a.bodies| + 1 && (n.kind.Select? ==> a.bodies == []))
    && (a.phase.InBody? ==> a.bodies != [] && a.runs == |a.bodies|)
    && (a.leads && a.phase == Done(BadStatus) ==> a.runs > 0)
    && (a.leads && a.phase == Done(Ok) ==>
          a.runs == (if n.kind.Select? then 1 else |a.bodies| + 1) && (n.kind.Select? ==> |a.bodies| == 1))
  }

  /** `execute` is only called once every dependency ended well, and earlier rounds of a
      loop body ended well. */
  ghost predicate Flow(st: State, i: nat)
    requires i < |st.acts|
  {
    var a := st.acts[i];
    && (a.runs > 0 ==> KidsOk(st, i))
    && (forall k :: 0 <= k < |a.bodies| ==> a.bodies[k] < |st.acts|)
    && (forall k :: 0 <= k < |a.bodies| - 1 ==> st.acts[a.bodies[k]].phase == Done(Ok))
    && (|a.bodies| > 0 ==>
          var last := st.acts[a.bodies[|a.bodies| - 1]].phase;
          && (a.phase.Executing? || a.phase == Done(Ok) ==> last == Done(Ok))
          && (a.phase == Done(BadStatus) ==> last == Done(BadStatus)))
  }

  ghost predicate Skeleton(p: Plan, lay: Layout, st: State) {
    && |st.acts| > 0 && st.acts[0].leads
    && (forall i :: 0 <= i < |st.acts| ==> Linked(p, lay, st, i))
    && (forall i :: 0 <= i < |st.acts| ==> Rooted(p, st, i))
    && (forall i :: 0 <= i < |st.acts| ==> Local(p, st.acts[i]))
    && (forall i :: 0 <= i < |st.acts| ==> Flow(st, i))
  }

  /** Two activations of one body root do not overlap: the earlier one has ended well. */
  ghost predicate RoundsInTurn(lay: Layout, st: State) {
    forall r, q :: 0 <= r < q < |st.acts| && st.acts[r].exec == st.acts[q].exec && IsRoot(lay, st.acts[r].exec)
      ==> st.acts[r].phase == Done(Ok)
  }

  /** The executors whose activations have called `e` while its promise was number `g`. */
  ghost function Callers(p: Plan, st: State, e: Exec, g: nat): set<Exec> {
    set s | s in p.nodes && exists j: nat :: Arrives(st, j, e, g, s)
  }

  ghost predicate Arrives(st: State, j: nat, e: Exec, g: nat, s: Exec) {
    && j < |st.acts| && st.acts[j].exec == e && st.acts[j].gen == g
    && st.acts[j].caller < |st.acts| && st.acts[st.acts[j].caller].exec == s
  }

  ghost predicate Shared(p: Plan, e: Exec) {
    e in p.nodes && p.nodes[e].kind.PassThrough? && p.Successors(e) != {}
  }

  /** Promises and rounds of a PassThrough advance together. */
  ghost predicate InStep(p: Plan, st: State, i: nat, j: nat)
    requires InNodes(p, st) && i < |st.acts| && j < |st.acts|
  {
    st.acts[i].exec == st.acts[j].exec && p.nodes[st.acts[i].exec].kind.PassThrough? ==>
      (st.acts[i].gen < st.acts[j].gen <==> st.acts[i].round < st.acts[j].round)
  }

  /** The countdown is the number of successors that have not yet called. */
  ghost predicate CountdownOk(p: Plan, st: State, e: Exec)
    requires InNodes(p, st) && Shared(p, e)
  {
    var g := st.gates[e];
    && g.numOutputs == |p.Successors(e)| - |Callers(p, st, e, |g.promises| - 1)|
    && (|g.promises| > 1 ==> Callers(p, st, e, |g.promises| - 1) != {})
  }

  ghost predicate IsLeader(st: State, i: nat, e: Exec, g: nat) {
    i < |st.acts| && st.acts[i].exec == e && st.acts[i].gen == g && st.acts[i].leads
  }

  /** There is a leader for a promise exactly when all successors have called, and only one. */
  ghost predicate LeaderOk(p: Plan, st: State, e: Exec, g: nat)
    requires Shared(p, e)
  {
    && (Callers(p, st, e, g) == p.Successors(e) <==> exists i :: IsLeader(st, i, e, g))
    && (forall i, j :: IsLeader(st, i, e, g) && IsLeader(st, j, e, g) ==> i == j)
  }

  /** Promise `g` of `e` is fulfilled by its leader, once, when the dependencies have ended. */
  ghost predicate PromiseOk(p: Plan, st: State, i: nat)
    requires InNodes(p, st) && i < |st.acts|
  {
    var a := st.acts[i];
    p.nodes[a.exec].kind.PassThrough? ==>
      var ps := st.gates[a.exec].promises;
      && a.gen < |ps|
      && (a.leads && a.phase.Calling? ==> a.gen == |ps| - 1 && ps[a.gen].None?)
      && (a.leads && a.runs > 0 ==> ps[a.gen] == Some(Ok))
      && (a.leads && ps[a.gen].None? ==> a.phase.Calling? || a.phase == Done(Thrown))
      && (!a.leads && a.phase == Done(Ok) ==> ps[a.gen] == Some(Ok))
  }

  ghost predicate HasRun(st: State, i: nat, e: Exec, g: nat) {
    IsLeader(st, i, e, g) && st.acts[i].runs > 0
  }

  ghost predicate KeptPromise(st: State, e: Exec, g: nat)
    requires e in st.gates && g < |st.gates[e].promises|
  {
    && (st.gates[e].promises[g].Some? ==> exists i :: IsLeader(st, i, e, g))
    && (st.gates[e].promises[g] == Some(Ok) ==> exists i :: HasRun(st, i, e, g))
  }

  ghost predicate Doors(p: Plan, st: State)
    requires InNodes(p, st)
  {
    && (forall i, j :: 0 <= i < |st.acts| && 0 <= j < |st.acts| ==> InStep(p, st, i, j))
    && (forall e :: Shared(p, e) ==> CountdownOk(p, st, e))
    && (forall e, g: nat :: Shared(p, e) && g < |st.gates[e].promises| ==> LeaderOk(p, st, e, g))
  }

  ghost predicate Promises(p: Plan, st: State)
    requires InNodes(p, st)
  {
    && (forall i :: 0 <= i < |st.acts| ==> PromiseOk(p, st, i))
    && (forall e, g: nat :: e in p.nodes && p.nodes[e].kind.PassThrough? && g < |st.gates[e].promises|
          ==> KeptPromise(st, e, g))
  }

  ghost predicate Inv(p: Plan, lay: Layout, st: State) {
    && WellFormed(p, lay) && InNodes(p, st)
    && Skeleton(p, lay, st) && RoundsInTurn(lay, st) && Doors(p, st) && Promises(p, st)
  }

  // ---- Consequences of the invariant ----

  /** Within one round an executor has at most one activation that schedules its dependencies. */
  lemma UniqueLeader(p: Plan, lay: Layout, st: State, i: nat, j: nat)
    requires WellFormed(p, lay) && InNodes(p, st) && Skeleton(p, lay, st) && Doors(p, st) && Promises(p, st)
    requires i < |st.acts| && j < |st.acts|
    requires st.acts[i].exec == st.acts[j].exec && st.acts[i].round == st.acts[j].round
    requires st.acts[i].leads && st.acts[j].leads
    ensures i == j
    decreases i
  {
    hide WellFormed;
    var e := st.acts[i].exec;
    assert Linked(p, lay, st, i) && Linked(p, lay, st, j);
    if !IsRoot(lay, e) {
      if p.nodes[e].kind.PassThrough? {
        NodeFacts(p, lay, e);
        assert InStep(p, st, i, j) && InStep(p, st, j, i) && PromiseOk(p, st, i);
        var g := st.acts[i].gen;
        assert LeaderOk(p, st, e, g);
        assert IsLeader(st, i, e, g) && IsLeader(st, j, e, g);
      } else {
        var c, d := st.acts[i].caller, st.acts[j].caller;
        assert Rooted(p, st, c) && Rooted(p, st, d) && Local(p, st.acts[c]) && Local(p, st.acts[d]);
        OneSuccessor(p, lay, e, st.acts[c].exec, st.acts[d].exec);
        UniqueLeader(p, lay, st, c, d);
      }
    }
  }

  /** A body that ended well leaves nothing of its round unfinished. */
  lemma RoundDone(p: Plan, lay: Layout, st: State, i: nat)
    requires Skeleton(p, lay, st) && i < |st.acts|
    requires st.acts[i].round < |st.acts| && st.acts[st.acts[i].round].phase == Done(Ok)
    ensures st.acts[i].phase == Done(Ok)
    decreases i
  {
    assert Linked(p, lay, st, i);
    if !IsRoot(lay, st.acts[i].exec) {
      var c := st.acts[i].caller;
      RoundDone(p, lay, st, c);
      assert Local(p, st.acts[c]) && Flow(st, c) && Rooted(p, st, c);
    }
  }

  /** Every leader of round `r` has called all its dependencies. */
  ghost predicate Saturated(p: Plan, st: State, r: nat)
    requires InNodes(p, st)
  {
    forall i :: 0 <= i < |st.acts| && st.acts[i].round == r && st.acts[i].leads
      ==> st.acts[i].kids.Keys == p.nodes[st.acts[i].exec].deps
  }

  lemma DoneIsSaturated(p: Plan, lay: Layout, st: State, r: nat)
    requires InNodes(p, st) && Skeleton(p, lay, st) && r < |st.acts| && st.acts[r].phase == Done(Ok)
    ensures Saturated(p, st, r)
  {
    forall i | 0 <= i < |st.acts| && st.acts[i].round == r && st.acts[i].leads
      ensures st.acts[i].kids.Keys == p.nodes[st.acts[i].exec].deps
    {
      RoundDone(p, lay, st, i);
      assert Local(p, st.acts[i]);
    }
  }

  lemma ASuccessor(p: Plan, e: Exec) returns (s: Exec)
    requires p.Successors(e) != {}
    ensures s in p.Successors(e)
  {
    if forall t :: t in p.nodes ==> e !in p.nodes[t].deps {
      assert false;
    }
    s :| s in p.nodes && e in p.nodes[s].deps;
  }

  ghost predicate CalledBy(st: State, k: nat, r: nat, t: Exec, e: Exec) {
    && k < |st.acts| && st.acts[k].exec == e && st.acts[k].round == r
    && st.acts[k].caller < |st.acts| && st.acts[st.acts[k].caller].exec == t
  }

  ghost predicate Called(st: State, r: nat, t: Exec, e: Exec) {
    exists k: nat :: CalledBy(st, k, r, t, e)
  }

  /** Once all successors have called in a round, one of the arrivals has taken the lead. */
  lemma SharedLeader(p: Plan, st: State, r: nat, e: Exec) returns (i: nat)
    requires InNodes(p, st) && Doors(p, st) && Promises(p, st)
    requires Shared(p, e) && (forall g: nat :: Callers(p, st, e, g) <= p.Successors(e))
    requires forall t :: t in p.Successors(e) ==> Called(st, r, t, e)
    ensures i < |st.acts| && st.acts[i].exec == e && st.acts[i].round == r && st.acts[i].leads
  {
    var s := ASuccessor(p, e);
    assert Called(st, r, s, e);
    var j: nat :| CalledBy(st, j, r, s, e);
    var g := st.acts[j].gen;
    assert PromiseOk(p, st, j);
    forall t | t in p.Successors(e)
      ensures t in Callers(p, st, e, g)
    {
      assert Called(st, r, t, e);
      var k: nat :| CalledBy(st, k, r, t, e);
      assert Arrives(st, k, e, st.acts[k].gen, t);
      assert InStep(p, st, j, k) && InStep(p, st, k, j);
    }
    assert LeaderOk(p, st, e, g);
    i :| IsLeader(st, i, e, g);
    assert InStep(p, st, i, j) && InStep(p, st, j, i);
  }

  /** In a saturated round every executor of the body has its leader. */
  lemma LeaderPresent(p: Plan, lay: Layout, st: State, r: nat, e: Exec) returns (i: nat)
    requires WellFormed(p, lay) && InNodes(p, st) && Skeleton(p, lay, st) && Doors(p, st) && Promises(p, st)
    requires r < |st.acts| && e in p.nodes && lay.region[e] == st.acts[r].exec && IsRoot(lay, st.acts[r].exec)
    requires Saturated(p, st, r)
    ensures i < |st.acts| && st.acts[i].exec == e && st.acts[i].round == r && st.acts[i].leads
    decreases lay.top - lay.rank[e], 0
  {
    hide WellFormed;
    NodeFacts(p, lay, e);
    if IsRoot(lay, e) {
      assert Linked(p, lay, st, r) && Local(p, st.acts[r]);
      i := r;
    } else if p.nodes[e].kind.PassThrough? {
      forall t | t in p.Successors(e)
        ensures Called(st, r, t, e)
      {
        DependencyFacts(p, lay, t, e);
        var k := Arrival(p, lay, st, r, t, e);
        assert CalledBy(st, k, r, t, e);
      }
      forall g: nat ensures Callers(p, st, e, g) <= p.Successors(e) {
        CallersAreSuccessors(p, lay, st, e, g);
      }
      i := SharedLeader(p, st, r, e);
    } else {
      var s := ASuccessor(p, e);
      DependencyFacts(p, lay, s, e);
      i := Arrival(p, lay, st, r, s, e);
      assert Local(p, st.acts[i]);
    }
  }

  lemma Arrival(p: Plan, lay: Layout, st: State, r: nat, s: Exec, e: Exec) returns (i: nat)
    requires WellFormed(p, lay) && InNodes(p, st) && Skeleton(p, lay, st) && Doors(p, st) && Promises(p, st)
    requires r < |st.acts| && e in p.nodes && lay.region[e] == st.acts[r].exec && IsRoot(lay, st.acts[r].exec)
    requires s in p.Successors(e)
    requires Saturated(p, st, r)
    ensures i < |st.acts| && st.acts[i].exec == e && st.acts[i].round == r
    ensures st.acts[i].caller < |st.acts| && st.acts[st.acts[i].caller].exec == s
    decreases lay.top - lay.rank[s], 1
  {
    hide WellFormed;
    NodeFacts(p, lay, s);
    DependencyFacts(p, lay, s, e);
    var c := LeaderPresent(p, lay, st, r, s);
    assert Rooted(p, st, c);
    i := st.acts[c].kids[e];
    assert Linked(p, lay, st, i);
  }

  lemma CallersAreSuccessors(p: Plan, lay: Layout, st: State, e: Exec, g: nat)
    requires Skeleton(p, lay, st) && Shared(p, e) && !IsRoot(lay, e)
    ensures Callers(p, st, e, g) <= p.Successors(e)
  {
    forall s | s in Callers(p, st, e, g)
      ensures s in p.Successors(e)
    {
      var j: nat :| Arrives(st, j, e, g, s);
      assert Linked(p, lay, st, j);
      assert Rooted(p, st, st.acts[j].caller);
    }
  }
}
