/** Every step keeps the invariant. */
module SchedulerPreservation {
  import opened Wrappers
  import opened ExecutorGraph
  import opened PassThroughGate
  import opened SchedulerSteps
  import opened SchedulerInvariant

  /** What no step undoes: identity, children, finished phases. */
  ghost predicate Kept(a: Act, b: Act) {
    && b.exec == a.exec && b.caller == a.caller && b.round == a.round && b.gen == a.gen && b.leads == a.leads
    && (forall d :: d in a.kids ==> d in b.kids && b.kids[d] == a.kids[d])
    && a.bodies <= b.bodies
    && (a.phase.Done? ==> b == a)
    && a.runs <= b.runs
  }

  ghost predicate Grows(st: State, st': State) {
    && |st.acts| <= |st'.acts|
    && (forall j :: 0 <= j < |st.acts| ==> Kept(st.acts[j], st'.acts[j]))
  }

  lemma GrowsBy(st: State, st': State, i: nat, a: Act, tail: seq<Act>)
    requires i < |st.acts| && st'.acts == st.acts[i := a] + tail && Kept(st.acts[i], a)
    ensures Grows(st, st')
    ensures tail == [] && a.kids == st.acts[i].kids && a.bodies == st.acts[i].bodies ==> Moves(st, st', i)
    ensures |tail| == 1 ==> Spawns(st, st', i)
  {
    forall j | 0 <= j < |st.acts|
      ensures Kept(st.acts[j], st'.acts[j])
    {
    }
  }

  lemma LinkedKept(p: Plan, lay: Layout, st: State, st': State, j: nat)
    requires Skeleton(p, lay, st) && Grows(st, st') && j < |st.acts|
    ensures Linked(p, lay, st', j)
  {
    assert Linked(p, lay, st, j);
    var a := st.acts[j];
    assert Kept(a, st'.acts[j]) && Kept(st.acts[a.round], st'.acts[a.round]);
    if j > 0 {
      assert Kept(st.acts[a.caller], st'.acts[a.caller]);
    }
  }

  lemma FlowKept(st: State, st': State, j: nat)
    requires Grows(st, st') && j < |st.acts| && st'.acts[j] == st.acts[j] && Flow(st, j)
    ensures Flow(st', j)
  {
    var a := st.acts[j];
    forall d | d in a.kids && a.runs > 0
      ensures Kept(st.acts[a.kids[d]], st'.acts[a.kids[d]])
    {
    }
    forall k | 0 <= k < |a.bodies|
      ensures Kept(st.acts[a.bodies[k]], st'.acts[a.bodies[k]])
    {
    }
  }

  lemma RootedKept(p: Plan, st: State, st': State, j: nat)
    requires j < |st.acts| && Rooted(p, st, j) && Grows(st, st')
    requires st'.acts[j].kids == st.acts[j].kids && st'.acts[j].bodies == st.acts[j].bodies
    ensures Rooted(p, st', j)
  {
    var a := st.acts[j];
    assert Kept(a, st'.acts[j]);
    forall d | d in a.kids
      ensures Kept(st.acts[a.kids[d]], st'.acts[a.kids[d]])
    {
    }
    forall k | 0 <= k < |a.bodies|
      ensures Kept(st.acts[a.bodies[k]], st'.acts[a.bodies[k]])
    {
    }
  }

  /** A step that only moves activation `i` along. */
  ghost predicate Moves(st: State, st': State, i: nat) {
    && i < |st.acts| && |st'.acts| == |st.acts| && Grows(st, st')
    && (forall j :: 0 <= j < |st.acts| && j != i ==> st'.acts[j] == st.acts[j])
    && st'.acts[i].kids == st.acts[i].kids && st'.acts[i].bodies == st.acts[i].bodies
  }

  lemma SkeletonMoves(p: Plan, lay: Layout, st: State, st': State, i: nat)
    requires Skeleton(p, lay, st) && Moves(st, st', i)
    requires Local(p, st'.acts[i]) && Flow(st', i)
    ensures Skeleton(p, lay, st')
  {
    assert Kept(st.acts[0], st'.acts[0]);
    forall j | 0 <= j < |st'.acts|
      ensures Linked(p, lay, st', j) && Rooted(p, st', j) && Local(p, st'.acts[j]) && Flow(st', j)
    {
      LinkedKept(p, lay, st, st', j);
      RootedKept(p, st, st', j);
      if j != i {
        FlowKept(st, st', j);
        assert Local(p, st.acts[j]);
      }
    }
  }

  /** A step that changes activation `i` and appends one activation. */
  ghost predicate Spawns(st: State, st': State, i: nat) {
    && i < |st.acts| && |st'.acts| == |st.acts| + 1 && Grows(st, st')
    && (forall j :: 0 <= j < |st.acts| && j != i ==> st'.acts[j] == st.acts[j])
  }

  lemma SkeletonSpawns(p: Plan, lay: Layout, st: State, st': State, i: nat)
    requires Skeleton(p, lay, st) && Spawns(st, st', i)
    requires Local(p, st'.acts[i]) && Flow(st', i) && Rooted(p, st', i)
    requires Linked(p, lay, st', |st.acts|) && Local(p, st'.acts[|st.acts|])
    requires st'.acts[|st.acts|].kids == map[] && st'.acts[|st.acts|].bodies == []
    ensures Skeleton(p, lay, st')
  {
    assert Kept(st.acts[0], st'.acts[0]);
    forall j | 0 <= j < |st'.acts|
      ensures Linked(p, lay, st', j) && Rooted(p, st', j) && Local(p, st'.acts[j]) && Flow(st', j)
    {
      if j < |st.acts| {
        LinkedKept(p, lay, st, st', j);
        if j != i {
          RootedKept(p, st, st', j);
          FlowKept(st, st', j);
          assert Local(p, st.acts[j]);
        }
      }
    }
  }

  // ---- Rounds ----

  lemma RoundsMoves(p: Plan, lay: Layout, st: State, st': State, i: nat)
    requires RoundsInTurn(lay, st) && Moves(st, st', i)
    ensures RoundsInTurn(lay, st')
  {
    forall r, q | 0 <= r < q < |st'.acts| && st'.acts[r].exec == st'.acts[q].exec && IsRoot(lay, st'.acts[r].exec)
      ensures st'.acts[r].phase == Done(Ok)
    {
      assert Kept(st.acts[r], st'.acts[r]) && Kept(st.acts[q], st'.acts[q]);
      assert st.acts[r].phase == Done(Ok);
    }
  }

  lemma RoundsSpawns(p: Plan, lay: Layout, st: State, st': State, i: nat)
    requires RoundsInTurn(lay, st) && Spawns(st, st', i)
    requires IsRoot(lay, st'.acts[|st.acts|].exec) ==>
               forall r :: 0 <= r < |st.acts| && st.acts[r].exec == st'.acts[|st.acts|].exec ==>
                 st.acts[r].phase == Done(Ok)
    ensures RoundsInTurn(lay, st')
  {
    forall r, q | 0 <= r < q < |st'.acts| && st'.acts[r].exec == st'.acts[q].exec && IsRoot(lay, st'.acts[r].exec)
      ensures st'.acts[r].phase == Done(Ok)
    {
      assert Kept(st.acts[r], st'.acts[r]);
      if q < |st.acts| {
        assert Kept(st.acts[q], st'.acts[q]);
      }
      assert st.acts[r].phase == Done(Ok);
    }
  }

  /** Two rounds of one body: if activation `i` is unfinished, the other round came first
      and ended well. */
  lemma OtherRoundDone(p: Plan, lay: Layout, st: State, i: nat, j: nat)
    requires WellFormed(p, lay) && InNodes(p, st) && Skeleton(p, lay, st) && RoundsInTurn(lay, st)
    requires i < |st.acts| && j < |st.acts| && st.acts[i].phase != Done(Ok)
    requires lay.region[st.acts[i].exec] == lay.region[st.acts[j].exec] && st.acts[i].round != st.acts[j].round
    ensures st.acts[j].round < st.acts[i].round < |st.acts| && st.acts[st.acts[j].round].phase == Done(Ok)
  {
    hide WellFormed;
    NodeFacts(p, lay, st.acts[i].exec);
    assert Linked(p, lay, st, i) && Linked(p, lay, st, j);
    if st.acts[i].round < st.acts[j].round {
      RoundDone(p, lay, st, i);
      assert false;
    }
  }

  lemma BodiesEnded(st: State, c: nat, r: nat)
    requires c < |st.acts| && Flow(st, c) && (st.acts[c].phase.Executing? || st.acts[c].phase == Done(Ok))
    requires r in st.acts[c].bodies && r < |st.acts|
    ensures st.acts[r].phase == Done(Ok)
  {
  }

  lemma BodyCaller(p: Plan, lay: Layout, st: State, i: nat, b: Exec, r: nat)
    requires WellFormed(p, lay) && InNodes(p, st) && Skeleton(p, lay, st)
    requires i < |st.acts| && b in p.nodes[st.acts[i].exec].bodies
    requires r < |st.acts| && st.acts[r].exec == b
    ensures st.acts[r].caller < r && r in st.acts[st.acts[r].caller].bodies
    ensures st.acts[st.acts[r].caller].exec == st.acts[i].exec
  {
    hide WellFormed;
    BodyFacts(p, lay, st.acts[i].exec, b);
    assert Linked(p, lay, st, r);
    var c := st.acts[r].caller;
    assert Rooted(p, st, c);
    OneOwner(p, lay, st.acts[i].exec, st.acts[c].exec, b);
  }

  /** A new body activation finds every earlier activation of that body ended. */
  lemma BodyFree(p: Plan, lay: Layout, st: State, i: nat, b: Exec, r: nat)
    requires Inv(p, lay, st)
    requires i < |st.acts| && st.acts[i].phase.Executing? && b in p.nodes[st.acts[i].exec].bodies
    requires r < |st.acts| && st.acts[r].exec == b
    ensures st.acts[r].phase == Done(Ok)
  {
    hide WellFormed;
    BodyCaller(p, lay, st, i, b, r);
    var c := st.acts[r].caller;
    assert Flow(st, c) && Local(p, st.acts[c]) && Local(p, st.acts[i]);
    if st.acts[c].round == st.acts[i].round {
      UniqueLeader(p, lay, st, c, i);
    } else {
      OtherRoundDone(p, lay, st, i, c);
      RoundDone(p, lay, st, c);
    }
    BodiesEnded(st, c, r);
  }

  // ---- Gates ----

  lemma CallersMoves(p: Plan, st: State, st': State, i: nat, e: Exec, g: nat)
    requires Moves(st, st', i)
    ensures Callers(p, st', e, g) == Callers(p, st, e, g)
  {
    forall j: nat, s
      ensures Arrives(st', j, e, g, s) <==> Arrives(st, j, e, g, s)
    {
      if j < |st.acts| {
        assert Kept(st.acts[j], st'.acts[j]);
        if st.acts[j].caller < |st.acts| {
          assert Kept(st.acts[st.acts[j].caller], st'.acts[st.acts[j].caller]);
        }
      }
    }
  }

  lemma LeadersMoves(st: State, st': State, i: nat, e: Exec, g: nat)
    requires Moves(st, st', i)
    ensures forall j: nat :: IsLeader(st', j, e, g) <==> IsLeader(st, j, e, g)
    ensures forall j: nat :: HasRun(st, j, e, g) ==> HasRun(st', j, e, g)
  {
    assert forall j :: 0 <= j < |st.acts| ==> Kept(st.acts[j], st'.acts[j]);
  }

  /** Fulfilling a promise changes neither countdowns nor the number of promises. */
  ghost predicate SameCounts(st: State, st': State) {
    && st'.gates.Keys == st.gates.Keys
    && (forall e :: e in st.gates ==>
          st'.gates[e].numOutputs == st.gates[e].numOutputs && |st'.gates[e].promises| == |st.gates[e].promises|)
  }

  lemma DoorsMoves(p: Plan, st: State, st': State, i: nat)
    requires InNodes(p, st) && InNodes(p, st') && Doors(p, st) && Moves(st, st', i) && SameCounts(st, st')
    ensures Doors(p, st')
  {
    forall j, k | 0 <= j < |st'.acts| && 0 <= k < |st'.acts|
      ensures InStep(p, st', j, k)
    {
      assert Kept(st.acts[j], st'.acts[j]) && Kept(st.acts[k], st'.acts[k]) && InStep(p, st, j, k);
    }
    forall e | Shared(p, e)
      ensures CountdownOk(p, st', e)
    {
      assert CountdownOk(p, st, e);
      CallersMoves(p, st, st', i, e, |st.gates[e].promises| - 1);
    }
    forall e, g: nat | Shared(p, e) && g < |st'.gates[e].promises|
      ensures LeaderOk(p, st', e, g)
    {
      assert LeaderOk(p, st, e, g);
      CallersMoves(p, st, st', i, e, g);
      LeadersMoves(st, st', i, e, g);
    }
  }

  lemma PromisesMoves(p: Plan, st: State, st': State, i: nat)
    requires InNodes(p, st) && InNodes(p, st') && Promises(p, st) && Moves(st, st', i) && st'.gates == st.gates
    requires PromiseOk(p, st', i)
    ensures Promises(p, st')
  {
    forall j | 0 <= j < |st'.acts|
      ensures PromiseOk(p, st', j)
    {
      assert PromiseOk(p, st, j);
    }
    forall e, g: nat | e in p.nodes && p.nodes[e].kind.PassThrough? && g < |st'.gates[e].promises|
      ensures KeptPromise(st', e, g)
    {
      assert KeptPromise(st, e, g);
      LeadersMoves(st, st', i, e, g);
    }
  }

  lemma SoleLeader(p: Plan, lay: Layout, st: State, i: nat, j: nat)
    requires WellFormed(p, lay) && InNodes(p, st) && Skeleton(p, lay, st) && Doors(p, st) && Promises(p, st)
    requires i < |st.acts| && j < |st.acts| && st.acts[i].leads && st.acts[j].leads
    requires st.acts[i].exec == st.acts[j].exec && st.acts[i].gen == st.acts[j].gen
    requires p.nodes[st.acts[i].exec].kind.PassThrough?
    ensures i == j
  {
    hide WellFormed;
    var e, g := st.acts[i].exec, st.acts[i].gen;
    NodeFacts(p, lay, e);
    assert Linked(p, lay, st, i) && Linked(p, lay, st, j) && PromiseOk(p, st, i);
    if Shared(p, e) {
      assert LeaderOk(p, st, e, g);
      assert IsLeader(st, i, e, g) && IsLeader(st, j, e, g);
    }
  }

  /** The leader's continuation fulfils the promise that is still open. */
  lemma PromisesFulfil(p: Plan, lay: Layout, st: State, st': State, i: nat, o: Outcome)
    requires Inv(p, lay, st) && InNodes(p, st') && Moves(st, st', i)
    requires p.nodes[st.acts[i].exec].kind.PassThrough? && st.acts[i].phase.Calling? && st.acts[i].leads
    requires st'.gates == st.gates[st.acts[i].exec := Fulfil(st.gates[st.acts[i].exec], o)]
    requires (o == Ok && st'.acts[i].runs > 0 && st'.acts[i].phase.Executing?) ||
             (o == BadStatus && st'.acts[i].runs == 0 && st'.acts[i].phase == Done(Thrown))
    ensures Promises(p, st')
  {
    hide WellFormed;
    var e, g := st.acts[i].exec, st.acts[i].gen;
    assert PromiseOk(p, st, i) && Kept(st.acts[i], st'.acts[i]);
    forall j | 0 <= j < |st'.acts|
      ensures PromiseOk(p, st', j)
    {
      assert PromiseOk(p, st, j);
      if j != i && st.acts[j].exec == e && st.acts[j].leads && st.acts[j].gen == g {
        SoleLeader(p, lay, st, i, j);
      }
    }
    forall f, h: nat | f in p.nodes && p.nodes[f].kind.PassThrough? && h < |st'.gates[f].promises|
      ensures KeptPromise(st', f, h)
    {
      LeadersMoves(st, st', i, f, h);
      if f == e && h == g {
        assert IsLeader(st', i, f, h) && (o == Ok ==> HasRun(st', i, f, h));
      } else {
        assert KeptPromise(st, f, h);
      }
    }
  }

  // ---- A call on an executor that is not a PassThrough ----

  lemma CallersSpawns(p: Plan, st: State, st': State, i: nat, e: Exec, g: nat)
    requires Spawns(st, st', i) && st'.acts[|st.acts|].caller == i && st.acts[i].exec in p.nodes
    requires forall j :: 0 <= j < |st.acts| ==> st.acts[j].caller < |st.acts|
    ensures Callers(p, st', e, g) == Callers(p, st, e, g) +
              if st'.acts[|st.acts|].exec == e && st'.acts[|st.acts|].gen == g then {st.acts[i].exec} else {}
  {
    var n := |st.acts|;
    assert Kept(st.acts[i], st'.acts[i]);
    forall j: nat, s | j < n
      ensures Arrives(st', j, e, g, s) <==> Arrives(st, j, e, g, s)
    {
      assert Kept(st.acts[j], st'.acts[j]);
      assert Kept(st.acts[st.acts[j].caller], st'.acts[st.acts[j].caller]);
    }
    assert Arrives(st', n, e, g, st.acts[i].exec) <==> st'.acts[n].exec == e && st'.acts[n].gen == g;
  }

  lemma CallersInRange(p: Plan, lay: Layout, st: State)
    requires Skeleton(p, lay, st)
    ensures forall j :: 0 <= j < |st.acts| ==> st.acts[j].caller < |st.acts|
  {
    forall j | 0 <= j < |st.acts|
      ensures st.acts[j].caller < |st.acts|
    {
      assert Linked(p, lay, st, j);
    }
  }

  lemma LeadersSpawns(st: State, st': State, i: nat, e: Exec, g: nat)
    requires Spawns(st, st', i)
    ensures forall j: nat :: j < |st.acts| ==> (IsLeader(st', j, e, g) <==> IsLeader(st, j, e, g))
    ensures st'.acts[|st.acts|].exec != e ==> forall j: nat :: IsLeader(st', j, e, g) <==> IsLeader(st, j, e, g)
    ensures forall j: nat :: HasRun(st, j, e, g) ==> HasRun(st', j, e, g)
  {
    assert forall j :: 0 <= j < |st.acts| ==> Kept(st.acts[j], st'.acts[j]);
  }

  /** Nothing changes for a PassThrough `e` that was not the one called. */
  lemma LeaderOkSpawns(p: Plan, st: State, st': State, i: nat, e: Exec, g: nat)
    requires Spawns(st, st', i) && st'.acts[|st.acts|].caller == i && st.acts[i].exec in p.nodes
    requires forall j :: 0 <= j < |st.acts| ==> st.acts[j].caller < |st.acts|
    requires Shared(p, e) && LeaderOk(p, st, e, g)
    requires st'.acts[|st.acts|].exec != e || st'.acts[|st.acts|].gen != g
    ensures LeaderOk(p, st', e, g)
  {
    CallersSpawns(p, st, st', i, e, g);
    LeadersSpawns(st, st', i, e, g);
    assert !IsLeader(st', |st.acts|, e, g);
  }

  lemma DoorsSpawnPlain(p: Plan, st: State, st': State, i: nat)
    requires InNodes(p, st) && InNodes(p, st') && Doors(p, st)
    requires forall j :: 0 <= j < |st.acts| ==> st.acts[j].caller < |st.acts|
    requires Spawns(st, st', i) && st'.acts[|st.acts|].caller == i && st'.gates == st.gates
    requires !p.nodes[st'.acts[|st.acts|].exec].kind.PassThrough?
    ensures Doors(p, st')
  {
    forall j, k | 0 <= j < |st'.acts| && 0 <= k < |st'.acts|
      ensures InStep(p, st', j, k)
    {
      if j < |st.acts| && k < |st.acts| {
        assert Kept(st.acts[j], st'.acts[j]) && Kept(st.acts[k], st'.acts[k]) && InStep(p, st, j, k);
      }
    }
    forall e | Shared(p, e)
      ensures CountdownOk(p, st', e)
    {
      assert CountdownOk(p, st, e);
      CallersSpawns(p, st, st', i, e, |st.gates[e].promises| - 1);
    }
    forall e, g: nat | Shared(p, e) && g < |st'.gates[e].promises|
      ensures LeaderOk(p, st', e, g)
    {
      assert LeaderOk(p, st, e, g);
      LeaderOkSpawns(p, st, st', i, e, g);
    }
  }

  lemma PromisesSpawnPlain(p: Plan, st: State, st': State, i: nat)
    requires InNodes(p, st) && InNodes(p, st') && Promises(p, st)
    requires Spawns(st, st', i) && st'.gates == st.gates && PromiseOk(p, st', i)
    requires !p.nodes[st'.acts[|st.acts|].exec].kind.PassThrough?
    ensures Promises(p, st')
  {
    forall j | 0 <= j < |st'.acts|
      ensures PromiseOk(p, st', j)
    {
      if j < |st.acts| {
        assert PromiseOk(p, st, j);
      }
    }
    forall e, g: nat | e in p.nodes && p.nodes[e].kind.PassThrough? && g < |st'.gates[e].promises|
      ensures KeptPromise(st', e, g)
    {
      assert KeptPromise(st, e, g);
      LeadersSpawns(st, st', i, e, g);
    }
  }

  // ---- A call on a PassThrough ----

  /** The arrivals of a finished round include a leader, which has ended well. */
  lemma RoundLeader(p: Plan, lay: Layout, st: State, j: nat) returns (i: nat)
    requires Inv(p, lay, st) && j < |st.acts|
    requires Shared(p, st.acts[j].exec) && !IsRoot(lay, st.acts[j].exec)
    requires st.acts[j].round < |st.acts| && st.acts[st.acts[j].round].phase == Done(Ok)
    ensures IsLeader(st, i, st.acts[j].exec, st.acts[j].gen) && st.acts[i].phase == Done(Ok)
  {
    hide WellFormed;
    var e, r := st.acts[j].exec, st.acts[j].round;
    NodeFacts(p, lay, e);
    assert Linked(p, lay, st, j);
    DoneIsSaturated(p, lay, st, r);
    i := LeaderPresent(p, lay, st, r, e);
    RoundDone(p, lay, st, i);
    assert InStep(p, st, i, j) && InStep(p, st, j, i);
  }

  /** A finished round has heard from all successors and fulfilled its promise. */
  lemma RoundFull(p: Plan, lay: Layout, st: State, j: nat)
    requires Inv(p, lay, st) && j < |st.acts|
    requires Shared(p, st.acts[j].exec) && !IsRoot(lay, st.acts[j].exec)
    requires st.acts[j].round < |st.acts| && st.acts[st.acts[j].round].phase == Done(Ok)
    ensures Callers(p, st, st.acts[j].exec, st.acts[j].gen) == p.Successors(st.acts[j].exec)
    ensures st.acts[j].gen < |st.gates[st.acts[j].exec].promises|
    ensures st.gates[st.acts[j].exec].promises[st.acts[j].gen] == Some(Ok)
  {
    hide WellFormed;
    var i := RoundLeader(p, lay, st, j);
    assert PromiseOk(p, st, i) && Local(p, st.acts[i]);
    assert LeaderOk(p, st, st.acts[j].exec, st.acts[j].gen);
  }

  /** No executor calls the same dependency twice in a round. */
  lemma CalledOnce(p: Plan, lay: Layout, st: State, i: nat, j: nat)
    requires Inv(p, lay, st) && i < |st.acts| && j < |st.acts|
    requires st.acts[i].phase.Calling? && st.acts[j].exec !in st.acts[i].kids && !IsRoot(lay, st.acts[j].exec)
    requires st.acts[j].caller < |st.acts| && st.acts[st.acts[j].caller].exec == st.acts[i].exec
    ensures st.acts[j].round != st.acts[i].round
  {
    hide WellFormed;
    assert Linked(p, lay, st, j);
    var c := st.acts[j].caller;
    assert Local(p, st.acts[c]) && Local(p, st.acts[i]);
    if st.acts[j].round == st.acts[i].round {
      UniqueLeader(p, lay, st, c, i);
      assert false;
    }
  }

  /** While the countdown runs, the current promise belongs to the caller's own round,
      and the caller has not been counted yet. */
  lemma ArrivalOpen(p: Plan, lay: Layout, st: State, i: nat, d: Exec, j: nat)
    requires Inv(p, lay, st) && Enabled(p, st, Call(i, d)) && Shared(p, d)
    requires st.gates[d].numOutputs != 0
    requires j < |st.acts| && st.acts[j].exec == d && st.acts[j].gen == |st.gates[d].promises| - 1
    ensures st.acts[j].round == st.acts[i].round
    ensures st.acts[j].caller < |st.acts| && st.acts[st.acts[j].caller].exec != st.acts[i].exec
  {
    hide WellFormed;
    DependencyFacts(p, lay, st.acts[i].exec, d);
    assert Linked(p, lay, st, j) && CountdownOk(p, st, d);
    if st.acts[j].round != st.acts[i].round {
      OtherRoundDone(p, lay, st, i, j);
      RoundFull(p, lay, st, j);
      assert false;
    }
    if st.acts[st.acts[j].caller].exec == st.acts[i].exec {
      CalledOnce(p, lay, st, i, j);
      assert false;
    }
  }

  lemma FullSet<T>(a: set<T>, b: set<T>)
    requires a <= b
    ensures |a| <= |b|
    ensures |a| == |b| ==> a == b
  {
    assert b == a + (b - a);
  }

  lemma AnArrival(p: Plan, st: State, e: Exec, g: nat, s: Exec) returns (j: nat)
    requires s in Callers(p, st, e, g)
    ensures Arrives(st, j, e, g, s)
  {
    j :| Arrives(st, j, e, g, s);
  }

  /** When the countdown is at zero, every earlier arrival belongs to an earlier round,
      and the promise about to be replaced has been fulfilled. */
  lemma ArrivalReset(p: Plan, lay: Layout, st: State, i: nat, d: Exec)
    requires Inv(p, lay, st) && Enabled(p, st, Call(i, d)) && Shared(p, d)
    requires st.gates[d].numOutputs == 0
    ensures Current(st.gates[d]) == Some(Ok)
    ensures forall j :: 0 <= j < |st.acts| && st.acts[j].exec == d ==> st.acts[j].round < st.acts[i].round
  {
    hide WellFormed;
    var last := |st.gates[d].promises| - 1;
    DependencyFacts(p, lay, st.acts[i].exec, d);
    assert CountdownOk(p, st, d);
    CallersAreSuccessors(p, lay, st, d, last);
    FullSet(Callers(p, st, d, last), p.Successors(d));
    var m := AnArrival(p, st, d, last, st.acts[i].exec);
    CalledOnce(p, lay, st, i, m);
    OtherRoundDone(p, lay, st, i, m);
    forall j | 0 <= j < |st.acts| && st.acts[j].exec == d
      ensures st.acts[j].round < st.acts[i].round
    {
      assert PromiseOk(p, st, j) && InStep(p, st, m, j);
    }
    RoundFull(p, lay, st, m);
  }

  /** `st'` is `st` after activation `i` has called the PassThrough `d`. */
  ghost predicate CallsShared(p: Plan, st: State, st': State, i: nat, d: Exec)
    requires InNodes(p, st)
  {
    && Shared(p, d) && Spawns(st, st', i)
    && var g := Arrive(st.gates[d], |p.Successors(d)|);
    && st'.gates == st.gates[d := g]
    && st'.acts[|st.acts|] == Act(d, i, st.acts[i].round, |g.promises| - 1, Leads(g), map[], [], 0,
                                  if Leads(g) then Calling else Parked)
  }

  lemma InStepArrive(p: Plan, lay: Layout, st: State, i: nat, d: Exec, j: nat)
    requires Inv(p, lay, st) && Enabled(p, st, Call(i, d)) && Shared(p, d)
    requires j < |st.acts| && st.acts[j].exec == d
    ensures var g := Arrive(st.gates[d], |p.Successors(d)|);
            && (st.acts[j].gen < |g.promises| - 1 <==> st.acts[j].round < st.acts[i].round)
            && st.acts[j].gen <= |g.promises| - 1 && st.acts[j].round <= st.acts[i].round
  {
    hide WellFormed;
    var last := |st.gates[d].promises| - 1;
    assert PromiseOk(p, st, j);
    if st.gates[d].numOutputs == 0 {
      ArrivalReset(p, lay, st, i, d);
    } else if st.acts[j].gen == last {
      ArrivalOpen(p, lay, st, i, d, j);
    } else {
      assert CountdownOk(p, st, d);
      var s :| s in Callers(p, st, d, last);
      var m := AnArrival(p, st, d, last, s);
      ArrivalOpen(p, lay, st, i, d, m);
      assert InStep(p, st, j, m);
    }
  }

  lemma NoneAhead(p: Plan, st: State, d: Exec, g: nat)
    requires InNodes(p, st) && Shared(p, d) && |st.gates[d].promises| <= g
    requires forall i :: 0 <= i < |st.acts| ==> PromiseOk(p, st, i)
    ensures Callers(p, st, d, g) == {}
    ensures forall j: nat :: !IsLeader(st, j, d, g)
  {
    forall j: nat
      ensures !IsLeader(st, j, d, g)
    {
      if j < |st.acts| { assert PromiseOk(p, st, j); }
    }
    forall j: nat, t
      ensures !Arrives(st, j, d, g, t)
    {
      if j < |st.acts| { assert PromiseOk(p, st, j); }
    }
  }

  /** Before the call, the caller is not among those counted under the promise it joins. */
  lemma CountedBefore(p: Plan, lay: Layout, st: State, i: nat, d: Exec)
    requires Inv(p, lay, st) && Enabled(p, st, Call(i, d)) && Shared(p, d)
    ensures var g := Arrive(st.gates[d], |p.Successors(d)|);
            var c := Callers(p, st, d, |g.promises| - 1);
            && st.acts[i].exec !in c && c <= p.Successors(d) && st.acts[i].exec in p.Successors(d)
            && g.numOutputs == |p.Successors(d)| - |c| - 1
  {
    hide WellFormed;
    var last, s := |st.gates[d].promises| - 1, st.acts[i].exec;
    DependencyFacts(p, lay, s, d);
    assert CountdownOk(p, st, d);
    if st.gates[d].numOutputs == 0 {
      NoneAhead(p, st, d, last + 1);
    } else {
      CallersAreSuccessors(p, lay, st, d, last);
      if s in Callers(p, st, d, last) {
        var m := AnArrival(p, st, d, last, s);
        ArrivalOpen(p, lay, st, i, d, m);
        assert false;
      }
    }
  }

  lemma NoLeaderBefore(p: Plan, lay: Layout, st: State, i: nat, d: Exec, g: nat)
    requires Inv(p, lay, st) && Enabled(p, st, Call(i, d)) && Shared(p, d)
    requires g == |Arrive(st.gates[d], |p.Successors(d)|).promises| - 1
    ensures forall j: nat :: !IsLeader(st, j, d, g)
  {
    hide WellFormed;
    CountedBefore(p, lay, st, i, d);
    if g < |st.gates[d].promises| {
      assert LeaderOk(p, st, d, g);
    } else {
      NoneAhead(p, st, d, g);
    }
  }

  lemma CountAfter(p: Plan, st: State, st': State, i: nat, d: Exec)
    requires InNodes(p, st) && InNodes(p, st') && CallsShared(p, st, st', i, d)
    requires forall j :: 0 <= j < |st.acts| ==> st.acts[j].caller < |st.acts|
    requires var c := Callers(p, st, d, |st'.gates[d].promises| - 1);
             && st.acts[i].exec !in c && c <= p.Successors(d) && st.acts[i].exec in p.Successors(d)
             && st'.gates[d].numOutputs == |p.Successors(d)| - |c| - 1
    ensures CountdownOk(p, st', d)
    ensures Leads(st'.gates[d]) <==> Callers(p, st', d, |st'.gates[d].promises| - 1) == p.Successors(d)
  {
    var g := |st'.gates[d].promises| - 1;
    CallersSpawns(p, st, st', i, d, g);
    FullSet(Callers(p, st', d, g), p.Successors(d));
  }

  lemma LeaderAfter(p: Plan, st: State, st': State, i: nat, d: Exec, g: nat)
    requires InNodes(p, st) && CallsShared(p, st, st', i, d) && g == |st'.gates[d].promises| - 1
    requires forall j: nat :: !IsLeader(st, j, d, g)
    requires Leads(st'.gates[d]) <==> Callers(p, st', d, g) == p.Successors(d)
    ensures LeaderOk(p, st', d, g)
  {
    LeadersSpawns(st, st', i, d, g);
    assert IsLeader(st', |st.acts|, d, g) <==> Leads(st'.gates[d]);
  }

  /** After the call the countdown again counts the successors still to come, and the
      caller leads exactly when there are none. */
  lemma CallersArrive(p: Plan, lay: Layout, st: State, st': State, i: nat, d: Exec)
    requires Inv(p, lay, st) && Enabled(p, st, Call(i, d)) && CallsShared(p, st, st', i, d) && InNodes(p, st')
    ensures CountdownOk(p, st', d)
    ensures LeaderOk(p, st', d, |st'.gates[d].promises| - 1)
  {
    hide WellFormed, Callers, IsLeader, CountdownOk, LeaderOk, Doors, Promises, Grows;
    CallersInRange(p, lay, st);
    CountedBefore(p, lay, st, i, d);
    CountAfter(p, st, st', i, d);
    NoLeaderBefore(p, lay, st, i, d, |st'.gates[d].promises| - 1);
    LeaderAfter(p, st, st', i, d, |st'.gates[d].promises| - 1);
  }

  lemma InStepSpawns(p: Plan, lay: Layout, st: State, st': State, i: nat, d: Exec, j: nat, k: nat)
    requires Inv(p, lay, st) && Enabled(p, st, Call(i, d)) && CallsShared(p, st, st', i, d) && InNodes(p, st')
    requires j < |st'.acts| && k < |st'.acts|
    ensures InStep(p, st', j, k)
  {
    hide WellFormed;
    var n := |st.acts|;
    assert j < n ==> Kept(st.acts[j], st'.acts[j]);
    assert k < n ==> Kept(st.acts[k], st'.acts[k]);
    if j < n && k < n {
      assert InStep(p, st, j, k);
    } else if j < n && st.acts[j].exec == d {
      InStepArrive(p, lay, st, i, d, j);
    } else if k < n && st.acts[k].exec == d {
      InStepArrive(p, lay, st, i, d, k);
    }
  }

  lemma DoorsArrive(p: Plan, lay: Layout, st: State, st': State, i: nat, d: Exec)
    requires Inv(p, lay, st) && Enabled(p, st, Call(i, d)) && CallsShared(p, st, st', i, d) && InNodes(p, st')
    ensures Doors(p, st')
  {
    hide WellFormed, LeaderOk, InStep, CountdownOk, CallsShared;
    forall j, k | 0 <= j < |st'.acts| && 0 <= k < |st'.acts|
      ensures InStep(p, st', j, k)
    {
      InStepSpawns(p, lay, st, st', i, d, j, k);
    }
    forall e | Shared(p, e)
      ensures CountdownOk(p, st', e)
    {
      CountdownArrives(p, lay, st, st', i, d, e);
    }
    forall e, g: nat | Shared(p, e) && g < |st'.gates[e].promises|
      ensures LeaderOk(p, st', e, g)
    {
      LeaderArrives(p, lay, st, st', i, d, e, g);
    }
  }

  lemma CountdownArrives(p: Plan, lay: Layout, st: State, st': State, i: nat, d: Exec, e: Exec)
    requires Inv(p, lay, st) && Enabled(p, st, Call(i, d)) && CallsShared(p, st, st', i, d) && InNodes(p, st') &&
      Shared(p, e)
    ensures CountdownOk(p, st', e)
  {
    hide WellFormed, LeaderOk, InStep;
    CallersInRange(p, lay, st);
    CallersArrive(p, lay, st, st', i, d);
    if e != d {
      assert CountdownOk(p, st, e);
      CallersSpawns(p, st, st', i, e, |st.gates[e].promises| - 1);
    }
  }

  lemma LeaderArrives(p: Plan, lay: Layout, st: State, st': State, i: nat, d: Exec, e: Exec, g: nat)
    requires Inv(p, lay, st) && Enabled(p, st, Call(i, d)) && CallsShared(p, st, st', i, d) && InNodes(p, st')
    requires Shared(p, e) && g < |st'.gates[e].promises|
    ensures LeaderOk(p, st', e, g)
  {
    hide WellFormed, LeaderOk, InStep;
    CallersInRange(p, lay, st);
    CallersArrive(p, lay, st, st', i, d);
    if e != d || g != |st'.gates[d].promises| - 1 {
      assert LeaderOk(p, st, e, g);
      LeaderOkSpawns(p, st, st', i, e, g);
    }
  }

  /** The promise a caller joins is open; the one it replaces was fulfilled. */
  lemma PromiseBefore(p: Plan, lay: Layout, st: State, i: nat, d: Exec)
    requires Inv(p, lay, st) && Enabled(p, st, Call(i, d)) && Shared(p, d)
    ensures if st.gates[d].numOutputs == 0 then Current(st.gates[d]) == Some(Ok) else Current(st.gates[d]).None?
  {
    hide WellFormed, LeaderOk, CountdownOk;
    var last := |st.gates[d].promises| - 1;
    if st.gates[d].numOutputs == 0 {
      ArrivalReset(p, lay, st, i, d);
    } else {
      assert KeptPromise(st, d, last);
      NoLeaderBefore(p, lay, st, i, d, last);
    }
  }

  lemma PromiseOkArrive(p: Plan, st: State, st': State, i: nat, d: Exec, j: nat)
    requires InNodes(p, st) && InNodes(p, st') && CallsShared(p, st, st', i, d) && j < |st'.acts|
    requires st'.acts[i] == st.acts[i].(kids := st'.acts[i].kids)
    requires if st.gates[d].numOutputs == 0 then Current(st.gates[d]) == Some(Ok) else Current(st.gates[d]).None?
    requires j < |st.acts| ==> PromiseOk(p, st, j)
    ensures PromiseOk(p, st', j)
  {
  }

  lemma PromisesArrive(p: Plan, lay: Layout, st: State, st': State, i: nat, d: Exec)
    requires Inv(p, lay, st) && Enabled(p, st, Call(i, d)) && CallsShared(p, st, st', i, d) && InNodes(p, st')
    requires st'.acts[i] == st.acts[i].(kids := st'.acts[i].kids)
    ensures Promises(p, st')
  {
    hide WellFormed, PromiseOk;
    PromiseBefore(p, lay, st, i, d);
    forall j | 0 <= j < |st'.acts|
      ensures PromiseOk(p, st', j)
    {
      PromiseOkArrive(p, st, st', i, d, j);
    }
    forall e, g: nat | e in p.nodes && p.nodes[e].kind.PassThrough? && g < |st'.gates[e].promises|
      ensures KeptPromise(st', e, g)
    {
      LeadersSpawns(st, st', i, e, g);
      if g < |st.gates[e].promises| { assert KeptPromise(st, e, g); }
    }
  }
}
