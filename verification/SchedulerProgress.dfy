/** How long a run can be, and that a schedule whose rounds end completes its root. */
module SchedulerProgress {
  import opened ExecutorGraph
  import opened PassThroughGate
  import opened SchedulerSteps
  import opened SchedulerInvariant
  import opened SchedulerRuns
  import opened SchedulerTheorems

  // ---- Every step makes progress ----

  function Stage(ph: Phase): nat {
    match ph
    case Calling => 0
    case Parked => 0
    case Executing => 1
    case InBody => 0
    case Done(_) => 2
  }

  /** The work an activation has done: calls, rounds started, and how far it has come. */
  function Work(a: Act): nat {
    |a.kids| + 2 * |a.bodies| + Stage(a.phase)
  }

  function TotalWork(acts: seq<Act>): nat {
    if acts == [] then 0 else TotalWork(acts[..|acts| - 1]) + Work(acts[|acts| - 1])
  }

  /** The activations that others have started. */
  function Started(acts: seq<Act>): nat {
    if acts == [] then 0 else Started(acts[..|acts| - 1]) + |acts[|acts| - 1].kids| + |acts[|acts| - 1].bodies|
  }

  lemma {:induction false} WorkSet(acts: seq<Act>, i: nat, a: Act)
    requires i < |acts|
    ensures TotalWork(acts[i := a]) == TotalWork(acts) - Work(acts[i]) + Work(a)
    ensures Started(acts[i := a]) == Started(acts) - (|acts[i].kids| + |acts[i].bodies|) + (|a.kids| + |a.bodies|)
    decreases |acts|
  {
    var n := |acts| - 1;
    if i < n {
      assert acts[i := a][..n] == acts[..n][i := a];
      WorkSet(acts[..n], i, a);
    } else {
      assert acts[i := a][..n] == acts[..n];
    }
  }

  lemma {:induction false} WorkBound(acts: seq<Act>)
    ensures TotalWork(acts) <= 2 * Started(acts) + 2 * |acts|
    decreases |acts|
  {
    if acts != [] {
      WorkBound(acts[..|acts| - 1]);
    }
  }

  lemma WorkAppend(acts: seq<Act>, a: Act)
    ensures TotalWork(acts + [a]) == TotalWork(acts) + Work(a)
    ensures Started(acts + [a]) == Started(acts) + |a.kids| + |a.bodies|
  {
    assert (acts + [a])[..|acts|] == acts;
  }

  /** What a step does to the activations: one is replaced, and at most one is added. */
  ghost predicate Advances(st: State, st': State, i: nat) {
    && i < |st.acts| <= |st'.acts| <= |st.acts| + 1
    && st'.acts[..|st.acts|] == st.acts[i := st'.acts[i]]
    && Work(st'.acts[i]) > Work(st.acts[i])
    && |st'.acts[i].kids| + |st'.acts[i].bodies| == |st.acts[i].kids| + |st.acts[i].bodies| + (|st'.acts| - |st.acts|)
    && (|st'.acts| > |st.acts| ==> st'.acts[|st.acts|].kids == map[] && st'.acts[|st.acts|].bodies == [])
  }

  lemma CallAdvances(p: Plan, st: State, i: nat, d: Exec)
    requires Shape(p) && InNodes(p, st) && Enabled(p, st, Call(i, d))
    ensures Advances(st, Apply(p, st, Call(i, d)), i)
  {
    var st' := Apply(p, st, Call(i, d));
    assert |st'.acts[i].kids| == |st.acts[i].kids| + 1;
    assert st'.acts[..|st.acts|] == st.acts[i := st'.acts[i]];
  }

  lemma FinishAdvances(p: Plan, st: State, i: nat, o: Outcome, c: Cond)
    requires Shape(p) && InNodes(p, st) && Enabled(p, st, Finish(i, o, c))
    ensures Advances(st, Apply(p, st, Finish(i, o, c)), i)
  {
    var st' := Apply(p, st, Finish(i, o, c));
    assert st'.acts[..|st.acts|] == st.acts[i := st'.acts[i]];
  }

  lemma StepAdvances(p: Plan, st: State, s: Step)
    requires Shape(p) && InNodes(p, st) && Enabled(p, st, s)
    ensures Advances(st, Apply(p, st, s), s.i)
  {
    hide Shape, Advances;
    match s
    case Call(i, d) => CallAdvances(p, st, i, d);
    case Collect(i) => CollectAdvances(p, st, i);
    case Finish(i, o, c) => FinishAdvances(p, st, i, o, c);
    case _ => OtherAdvances(p, st, s);
  }

  lemma CollectAdvances(p: Plan, st: State, i: nat)
    requires Shape(p) && InNodes(p, st) && Enabled(p, st, Collect(i))
    ensures Advances(st, Apply(p, st, Collect(i)), i)
  {
    hide Shape, KidsOk, KidsDone, KidThrown;
    var st' := Apply(p, st, Collect(i));
    assert st'.acts[..|st.acts|] == st.acts[i := st'.acts[i]];
  }

  lemma OtherAdvances(p: Plan, st: State, s: Step)
    requires Shape(p) && InNodes(p, st) && Enabled(p, st, s) && (s.BodyDone? || s.Resume?)
    ensures Advances(st, Apply(p, st, s), s.i)
  {
    hide Shape;
    var st' := Apply(p, st, s);
    assert st'.acts[..|st.acts|] == st.acts[s.i := st'.acts[s.i]];
  }

  lemma AdvanceCounts(st: State, st': State, i: nat)
    requires Advances(st, st', i)
    ensures TotalWork(st'.acts) > TotalWork(st.acts)
    ensures Started(st'.acts) - |st'.acts| == Started(st.acts) - |st.acts|
  {
    var n := |st.acts|;
    WorkSet(st.acts, i, st'.acts[i]);
    if |st'.acts| > n {
      assert st'.acts == st'.acts[..n] + [st'.acts[n]];
      WorkAppend(st'.acts[..n], st'.acts[n]);
    } else {
      assert st'.acts[..n] == st'.acts;
    }
  }

  /** A run is no longer than four times the activations it has made. */
  lemma {:induction false} RunLength(p: Plan, run: seq<Step>)
    requires Shape(p) && ValidRun(p, run)
    ensures |run| <= TotalWork(After(p, run).acts) && Started(After(p, run).acts) + 1 == |After(p, run).acts|
    ensures |run| <= 4 * |After(p, run).acts|
    decreases |run|
  {
    hide Shape;
    if run == [] {
      assert |Init(p).acts| == 1 && Init(p).acts[..0] == [];
    } else {
      var before := run[..|run| - 1];
      RunLength(p, before);
      StepAdvances(p, After(p, before), run[|run| - 1]);
      AdvanceCounts(After(p, before), After(p, run), run[|run| - 1].i);
    }
    WorkBound(After(p, run).acts);
  }

  // ---- Activations per round ----

  /** The activations of body roots: the root of the plan, Select branches and rounds of Loops. */
  function RoundsOf(acts: seq<Act>): set<nat> {
    set i: nat | i < |acts| && acts[i].round == i
  }

  /** An activation that is not the root of a round is known by its round, its executor and the
      executor that called it. */
  function KeyOf(acts: seq<Act>, i: nat): (nat, (Exec, Exec))
    requires i < |acts| && acts[i].caller < |acts|
  {
    (acts[i].round, (acts[acts[i].caller].exec, acts[i].exec))
  }

  lemma SameKey(p: Plan, lay: Layout, st: State, i: nat, j: nat)
    requires Inv(p, lay, st) && i < |st.acts| && j < |st.acts| && st.acts[i].round != i && st.acts[j].round != j
    requires st.acts[i].caller < |st.acts| && st.acts[j].caller < |st.acts| && KeyOf(st.acts, i) == KeyOf(st.acts, j)
    ensures i == j
  {
    hide WellFormed, InStep, CountdownOk, LeaderOk, KeptPromise, PromiseOk;
    assert Linked(p, lay, st, i) && Linked(p, lay, st, j);
    var c, d := st.acts[i].caller, st.acts[j].caller;
    assert Local(p, st.acts[c]) && Local(p, st.acts[d]);
    UniqueLeader(p, lay, st, c, d);
  }

  lemma {:induction false} Injected<A, B>(m: map<A, B>, t: set<B>)
    requires forall a :: a in m ==> m[a] in t
    requires forall a, b :: a in m && b in m && m[a] == m[b] ==> a == b
    ensures |m| <= |t|
    decreases |m|
  {
    if m != map[] {
      var a :| a in m;
      var fewer := m - {a};
      Injected(fewer, t - {m[a]});
      assert m == fewer[a := m[a]];
    }
  }

  function Times<A, B>(s: set<A>, t: set<B>): set<(A, B)> {
    set a, b | a in s && b in t :: (a, b)
  }

  lemma {:induction false} TimesSize<A, B>(s: set<A>, t: set<B>)
    ensures |Times(s, t)| == |s| * |t|
    decreases |s|
  {
    if s == {} {
      assert Times(s, t) == {};
    } else {
      var a :| a in s;
      TimesSize(s - {a}, t);
      RowSize(a, t);
      assert Times(s, t) == Times(s - {a}, t) + Times({a}, t);
      assert Times(s - {a}, t) !! Times({a}, t);
      assert |s| * |t| == (|s| - 1) * |t| + |t|;
    }
  }

  lemma {:induction false} RowSize<A, B>(a: A, t: set<B>)
    ensures |Times({a}, t)| == |t|
    decreases |t|
  {
    if t == {} {
      assert Times({a}, t) == {};
    } else {
      var b :| b in t;
      RowSize(a, t - {b});
      assert Times({a}, t) == Times({a}, t - {b}) + {(a, b)};
    }
  }

  function OthersOf(acts: seq<Act>): set<nat> {
    set i: nat | i < |acts| && acts[i].round != i
  }

  function Keys(p: Plan, acts: seq<Act>): set<(nat, (Exec, Exec))> {
    Times(RoundsOf(acts), Times(p.nodes.Keys, p.nodes.Keys))
  }

  lemma KeysSize(p: Plan, acts: seq<Act>)
    ensures |Keys(p, acts)| == |RoundsOf(acts)| * (|p.nodes| * |p.nodes|)
  {
    hide Times, RoundsOf;
    TimesSize(p.nodes.Keys, p.nodes.Keys);
    TimesSize(RoundsOf(acts), Times(p.nodes.Keys, p.nodes.Keys));
  }

  lemma OthersKeyed(p: Plan, lay: Layout, st: State)
    requires Inv(p, lay, st)
    ensures |OthersOf(st.acts)| <= |Keys(p, st.acts)|
  {
    hide WellFormed, Inv, Times, RoundsOf, Keys;
    var others := OthersOf(st.acts);
    forall i: nat | i in others ensures st.acts[i].caller < |st.acts| && KeyOf(st.acts, i) in Keys(p, st.acts) {
      KeyInRange(p, lay, st, i);
    }
    var m := map i: nat | i in others :: KeyOf(st.acts, i);
    forall i, j | i in m && j in m && m[i] == m[j] ensures i == j {
      SameKey(p, lay, st, i, j);
    }
    Injected(m, Keys(p, st.acts));
    assert m.Keys == others;
  }

  /** In each round there is at most one activation for every pair of executors. */
  lemma ActivationBound(p: Plan, lay: Layout, st: State)
    requires Inv(p, lay, st)
    ensures |st.acts| <= |RoundsOf(st.acts)| * (1 + |p.nodes| * |p.nodes|)
  {
    hide Inv, RoundsOf, OthersOf, Keys;
    OthersKeyed(p, lay, st);
    KeysSize(p, st.acts);
    Partition(st.acts);
    Expand(|RoundsOf(st.acts)|, |p.nodes| * |p.nodes|);
  }

  lemma Expand(x: nat, y: nat)
    ensures x * (1 + y) == x + x * y
  {
  }

  lemma KeyInRange(p: Plan, lay: Layout, st: State, i: nat)
    requires Inv(p, lay, st) && i < |st.acts|
    ensures st.acts[i].caller < |st.acts|
    ensures KeyOf(st.acts, i) in Keys(p, st.acts)
  {
    hide WellFormed, InStep, CountdownOk, LeaderOk, KeptPromise, PromiseOk, Local, Flow;
    assert Linked(p, lay, st, i);
    var r := st.acts[i].round;
    assert Linked(p, lay, st, r);
    NodeFacts(p, lay, st.acts[i].exec);
    assert r in RoundsOf(st.acts);
  }

  function Below(n: nat): (s: set<nat>)
    ensures |s| == n && forall i: nat :: i in s <==> i < n
  {
    if n == 0 then {} else Below(n - 1) + {n - 1}
  }

  lemma Partition(acts: seq<Act>)
    ensures |acts| == |RoundsOf(acts)| + |OthersOf(acts)|
  {
    assert Below(|acts|) == RoundsOf(acts) + OthersOf(acts) && RoundsOf(acts) !! OthersOf(acts);
  }

  /** The longest run of a plan of `n` executors that has started `rounds` rounds. */
  function LongestRun(n: nat, rounds: nat): nat {
    4 * (rounds * (1 + n * n))
  }

  /** The length of every run, failing or not, is bounded by the number of executors and of the
      rounds it has started. */
  lemma RunBounded(p: Plan, lay: Layout, run: seq<Step>)
    requires WellFormed(p, lay) && ValidRun(p, run)
    ensures |run| <= LongestRun(|p.nodes|, |RoundsOf(After(p, run).acts)|)
  {
    hide WellFormed, ValidRun, After, Inv, Shape;
    HasShape(p, lay);
    InvHolds(p, lay, run);
    ActivationBound(p, lay, After(p, run));
    RunLength(p, run);
  }

  /** A schedule: a growing sequence of runs that takes a step as long as the root is pending. */
  ghost predicate IsSchedule(p: Plan, schedule: nat -> seq<Step>)
    requires Shape(p)
  {
    && (forall n: nat :: ValidRun(p, schedule(n)))
    && (forall n: nat :: RootPending(After(p, schedule(n))) ==> |schedule(n)| < |schedule(n + 1)|)
  }

  lemma {:induction false} PendingGrows(p: Plan, schedule: nat -> seq<Step>, n: nat)
    requires Shape(p) && IsSchedule(p, schedule)
    requires forall k :: 0 <= k < n ==> RootPending(After(p, schedule(k)))
    ensures |schedule(n)| >= n
    decreases n
  {
    if n > 0 {
      PendingGrows(p, schedule, n - 1);
      assert RootPending(After(p, schedule(n - 1)));
    }
  }

  // ---- Rounds of Selects ----

  /** The round was started by a Loop. */
  predicate ByLoop(p: Plan, acts: seq<Act>, r: nat) {
    && 0 < r < |acts| && acts[r].caller < |acts|
    && acts[acts[r].caller].exec in p.nodes && p.nodes[acts[acts[r].caller].exec].kind.Loop?
  }

  /** The rounds that Loops have started. */
  function LoopRounds(p: Plan, acts: seq<Act>): set<nat> {
    set r: nat | r < |acts| && acts[r].round == r && ByLoop(p, acts, r)
  }

  function Tops(p: Plan, acts: seq<Act>): set<nat> {
    LoopRounds(p, acts) + {0}
  }

  /** Callers and rounds come first. */
  predicate Nested(acts: seq<Act>) {
    forall i :: 0 < i < |acts| ==> acts[i].caller < i && acts[acts[i].caller].round <= acts[i].caller
  }

  /** The round of the root or of a Loop in which round `r` lies, through Selects only. */
  function TopOf(p: Plan, acts: seq<Act>, r: nat): nat
    requires Nested(acts) && r < |acts|
    decreases r
  {
    if r == 0 || ByLoop(p, acts, r) then r else TopOf(p, acts, acts[acts[r].caller].round)
  }

  lemma InvNested(p: Plan, lay: Layout, st: State)
    requires Inv(p, lay, st)
    ensures Nested(st.acts)
  {
    hide WellFormed, Local, Flow, Rooted, Doors, Promises, RoundsInTurn;
    forall i | 0 < i < |st.acts|
      ensures st.acts[i].caller < i && st.acts[st.acts[i].caller].round <= st.acts[i].caller
    {
      assert Linked(p, lay, st, i) && Linked(p, lay, st, st.acts[i].caller);
    }
  }

  /** The round of the caller is a round. */
  lemma CallerRound(p: Plan, lay: Layout, st: State, r: nat)
    requires Inv(p, lay, st) && 0 < r < |st.acts|
    ensures
      var c := st.acts[r].caller;
      c < r && st.acts[c].round <= c && st.acts[st.acts[c].round].round == st.acts[c].round
  {
    hide WellFormed, Local, Flow, Rooted, Doors, Promises, RoundsInTurn;
    var c := st.acts[r].caller;
    assert Linked(p, lay, st, r) && Linked(p, lay, st, c);
    assert Linked(p, lay, st, st.acts[c].round);
    NodeFacts(p, lay, st.acts[c].exec);
  }

  lemma {:induction false} TopInTops(p: Plan, lay: Layout, st: State, r: nat)
    requires Inv(p, lay, st) && Nested(st.acts) && r < |st.acts| && st.acts[r].round == r
    ensures TopOf(p, st.acts, r) in Tops(p, st.acts)
    decreases r
  {
    hide Inv, Nested;
    if r > 0 && !ByLoop(p, st.acts, r) {
      CallerRound(p, lay, st, r);
      TopInTops(p, lay, st, st.acts[st.acts[r].caller].round);
    }
  }

  /** A round is a body of its caller, which leads; without a Loop it is the only one. */
  lemma OwnerOf(p: Plan, lay: Layout, st: State, r: nat)
    requires Inv(p, lay, st) && 0 < r < |st.acts| && st.acts[r].round == r
    ensures
      var c := st.acts[r].caller;
      && c < r && st.acts[c].leads && r in st.acts[c].bodies
      && st.acts[c].exec in p.nodes && st.acts[r].exec in p.nodes[st.acts[c].exec].bodies
      && (!ByLoop(p, st.acts, r) ==> st.acts[c].bodies == [r])
  {
    hide WellFormed, Flow, Doors, Promises, RoundsInTurn;
    var c := st.acts[r].caller;
    assert Linked(p, lay, st, r);
    NodeFacts(p, lay, st.acts[r].exec);
    assert IsRoot(lay, st.acts[r].exec);
    assert Linked(p, lay, st, c) && Local(p, st.acts[c]) && Rooted(p, st, c);
  }

  /** A round is known by its root and by the Loop round in which it lies. */
  lemma {:induction false} SameTop(p: Plan, lay: Layout, st: State, r: nat, q: nat)
    requires Inv(p, lay, st) && Nested(st.acts) && r < |st.acts| && q < |st.acts|
    requires st.acts[r].round == r && st.acts[q].round == q && st.acts[r].exec == st.acts[q].exec
    requires TopOf(p, st.acts, r) == TopOf(p, st.acts, q)
    ensures r == q
    decreases r
  {
    hide Inv, Nested;
    if r == 0 || q == 0 {
      OnlyRoot(p, lay, st, r, q);
    } else {
      OwnerOf(p, lay, st, r);
      OwnerOf(p, lay, st, q);
      var c, d := st.acts[r].caller, st.acts[q].caller;
      SameOwner(p, lay, st, r, q);
      if !ByLoop(p, st.acts, r) {
        CallerRound(p, lay, st, r);
        CallerRound(p, lay, st, q);
        assert st.acts[st.acts[c].round].exec == st.acts[st.acts[d].round].exec by {
          RoundExec(p, lay, st, c);
          RoundExec(p, lay, st, d);
        }
        SameTop(p, lay, st, st.acts[c].round, st.acts[d].round);
        OneLeader(p, lay, st, c, d);
        assert [r][0] == [q][0];
      }
    }
  }

  lemma OnlyRoot(p: Plan, lay: Layout, st: State, r: nat, q: nat)
    requires Inv(p, lay, st) && r < |st.acts| && q < |st.acts| && st.acts[r].exec == st.acts[q].exec
    requires r == 0 || q == 0
    ensures r == q
  {
    hide WellFormed, Local, Flow, Rooted, Doors, Promises, RoundsInTurn;
    assert Linked(p, lay, st, r) && Linked(p, lay, st, q);
  }

  lemma SameOwner(p: Plan, lay: Layout, st: State, r: nat, q: nat)
    requires Inv(p, lay, st) && 0 < r < |st.acts| && 0 < q < |st.acts| && st.acts[r].exec == st.acts[q].exec
    requires st.acts[r].round == r && st.acts[q].round == q
    ensures
      var c, d := st.acts[r].caller, st.acts[q].caller;
      c < |st.acts| && d < |st.acts| && st.acts[c].exec == st.acts[d].exec
    ensures ByLoop(p, st.acts, r) <==> ByLoop(p, st.acts, q)
  {
    hide Local, Flow, Rooted, Doors, Promises, RoundsInTurn, Linked, Shape, Ranked, Regions;
    OwnerOf(p, lay, st, r);
    OwnerOf(p, lay, st, q);
    OneOwner(p, lay, st.acts[st.acts[r].caller].exec, st.acts[st.acts[q].caller].exec, st.acts[r].exec);
  }

  lemma RoundExec(p: Plan, lay: Layout, st: State, i: nat)
    requires Inv(p, lay, st) && i < |st.acts|
    ensures st.acts[i].exec in lay.region && st.acts[i].round < |st.acts|
    ensures st.acts[st.acts[i].round].exec == lay.region[st.acts[i].exec]
  {
    hide WellFormed, Local, Flow, Rooted, Doors, Promises, RoundsInTurn;
    assert Linked(p, lay, st, i);
  }

  lemma OneLeader(p: Plan, lay: Layout, st: State, c: nat, d: nat)
    requires Inv(p, lay, st) && c < |st.acts| && d < |st.acts| && st.acts[c].leads && st.acts[d].leads
    requires st.acts[c].exec == st.acts[d].exec && st.acts[c].round == st.acts[d].round
    ensures c == d
  {
    hide WellFormed, Skeleton, Doors, Promises;
    UniqueLeader(p, lay, st, c, d);
  }

  function TopKey(p: Plan, acts: seq<Act>, r: nat): (nat, Exec)
    requires Nested(acts) && r < |acts|
  {
    (TopOf(p, acts, r), acts[r].exec)
  }

  /** Only the rounds of Loops can be many: each of them, and the root, holds at most one round for
      every executor. */
  lemma RoundBound(p: Plan, lay: Layout, st: State)
    requires Inv(p, lay, st)
    ensures |RoundsOf(st.acts)| <= (|LoopRounds(p, st.acts)| + 1) * |p.nodes|
  {
    hide WellFormed, Inv, Times, Tops, LoopRounds, TopOf, Nested;
    InvNested(p, lay, st);
    var rounds, keys := RoundsOf(st.acts), Times(Tops(p, st.acts), p.nodes.Keys);
    forall r: nat | r in rounds ensures TopKey(p, st.acts, r) in keys {
      TopInTops(p, lay, st, r);
      ExecIn(p, lay, st, r);
      InTimes(Tops(p, st.acts), p.nodes.Keys, TopOf(p, st.acts, r), st.acts[r].exec);
    }
    var m := map r: nat | r in rounds :: TopKey(p, st.acts, r);
    forall r, q | r in m && q in m && m[r] == m[q] ensures r == q {
      SameTop(p, lay, st, r, q);
    }
    Injected(m, keys);
    assert m.Keys == rounds;
    TimesSize(Tops(p, st.acts), p.nodes.Keys);
    TopsSize(p, st.acts);
    assert |Tops(p, st.acts)| * |p.nodes| == (|LoopRounds(p, st.acts)| + 1) * |p.nodes|;
  }

  lemma ExecIn(p: Plan, lay: Layout, st: State, r: nat)
    requires Inv(p, lay, st) && r < |st.acts|
    ensures st.acts[r].exec in p.nodes
  {
  }

  lemma InTimes<A, B>(s: set<A>, t: set<B>, a: A, b: B)
    requires a in s && b in t
    ensures (a, b) in Times(s, t)
  {
  }

  lemma TopsSize(p: Plan, acts: seq<Act>)
    ensures |Tops(p, acts)| == |LoopRounds(p, acts)| + 1
  {
    assert 0 !in LoopRounds(p, acts);
  }

  /** Every schedule whose Loops start a bounded number of rounds completes its root, within the
      length of the longest such run. */
  lemma ScheduleCompletes(p: Plan, lay: Layout, schedule: nat -> seq<Step>, loops: nat) returns (n: nat)
    requires WellFormed(p, lay) && IsSchedule(p, schedule)
    requires forall k: nat :: |LoopRounds(p, After(p, schedule(k)).acts)| <= loops
    ensures n <= LongestRun(|p.nodes|, (loops + 1) * |p.nodes|) + 1 && !RootPending(After(p, schedule(n)))
  {
    hide WellFormed, ValidRun, After, Shape, RootPending, LoopRounds, LongestRun, RoundsOf;
    HasShape(p, lay);
    var most := LongestRun(|p.nodes|, (loops + 1) * |p.nodes|);
    if forall k: nat :: k < most + 1 ==> RootPending(After(p, schedule(k))) {
      PendingGrows(p, schedule, most + 1);
      BoundedByLoops(p, lay, schedule(most + 1), loops);
      assert false;
    }
    n :| n < most + 1 && !RootPending(After(p, schedule(n)));
  }

  lemma BoundedByLoops(p: Plan, lay: Layout, run: seq<Step>, loops: nat)
    requires WellFormed(p, lay) && ValidRun(p, run) && |LoopRounds(p, After(p, run).acts)| <= loops
    ensures |run| <= LongestRun(|p.nodes|, (loops + 1) * |p.nodes|)
  {
    hide WellFormed, ValidRun, After, Shape, Inv, LoopRounds, RoundsOf, LongestRun;
    HasShape(p, lay);
    InvHolds(p, lay, run);
    var acts := After(p, run).acts;
    RunBounded(p, lay, run);
    RoundBound(p, lay, After(p, run));
    Scaled(|LoopRounds(p, acts)| + 1, loops + 1, |p.nodes|);
    MoreRounds(|p.nodes|, |RoundsOf(acts)|, (loops + 1) * |p.nodes|);
  }

  lemma Scaled(x: nat, y: nat, n: nat)
    requires x <= y
    ensures x * n <= y * n
  {
    assert y * n == x * n + (y - x) * n;
  }

  /** A plan without Loops completes its root in every schedule. */
  lemma LoopFreeCompletes(p: Plan, lay: Layout, schedule: nat -> seq<Step>) returns (n: nat)
    requires WellFormed(p, lay) && IsSchedule(p, schedule)
    requires forall e :: e in p.nodes ==> !p.nodes[e].kind.Loop?
    ensures n <= LongestRun(|p.nodes|, |p.nodes|) + 1 && !RootPending(After(p, schedule(n)))
  {
    hide WellFormed, ValidRun, After, Shape, RootPending, LongestRun;
    HasShape(p, lay);
    forall k: nat ensures |LoopRounds(p, After(p, schedule(k)).acts)| <= 0 {
      assert LoopRounds(p, After(p, schedule(k)).acts) == {};
    }
    n := ScheduleCompletes(p, lay, schedule, 0);
    assert (0 + 1) * |p.nodes| == |p.nodes|;
  }

  lemma MoreRounds(n: nat, r: nat, s: nat)
    requires r <= s
    ensures LongestRun(n, r) <= LongestRun(n, s)
  {
    assert s * (1 + n * n) == r * (1 + n * n) + (s - r) * (1 + n * n);
  }
}
