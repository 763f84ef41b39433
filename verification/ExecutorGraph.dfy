/** The executor graph: what `Executor::create` hands to the scheduler.
    Executors are named by their plan-node id; `deps` is `depends()`, and `Successors`
    is `successors()`, which `Executor::dependsOn` keeps as its mirror image. */
module ExecutorGraph {
  type Exec = int

  datatype Kind = Ordinary | PassThrough | Select | Loop

  /** `bodies` is [then, else] for a Select, [body] for a Loop and empty otherwise. */
  datatype Node = Node(kind: Kind, deps: set<Exec>, bodies: seq<Exec>)

  datatype Plan = Plan(root: Exec, nodes: map<Exec, Node>) {
    function Successors(e: Exec): set<Exec> {
      set s | s in nodes && e in nodes[s].deps
    }
  }

  /** A witness that the graph is acyclic (`rank` falls along every dependency and body
      edge and stays below `top`) and that it splits into bodies: `region[e]` is the root
      of the body that `e` lies in. */
  datatype Layout = Layout(rank: map<Exec, nat>, top: nat, region: map<Exec, Exec>)

  ghost predicate IsRoot(lay: Layout, e: Exec) {
    e in lay.region && lay.region[e] == e
  }

  ghost predicate Shape(p: Plan) {
    && p.root in p.nodes
    && (forall e :: e in p.nodes ==> p.nodes[e].deps <= p.nodes.Keys)
    && (forall e, b :: e in p.nodes && b in p.nodes[e].bodies ==> b in p.nodes)
    && (forall e :: e in p.nodes ==>
          |p.nodes[e].bodies| == match p.nodes[e].kind case Loop => 1 case Select => 2 case _ => 0)
    // `doScheduleParallel` aborts on an empty dependency set; only the default case tests for it
    && (forall e :: e in p.nodes && !p.nodes[e].kind.Ordinary? ==> p.nodes[e].deps != {})
  }

  ghost predicate Ranked(p: Plan, lay: Layout)
    requires Shape(p)
  {
    && lay.rank.Keys == p.nodes.Keys
    && (forall e :: e in p.nodes ==> lay.rank[e] < lay.top)
    && (forall e, d :: e in p.nodes && d in p.nodes[e].deps ==> lay.rank[d] < lay.rank[e])
    && (forall e, b :: e in p.nodes && b in p.nodes[e].bodies ==> lay.rank[b] < lay.rank[e])
  }

  /** Every dependency stays inside its body, every body has one owner, every executor
      is reachable, and an executor with several successors is a PassThrough. */
  ghost predicate Regions(p: Plan, lay: Layout)
    requires Shape(p)
  {
    && lay.region.Keys == p.nodes.Keys
    && IsRoot(lay, p.root)
    && (forall e :: e in p.nodes ==> IsRoot(lay, lay.region[e]))
    && (forall e, d :: e in p.nodes && d in p.nodes[e].deps ==>
          lay.region[d] == lay.region[e] && !IsRoot(lay, d))
    && (forall e, b :: e in p.nodes && b in p.nodes[e].bodies ==> IsRoot(lay, b) && b != p.root)
    && (forall e, f, b ::
          (e in p.nodes && f in p.nodes && b in p.nodes[e].bodies && b in p.nodes[f].bodies) ==> e == f)
    && (forall e :: e in p.nodes && !IsRoot(lay, e) ==> p.Successors(e) != {})
    && (forall e :: e in p.nodes && p.nodes[e].kind.PassThrough? ==> e == p.root || !IsRoot(lay, e))
    && (forall e, s, t ::
          (s in p.nodes && t in p.nodes && e in p.nodes[s].deps && e in p.nodes[t].deps &&
           !p.nodes[e].kind.PassThrough?) ==> s == t)
  }

  ghost predicate WellFormed(p: Plan, lay: Layout) {
    Shape(p) && Ranked(p, lay) && Regions(p, lay)
  }

  // The facts of a well-formed graph, one at a time.

  lemma HasShape(p: Plan, lay: Layout)
    requires WellFormed(p, lay)
    ensures Shape(p)
  {
  }

  lemma DependencyFacts(p: Plan, lay: Layout, e: Exec, d: Exec)
    requires WellFormed(p, lay) && e in p.nodes && d in p.nodes[e].deps
    ensures d in p.nodes && e in lay.region && d in lay.region && d in lay.rank && e in lay.rank
    ensures lay.region[d] == lay.region[e] && !IsRoot(lay, d) && lay.rank[d] < lay.rank[e] < lay.top
  {
  }

  lemma BodyFacts(p: Plan, lay: Layout, e: Exec, b: Exec)
    requires WellFormed(p, lay) && e in p.nodes && b in p.nodes[e].bodies
    ensures b in p.nodes && b in lay.rank && e in lay.rank && lay.rank[b] < lay.rank[e] < lay.top
    ensures IsRoot(lay, b) && b != p.root && !p.nodes[b].kind.PassThrough?
  {
  }

  lemma OneOwner(p: Plan, lay: Layout, e: Exec, f: Exec, b: Exec)
    requires WellFormed(p, lay) && e in p.nodes && f in p.nodes
    requires b in p.nodes[e].bodies && b in p.nodes[f].bodies
    ensures e == f
  {
  }

  lemma NodeFacts(p: Plan, lay: Layout, e: Exec)
    requires WellFormed(p, lay) && e in p.nodes
    ensures e in lay.region && e in lay.rank && lay.rank[e] < lay.top
    ensures lay.region[e] in p.nodes && IsRoot(lay, lay.region[e])
    ensures !IsRoot(lay, e) ==> p.Successors(e) != {}
    ensures IsRoot(lay, e) ==> p.Successors(e) == {}
    ensures IsRoot(lay, e) && p.nodes[e].kind.PassThrough? ==> e == p.root
  {
    forall s | s in p.nodes && IsRoot(lay, e)
      ensures e !in p.nodes[s].deps
    {
    }
  }

  lemma OneSuccessor(p: Plan, lay: Layout, e: Exec, s: Exec, t: Exec)
    requires WellFormed(p, lay) && s in p.nodes && t in p.nodes
    requires e in p.nodes[s].deps && e in p.nodes[t].deps && !p.nodes[e].kind.PassThrough?
    ensures s == t
  {
  }

  /** `path` leads from an executor down to something it transitively depends on. */
  ghost predicate DependencyPath(p: Plan, path: seq<Exec>) {
    && |path| > 0
    && (forall k :: 0 <= k < |path| ==> path[k] in p.nodes)
    && (forall k :: 0 <= k < |path| - 1 ==> path[k + 1] in p.nodes[path[k]].deps)
  }
}
