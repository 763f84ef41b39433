# Verification of the nebula-graph query layer

nebula-graph turns a query sentence into a plan of nodes, optimises the plan, makes one
executor for each node and schedules the executors. This project models the parts of that
path that carry the most state and proves what they promise.

* **Scheduler** (`ExecutorGraph`, `Scheduler*`). Executors run as a concurrent graph with
  shared PassThrough nodes, Select branches and Loop bodies. Every call of `doSchedule` is an
  activation; the steps are the points at which threads may interleave, and a run is any
  sequence of enabled steps. All results hold for every run of every well-formed graph:
  acyclic, bodies disjoint, and an executor with several successors is a PassThrough.
* **Executor graph and plan description** (`PlanTraversals`). The memoised traversals that make
  executors and numbered descriptions.
* **Optimizer** (`Opt*`, `Optimizer`). The memo of groups, pattern matching, exploration with
  explored marks and a log of every try, and plan extraction. Rules are arbitrary functions with a soundness
  hypothesis: what they return means the matched group, they erase only with a replacement, and
  they close no cycle. Like the four rules of the repository, a rule creates nodes and groups
  and edits none that exist.
* **Boolean rewriting** (`ExpressionUtils`). Pulling, pushing and expanding And and Or. Truth
  values are ordered, And is the least and Or the greatest operand, which covers three-valued logic.
* **GO plans** (`ExecutionContext`, `Tables`, `GoPlan`, `GoTheorems`, `GoRowCounts`, `GoResults`).
  Variables with versions, the executors a GO plan uses, the plans for one, for n and for m to n
  steps, and what whole runs return in terms of the graph. The start column has the name of a user column: the scanner's names begin with a
  letter (`src/parser/scanner.lex:34`), so none is a generated name such as `_vid`.
* **Bounds, literals and row indexes** (`Bounds`, `Numerals`, `Literals`, `JoinIndex`, `NeighborsIter`).

`dafny verify dfyconfig.toml` checks everything.

## Where the code and its documentation differ

The model follows the code.

* `src/context/ExecutionContext.h:34-35` calls version 1 the oldest value. A history of one value
  has no version 1 (`VersionedValues.VersionForward`).
* `src/context/ExecutionContext.h:57-58` says that the front of a history is its latest value. It
  is the oldest.
* A repeated promise value would throw; `SchedulerTheorems.PromiseFulfilledOnce` shows that it
  does not happen. A PassThrough whose dependencies throw leaves its waiters parked
  (`SchedulerTheorems.WaitersAbandoned`); the root still ends (`SchedulerTheorems.NeverStuck`).
* A PassThrough without successors works for one round only: as the root of a Loop body it throws
  in the second (`SchedulerGates.LoneThenThrows`). No validator or planner of the repository gives
  such a body to a Loop.
* `GO m TO n STEPS` from an input column joins the input only when WHERE or YIELD names an input
  property (`src/validator/GoValidator.cpp:289`, `319` and `342`). Otherwise it does not return what
  GO m STEPS to GO n STEPS return: it has one row for each edge instead of one for each input row and
  edge (`GoRowCounts.PlainRowCount`), and the yielded properties are empty (`GoTheorems.PlainIsBlank`).
* `expandExpr` does not always return a disjunctive normal form (`ExpandTheorems.ExpandDnf` says when).
* `joinIndex` misplaces the columns behind an input without columns (`JoinIndex.IndexCorrect`).
  This is about that function; no plan that joins rows without columns is shown.
* A transform that erases a whole group leaves the group marked and its new members unexplored
  (`OptExplore.Explorer.ExploreGroup`).
* The less-than bound of a date stays put on the first of January of every year up to 1, although
  the least date is in year 0 (`TimeBounds.DateBefore`).
* The bounds of times count hours, minutes, seconds and microseconds from 1, although the least time has
  fields of 0. Where they carry or borrow they skip times with a field of 0
  (`TimeBounds.TimeAfterSkips`, `TimeBounds.TimeBeforeSkips` and their twins for datetimes).

## Model

| member | source | states |
|---|---|---|
| `PassThroughGate.PassThroughData.constructor` | src/scheduler/Scheduler.h:71-77 | A gate starts valid (countdown and promises are those of no arrivals) with an open promise. |
| `PassThroughGate.PassThroughData.Schedule` | src/scheduler/Scheduler.cpp:90-117 | The n-th arrival at a gate with k successors leads exactly when k divides n, and opens a new promise exactly when it begins a later round; the countdown stays what is left of the round. |
| `PassThroughGate.PassThroughData.SetValue` | src/scheduler/Scheduler.cpp:109-116 | Accepted exactly when the current promise is open; the promise keeps its first value, and the promises of earlier rounds and the countdown are left alone. |
| `PassThroughGate.ArrivalCounts` | src/scheduler/Scheduler.cpp:98-102 | Countdown and number of promises after one more arrival are those of the arrivals counted so far. |
| `PassThroughGate.NextRoundIsOpen` | src/scheduler/Scheduler.cpp:98-116 | After any rounds with any outcomes the promise of the next round is open exactly when the gate has a successor or no round was run. |
| `SchedulerRuns.InvHolds` | src/scheduler/Scheduler.cpp:65-175 | Every state of every run, in every interleaving and with every failure, satisfies the protocol invariant (activations form a forest, callers of a round are counted down, one leader per promise, promises answer for their leader). |
| `SchedulerRuns.StepKeeps` | src/scheduler/Scheduler.cpp:65-175 | Each kind of step (call a dependency, collect, finish, body done, resume) keeps the invariant. |
| `SchedulerTheorems.NeverStuck` | src/scheduler/Scheduler.cpp:65-164 | In every run, failing or not, some step is possible until the root future is complete: no interleaving deadlocks. |
| `SchedulerTheorems.ThrownReachesRoot` | src/scheduler/Scheduler.cpp:132-145 | If no step is possible and an exception was raised, it has reached the root. |
| `SchedulerTheorems.StartsAfterDependencies` | src/scheduler/Scheduler.cpp:90-145 | An executor that has called `execute` did so after everything it transitively depends on in that round: ordinary dependencies have closed well, PassThroughs have at least been released. |
| `SchedulerFailures.FailureFreeWell` | src/scheduler/Scheduler.cpp:65-164 | In a run in which no `execute` fails, everything that has ended has ended well and every fulfilled promise is a success. |
| `SchedulerFailures.ExactlyOncePerRound` | src/scheduler/Scheduler.cpp:65-164 | In a run in which no `execute` fails, every finished round (root, Select branch, Loop round) has for each executor of its body exactly one activation that ran; it ended well and called `execute` once, a Loop once more than its body. |
| `SchedulerFailures.FailureFreeCompletes` | src/scheduler/Scheduler.cpp:65-164 | A run in which no `execute` fails and that cannot go on has completed the root future with success. |
| `SchedulerTheorems.RoundRanOnce` | src/scheduler/Scheduler.cpp:65-164 | In any run, failing or not, the same holds of every round that has ended well. |
| `SchedulerTheorems.FailureBlocks` | src/scheduler/Scheduler.cpp:90-145 | Once an executor that did not execute, or is no PassThrough, has failed in a round, nothing that transitively depends on it executes in that round, however the run goes on. |
| `SchedulerFailures.FailureClimbs` | src/scheduler/Scheduler.cpp:90-175 | From any activation that has failed, a released PassThrough included, no activation on its chain of callers, through dependencies and the Selects and Loops that own the bodies, ever ends well or calls `execute` again, in every continuation; a failed body is the last round of its owner. That a failing `execute` fails its activation is `SchedulerOutcomes.BadStepFails`. |
| `SchedulerFailures.FailureStops` | src/scheduler/Scheduler.cpp:90-175 | Nor does anything that depends on an executor of that chain ever execute in the same round. |
| `SchedulerFailures.FailureSpoilsRound` | src/scheduler/Scheduler.cpp:90-175 | Once any activation has failed the root of its round never ends well, in every continuation. |
| `SchedulerOutcomes.BadStepFails` | src/scheduler/Scheduler.cpp:119-164 | An `execute` that fails, or a Loop condition that is no boolean, ends its activation, with the outcome itself or, for a Select or Loop, with an exception. |
| `SchedulerOutcomes.BadStepIsFatal` | src/scheduler/Scheduler.cpp:119-175 | After any run with such a step the activation has failed, and neither the root of its round nor the root of the plan has ended well. |
| `SchedulerOutcomes.BadStepStopsCallers` | src/scheduler/Scheduler.cpp:119-175 | Nor has any activation that called it, directly or not, ended well or executed since. |
| `SchedulerOutcomes.EndsWellOnlyIf` | src/scheduler/Scheduler.cpp:65-175 | A root that has ended well has no failed `execute` behind it. |
| `SchedulerOutcomes.EndsWellExactly` | src/scheduler/Scheduler.cpp:65-175 | A run that cannot go on has ended its root well exactly when no `execute` in it failed. |
| `SchedulerOutcomes.ConditionsDecide` | src/scheduler/Scheduler.cpp:119-164 | In every run a Loop has run its body once for each true condition and ends well exactly with a false one, and a Select has run the branch that its condition names. |
| `SchedulerTheorems.PromiseNotReplacedEarly` | src/scheduler/Scheduler.cpp:98-102 | A promise is replaced only after it was fulfilled, and fulfilled well. |
| `SchedulerTheorems.PromiseFulfilledOnce` | src/scheduler/Scheduler.cpp:109-116 | The promise a PassThrough is about to fulfil is still open, so fulfilling it never throws. |
| `SchedulerTheorems.ScheduledOncePerRound` | src/scheduler/Scheduler.cpp:90-117 | After a calls of a PassThrough with k successors its dependencies have been scheduled a div k times and the countdown is the rest of the round. |
| `SchedulerTheorems.WaitersReleased` | src/scheduler/Scheduler.cpp:109-116 | Waiters can resume, with success, as soon as the dependencies of the PassThrough have ended well, before and regardless of its own `execute`. |
| `SchedulerTheorems.WaitersAbandoned` | src/scheduler/Scheduler.cpp:109-116 | When the dependencies of a PassThrough raise an exception its promise is never fulfilled: the waiters of that round stay parked in every continuation. |
| `SchedulerTheorems.RunGrows` | src/scheduler/Scheduler.cpp:65-175 | Along a run activations are only added, never lose their identity or their place, and a finished one stays finished. |
| `SchedulerProgress.RunLength` | src/scheduler/Scheduler.cpp:65-175 | Every run takes at most four steps for each activation it has started. |
| `SchedulerProgress.RunBounded` | src/scheduler/Scheduler.cpp:65-175 | The length of every run is bounded by a function of the number of executors and of the rounds started. |
| `SchedulerProgress.RoundBound` | src/scheduler/Scheduler.cpp:65-175 | Only the rounds of Loops can be many: each of them, and the root, holds at most one round for every executor. |
| `SchedulerProgress.ScheduleCompletes` | src/scheduler/Scheduler.cpp:65-175 | Every schedule that keeps taking possible steps, and whose Loops start boundedly many rounds, completes the root future within a bound in those rounds and the executors. |
| `SchedulerProgress.LoopFreeCompletes` | src/scheduler/Scheduler.cpp:65-175 | A plan without Loops completes the root future in every such schedule, within a bound in its executors. |
| `SchedulerGates.LoneExecutesOnce` | src/scheduler/Scheduler.cpp:90-117 | A PassThrough without successors, such as the root of a Loop body, executes at most once in every run. |
| `SchedulerGates.LoneThenThrows` | src/scheduler/Scheduler.cpp:109-116 | After that every other activation of it ends with an exception when its dependencies have ended. |
| `SchedulerExample.ReachesReleasedWaiter` | src/scheduler/Scheduler.cpp:109-116 | A run of a Loop whose body shares a PassThrough reaches the hypotheses of `WaitersReleased`. |
| `SchedulerExample.ReachesAbandonedWaiter` | src/scheduler/Scheduler.cpp:109-116 | A run of that plan reaches the hypotheses of `WaitersAbandoned`. |
| `SchedulerExample.ReachesSpentGate` | src/scheduler/Scheduler.cpp:98-102 | A run of that plan reaches the hypotheses of `PromiseNotReplacedEarly`, in the second round of the Loop. |
| `SchedulerLoneExample.ReachesSecondRound` | src/scheduler/Scheduler.cpp:109-116 | A run of a Loop over a PassThrough without successors reaches the hypotheses of `LoneThenThrows`, in its second round. |
| `ExecutorCreation.Creator.Make` | src/executor/Executor.cpp:104-153 | Building the executor of a plan node links it to one executor per dependency and body, reuses executors that exist, and leaves earlier ones alone but for new successors. |
| `ExecutorCreation.Create` | src/executor/Executor.cpp:98-153 | Executors and reachable plan nodes correspond one to one, keep the dependency and body edges, and `depends` and `successors` mirror each other. |
| `ExecutorCreation.LinkMirrored` | src/executor/Executor.h:71-75 | `dependsOn` keeps the two sets mirror images of each other, whatever the executor depended on before. |
| `PlanDescriptions.PlanDescription.MakePlanNodeDesc` | src/planner/ExecutionPlan.cpp:22-85 | A node is numbered once, before the nodes below it; index map and list stay inverse to each other. |
| `PlanDescriptions.FillPlanDescription` | src/planner/ExecutionPlan.cpp:87-90 | `nodeIndexMap` is a bijection between the reachable ids and the description positions, and the root is first. |
| `OptConvert.Converter.Convert` | src/optimizer/Optimizer.cpp:54-107 | Converting a plan node gives it one group with one node whose dependencies and bodies are the groups of its own; visited nodes are shared. |
| `OptPrepared.Prepare` | src/optimizer/Optimizer.cpp:40-43 | Groups and reachable plan nodes correspond one to one, with the plan edges. |
| `OptPrepared.PreparedValid` | src/optimizer/Optimizer.cpp:54-107 | The prepared memo is consistent (every group means what its plan node means), has no empty group and no cycle. |
| `OptPattern.MatchNode` | src/optimizer/OptRule.cpp:24-48 | A match is returned exactly when some choice of one node per dependency group embeds the pattern tree, and it is the first one in the order of the groups. |
| `OptPattern.FirstUnique` | src/optimizer/OptRule.cpp:24-58 | There is at most one first match of a node. |
| `OptPattern.MatchGroup` | src/optimizer/OptRule.cpp:50-58 | The first member that embeds the pattern is taken; none is missed. |
| `OptRules.ApplyKeeps` | src/optimizer/OptGroup.cpp:59-88 | Applying a transform whose new nodes mean the matched group, that erases only with a replacement and closes no cycle, keeps the memo valid. |
| `OptLog.ApplyGives` | src/optimizer/OptGroup.cpp:69-91 | The edits of a transform do what it asks for: the members of the group are then the new nodes, with the old members unless all are erased, and without the current one if it is; no other node or group changes. |
| `OptExplore.Explorer.TryMember` | src/optimizer/OptGroup.cpp:62-91 | Trying a rule on a member: if the member has a match and the rule accepts the first one, the result of its transform is applied, and a failing transform makes the status a failure; otherwise nothing changes. The try is logged with the memo before and after it. |
| `OptLog.NoneLeft` | src/optimizer/OptGroup.cpp:62-91 | For a rule whose pattern is one node, that accepts every match and always erases the node, no member of a group on which it was tried has its kind. |
| `OptExplore.Explorer.ExploreGroup` | src/optimizer/OptGroup.cpp:45-95 | One pass keeps the memo valid, leaves the groups on the path above alone, and tries a node for each mark it sets, none twice for a rule. Every try is in the log and took effect, and the pass fails exactly when one of them failed. For a rule that never erases all it leaves every member explored; a second pass over explored members leaves the group marked. For a rule that always erases all, a completed pass leaves the group marked, and either as it was with every member marked, or with only new members, none of them marked. |
| `OptExplore.Explorer.ApplyTransform` | src/optimizer/OptGroup.cpp:69-91 | The edits of one transform in order: clear and replace, or append, unmark the group and erase the current node. |
| `OptExplore.Explorer.ExploreUntilMaxRound` | src/optimizer/OptGroup.cpp:97-108 | At most 128 rounds, with the tries of all of them logged and in effect; for a rule that never erases all, two are enough and everything below the group is settled. A rule that always erases all gets one round: what it puts into the group is never explored for it. |
| `OptExplore.Explorer.ExploreNode` | src/optimizer/OptGroup.cpp:143-159 | Marks the node and explores the groups below it for the rule, each node marked on the way being tried, without touching the groups on the path to it. |
| `OptMarks.SettledBelow` | src/optimizer/OptGroup.cpp:45-108 | When nothing is under exploration, a marked group has every group and node below it marked. |
| `Optimizer.ExploreRoot` | src/optimizer/Optimizer.cpp:45-52 | Exploring a rule from the root marks the root and tries the rule on every node it marks; a fresh rule that never erases all marks every reachable group and node in at most two rounds. |
| `OptExtract.FindMinCost` | src/optimizer/OptGroup.cpp:110-121 | The first member whose own cost is least. |
| `OptExtract.PlanWriter.GetPlan` | src/optimizer/OptGroup.cpp:127-196 | Writes into the plan node of the cheapest member of a group its dependencies and bodies, the cheapest members of the groups below; writing a node again changes nothing, other nodes stay, and what is new is reachable from the result. |
| `OptExtract.WrittenMeans` | src/optimizer/OptGroup.cpp:127-196 | Every written node means, with its dependencies unfolded, what its group means. |
| `OptExtract.ExtractPlan` | src/optimizer/OptGroup.cpp:127-196 | The plan consists of exactly the nodes reachable from the cheapest member of the root group, each once and shared, is acyclic, and means what the group means. |
| `Optimizer.DoExploration` | src/optimizer/Optimizer.cpp:45-52 | Any rule sets in any order keep the memo valid. When it is done, every rule has been explored in that order, each try in the log took effect, and none failed; it fails exactly when a try failed, and is cut off only after as many nodes as the fuel. |
| `Optimizer.FindBestPlan` | src/optimizer/Optimizer.cpp:28-38 | For every plan, rule list and rule order, the plan that comes out is acyclic, takes the cheapest member of each group it reaches, and means what the plan that went in means. The groups it takes them from are those of the plan that went in after all rules were tried in order and every accepted match was applied; no group is ever empty, and an error comes out only when a transform failed. |
| `OptExample.RewriteRuleSound` | src/optimizer/OptRule.h:50-71 | The hypothesis on rules is met by every rule that replaces the nodes of a kind by an operator of the same meaning. |
| `OptExample.KindGone` | src/optimizer/Optimizer.cpp:45-52 | After exploring such a rule last, no group below the root has a member of its kind, whatever the plan and the rules before it. |
| `OptExample.KindGoneFromPlan` | src/optimizer/Optimizer.cpp:28-38 | Nor has any node of the plan that comes out. |
| `OptExample.CheaperIsChosen` | src/optimizer/Optimizer.cpp:28-38 | On a plan of one node and a rule that offers a cheaper one, the plan that comes out is the cheaper node. |
| `ExpandSpec.Expand` | src/util/ExpressionUtils.cpp:106-143 | Rewriting terminates although it re-expands its own output: the result is never heavier, and is strictly lighter when an And has become an Or. |
| `ExpandTheorems.FlattenMeaning` | src/util/ExpressionUtils.cpp:46-68 | Pulling operands up preserves meaning for every arity and nesting and leaves no operand of the pulled kind. |
| `ExpandTheorems.PushMeaning` | src/util/ExpressionUtils.cpp:89-104 | Pushing operands into a nest preserves meaning. |
| `ExpandTheorems.PullUndoesPush` | src/util/ExpressionUtils.cpp:28-104 | Pulling what was pushed returns the operands exactly when none of them is of that kind. |
| `ExpandTheorems.ExpandMeaning` | src/util/ExpressionUtils.cpp:106-203 | Expanding preserves the value under every assignment, for any ordered set of truth values. |
| `ExpandTheorems.ExpandDnf` | src/util/ExpressionUtils.cpp:106-203 | The result is a disjunction of Or-free terms exactly when, wherever an And meets an Or, both sides of the And already are. |
| `ExpandTheorems.SimpleAndsReachDnf` | src/util/ExpressionUtils.cpp:106-203 | That covers every Or-tree whose leaves are Or-free or a single And of two such disjunctions. |
| `ExpandTheorems.NotAlwaysDnf` | src/util/ExpressionUtils.cpp:106-185 | Three conjoined disjunctions are not brought to normal form. |
| `ExpressionUtils.PullImpl` | src/util/ExpressionUtils.cpp:46-68 | The loop appends the flattened operands, left to right. |
| `ExpressionUtils.Pull` | src/util/ExpressionUtils.cpp:28-44 | The rewritten expression has the same meaning, and none of its operands is of its own kind. |
| `ExpressionUtils.PushImpl` | src/util/ExpressionUtils.cpp:89-104 | The loop builds the left-deep nest, with the meaning of the operands. |
| `ExpressionUtils.ExpandImplOr` | src/util/ExpressionUtils.cpp:187-203 | The loop lists the operands of the nest of Or. |
| `ExpressionUtils.Conjoin` | src/util/ExpressionUtils.cpp:171-179 | The nested loops list the conjunction of every left and every right operand. |
| `ExpressionUtils.ExpandImplAnd` | src/util/ExpressionUtils.cpp:145-185 | Computes one distribution step. |
| `ExpressionUtils.ExpandExpr` | src/util/ExpressionUtils.cpp:106-143 | Terminates, preserves meaning, and reaches normal form exactly on the inputs described by `Distributes`. |
| `VersionedValues.VersionBack` | src/context/ExecutionContext.cpp:71-79 | Version 0 is the latest value and version -k the one written k writes before it. |
| `VersionedValues.VersionForward` | src/context/ExecutionContext.cpp:71-79 | Version k above 0 is the k-th oldest kept value and equals version k - size, exactly when k is below the size. |
| `VersionedValues.ExecutionContext.SetResult` | src/context/ExecutionContext.cpp:21-24 | Appends to the history; the kept history stays the end of what was written. |
| `VersionedValues.ExecutionContext.TruncHistory` | src/context/ExecutionContext.cpp:37-46 | Keeps exactly the last versions of one variable, still the end of what was written. |
| `VersionedValues.ExecutionContext.DeleteValue` | src/context/ExecutionContext.cpp:26-28 | Forgets one variable and no other. |
| `VersionedValues.ExecutionContext.InitVar` | src/context/ExecutionContext.h:44-46 | Gives a new variable an empty history and leaves an existing one alone. |
| `VersionedValues.ExecutionContext.GetVersionedResult` | src/context/ExecutionContext.cpp:71-88 | Nothing exactly when the version is out of range; for versions up to 0 the value written that many writes ago. |
| `Tables.Project` | src/executor/query/ProjectExecutor.cpp:17-39 | One row of the chosen columns for each input row, in order. |
| `Tables.ProjectRowAt` | src/executor/query/ProjectExecutor.cpp:27-36 | A projected row has exactly the target columns, each with the value that the last column of that target takes from the row. |
| `Tables.Dedup` | src/executor/query/DedupExecutor.cpp:14-42 | Erases by swapping the last row in. |
| `Tables.DedupKeeps` | src/executor/query/DedupExecutor.cpp:29-38 | The result has no duplicates and the same set of rows. |
| `Tables.BuildHashTable` | src/executor/query/DataJoinExecutor.cpp:75-89 | The bucket of a key holds the rows with that key, in order. |
| `Tables.Probe` | src/executor/query/DataJoinExecutor.cpp:91-123 | Each probe row joins with the rows of its bucket, with the columns of the left row first. |
| `Tables.InnerJoin` | src/executor/query/DataJoinExecutor.cpp:25-73 | Computes the join with the smaller side hashed. |
| `Tables.JoinAnySide` | src/executor/query/DataJoinExecutor.cpp:57-70 | Whichever side is hashed, the result is the nested-loop join up to order. |
| `Tables.GetNeighbors` | src/executor/query/GetNeighborsExecutor.cpp:41-69 | The edges of each requested vertex, in order. |
| `PlanInterpreter.RunNode` | src/executor/Executor.cpp:540-544 | Running a node writes its output as a new version of its variable. |
| `PlanInterpreter.RunLoop` | src/validator/TraversalValidator.cpp:199-208 | The condition that counts up before comparing runs the body exactly the given number of times. |
| `GoResults.GoNSteps` | src/validator/GoValidator.cpp:140-274 | Runs the plan for n steps. Up to order it returns one row for each input row, each vertex n - 1 edges from its start and each edge of that vertex: the yielded edge columns hold the properties of that edge, the yielded input columns those of that input row. |
| `GoWalks.FrontierStep` | src/validator/TraversalValidator.cpp:141-159 | If the start variable holds the vertices k edges from a start, each once, the next version holds those k + 1 edges away. |
| `GoWalks.TraceStep` | src/validator/GoValidator.cpp:544-589 | If the trace variable holds the pairs joined by a walk of k edges, each once, the next version holds those joined by k + 1. |
| `GoTheorems.BeforeTraces` | src/validator/GoValidator.cpp:591-610 | Before the loop every start is paired with itself. |
| `GoTheorems.RoundsTrace` | src/validator/GoValidator.cpp:217-260 | After k rounds the trace variable is exactly the set of pairs joined by a walk of k edges, and the start variable its range. |
| `GoAnswers.JoinsGiveAnswer` | src/validator/GoValidator.cpp:490-542 | The two last joins give, for each last edge, each input row whose start reaches its source in k edges, exactly once. |
| `GoAnswers.AnswerUnique` | src/validator/GoValidator.cpp:490-542 | That result is determined up to order by the graph, the input and the number of steps. |
| `GoResults.OneStepReturns` | src/validator/GoValidator.cpp:612-630 | GO 1 STEPS returns one row for each input row and each edge of its start, with the properties of that edge and of that row. |
| `GoAnswers.DirectIsTraced` | src/validator/GoValidator.cpp:490-533 | For one step, joining the input directly and joining it through a trace give the same rows, but for the end of the trace. |
| `GoResults.NStepsReturn` | src/validator/GoValidator.cpp:157-274 | GO n STEPS, for n of at least 2, returns one row for each input row, each vertex n - 1 edges from its start and each edge of that vertex, with the properties of that edge and of that row. |
| `GoTheorems.PreviousRead` | src/validator/GoValidator.cpp:494-508 | After one more write the previous version is the one that was latest. |
| `GoTheorems.MToNRound` | src/validator/GoValidator.cpp:276-407 | In iteration k, for a sentence that names an input property, the join reads the trace of k - 1 steps and adds the answer of k steps to the history. |
| `GoTheorems.YieldsVisible` | src/validator/GoValidator.cpp:768-811 | What a sentence yields does not depend on the column that ends the trace, which the plan of one step does not make. |
| `GoTheorems.MToNIsEachStep` | src/validator/GoValidator.cpp:276-407 | When WHERE or YIELD names an input property, the k-th version of the M to N result is, up to order, what GO k STEPS returns. |
| `GoResults.MToNReturns` | src/validator/GoValidator.cpp:276-407 | That version holds one row for each input row, each vertex k - 1 edges from its start and each edge of that vertex, with the properties of that edge and of that row. |
| `GoTheorems.FrontierAtOk` | src/validator/GoValidator.cpp:276-300 | The start variable after k rounds holds the vertices k edges from a start, each once. |
| `GoTheorems.PlainIsEdges` | src/validator/GoValidator.cpp:276-374 | When neither names one, the plan has no trace and no joins, and the k-th version is read from the edges that leave the vertices k - 1 edges from a start, each vertex once. |
| `GoTheorems.PlainIsBlank` | src/validator/GoValidator.cpp:357-374 | In that plan every yielded property is empty: the rewritten YIELD names generated columns that the neighbours do not have. |
| `GoRowCounts.StepsSize` | src/validator/GoValidator.cpp:157-274 | GO k STEPS returns as many rows as there are pairs of an edge and an input row whose start is k - 1 edges before it. |
| `GoRowCounts.PlainRowCount` | src/validator/GoValidator.cpp:276-374 | Without an input property the k-th version has at most as many rows as GO k STEPS returns, and as many exactly when no vertex that has an edge is k - 1 edges from the starts of two input rows. |
| `GoRowCounts.TwoRowsOneEdge` | src/validator/GoValidator.cpp:276-374 | For two input rows with the same start and one edge GO 1 STEPS returns two rows, and the first version without an input property holds one. |
| `GoTheorems.CollectMToN` | src/executor/query/DataCollectExecutor.cpp:129-171 | Concatenates versions m to n of the history. |
| `GoTheorems.GoMToN` | src/validator/GoValidator.cpp:276-407 | When WHERE or YIELD names an input property, GO m TO n STEPS returns together the rows of GO m STEPS to GO n STEPS; otherwise one row of empty values for each edge that these follow last. |
| `StringBounds.Normalize` | src/optimizer/OptimizerUtils.cpp:443-456 | Cut or zero-padded to the column length. |
| `StringBounds.LessIsNumeric` | src/optimizer/OptimizerUtils.cpp:56-71 | Unsigned byte order of equal-length strings is the order of the numbers they write in base 256. |
| `StringBounds.Carry` | src/optimizer/OptimizerUtils.cpp:63-70 | The in-place loop adds or subtracts one, and gives up exactly when every byte is at its end. |
| `StringBounds.BoundWithGT` | src/optimizer/OptimizerUtils.cpp:56-71 | The exact saturating successor of the normalised value; no value without a column length. |
| `StringBounds.BoundWithLT` | src/optimizer/OptimizerUtils.cpp:202-216 | The exact saturating predecessor of the normalised value. |
| `StringBounds.BoundIsNext` | src/optimizer/OptimizerUtils.cpp:56-71 | No string of that length lies strictly between a value and its greater-than bound. |
| `StringBounds.BoundIsPrevious` | src/optimizer/OptimizerUtils.cpp:202-216 | No string of that length lies strictly between the less-than bound of a value and the value. |
| `StringBounds.BoundsInverse` | src/optimizer/OptimizerUtils.cpp:56-216 | Up and down again returns the value exactly when it is not all bytes 255 or is empty, down and up again exactly when it is not all bytes 0 or is empty. |
| `TimeBounds.DateAfter` | src/optimizer/OptimizerUtils.cpp:72-95 | Never moves down, stays only at the top, and is plus one on the rank of the fields. |
| `TimeBounds.DateBefore` | src/optimizer/OptimizerUtils.cpp:217-238 | Never moves up, stays exactly on days up to the first of January of year 1, and is minus one on the rank otherwise. |
| `TimeBounds.TimeAfter` | src/optimizer/OptimizerUtils.cpp:96-120 | Never moves down and stays only at the top; for every time whose fields are from 0 up to their largest it is plus one on the rank of the fields. |
| `TimeBounds.TimeBefore` | src/optimizer/OptimizerUtils.cpp:239-265 | Never moves up and stays exactly where no field is above 1; otherwise it is minus one on the rank of the time with the fields it borrows from raised to 1, also for fields of 0. |
| `TimeBounds.DateTimeAfter` | src/optimizer/OptimizerUtils.cpp:121-160 | As for times, over all seven fields. |
| `TimeBounds.DateTimeBefore` | src/optimizer/OptimizerUtils.cpp:266-307 | As for times, over all seven fields; at the start of a day it borrows from the date. |
| `TimeBounds.DateUpDown` | src/optimizer/OptimizerUtils.cpp:72-238 | The two date bounds undo each other exactly away from the ends and from the last day of a year before 1. |
| `TimeBounds.TimeUpDown` | src/optimizer/OptimizerUtils.cpp:96-265 | For fields from 0: up and down again returns the time exactly when it is not at the top and the field counted up was not 0; down and up again exactly when it is not at the bottom and no field borrowed from was 0. |
| `TimeBounds.DateTimeUpDown` | src/optimizer/OptimizerUtils.cpp:121-307 | The same for datetimes, and away from the last instant of a year before 1. |
| `TimeBounds.TimeBoundsAreNext` | src/optimizer/OptimizerUtils.cpp:96-265 | No time whose fields are at least 1 lies strictly between a time, with fields from 0, and either of its bounds. |
| `TimeBounds.TimeAfterSkips` | src/optimizer/OptimizerUtils.cpp:96-120 | The greater-than bound skips some time with a field of 0 exactly when it counts past the last microsecond. |
| `TimeBounds.TimeBeforeSkips` | src/optimizer/OptimizerUtils.cpp:239-265 | The less-than bound skips some time with a field of 0 exactly when it moves and the fields it borrows from are not all 0. |
| `TimeBounds.DateTimeParts` | src/optimizer/OptimizerUtils.cpp:121-307 | The bounds of a datetime are those of its time, or at the ends of a day those of its date. |
| `TimeBounds.DateBoundsAreNext` | src/optimizer/OptimizerUtils.cpp:72-238 | No date lies strictly between a date and either of its bounds. |
| `TimeBounds.DateTimeBoundsAreNext` | src/optimizer/OptimizerUtils.cpp:121-307 | No datetime whose fields are in range from 1 lies strictly between a datetime, with time fields from 0, and either of its bounds. |
| `TimeBounds.DateTimeAfterSkips` | src/optimizer/OptimizerUtils.cpp:121-160 | The greater-than bound of a datetime skips some datetime with a field of 0 exactly when it counts past the last microsecond. |
| `TimeBounds.DateTimeBeforeSkips` | src/optimizer/OptimizerUtils.cpp:266-307 | The less-than bound of a datetime skips one exactly when it moves and the time fields it borrows from are not all 0. |
| `TimeBounds.RankIsOrder` | src/optimizer/OptimizerUtils.cpp:121-307 | The rank orders datetimes as their fields do. |
| `Literals.LeadingZeros` | src/parser/GraphScanner.h:121-124 | Counts exactly the leading zeros. |
| `Literals.Finish` | src/parser/GraphScanner.h:129-139 | Compares and casts; the number given to the scan fits in 64 bits. |
| `Literals.ParseHex` | src/parser/GraphScanner.h:119-139 | Accepts exactly the values below 2^63, and 2^63 under a unary minus, whatever the number of digits and leading zeros. |
| `Literals.ParseOct` | src/parser/GraphScanner.h:141-162 | The same for octal literals. |
| `JoinIndex.JoinIter.Emplace` | src/context/Iterator.cpp:537-567 | Adds one column by position and by name; a name that is there keeps its place. |
| `JoinIndex.JoinIter.Append` | src/context/Iterator.cpp:537-567 | Copies the entries of another index, in any order, behind those that are there, and names them; no name that is there loses its place. |
| `JoinIndex.ColIndices` | src/context/Iterator.cpp:442-444 | The index of a data set gives each name the first column that bears it, and every column its own position exactly when the names differ. |
| `JoinIndex.JoinIter.BuildIndexFromRows` | src/context/Iterator.cpp:526-546 | Adds as one segment an entry for the first column of each name of a data set, and no other; when the names differ these are all its columns. |
| `JoinIndex.JoinIter.BuildIndexFromJoin` | src/context/Iterator.cpp:548-567 | Adds the columns of a join and returns one more than the largest segment that has a column, or 0 for none. |
| `JoinIndex.JoinIter.JoinIndex` | src/context/Iterator.cpp:479-524 | The map by position is the index of the nesting. The map by name holds exactly the names of the columns; a name on the left stands for a left column of that name, any other for a right one. |
| `JoinIndex.NameIsPlace` | src/context/Iterator.cpp:537-567 | A name that only one column has stands for that column. |
| `JoinIndex.NamedColumn` | src/context/Iterator.h:750-766 | With distinct names, looking a column up by name and by number give the same place; where the index is right it is the element of the concatenated base rows. |
| `JoinIndex.LocateIsConcat` | src/context/Iterator.h:640-653 | Reading a located column of the segments is reading the concatenated row. |
| `JoinIndex.IndexCorrect` | src/context/Iterator.cpp:479-567 | Every column of every nesting of joins is found where it lies, exactly when no left join ends in a segment without columns that something follows. |
| `JoinIndex.NeverAhead` | src/context/Iterator.cpp:479-567 | The index is exact within a segment and never names a later segment than the true one. |
| `JoinIndex.JoinedColumn` | src/context/Iterator.h:640-653 | In such a nesting column g of a joined row is element g of the concatenated base rows. |
| `JoinIndex.ColumnsAreFine` | src/context/Iterator.cpp:479-567 | Nestings over inputs with at least one column are all of that kind. |
| `JoinIndex.EmptySegmentBreaksIndex` | src/context/Iterator.cpp:548-567 | A left join that ends in an input without columns misplaces what is joined to its right. |
| `NeighborsIter.SplitJoins` | src/context/Iterator.cpp:159-163 | The pieces of a column name contain no colon and make up the name. |
| `NeighborsIter.PropsOf` | src/context/Iterator.cpp:165-171 | The property index answers as a search of the name pieces does. |
| `NeighborsIter.BuildIndex` | src/context/Iterator.cpp:131-153 | Fails exactly on a bad header; otherwise the tag, edge and name indexes answer as a search of the header does. |
| `NeighborsIter.RowEdges` | src/context/Iterator.cpp:100-118 | The list-valued entries of the list-valued edge cells of a row, all of them and each once, by column and entry. |
| `NeighborsIter.MakeLogicalRowByEdge` | src/context/Iterator.cpp:97-124 | The edges of a data set by row, column and entry, each once; and the rows that hold none, in order. |
| `NeighborsIter.MakeDataSetIndex` | src/context/Iterator.cpp:80-95 | Fails exactly on a bad header; otherwise the index, and in order the edges, or all rows when there is no edge column. |
| `NeighborsIter.GetNeighborsIter.ProcessList` | src/context/Iterator.cpp:62-78 | Succeeds exactly on a list of data sets with good headers; then there is an index for each, and the logical rows are those of all data sets by data set, row, column and entry. |
| `NeighborsIter.GetNeighborsIter.constructor` | src/context/Iterator.cpp:49-60 | Valid exactly for such a list; otherwise no rows and no indexes. |
| `NeighborsIter.OrderedUnique` | src/context/Iterator.cpp:62-124 | A sequence in the order of positions is determined by its members, so the logical rows match the positions of edges one to one and in order. |
| `NeighborsIter.RowsPartition` | src/context/Iterator.cpp:97-124 | A row of a data set with edge columns is among the rows without edges exactly when no logical row comes from it. |
| `NeighborsIter.GetNeighborsIter.GetTagProp` | src/context/Iterator.cpp:212-237 | For the current logical row, what a linear search of the header of its data set finds in its row of the answer: empty when there is none, a bad type when the cell is no list, null past the end. |
| `NeighborsIter.GetNeighborsIter.GetEdgeProp` | src/context/Iterator.cpp:239-265 | For the current logical row, what a linear search of the header of its data set finds among the values at its own row, column and entry of the answer, empty when the edge or the property is another; on a row without edge it throws exactly when a particular edge is asked for. |
| `NeighborsIter.GetNeighborsIter.ReadTagProp` | src/executor/query/ProjectExecutor.cpp:27-36 | Reading a property from row to row gives one value for each logical row that is left, in order, each the one a search of its own header finds. |
| `NeighborsIter.GetNeighborsIter.ReadEdgeProp` | src/executor/query/ProjectExecutor.cpp:27-36 | Reading an edge property from row to row gives one value for each edge that is left, by data set, row, column and entry, each from the values of that edge in the answer. |

## Left out

- Scheduler threads, futures and spin locks: only the step semantics is kept, with one step for the part under a lock; the steps allow at least the interleavings of the source.
- The countdown is an unbounded integer; wrap-around of the 32-bit counter is not modelled.
- Well-formed graphs have a PassThrough without successors only as the root, where it is entered once; `SchedulerGates` says what happens elsewhere.
- SchedulerTheorems.FailureBlocks: leaves out a PassThrough that fails after it was released, which those that depend on it need not wait for; `SchedulerFailures.FailureClimbs` covers it.
- SchedulerProgress.ScheduleCompletes: takes the number of rounds of Loops as given, since their conditions are parameters.
- Optimizer.FindBestPlan: a rule may add nodes forever, so runs carry a fuel; a run that is cut off returns no plan, and it is cut off only once it has created as many nodes as the fuel.
- OptExtract.PlanWriter.GetPlan: the dependencies that plan nodes had before are not kept; the plan holds what is written.
- OptExtract.FindMinCost: costs are below the largest double and are compared as real numbers.
- The concrete rules, and rules that would edit existing groups.
- ExpressionUtils.ExpandExpr: needs a binary And and an Or of at least two operands, as the source's own checks do for And.
- ExpressionUtils.Pull: returns the rewritten expression instead of moving the operands of its argument in place.
- The evaluation of expressions by the expression library, which is not part of this model; its And and Or are taken to be the least and the greatest operand.
- GoResults.NStepsReturn: is about the last joins and the yielded columns; WHERE and DISTINCT, which work on the joined rows after them, are not modelled.
- GO plans from constant vertices and with properties of the destination (`$$`).
- GoResults.GoNSteps: speaks of sentences whose start is an input column and whose yielded columns are edge properties or input columns. Plan nodes are modelled as a list in the order of execution, not as objects that setters rewire.
- Tables.GetNeighbors: what storage answers for a vertex is a parameter; invalid vertex ids are those without edges.
- ExecutorCreation.Creator.Make: the edges of an executor are set together after the executors below it exist.
- Branch information in plan descriptions, and the text of `explain`.
- Floating-point bounds, which depend on the rounding of an epsilon, and integer bounds, which saturate at once.
- JoinIndex.JoinIter.JoinIndex: the column names of each input differ, as `src/validator/Validator.cpp:418` demands; `JoinIndex.JoinIter.BuildIndexFromRows` says what repeated names give.
- GoTheorems.GoMToN: the input has the start column and no generated column.
- NeighborsIter.MakeDataSetIndex: rows are as wide as the header and edge columns come last before the closing column, as storage sends them.
- The vertex and edge values that iterators assemble, and erasing rows while iterating.
- Validators other than GO, the parser, meta and storage clients, sessions, permissions and administration.
