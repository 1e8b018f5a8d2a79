# Attractor run engine: a Dafny model with proofs

Attractor runs pipelines (graphs of nodes and guarded edges) by creating cards
on a kanban board. When a card ends, `advance_on_completion` marks the card's
row, decides which way the run goes, creates the follow-up cards with their
rows, and saves the run with its event cursor last. A replay loop reads the
global event log in batches and feeds each run its own events. This project
models that engine and proves what it keeps over every step, every crash point,
every history of launches and deliveries, and every replay.

How the model is built:

- `RunState` holds the durable state (run rows, node rows keyed by run, node and
  attempt, cards keyed by idempotency key, blocked tasks), the classes
  `RunStateStore` and `KanbanBoard`, and the writes that change them.
- `Advance` gives the specification of one step: `PlanOf`, the ordered list of
  writes it performs and the exit it takes. `Engines` is the imperative step,
  `Engine.AdvanceOnCompletion`, with a ghost journal; it is proved to perform
  exactly the planned writes in the planned order. A crash is a proper prefix of
  that list, and every theorem about crashes is about those prefixes.
- `Guard`, `Pipelines`, `EdgeSelector`, `ContextMerge` and `Keys` are the parts
  the step relies on: the guard parser, validation and the stylesheet, edge
  choice, the fan-in merge, and idempotency keys. `GuardMeaning` says what
  comparisons and operands mean, asked of the evaluator. `Completions` and
  `Choices` say what one step saves, creates and follows, in terms of the event's
  metadata and the pipeline's own fields.
- `Invariants`, `CrashReplay`, `Redelivery`, `Remerge`, `Safety`, `Launching`,
  `Histories`, `Dispatches`, `Lifecycle`, `Termination`, `GateLoop` and
  `FanInConfluence` state and prove what the step keeps; `EventLog`,
  `Reconciling`, `BatchSize`, `Replays`, `Resumption`, `ReplaySafety`,
  `ReconcileOrder`, `ReconcileTwice` and `ReconcileProgress` do the same for the
  replay loop.
- `Scenarios` gives closed forms for launches and whole deliveries. `Witnesses`,
  `LoopExamples`, `FanInExamples`, `ToolExamples` and `StallExample` use them
  for concrete histories of valid pipelines: those on which documented promises
  fail, and some that meet the hypotheses of the gate-loop and fan-in results.

## Where the code and its documentation disagree

The model follows the code; the lemma that shows a disagreement is named with it.

- `run_execution.py:10-14` and `reconcile.py:142-146` say a step may be repeated
  without effect. Ordinary and HUMAN dispatch number the attempt by counting
  rows (`run_execution.py:600-602`, `:808-810`), so a crash after the new row,
  or a second delivery, creates a second card (`DispatchNotCrashIdempotent`,
  `RedeliveryDispatchesAgain`). `CrashSurvivedExactly` and `IdempotentExactly`
  say exactly when a repetition is harmless. A fan-in is merged a second time
  (`SecondMergeChanges`; exactly when that is harmless: `FanInAgain` with
  `RemergeExactly`), and a tool is run a second time (`ToolRunsTwice`; exactly
  when that is harmless: `ToolAgain`). `AgainExactly` decides a repetition that
  selects another node than the first time.
- `event_log.py:9-14` promises that every event up to the final cursor is
  processed. Ownership is decided when a batch is read, so an event whose card
  exists without its row is skipped and then passed by the cursor
  (`OrphanCompletionLost`). `LossExactly` says which events are lost, at every
  batch size; when the log fits one batch the condition is on the state before
  the pass (`OneBatchLossExactly`). With every card's row in place at the start
  none is lost (`RecordedNothingLost`). The same lines call the batch size a
  throughput knob. Batches of one and the default batch can end in different
  states (`BatchSizeMatters`); batches of one are always the one-at-a-time fold
  (`SizeOneIsFold`), and `BatchSizeIrrelevantExactly` says when every size is.
- `reconcile.py:142-146` promises that a second pass has no effect. It can
  handle an event whose row the first pass wrote (`SecondPassHandlesMore`), and
  has an effect iff the run owns an event past the end cursor
  (`SecondPassExactly`, `ReconcileAgainExactly`).
- The documented guard grammar closes a group with `)`. `consume("OP1")`
  (`guard.py:326`) takes any token of that kind, so `( a (` is accepted
  (`UndocumentedGuardAccepted`; exactly when: `DocumentedIffBalanced`).
- `run.py:35-40` lists the status transitions as enforced. The step enforces
  none (`DocumentedExactly`; a run that goes from PAUSED_HUMAN to SUCCEEDED:
  `PausedRunSucceeds`) and never reaches FAILED (`NeverFailed`).
  `run_execution.py:311-314` lets a paused run resume on its human's completion;
  it resumes on any that forwards it (`ResumesExactly`, `PausedRunResumes`).
- `run_execution.py:304-309` says a paused run waits for its human. The board
  logs the engine's own block as a terminal event of the human's card
  (`specs/001-attractor-kanban/research-hermes-kanban.md:197`), and the step
  does not read an event's kind, so the next pass resumes the run, and the
  human's completion later dispatches the next node again
  (`BlockedEventResumes`). A run can so end in SUCCEEDED without its human
  (`BlockedEventFinishes`).
- `run.py:60-68` lists a node's progression as leading from DISPATCHED to a
  final status. Fan-outs, fan-ins, gate retries and the node behind a TOOL are
  dispatched under a fixed attempt, so a row that was done is put back to
  DISPATCHED iff the step dispatches it once more (`ReopensExactly`,
  `ReopeningExits`). A fan-in that fires again gets no new card
  (`RefiringAddsNothing`), and the run then stays RUNNING with every card
  completed (`JoinReopensAndStalls`).
- A fan-in that is its own predecessor undoes its own readiness after a crash
  (`SelfBlockingExact`, `SelfJoinLosesMerge`).
- A retry target that the run had not reached before the gate's first failure
  skips attempt 1 (`OffPathSkipsFirst`, `DetourSkipsFirst`).
- The safe-id pattern ends in `$`, which also matches before a final newline;
  `SafeId` keeps that, and keys stay injective.
- Validation checks neither the fan-out width nor that ids are safe; the results
  that need them say so (`SoundConfig`).

## Model

| member | source | states |
|---|---|---|
| Guard.Parser.Operand | src/hermes_attractor/domain/guard.py:214-253 | consumes one operand and gives its value, or raises iff there is none |
| Guard.Parser.Comparison | src/hermes_attractor/domain/guard.py:288-307 | evaluates the tree the context-free parser finds, and stops where it stops |
| Guard.Parser.Atom | src/hermes_attractor/domain/guard.py:310-331 | the same, with the depth restored and the depth limit enforced |
| Guard.Parser.Not | src/hermes_attractor/domain/guard.py:334-352 | the same for `not` chains, one level of depth each |
| Guard.Parser.And | src/hermes_attractor/domain/guard.py:355-373 | the same for left-associated `and` |
| Guard.Parser.Or | src/hermes_attractor/domain/guard.py:376-394 | the same for left-associated `or` |
| Guard.Evaluate | src/hermes_attractor/domain/guard.py:415-448 | the fused parser and evaluator equals parse-then-denote; it raises iff the context-free parse fails, so acceptance cannot depend on the context |
| Guard.AcceptedExactly | src/hermes_attractor/domain/guard.py:310-448 | a guard parses to a tree iff the tree is well formed for the or/and/not precedence, nests at most 32 deep, and prints as exactly the guard's tokens |
| Guard.UniqueReading | src/hermes_attractor/domain/guard.py:310-448 | a token list has at most one reading |
| Guard.LayoutFaithful | src/hermes_attractor/domain/guard.py:6-19 | every and/or/not formula has a documented printing with the same meaning |
| Guard.LayoutMinimal | src/hermes_attractor/domain/guard.py:6-19 | no well-formed tree of the same formula has fewer parenthesis pairs than that printing |
| Guard.PrintedFormulaEvaluates | src/hermes_attractor/domain/guard.py:397-448 | evaluating a printed formula consumes all of it and gives the formula's meaning in every context |
| Guard.DocumentedIffBalanced | src/hermes_attractor/domain/guard.py:324-328 | an accepted guard belongs to the documented grammar iff it has as many right as left parentheses |
| Guard.UndocumentedGuardAccepted | src/hermes_attractor/domain/guard.py:324-328 | `( a (` is accepted although the documented grammar has no such guard |
| GuardMeaning.AcceptedWithinLimits | src/hermes_attractor/domain/guard.py:163-178 | a guard is accepted iff it has at most 512 characters and its tokens print a well-formed tree that nests at most 32 deep, whatever the context |
| GuardMeaning.KeyEqualsText | src/hermes_attractor/domain/guard.py:182-284 | a guard `key == "text"` holds iff the key has at most four segments and following them through nested mappings ends at that text; `!=` is its negation |
| GuardMeaning.ComparisonOfValues | src/hermes_attractor/domain/guard.py:288-307 | a comparison depends on the values its two operands stand for and on nothing else: a literal for itself, a key for what it leads to, or null |
| GuardMeaning.EqualityLaws | src/hermes_attractor/domain/guard.py:269-284 | when two values are equal, kind by kind: the booleans count as 0 and 1, lists and mappings compare item by item; `!=` is the negation |
| GuardMeaning.NumbersOrdered | src/hermes_attractor/domain/guard.py:269-284 | the four orderings of numbers are those of the reals |
| GuardMeaning.StringsOrdered | src/hermes_attractor/domain/guard.py:269-284 | texts are ordered at the first character they differ in, a proper prefix first |
| GuardMeaning.ListsOrdered | src/hermes_attractor/domain/guard.py:269-284 | lists are ordered by the first items that are not equal, or by length |
| GuardMeaning.MismatchUnordered | src/hermes_attractor/domain/guard.py:256-286 | for every other pair of values all four orderings are false, and none is an error |
| GuardMeaning.TruthOfOperand | src/hermes_attractor/domain/guard.py:298-304 | a bare operand holds unless it stands for null, false, zero or something empty |
| Pipelines.ResolveStyle | src/hermes_attractor/domain/pipeline.py:113-136 | the loop returns the profile of the last rule among the most specific matching ones, and None iff none matches |
| Pipelines.StyleBySelector | src/hermes_attractor/domain/pipeline.py:113-162 | the answer is the profile of the last rule with the strongest of the node's selectors that any rule has: `#id`, then `.class`, then the shape's name, then `*` |
| Pipelines.ShapeSelectors | src/hermes_attractor/domain/pipeline.py:156-162 | a rule with a shape's name matches the nodes of that shape only |
| Pipelines.WeakerRuleIrrelevant | src/hermes_attractor/domain/pipeline.py:113-162 | a rule less specific than a matching one, or not matching, changes nothing wherever it is inserted |
| Pipelines.ResolveProfile | src/hermes_attractor/domain/pipeline.py:548-562 | a node's own profile overrides the stylesheet |
| Pipelines.FindReachable | src/hermes_attractor/domain/pipeline.py:220-255 | terminates and returns exactly the ids joined to the start by a path, with repeated stack entries and dangling targets |
| Pipelines.Adjacency | src/hermes_attractor/domain/pipeline.py:302-312 | the mutable dictionary ends as each node's targets in edge order |
| Pipelines.ReachabilityExact | src/hermes_attractor/domain/pipeline.py:394-415 | no reachability issue iff every node is path-reachable from START |
| Pipelines.ValidationExact | src/hermes_attractor/domain/pipeline.py:314-528 | no issue at all iff the declarative well-formedness predicate holds |
| Pipelines.Validate | src/hermes_attractor/domain/pipeline.py:314-338 | reports all issues in order, and none iff the pipeline is well formed |
| Pipelines.ValidateStructure | src/hermes_attractor/domain/pipeline.py:340-365 | one issue when the START nodes are not exactly one, with their number, and one for EXIT nodes likewise |
| Pipelines.ValidateEdges | src/hermes_attractor/domain/pipeline.py:367-392 | one issue per dangling end, in edge order |
| Pipelines.ValidateReachability | src/hermes_attractor/domain/pipeline.py:394-415 | the reachable set is the path-reachable ids, and one issue per node outside it |
| Pipelines.ValidateGoalGates | src/hermes_attractor/domain/pipeline.py:417-450 | one issue per gate whose retry target is missing or unreachable |
| Pipelines.ValidateProfiles | src/hermes_attractor/domain/pipeline.py:512-528 | one issue per worker node without a profile |
| Pipelines.ValidateToolEdges | src/hermes_attractor/domain/pipeline.py:452-480 | one issue per edge between TOOL nodes |
| Pipelines.ValidateGuards | src/hermes_attractor/domain/pipeline.py:482-510 | trying each guard on the empty context finds exactly the guards that can raise on any context |
| Pipelines.OutEdgesInOrder | src/hermes_attractor/use_cases/run_execution.py:396-396 | the edges from a node come in the order of all edges |
| Pipelines.LastNodeCounts | src/hermes_attractor/use_cases/run_execution.py:336-336 | of nodes with the same id the last one counts |
| EdgeSelector.SelectOptimal | src/hermes_attractor/domain/edge_selector.py:49-94 | raises iff some guard is malformed; None iff no edge passes; otherwise an edge that no passing edge beats in (condition, label, suggested, weight, smallest target) |
| EdgeSelector.SelectByFields | src/hermes_attractor/domain/edge_selector.py:49-94 | on the edges' own fields: raises iff a guard raises; None iff every guard is false; otherwise the choice is open, guarded if an open edge is, then labelled with the hint, then leading to a suggested node, then of greatest weight, then to the smallest target, each among the edges that tie with it so far |
| EdgeSelector.SelectOrderFree | src/hermes_attractor/domain/edge_selector.py:49-94 | reordering or repeating edges never changes the outcome or the chosen target |
| EdgeSelector.SelectOnly | src/hermes_attractor/domain/edge_selector.py:49-94 | a single unconditional edge is taken in every context |
| ContextMerge.Merge | src/hermes_attractor/domain/pipeline.py:605-644 | the two-dictionary loop equals the key-by-key closed form, whatever the order of a branch's keys |
| ContextMerge.RecordedIff | src/hermes_attractor/domain/pipeline.py:605-644 | a conflict is recorded for a key iff some adjacent pair of its writes is not list after list |
| ContextMerge.ScalarsAllRecorded | src/hermes_attractor/domain/pipeline.py:605-644 | a key written twice or more with non-lists records every write once, in order |
| ContextMerge.SettledStep | src/hermes_attractor/domain/pipeline.py:618-640 | one more write concatenates onto a list or replaces the value: the closed form is the longest all-list suffix |
| ContextMerge.ReservedStays | src/hermes_attractor/domain/pipeline.py:623-642 | whatever the branches write under a key that begins with an underscore, the base's entry or its absence stays, but for the conflict record |
| ContextMerge.OthersMerged | src/hermes_attractor/domain/pipeline.py:621-640 | any other key is in the result iff the base or some branch has it |
| Keys.KeyTextInjective | src/hermes_attractor/domain/run.py:102-125 | on ids that `for_node` accepts, the key text determines run, node and attempt |
| Keys.KeyReads | src/hermes_attractor/domain/run.py:102-125 | a key is refused iff one of its ids is unsafe; otherwise it spells out run, node and attempt, the attempt in decimal without leading zeros |
| Keys.SafeIdExactly | src/hermes_attractor/domain/run.py:22-22 | an id is accepted iff it is a non-empty text of letters, digits, `_` and `-`, with or without one newline behind it |
| RunState.RunStateStore.CreateRun | src/hermes_attractor/adapters/run_state_store.py:204-228 | the run row is added, or refused when the id exists; nothing else changes |
| RunState.RunStateStore.SaveRun | src/hermes_attractor/adapters/run_state_store.py:257-283 | updates the row if it exists, otherwise nothing |
| RunState.RunStateStore.UpsertNode | src/hermes_attractor/adapters/run_state_store.py:285-318 | sets the row under (run, node, attempt), all others stay |
| RunState.RunStateStore.GetNodeByTask | src/hermes_attractor/adapters/run_state_store.py:320-331 | some row that carries the task, None iff there is none; the one row when tasks are unique |
| RunState.RunStateStore.NodesForRun | src/hermes_attractor/adapters/run_state_store.py:333-348 | exactly the run's rows, ordered by node id and attempt |
| RunState.RunStateStore.ActiveRuns | src/hermes_attractor/adapters/run_state_store.py:243-255 | each RUNNING or PAUSED_HUMAN run once |
| RunState.KanbanBoard.CreateCard | src/hermes_attractor/ports/kanban.py:16-34 | an existing key keeps its card and returns its task id |
| RunState.PrefixThenAll | src/hermes_attractor/use_cases/reconcile.py:142-146 | writing any prefix of a list of card and row writes and then the whole list equals writing the whole list |
| RunState.PlainEffect | src/hermes_attractor/use_cases/reconcile.py:142-146 | such a list amounts to rows overridden by the last write and cards kept from the first |
| Engines.Engine.AdvanceOnCompletion | src/hermes_attractor/use_cases/run_execution.py:289-859 | performs exactly the planned writes in the planned order and leaves by the planned exit |
| Engines.Engine.Locate | src/hermes_attractor/use_cases/run_execution.py:325-346 | the row and run the event belongs to, or neither |
| Engines.Engine.Perform | src/hermes_attractor/use_cases/run_execution.py:348-392 | marks the row, then acts on the marked rows |
| Engines.Engine.FanOut | src/hermes_attractor/use_cases/run_execution.py:394-442 | one card and row per edge in order, then the save; raises over 16 edges or at the first refused key |
| Engines.Engine.Gate | src/hermes_attractor/use_cases/run_execution.py:462-522 | blocks, retries under the gate's attempt plus one, or goes on to edge selection |
| Engines.Engine.Route | src/hermes_attractor/use_cases/run_execution.py:524-548 | selects the edge and enters its target |
| Engines.Engine.Enter | src/hermes_attractor/use_cases/run_execution.py:592-859 | the dispatch rule of each shape |
| Engines.Engine.FanIn | src/hermes_attractor/use_cases/run_execution.py:556-591 | waits or fires, on the same rows |
| Engines.Engine.GatherBranches | src/hermes_attractor/use_cases/run_execution.py:641-657 | ready iff each predecessor's latest row is done; then the branches' updates in node order |
| Engines.Engine.LatestPerPredecessor | src/hermes_attractor/use_cases/run_execution.py:647-656 | the dictionary loop keeps each predecessor's highest attempt, first met in node order |
| Engines.Engine.RunTool | src/hermes_attractor/use_cases/run_execution.py:690-794 | the four TOOL outcomes and their writes |
| Engines.Engine.CountAttempts | src/hermes_attractor/use_cases/run_execution.py:800-810 | the number of rows the node has in the run |
| Engines.Engine.LatestCovers | src/hermes_attractor/use_cases/run_execution.py:556-591 | comparing the sizes of the dictionary and the predecessor set is asking that every predecessor is done |
| Engines.Engine.JournalApplied | src/hermes_attractor/use_cases/run_execution.py:289-859 | the stores move as the written list says |
| Advance.CursorLast | src/hermes_attractor/use_cases/run_execution.py:430-859 | every step that finds its row and run and does not raise saves the run exactly once, as its last write, with the event's id as cursor; a raising step never saves |
| Advance.TailOrderly | src/hermes_attractor/use_cases/run_execution.py:394-859 | whatever the exit, each row written follows its own card, under a safe key of the same run and an existing node |
| Advance.TailSaves | src/hermes_attractor/use_cases/run_execution.py:430-859 | a step raises iff it saves nothing; the saved run keeps its spec and takes the event's cursor |
| Completions.SequentialContext | src/hermes_attractor/use_cases/run_execution.py:367-392 | a step that does not raise and selects neither a FAN_IN nor a TOOL saves, key by key, the reported value where the event reports one and the stored value elsewhere; the stored context itself if an edge of the node leads to a FAN_IN |
| Completions.ToolStepContext | src/hermes_attractor/use_cases/run_execution.py:690-708 | a TOOL step runs the tool named by the prompt on that context and applies what it reports; without a registry, a name or a mapping it changes nothing |
| Completions.NewRecords | src/hermes_attractor/use_cases/run_execution.py:409-830 | every card a step adds is for a node of the pipeline under a key of the run, with that node's worker, prompt, retry limit and kind, the completed card as its parent and the saved context in its prompt; every row it adds records that node as dispatched, with its gate (none for a gate's retry) and parents |
| Completions.StepMarks | src/hermes_attractor/use_cases/run_execution.py:348-366 | a step's first write marks the completed row: SUCCEEDED iff the node is ungated or the verdict is "pass" in any case, with the reported updates, and all else as it was; only a dispatch of that key overwrites it |
| Choices.FollowsSelection | src/hermes_attractor/use_cases/run_execution.py:524-548 | a step that comes to its edges follows the one selected on the context with the updates, hinted by a gate's verdict or else by the label the event prefers, and by the nodes it suggests; it raises iff selection does |
| Choices.LabelFollowed | src/hermes_attractor/use_cases/run_execution.py:524-548 | without guards, if some edge has that label the step follows such an edge, and dispatches its target if that is an ordinary or HUMAN node |
| Choices.HumanIsBlocked | src/hermes_attractor/use_cases/run_execution.py:592-640 | a step blocks the card of the HUMAN node it dispatches, and no other card |
| Choices.FanInExactly | src/hermes_attractor/use_cases/run_execution.py:556-689 | a step that leads to a fan-in fires it iff the latest attempt of every node with an edge to it is done, and then saves the stored context merged with those attempts' updates in node order; otherwise only the cursor moves |
| Invariants.StepKeepsBijective | src/hermes_attractor/use_cases/run_execution.py:354-859 | the row/card bijection survives a step cut after any number of writes |
| Invariants.BijectiveTasksUnique | src/hermes_attractor/adapters/run_state_store.py:320-331 | under the bijection a task belongs to at most one row |
| Invariants.CrashPoints | src/hermes_attractor/use_cases/run_execution.py:353-859 | the four kinds of state a cut step can leave |
| Invariants.StepRuns | src/hermes_attractor/use_cases/run_execution.py:430-859 | a step changes no run but its own |
| CrashReplay.CrashConverges | src/hermes_attractor/use_cases/run_execution.py:353-859 | one crash at a survivable point and then the full step end where the uncut step ends |
| CrashReplay.CrashesConverge | src/hermes_attractor/use_cases/run_execution.py:353-859 | so does any number of crashes at any survivable points |
| CrashReplay.SturdyExits | src/hermes_attractor/use_cases/run_execution.py:353-859 | a step that is not sturdy is an ordinary or HUMAN dispatch, or the firing of a fan-in that is its own predecessor, or raises on a refused key: every other exit survives a crash at every point |
| CrashReplay.CrashSurvivedExactly | src/hermes_attractor/use_cases/run_execution.py:353-859 | a crash is survived iff it comes before the added row, or the step is sturdy, or the next attempt already exists in just that form |
| CrashReplay.FreshAttemptExact | src/hermes_attractor/use_cases/run_execution.py:592-640 | the exact condition for ordinary and HUMAN dispatch |
| CrashReplay.SelfBlockingExact | src/hermes_attractor/use_cases/run_execution.py:641-689 | the exact condition for a fan-in that blocks itself |
| Redelivery.SturdyIdempotent | src/hermes_attractor/use_cases/run_execution.py:10-14 | a sturdy step that keeps its context changes nothing when its event is delivered again |
| Redelivery.IdempotentExits | src/hermes_attractor/use_cases/run_execution.py:10-14 | fan-out, gate block, gate retry, waiting fan-in, EXIT and no-edge steps are idempotent |
| Redelivery.IdempotentExactly | src/hermes_attractor/use_cases/run_execution.py:10-14 | of the steps that keep their context, a second delivery is silent iff the step does not dispatch a fresh attempt by counting, or that attempt's successor already exists |
| Redelivery.FreshAgain | src/hermes_attractor/use_cases/run_execution.py:800-830 | a second delivery of a counting dispatch writes the row of the next attempt, and so is silent iff that row exists in just that form |
| Redelivery.FanInAgain | src/hermes_attractor/use_cases/run_execution.py:641-689 | a fan-in's last completion, delivered again while its node still selects the fan-in, is silent iff the fan-in blocks itself or `RemergeSilent` holds of the stored context and the branches' updates |
| Redelivery.UnguardedEnters | src/hermes_attractor/use_cases/run_execution.py:524-548 | a node without guards on its edges still selects the fan-in after the merge |
| Redelivery.ToolAgain | src/hermes_attractor/use_cases/run_execution.py:690-794 | a TOOL step, delivered again while its node still selects the TOOL, is silent iff the tool leaves the same context again |
| Redelivery.AgainExactly | src/hermes_attractor/use_cases/run_execution.py:10-14 | for every step that saves, and whatever the second delivery selects: if that saves too, it is silent iff it saves the same run and its marks, rows, cards and blocks are there already |
| Redelivery.UnselectedAgain | src/hermes_attractor/use_cases/run_execution.py:524-548 | a second delivery that selects no node is silent iff the run is not paused, the updates leave its context and its row is still marked |
| Redelivery.MovesOnAgain | src/hermes_attractor/use_cases/run_execution.py:592-640 | a second delivery that selects an ordinary or HUMAN node, where the first may have selected another, writes the row after that node's count, and so is not silent unless that row exists |
| Remerge.RemergeExactly | src/hermes_attractor/domain/pipeline.py:605-644 | merging the same branches again changes nothing iff no key's lists add anything and either no branch writes a non-list, or the record the second merge makes is there already: per key, the value before the branches equals the value they leave |
| Remerge.KeyValue | src/hermes_attractor/domain/pipeline.py:627-639 | a key's value stands the second time unless its branches write lists only, and some items |
| Remerge.KeyRecord | src/hermes_attractor/domain/pipeline.py:633-637 | when a key's conflict record is the same both times |
| Remerge.NewScalarsRecorded | src/hermes_attractor/domain/pipeline.py:605-644 | a new key written with non-lists makes the second merge change a context without a record |
| Safety.ToolNeverToTool | src/hermes_attractor/domain/pipeline.py:452-480 | on a valid pipeline a TOOL's selected edge resolves and never leads to a TOOL |
| Safety.TailSafe | src/hermes_attractor/use_cases/run_execution.py:394-859 | on a valid pipeline with safe ids and bounded fan-out no step raises, and a failed gate is blocked, retried or fanned out, never routed by an edge |
| Safety.CardsAddressed | src/hermes_attractor/domain/pipeline.py:512-562 | a worker node's card is never addressed to nobody |
| Launching.CheckLaunchable | src/hermes_attractor/use_cases/run_execution.py:213-232 | a launch is allowed iff the pipeline is well formed and every worker's profile is known |
| Launching.ResolvedWorkerProfiles | src/hermes_attractor/domain/pipeline.py:530-546 | the dictionary of worker ids and their non-empty profiles, a later duplicate id winning |
| Launching.WorkerListed | src/hermes_attractor/domain/pipeline.py:530-546 | the node an id stands for is in that dictionary whenever it is a worker with a profile |
| Launching.LaunchRun | src/hermes_attractor/use_cases/run_execution.py:209-286 | inserts the run and then dispatches the entry node; writes nothing when the pipeline or the run id is refused |
| Launching.LaunchStores | src/hermes_attractor/use_cases/run_execution.py:234-286 | the launched run is RUNNING on the given context from event 0; if a START edge selected on that context leads to a worker with a safe id, exactly that node is dispatched, at attempt 1, with its card over that context and without a parent; everything else stored stays |
| Launching.LaunchEntry | src/hermes_attractor/use_cases/run_execution.py:247-284 | the entry node is chosen by edge selection on the initial context and gets attempt 1 |
| Histories.HistoriesHealthy | src/hermes_attractor/use_cases/run_execution.py:178-859 | every history of launches and deliveries, each cut anywhere, keeps the whole invariant |
| Histories.RowCardBijection | src/hermes_attractor/adapters/run_state_store.py:285-331 | after every history each row carries the board's id for its own key, has its card, and shares its task with no other row |
| Histories.FanInSafety | src/hermes_attractor/use_cases/run_execution.py:556-689 | after every history a fan-in reached only from its predecessors has at most its first card, and only if every predecessor had a completion delivered |
| Histories.NothingGoesWrong | src/hermes_attractor/use_cases/run_execution.py:394-859 | after every history over safe ids and bounded fan-outs, delivering any event raises nothing and no failed gate reaches edge selection |
| Histories.CardsReachWorkers | src/hermes_attractor/use_cases/run_execution.py:213-232 | every worker card ever created names a profile, and one known to the host |
| Dispatches.DispatchesExactly | src/hermes_attractor/use_cases/run_execution.py:394-859 | a step on a valid pipeline raises iff its node fans out too widely or an id it would dispatch is refused, and otherwise adds rows under exactly the keys its branch dispatches |
| Dispatches.RaisesExactly | src/hermes_attractor/use_cases/run_execution.py:394-859 | after every history, delivering an event raises iff its node is a FAN_OUT of more than sixteen edges or the step would dispatch a node with an unsafe id |
| Dispatches.ReopensExactly | src/hermes_attractor/use_cases/run_execution.py:394-859 | a step puts a done row back to dispatched iff it dispatches that row's key |
| Dispatches.ReopeningExits | src/hermes_attractor/use_cases/run_execution.py:394-859 | only fan-out, gate retry, a firing fan-in and the dispatch behind a TOOL do so, as long as the node's attempts have no gap |
| Dispatches.CountIsFresh | src/hermes_attractor/use_cases/run_execution.py:800-810 | without a gap in a node's attempts, its count plus one is an attempt with no row |
| Dispatches.RefiringAddsNothing | src/hermes_attractor/use_cases/run_execution.py:641-689 | a fan-in that fires again has its row dispatched anew and adds neither a row nor a card |
| Lifecycle.StatusAfterStep | src/hermes_attractor/use_cases/run_execution.py:474-859 | the status each exit leaves; no other run's status moves |
| Lifecycle.DocumentedExactly | src/hermes_attractor/domain/run.py:33-40 | by the completed node and where it leads: a RUNNING run always moves as documented; a paused one unless the completion exhausts a gate or leads to EXIT; a finished one unless it is moved again |
| Lifecycle.ExitByTurn | src/hermes_attractor/use_cases/run_execution.py:394-859 | which exit a step takes, by the completed node, its verdict and the node it selects |
| Lifecycle.ResumesExactly | src/hermes_attractor/use_cases/run_execution.py:846-848 | a paused run resumes iff the completion selects nothing, an ordinary node or a fan-in that is ready |
| Lifecycle.NeverFailed | src/hermes_attractor/domain/run.py:33-40 | in no history is a run ever PENDING or FAILED |
| Termination.DeliveryLowersMeasure | src/hermes_attractor/use_cases/run_execution.py:395-859 | if every edge a step can follow lowers a rank, each processed completion lowers (retry keys not yet used) * 17^top + the sum of 17^rank over open rows |
| Termination.DeliveriesBounded | src/hermes_attractor/use_cases/run_execution.py:395-859 | so each delivery is paid for out of the measure, and adds at most sixteen rows |
| Termination.LaunchedRunTerminates | src/hermes_attractor/use_cases/run_execution.py:178-859 | a launched run processes boundedly many completions and records boundedly many cards |
| GateLoop.LinkAdds | src/hermes_attractor/use_cases/run_execution.py:800-830 | a completed node with one unconditional edge adds exactly one row for its target, numbered by the count |
| GateLoop.FailureAdds | src/hermes_attractor/use_cases/run_execution.py:462-522 | a failing gate adds its retry target's row at its own attempt plus one, or blocks the run and adds nothing |
| GateLoop.Lockstep | src/hermes_attractor/use_cases/run_execution.py:473-830 | after k failed rounds every node of the loop has attempts exactly 1 to k+1 (the later nodes 1 to k until reached), and the run is BLOCKED exactly at failure number max_attempts |
| GateLoop.OffPathSkipsFirst | src/hermes_attractor/use_cases/run_execution.py:473-510 | a retry target never reached before starts at the gate's attempt plus one, so its attempts are not contiguous |
| FanInConfluence.BranchWaits | src/hermes_attractor/use_cases/run_execution.py:556-591 | a branch that is not the last only marks its row and moves the cursor |
| FanInConfluence.BranchRetries | src/hermes_attractor/use_cases/run_execution.py:462-522 | a failed self-retrying branch marks its row and adds its next attempt, context untouched |
| FanInConfluence.WaitingUntilLast | src/hermes_attractor/use_cases/run_execution.py:367-591 | in any order of completions and retries, the run's context and status stay until every branch is done |
| FanInConfluence.FiresWithMerge | src/hermes_attractor/use_cases/run_execution.py:641-689 | then the fan-in fires and the context is the base merged with each predecessor's final updates, once, in node order |
| FanInConfluence.CompletionOrderIrrelevant | src/hermes_attractor/use_cases/run_execution.py:376-689 | any two orders of the same completions end in the same context |
| EventLog.ReadSince | src/hermes_attractor/adapters/event_log.py:69-109 | the rows past the cursor of the kinds completed, blocked, gave_up, crashed and timed_out, sorted by id, none lost or invented |
| EventLog.KeptMembers | src/hermes_attractor/adapters/event_log.py:38-107 | what is kept is exactly the rows past the cursor of the five terminal kinds, each with its task, id and metadata, or no metadata if that is no mapping |
| EventLog.AdapterReadsBatch | src/hermes_attractor/adapters/event_log.py:69-109 | over a reader that keeps its contract the result is the first batch of the table's terminal events past the cursor |
| EventLog.SortOrdered | src/hermes_attractor/adapters/event_log.py:109-109 | the sort is ordered and a permutation |
| EventLog.PastContinues | src/hermes_attractor/use_cases/reconcile.py:218-242 | reading past a batch's last id continues exactly where the batch stopped |
| Reconciling.ReconcileRun | src/hermes_attractor/use_cases/reconcile.py:170-242 | the batch loop with its local and stored cursors terminates and refines the specified pass |
| Reconciling.HandleBatch | src/hermes_attractor/use_cases/reconcile.py:194-211 | advances the owned events of a batch in order until one raises |
| Reconciling.FilterOwned | src/hermes_attractor/use_cases/reconcile.py:184-192 | exactly the batch's events that the run owns, in order |
| Reconciling.BatchedIsFold | src/hermes_attractor/use_cases/reconcile.py:170-242 | for every log, mix of foreign events and batch size, the pass is the fold over the run's own events past the cursor, unless one becomes its own during the pass |
| Reconciling.BatchedRefinesFold | src/hermes_attractor/use_cases/reconcile.py:128-242 | with no card left without its row, every batch size gives the one-at-a-time fold |
| Reconciling.SecondPassSilent | src/hermes_attractor/use_cases/reconcile.py:142-155 | a second pass over one run on the same log writes nothing, if the first did not raise and no logged event became the run's own during it |
| Replays.PassIsAttempted | src/hermes_attractor/use_cases/reconcile.py:170-242 | a pass is the step over the events it hands on, in order |
| Replays.AttemptedExactly | src/hermes_attractor/use_cases/reconcile.py:184-211 | in a pass that does not raise, an event is handed on iff the run owns it when its batch is read |
| Replays.CursorNeverBack | src/hermes_attractor/use_cases/reconcile.py:218-242 | for every log and size, raising or not, the stored cursor never goes back; it passes the starting point once an own event is handled, and ends at the last own event's id |
| Replays.LossExactly | src/hermes_attractor/adapters/event_log.py:9-14 | for every log and size, an event of the run past the start is handled iff its row exists when its batch is read, and is lost iff it is at or below the final cursor without one |
| Replays.NothingLostExactly | src/hermes_attractor/adapters/event_log.py:9-14 | every event up to the final cursor is processed iff each one's row exists when its batch is read |
| Replays.OneBatchLossExactly | src/hermes_attractor/adapters/event_log.py:9-14 | when one batch holds the rest of the log, an event is lost iff its row is missing before the pass and a later event's is not |
| Replays.RecordedNothingLost | src/hermes_attractor/adapters/event_log.py:9-14 | when every card of a logged event has its row before the pass, no event is lost, whatever the batch size |
| Replays.OrphanEventLost | src/hermes_attractor/use_cases/reconcile.py:184-242 | in whatever batch: an event without a row when its batch is read is lost for good once a later event is handled; its row, should it appear, stays dispatched |
| Replays.EverySizeLoses | src/hermes_attractor/adapters/event_log.py:9-14 | no batch size saves an event that heads the log without its row |
| Replays.PassSilentExactly | src/hermes_attractor/use_cases/reconcile.py:142-155 | a pass writes nothing iff the run owns no event past its cursor |
| Replays.SecondPassExactly | src/hermes_attractor/use_cases/reconcile.py:142-155 | the second pass on the same log is silent iff no event past the end cursor is the run's own by then |
| Replays.SizeOneIsFold | src/hermes_attractor/adapters/event_log.py:7-13 | batches of one event give the one-at-a-time fold, with no proviso |
| Resumption.InterruptedPassResumes | src/hermes_attractor/use_cases/reconcile.py:142-155 | a steady pass, cut any number of times at survivable writes and then run to its end with any batch size, leaves the state of the pass that was never cut |
| Resumption.PrefixIsCut | src/hermes_attractor/use_cases/reconcile.py:142-155 | after any proper prefix of a steady pass's writes the state is that of a cut in the step of one of its own events, before that step's save |
| Resumption.StoppedPassResumes | src/hermes_attractor/use_cases/reconcile.py:142-155 | so a pass whose steps survive every cut may stop after any of its writes: the next pass, with any batch size, leaves the state of the whole pass |
| ReplaySafety.ReplayNeverRaises | src/hermes_attractor/use_cases/reconcile.py:170-242 | after every history over safe ids and bounded fan-outs, replaying any log into any run raises nothing |
| ReplaySafety.ReconcileNeverRaises | src/hermes_attractor/use_cases/reconcile.py:46-112 | so no pass of a reconciliation raises, which discharges the proviso of the order and repetition results |
| BatchSize.TimelyBatches | src/hermes_attractor/adapters/event_log.py:7-13 | when no event becomes owned before its turn, every batch size gives the fold |
| BatchSize.BatchSizeIrrelevantExactly | src/hermes_attractor/adapters/event_log.py:7-13 | every batch size gives the fold iff no event becomes the run's own between the start of the pass and its turn |
| ReconcileOrder.PlanLocal | src/hermes_attractor/use_cases/reconcile.py:135-140 | a step's plan depends on its own run's rows and row of the run table only |
| ReconcileOrder.PassesCommute | src/hermes_attractor/use_cases/reconcile.py:82-112 | the passes over two runs commute |
| ReconcileOrder.OrderFree | src/hermes_attractor/use_cases/reconcile.py:78-112 | the order of the active runs does not matter when no pass raises |
| ReconcileOrder.OthersUntouched | src/hermes_attractor/use_cases/reconcile.py:82-99 | runs that are terminal at the start, or not reconciled, are untouched |
| ReconcileOrder.Reconcile | src/hermes_attractor/use_cases/reconcile.py:46-112 | the outer loop reconciles each active run once and refines the sequence of passes |
| ReconcileProgress.OneRunByStatus | src/hermes_attractor/use_cases/reconcile.py:43-112 | a RUNNING or PAUSED_HUMAN run is replayed from its stored cursor with its own pipeline and no tools; a SUCCEEDED, FAILED or BLOCKED one is left alone |
| ReconcileProgress.EachRunPasses | src/hermes_attractor/use_cases/reconcile.py:78-112 | when no pass raises, each run ends as its own pass alone leaves it |
| ReconcileProgress.ActiveRunsCatchUp | src/hermes_attractor/use_cases/reconcile.py:46-242 | if reconciling the active runs raises nothing, every RUNNING or PAUSED_HUMAN run ends with its cursor at or past each logged event of its rows, and that row marked as completed by it, unless a later write of the same pass dispatches it again |
| ReconcileTwice.OneRunTwice | src/hermes_attractor/use_cases/reconcile.py:115-242 | one run's pass repeated writes nothing, also when its pipeline is missing, if the first did not raise and no logged event became the run's own during it |
| ReconcileTwice.ReconcileIsIdempotent | src/hermes_attractor/use_cases/reconcile.py:46-112 | reconciling again on the same log, over any of the runs in any order, changes nothing, if no pass raised and no logged event became its run's own during a pass |
| ReconcileTwice.SilentExactly | src/hermes_attractor/use_cases/reconcile.py:82-112 | one run's pass is silent iff the run is gone, terminal, or owns no event past its cursor |
| ReconcileTwice.ReconcileAgainExactly | src/hermes_attractor/use_cases/reconcile.py:46-112 | without a proviso: the next reconciliation on the same log changes nothing iff each of its runs is idle by then |
| Witnesses.CrashDuplicates | src/hermes_attractor/use_cases/run_execution.py:800-830 | for every single unconditional edge, a crash right after the new row makes the re-run add a second row |
| Witnesses.RedeliveryDuplicates | src/hermes_attractor/use_cases/run_execution.py:800-830 | so does delivering the event a second time |
| Witnesses.DispatchNotCrashIdempotent | src/hermes_attractor/use_cases/run_execution.py:10-16 | a history of a valid pipeline in which a crash and a re-run leave two cards where one was promised |
| Witnesses.RedeliveryDispatchesAgain | src/hermes_attractor/use_cases/run_execution.py:10-14 | a history in which a second delivery leaves two cards |
| Witnesses.PausedRunSucceeds | src/hermes_attractor/domain/run.py:33-40 | a history in which a paused run goes to SUCCEEDED while its human's card is open |
| Witnesses.PausedRunResumes | src/hermes_attractor/use_cases/run_execution.py:311-314 | a history in which a paused run resumes while its human's card is open |
| Witnesses.OrphanCompletionLost | src/hermes_attractor/adapters/event_log.py:9-14 | a history with one cut and a log on which a completion below the final cursor is never processed |
| Witnesses.SecondPassHandlesMore | src/hermes_attractor/use_cases/reconcile.py:142-146 | a history and a log on which the first pass raises nothing and the second is not silent |
| Witnesses.BatchSizeMatters | src/hermes_attractor/adapters/event_log.py:7-13 | a history and a log on which batches of one and the default batch end differently |
| Witnesses.BlockedEventResumes | src/hermes_attractor/use_cases/run_execution.py:304-314 | a paused run whose only own event past its cursor is a terminal event of its human's card, such as the block itself, resumes and dispatches the next node; the human's completion adds a second attempt |
| Witnesses.BlockedEventFinishes | src/hermes_attractor/use_cases/run_execution.py:304-314 | a history and a log, with the block of the human's card and no completion of it, after which a paused run is SUCCEEDED |
| LoopExamples.SecondFailureBlocks | src/hermes_attractor/use_cases/run_execution.py:462-522 | a history of a gate with two attempts: the first failure re-runs the loop, the second blocks the run |
| LoopExamples.DetourSkipsFirst | src/hermes_attractor/use_cases/run_execution.py:473-510 | a history in which a retry target off the path gets attempt 2 and never attempt 1 |
| FanInExamples.BothOrdersAgree | src/hermes_attractor/use_cases/run_execution.py:376-689 | two histories with the branches' completions in either order end in the same context |
| FanInExamples.SecondMergeChanges | src/hermes_attractor/use_cases/run_execution.py:641-689 | a history in which delivering the last branch's completion twice ends in a different state than delivering it once |
| FanInExamples.SelfJoinLosesMerge | src/hermes_attractor/use_cases/run_execution.py:641-689 | two histories of a fan-in that is its own predecessor: uncut, the branch's x reaches the context; cut after the fan-in's row and run again, it does not |
| ToolExamples.ToolRunsTwice | src/hermes_attractor/use_cases/run_execution.py:690-794 | two histories of a valid pipeline with a counting tool: a completion delivered once leaves the count at 1, delivered twice at 2 |
| StallExample.JoinReopensAndStalls | src/hermes_attractor/domain/run.py:60-68 | a history of a valid pipeline in which a finished join is dispatched again under its old card, every card has been completed and the run stays RUNNING |

## Left out

- The guard's tokeniser: a condition is its length and its tokens, or no tokens when tokenising fails; word boundaries are inside that.
- Numbers are reals: float rounding, infinities and NaN are not modelled.
- DOT, JSON, SQL, YAML and git storage; timestamps, `root_task_id` and uuids: a launch takes a fresh safe run id.
- The board's task ids: one id per idempotency key, so an id is modelled as its key's text; archived cards, card titles and the reason and body of a block are not modelled.
- Prompt expansion: a card's body is its template with the context it is expanded on.
- `parent_node_ids` is a set, since a fan-in takes it from a Python set.
- Tool bodies are pure functions of name and context that do not raise.
- The stored pipeline of a spec id does not change while its runs are alive, as `reconcile.py:170` assumes.
- Two reconcilers at once: the code has no locking; one pass runs at a time, with crashes.
- The kind of an event: `advance_on_completion` does not read it.
- Status and result queries, health, authoring, provisioning, plugin wiring, the CLI and rendering: only easy members.
- Reconciling.BatchedIsFold: the proviso that no event becomes owned during the pass is sufficient; the exact condition is `BatchSize.BatchSizeIrrelevantExactly`.
- Reconciling.SecondPassSilent: one direction, with a proviso on the first pass; the exact condition, on the state after it, is `Replays.SecondPassExactly`.
- ReconcileTwice.OneRunTwice: the same proviso; exactly when: `ReconcileTwice.SilentExactly`.
- ReconcileTwice.ReconcileIsIdempotent: the same proviso; exactly when: `ReconcileTwice.ReconcileAgainExactly`.
- Replays.LossExactly: with several batches the condition is on the state in which the event's batch is read, not on the state before the pass; `RecordedNothingLost` is a sufficient condition there.
- Resumption.InterruptedPassResumes: for passes that raise nothing and during which no logged event becomes the run's own; an event logged ahead of the completion that creates its row may be taken up by the resumed pass and not by the uncut one.
- Redelivery.FanInAgain: the second delivery is taken to select the same fan-in on the merged context, which `UnguardedEnters` shows for nodes without guards; any other selection is `AgainExactly`'s, with `UnselectedAgain` and `MovesOnAgain`.
- Redelivery.ToolAgain: the second delivery is taken to select the same TOOL; any other selection is `AgainExactly`'s.
- CrashReplay.CrashesConverge: crashes are at proper prefixes of the step's writes; a repetition after the whole step is `Redelivery`'s subject.
- FanInConfluence.CompletionOrderIrrelevant: for branches whose only edge leads unconditionally to the fan-in, ungated or retrying themselves.
- Choices.LabelFollowed: for nodes whose edges carry no guards; with guards it is `Choices.FollowsSelection` and `EdgeSelector.SelectByFields`.
- ReconcileProgress.ActiveRunsCatchUp: the row may have been dispatched again by a later write of the same pass; when a step does that is `Dispatches.ReopensExactly`.
