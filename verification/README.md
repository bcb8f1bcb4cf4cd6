# llm-gent in Dafny

llm-gent runs agents as flows: trees of chains, branches, iterates, subflow calls and maps. A run can
be halted at almost any point, leaves a cursor at every level of its tree, and is rebuilt from those
cursors; a signal can cut a region of it short; its positions are commits of a history that several
writers may append to. This project models that engine and proves what its documentation promises.

| File | What it models |
|---|---|
| `FlowModel.dfy`, `Engine.dfy` | the tree, user code as deterministic functions, snapshots; the engine as a function from a configuration (saved entries, scopes, signals, calls made, halt) to an outcome and a configuration |
| `Reference.dfy`, `Laws.dfy` | plain evaluation of a tree: no halt, no cursors, no registry; what every structure, cut and saved position hands to user code and makes of its results |
| `Transparency.dfy`, `ResumedInputs.dfy`, `Moments.dfy`, `Halting.dfy`, `Progress.dfy`, `Sessions.dfy` | halting and resuming, at every structure, in every verb and over whole runs |
| `Shortcuts.dfy` | fast-forwarding as a fold of `conclude` steps; deferred inputs |
| `Runners.dfy`, `TopLevel.dfy` | the `Chain` and `IterateRunner` objects and the run's registry, updated in place, proved against the engine |
| `MapItems.dfy`, `MapScopes.dfy`, `MapHistories.dfy`, `MapRunners.dfy` | a scoped map: its concurrent items, checkpoints, failed saves, crashes and resumes as a transition system; what a checkpoint holds of an item and what led to it; the runner's code between two awaits |
| `Commits.dfy`, `CheckpointContexts.dfy` | the history: repository, writers with a cached head, compare-and-set, checkout |
| `FlowGraphs.dfy` | flow graphs with cycles: traversals, the check on shortcut regions, the regions a position is in |
| `NodeIds.dfy`, `Structures.dfy`, `StructurePaths.dfy`, `StructureIds.dfy` | node ids, the structure of a flow, its JSON, its steps by path, diffs |
| `CostTrackers.dfy`, `JsonCleaners.dfy`, `LoopCaps.dfy` | hierarchical cost accounting, the JSON repair scanners, the caps of a paused turn |

Four things the code does that its documentation does not say, each stated exactly:

- An item of a map that fails while a *resumed* map merges it is reported as failed but leaves no record
  in the map's cursor, so a later resume runs its body again; `_map.py:60-61` and the map runner's
  description say a failed item is done. It happens exactly to the items that the snapshot the map was
  resumed from holds as completed and not yet merged (`MapItems.FailedUnrecordedExactly`), and it does
  happen (`MapItems.UnrecordedFailureHappens`).
- A resumed map does not ask the guard of an item whose scope its snapshot holds, since "the guard admitted
  it before the checkpoint" (`_map.py:376-378`). The guard had admitted it, unless the checkpoint was taken
  while the guard was being asked, or after it raised in a strict map
  (`MapHistories.AdmittedUnlessAsked`); then the resumed map runs the body of an item that no guard
  admitted (`MapHistories.UnadmittedItemRuns`, `MapHistories.RaisedItemRuns`).
- `Resume.checkout` promises that a writer committing between the checkout and the run's first commit
  is detected. That holds exactly when some commit of the line has state: else the code does not
  remember the head, and the run's first commit is appended on top of the other writer's
  (`CheckpointContexts.LateWriterDetected`; a run: `CheckpointContexts.LateWriterUndetected`).
- `_auto_close_json` appends the owed closers also when the text ends inside a quoted string, where they
  close nothing (`JsonCleaners.AutoCloseBalances`; a text: `JsonCleaners.AutoCloseFails`).

## Model

| member | source | states |
|---|---|---|
| Engine.RunFlow | llm_gent/flow/_chain.py:101-134 | a halted flow always leaves a cursor at its own path; whatever a run leaves that was not saved before is at or under its path; a run without a halt never halts |
| Engine.Walk | llm_gent/flow/_chain.py:136-173 | the same for a chain continued at any step, fast-forwarding included |
| Engine.MoveTo | llm_gent/flow/_chain.py:250-276 | a chain stopped past a completed step changes one saved entry, its own cursor: at the next step, with that result and with the input the step will get, or deferred exactly when a cut would skip it |
| Engine.RunNode | llm_gent/flow/_executor.py:97-132 | a step leaves entries only at and under its own path, and the scopes as many as they were |
| Engine.Enter | llm_gent/flow/_executor.py:313-368 | entering a block takes a saved scope exactly at its own path and touches no cursor |
| Engine.Loop | llm_gent/flow/_iterate.py:104-153 | an iterate's passes leave entries only under the iterate |
| Sessions.ResumeIsTransparent | llm_gent/flow/_chain.py:111-276 | any sequence of halts and resumes of a fresh run, each resumed with any arguments, gives the result, state and exact calls (verbs, `when`, `until`, projections, merges, each as often and in the same order) of plain evaluation on the first call's input, and leaves nothing saved over |
| Sessions.ResumeIgnoresInput | llm_gent/flow/_chain.py:111-134 | what a halted run is resumed with changes nothing: it goes on from the checkpoint alone |
| Sessions.HaltsAreInvisible | llm_gent/flow/_resume.py:62-101 | the same from any checked-out snapshot, whatever entries it holds |
| Sessions.CheckpointSplitsTheRun | llm_gent/flow/_chain.py:223-256 | wherever a run stops, its calls are a prefix of the whole run's, and the resumed run, called with anything, makes exactly the rest |
| Sessions.EveryVerbSplitsTheRun | llm_gent/flow/_chain.py:183-185 | for every verb a run calls there is a halt that stops it in that verb, after exactly the calls before it; resumed from there it makes that call first, then exactly the others, to the same end |
| Moments.FlowStops | llm_gent/flow/_chain.py:175-221 | the same for a flow at any depth, started in any configuration |
| Moments.FlowLater | llm_gent/flow/_chain.py:223-256 | a halt set after everything a flow does changes nothing it does |
| Halting.NothingStartsAfterTheHalt | llm_gent/flow/_chain.py:223-256 | a halt set during any verb, which completes: the run has made the calls up to and with that verb, then starts no verb, `when` or scope: it only merges what completed, asks `until` on a completed pass and projects the input it stops at; it is done, or halted at a boundary |
| Halting.StopsPastStep | llm_gent/flow/_chain.py:239-276 | a step that completed with the halt set stops its chain before the next step, with the input that step will get |
| Halting.LastStepCompletes | llm_gent/flow/_chain.py:231-246 | a chain whose last step completed is complete, the halt set or not |
| Halting.StopsBeforePass | llm_gent/flow/_iterate.py:131-143 | an iterate with the halt set starts no pass: it is over when it had its last, else it stops at the pass it is at |
| ResumedInputs.ResumedIgnoresInput | llm_gent/flow/_executor.py:577-594 | a chain resumed at a step that had started, or past its first step, does not read its own input |
| ResumedInputs.FlowLeavesStarted | llm_gent/flow/_chain.py:81-99 | every halted chain leaves such a cursor |
| Sessions.CaptureRestores | llm_gent/flow/state/snapshot.py:280-307 | checking out a halt checkpoint gives back the configuration the run halted in, signals included |
| Transparency.RunFlowContinues | llm_gent/flow/_executor.py:270-310 | a flow halted in any configuration, run again from what it left, ends as if it had not halted |
| Transparency.WalkContinues | llm_gent/flow/_chain.py:136-173 | the same for a chain from any step, cursor and last result |
| Transparency.WalkStepContinues | llm_gent/flow/_chain.py:175-221 | the same from a step that is running: only that step repeats |
| Transparency.AfterStepContinues | llm_gent/flow/_chain.py:223-256 | the same from how a step ended: interrupted, completed with the halt set, or walked past |
| Transparency.MoveToContinues | llm_gent/flow/_chain.py:257-276 | a chain stopped before a step continues with the input it would have had, deferred or not |
| Transparency.NodeContinues | llm_gent/flow/_executor.py:97-132 | the same for every kind of step |
| Transparency.CallContinues | llm_gent/flow/_executor.py:270-347 | a halted subflow call takes its scope back and merges it once |
| Transparency.BranchContinues | llm_gent/flow/_executor.py:453-520 | a halted branch continues in the arm it took; `when` is not asked again |
| Transparency.IterateContinues | llm_gent/flow/_iterate.py:69-102 | a halted iterate continues its pass with its carried value and verdict |
| Transparency.LoopContinues | llm_gent/flow/_iterate.py:104-153 | the same from the top of any pass, also while the iterate fast-forwards |
| Transparency.AfterPassContinues | llm_gent/flow/_iterate.py:140-153 | the same from how a pass's body ended; `until` is asked once per completed pass |
| Laws.PassBoundaryResumes | llm_gent/flow/_iterate.py:109-115 | a checkpoint between two passes, taken after `until`'s verdict was recorded or before it was asked: resumed with anything, the iterate goes on exactly as it does |
| Laws.DoneStaysDone | llm_gent/flow/_iterate.py:126-129 | an iterate saved with the verdict that it is done yields its carried value, and calls nothing but its scope's projection and merge |
| Laws.UnansweredIsAsked | llm_gent/flow/_iterate.py:126-129 | one saved before `until` answered is asked once, on its carried value, before any pass |
| Laws.NotDoneGoesOn | llm_gent/flow/_iterate.py:126-153 | one saved as not done goes on with its pass, and `until` is not asked first |
| Laws.SavedArmIsTaken | llm_gent/flow/_executor.py:481-520 | a branch saved in an arm goes on in that arm, and `when` is not asked |
| Laws.StartedStepRunsAgain | llm_gent/flow/_chain.py:153-173 | a chain saved at a step that had started runs it again with the input it had, also under a cut |
| Laws.UnstartedStepRuns | llm_gent/flow/_chain.py:153-173 | one saved before a step goes on there: with the saved input, with the result before it when that was deferred and nothing is cut any more, and past the step under a cut unless it is `conclude` |
| Laws.LostStepFails | llm_gent/flow/_chain.py:111-134 | a chain whose saved step is gone fails and calls nothing |
| Laws.LiveHidesSaved | llm_gent/flow/state/snapshot.py:280-307 | a snapshot holds every untaken saved entry and every live one, the live one where both are |
| Reference.FreshFlow | llm_gent/flow/_chain.py:101-173 | with nothing saved under it, the engine computes plain evaluation, makes its calls and leaves every other saved entry alone |
| Reference.FreshIterate | llm_gent/flow/_iterate.py:69-153 | the same for an iterate: scope, passes, `until`, merge |
| Reference.FreshBranch | llm_gent/flow/_executor.py:453-520 | the same for a branch |
| Laws.FirstStepGetsInput | llm_gent/flow/_executor.py:577-594 | the first step is called with what the flow was, arguments and keywords, whatever its `project` |
| Laws.LaterStepGetsResult | llm_gent/flow/_executor.py:577-594 | a later step is called with the result before it alone |
| Laws.ProjectedStepGetsProjection | llm_gent/flow/_executor.py:577-594 | one with a `project` is called with what that makes of the result |
| Laws.ScopedCall | llm_gent/flow/_executor.py:270-368 | a call's scope is made of the parent's payload, the body works on it, and only a completed body is merged, parent first |
| Laws.ScopedIterate | llm_gent/flow/_iterate.py:69-89 | an iterate's scope is opened once around all its passes and merged once |
| Laws.BranchAsksOnce | llm_gent/flow/_executor.py:453-520 | `when` is asked once, on the first positional; the arm gets that value alone, and without an arm it is the result |
| Laws.OnePass | llm_gent/flow/_iterate.py:145-153 | a pass gets the carried value; `until` is asked once on its result, which ends the iterate or is carried on |
| Laws.NoMorePasses | llm_gent/flow/_iterate.py:131-144 | past the bound or under a cut no pass starts and the carried value is the result |
| Laws.SubflowPlace | llm_gent/flow/_node_id.py:187-198 | a subflow runs at its step's path and in a chain context of its own |
| Laws.PassPlace | llm_gent/flow/_iterate.py:142-153 | every pass runs at a path of its own, all in one chain context, with the carried value |
| Progress.FlowExtends | llm_gent/flow/_chain.py:136-221 | a run only adds to the calls made and to the signals set |
| Shortcuts.FlowIsCut | llm_gent/flow/_shortcut.py:9-24 | a flow in a region whose signal is set computes the fold of its `conclude` steps |
| Shortcuts.ChainIsCut | llm_gent/flow/_chain.py:279-288 | from the moment the signal is set, at any step, a chain ends as the fold of its remaining `conclude` steps over its last completed result, else its single input |
| Laws.CutFlowEndsWithInput | llm_gent/flow/_chain.py:279-288 | a flow cut from its start, without `conclude` steps, calls nothing and ends with its one positional value, with nothing on any other input |
| Laws.CutChainEndsWithLast | llm_gent/flow/_chain.py:279-288 | cut later, it ends with its last completed result |
| Laws.FirstConcludeGetsInput | llm_gent/flow/_chain.py:156-173 | the first `conclude` step of a cut flow is the next call made, with the flow's input or what the flow would have ended with |
| Laws.RegionCuts | llm_gent/flow/_shortcut.py:202-204 | what cuts a flow is what cuts the flow around it or its own shortcut's signal; a region that was left cuts nothing |
| Shortcuts.NodeIsCut | llm_gent/flow/_iterate.py:155-165 | under a cut an iterate starts no pass and yields its value; calls and branches cut what they enter |
| Shortcuts.EngineChainIsCut | llm_gent/flow/_chain.py:136-173 | the engine's chain does exactly that |
| Shortcuts.HaltedCutStaysCut | llm_gent/flow/_shortcut.py:164-182 | a run whose top-level region's signal is set, halted and resumed any number of times, goes on fast-forwarding, to the same result, state and calls |
| Shortcuts.HaltedChainStaysCut | llm_gent/flow/_chain.py:158-173 | so does any chain at any depth, whatever step the cut finds it at and whenever it is halted |
| Shortcuts.DeferredInputIsRecomputed | llm_gent/flow/_chain.py:158-173 | a cursor deferred by a cut, resumed with the signal unset, runs as the cursor a halt without the cut would have left |
| Runners.RunState.CloseUnder | llm_gent/flow/state/snapshot.py:244-256 | exactly the entries at and under the path go, of every kind; the others stay |
| Runners.OutsideDropsBelow | llm_gent/flow/state/snapshot.py:244-256 | of the registered entries those whose path begins with the closed one go, and no others |
| Runners.RunState.EnterScope | llm_gent/flow/_executor.py:350-368 | the scope is taken from the checkout or projected, and registered live |
| Runners.RunAsSubflow | llm_gent/flow/flow.py:1372-1450 | running a flow on the registry ends as the engine's function says, registry included |
| Runners.Chain.WalkAll | llm_gent/flow/_chain.py:101-134 | the chain object, from its saved cursor, refines the engine |
| Runners.Chain.WalkSteps | llm_gent/flow/_chain.py:136-173 | the `while` loop over `index` refines the recursive walk |
| Runners.Chain.Step | llm_gent/flow/_chain.py:175-195 | one step with its cursor registered while it runs |
| Runners.Chain.MoveTo | llm_gent/flow/_chain.py:257-276 | the cursor a stopped chain leaves in the registry |
| Runners.IterateRunner.Run | llm_gent/flow/_iterate.py:69-102 | the iterate object refines the engine, with its scope and cursor registered while it runs |
| Runners.IterateRunner.LoopPasses | llm_gent/flow/_iterate.py:104-153 | the `while True` loop over `iteration`, `carry`, `done` refines the recursive passes |
| Runners.TakeBranch | llm_gent/flow/_executor.py:453-520 | the branch with its arm registered while it runs |
| Runners.RunSubflow | llm_gent/flow/_executor.py:270-347 | the call with its scope registered while it runs, merged and dropped on completion, kept on a halt |
| TopLevel.RunOnce | llm_gent/flow/flow.py:1291-1310 | a halted run's commit is the configuration it halted in; when a verb stopped it, it is what a checkpoint inside that verb captured, before the halt was looked at |
| TopLevel.StopInVerb | llm_gent/flow/_chain.py:183-185 | the objects stopped in any verb of a run leave a commit that is the verb's own checkpoint and that any call resumes to the whole run |
| TopLevel.RunUntilDone | llm_gent/flow/flow.py:1291-1310 | a flow resumed after every halt, with any arguments, until it ends computes plain evaluation on the first input |
| MapItems.StepKeeps | llm_gent/flow/_map.py:432-500 | every step of a map, of any item or checkpoint, keeps it consistent |
| MapItems.AlwaysConsistent | llm_gent/flow/_map.py:210-239 | over all interleavings, failed saves, crashes and resumes from any earlier commit: the parent is the fold of merges over exactly the records that say merged, and every snapshot that can be resumed is consistent |
| MapItems.FinishedMapMergedOnce | llm_gent/flow/_map.py:444-466 | whenever the map finishes, the parent is the initial payload folded with exactly one merge per successful item, of the scope its body left |
| MapItems.SavedMergeFindsItsScope | llm_gent/flow/_map.py:353-371 | an item completed before a checkpoint finds its scope after it: its merge needs no second run of the body |
| MapScopes.ScopeIsLastWritten | llm_gent/flow/_map.py:308-340 | at every moment of a run a checkpoint holds an item's scope as its projection made it or its body last wrote it, from its start until it is merged, refused or failed: also when the halt, or its own failure in a strict map, stopped it |
| MapScopes.ResumedItemContinues | llm_gent/flow/_map.py:342-404 | an item that had such a scope and had not completed when a checkpoint was taken: resumed from it, whatever the others do, it continues with that scope, its guard is not asked and a cut does not skip it |
| MapScopes.MergesLastWrite | llm_gent/flow/_map.py:480-500 | what is merged of an item is what its body last wrote, into the parent as it is then, with its record in the same step |
| MapHistories.AdmittedUnlessAsked | llm_gent/flow/_map.py:373-390 | an item a checkpoint holds with a scope and not as completed was admitted by its guard exactly unless the checkpoint was taken while the guard was asked, or after it raised in a strict map |
| MapHistories.UnadmittedItemRuns | llm_gent/flow/_map.py:376-390 | a run in which a resumed map runs the body of an item whose guard had not answered |
| MapHistories.RaisedItemRuns | llm_gent/flow/_map.py:376-390 | and one whose guard had raised |
| MapHistories.ItemsEndByTheirSteps | llm_gent/flow/_map.py:273-292 | an item is over as completed only when its body returned that value, it was merged and, with a policy, saved; as skipped only by its guard or a cut; as failed only by its own failure; interrupted only by the halt |
| MapHistories.HaltStartsNoItem | llm_gent/flow/_map.py:322-323 | once the halt is set no waiting item starts or is recorded, whatever the others do |
| MapHistories.SignalStartsNoItem | llm_gent/flow/_map.py:324-328 | once a region's signal is set no item that had not started starts: it is skipped, or stopped by the halt |
| MapHistories.CutSurvivesResume | llm_gent/flow/_map.py:342-351 | a map resumed from a checkpoint taken under a cut skips the items that had not started, one resumed from a checkpoint taken before it starts them |
| MapHistories.SaveHoldsItsMerge | llm_gent/flow/_map.py:488-500 | the commit after a merge holds the parent with that merge and its record, whatever the others do until it is written, also when only its tag fails; a failed save leaves the parent as before the merge |
| MapHistories.SaveHoldsTheLock | llm_gent/flow/_map.py:488-500 | while a save is in flight no other item is merged, so a rollback takes back its own merge alone |
| MapItems.MergeKeeps | llm_gent/flow/_map.py:480-500 | merging an unmerged record's scope once, with its record, keeps the fold |
| MapItems.RollbackKeeps | llm_gent/flow/_map.py:468-474 | taking back the last merge with its record keeps the fold |
| MapItems.MergedSnapConsistent | llm_gent/flow/_map.py:488-500 | the save that follows a merge holds the merge with its record |
| MapItems.CutStartsNoItem | llm_gent/flow/_map.py:322-351 | once the map fast-forwards no item that had not started starts, whatever the others do |
| MapItems.FailedUnrecordedExactly | llm_gent/flow/_map.py:353-371 | over any run of a resumed map, a failed item is missing from the cursor exactly when the snapshot held it as completed and not merged |
| MapItems.UnrecordedFailureHappens | llm_gent/flow/_map.py:353-371 | a run in which a failed item is not recorded |
| MapRunners.MapRunner.Gather | llm_gent/flow/_map.py:210-239 | the runner's own code, its items resumed in any order with whatever their calls end with, follows the protocol step by step; when every item is over the parent holds exactly one merge per success, and every commit written can be resumed |
| MapRunners.MapRunner.ScopeIsSaved | llm_gent/flow/_map.py:360-365 | in the runner's code the scope of a completed, unmerged item is always there: the restart for a missing one never happens |
| MapRunners.GuardDecides | llm_gent/flow/_map.py:380-404 | in the runner only an item whose guard admits it reaches its body; a refused one is skipped and its scope dropped |
| MapRunners.BodyDecides | llm_gent/flow/_map.py:391-404 | a returned value completes the item, a raise fails it, the halt stops it with its scope |
| MapRunners.MergeDecides | llm_gent/flow/_map.py:444-500 | without the merge lock a completed item waits; with it the parent has its merge, or the item fails and the parent is as it was |
| MapRunners.SaveDecides | llm_gent/flow/_map.py:444-500 | a save that returns ends the item; one that raises takes its merge back, and the commit stays when only its tag did not move |
| Commits.AlwaysClosed | llm_gent/flow/_checkpoint_ctx.py:209-215 | whatever the writers do, every ref points into a complete history whose parents are older than their children, and nothing put goes away |
| Commits.StepCloses | llm_gent/flow/_checkpoint_ctx.py:282-297 | the same for one step of one writer, skipped puts included |
| Commits.NoLostCommits | llm_gent/flow/_checkpoint_ctx.py:198-215 | while nobody forks, HEAD's whole line stays the end of every later line, under any interleaving |
| Commits.HeadStaysOnLine | llm_gent/flow/_checkpoint_ctx.py:217-232 | a move of HEAD keeps the old head on the line exactly when the run's parent descends from it |
| Commits.HeadMoves | llm_gent/flow/_checkpoint_ctx.py:166-174 | HEAD moves only by an append of a writer that expects it where it is, onto that writer's parent: a run that fails before its first commit leaves it, also after `continue_from` |
| Commits.ContinuedAppend | llm_gent/flow/_checkpoint_ctx.py:217-232 | the first append of a run that continues from a commit is on that commit; after any steps of other writers it moves HEAD exactly when HEAD is the one the caller expected, or, when it named none, still the one it was |
| Commits.ReadAppend | llm_gent/flow/_checkpoint_ctx.py:198-215 | a run that read HEAD appends on it, and moves it exactly when it still is what it read |
| Commits.LaterAppend | llm_gent/flow/_checkpoint_ctx.py:209-215 | the next append is on the one before, unless HEAD left it meanwhile |
| Commits.NewRunReads | llm_gent/flow/_checkpoint_ctx.py:140-151 | a new run has forgotten the head and what was put before, whatever others did since |
| Commits.TagMoves | llm_gent/flow/_checkpoint_ctx.py:176-185 | a tag moves exactly when it still points where it did when it was read; else nothing changes |
| Commits.StaleWriterFails | llm_gent/flow/_checkpoint_ctx.py:166-174 | a writer with a stale head fails and changes no ref, no object and no cache |
| Commits.StaysBehind | llm_gent/flow/_checkpoint_ctx.py:234-245 | a writer that fell behind stays behind, and fails, until it reads HEAD again: HEAD never returns to a commit it left |
| Commits.LineStays | llm_gent/flow/history.py:120-130 | the chain of a commit never changes once it is put |
| CheckpointContexts.CheckpointContext.AppendCommit | llm_gent/flow/_checkpoint_ctx.py:198-215 | one append is its three store steps; it moves HEAD and the cache together or neither |
| CheckpointContexts.CheckpointContext.ContinueFrom | llm_gent/flow/_checkpoint_ctx.py:217-232 | the whole new cache: parent as named; head as the caller expects it, or, when it names none, HEAD as it is now |
| CheckpointContexts.CheckpointContext.PutSnapshot | llm_gent/flow/_checkpoint_ctx.py:155-160 | afterwards every object is put; those put before in the run are not put again |
| CheckpointContexts.CheckpointContext.CommitCompletion | llm_gent/flow/_resume.py:257-275 | HEAD and the `complete` tag move to the final commit, of the objects put, on the run's parent; with HEAD moved by another writer neither does, with the tag moved meanwhile HEAD alone does |
| CheckpointContexts.AppendIsItsSteps | llm_gent/flow/_checkpoint_ctx.py:209-215 | what the steps of an append leave, with a loaded head or not |
| CheckpointContexts.Checkout | llm_gent/flow/_resume.py:62-101 | restores the newest commit with state, having skipped exactly the stateless ones before it, and parents the run on the head it started from, which it also expects when another writer moves HEAD meanwhile; a history is found corrupt only at the commit the walk came to, and a closed one never |
| CheckpointContexts.CheckoutAt | llm_gent/flow/_resume.py:103-132 | the commit named by hash or tag, or exactly which error; the run is parented on it and HEAD expected where it is then, also when another writer moved it meanwhile |
| CheckpointContexts.LateWriterDetected | llm_gent/flow/_resume.py:77-101 | a commit between checkout and first append is detected exactly when the checkout restored a state |
| CheckpointContexts.LateWriterUndetected | llm_gent/flow/_resume.py:77-101 | a run in which it is not |
| NodeIds.IdsDistinct | llm_gent/flow/_node_id.py:98-118 | ids within a chain are pairwise distinct |
| NodeIds.EditKeepsStep | llm_gent/flow/_node_id.py:98-106 | inserting or removing steps with other keys keeps every other step's id, and its cursor is found at its new index |
| NodeIds.IndexOfOwn | llm_gent/flow/_chain.py:123-130 | looking a step's id up in its chain finds that step |
| NodeIds.ComputeNodeIds | llm_gent/flow/_node_id.py:119-126 | the loop over `seen` computes the ids by occurrence |
| NodeIds.IdsOfKey | llm_gent/flow/_node_id.py:119-126 | the occurrences of a key are exactly 0 up to its count |
| NodeIds.MemberKeysIgnoreOrder | llm_gent/flow/_node_id.py:168-184 | permuting a map's members permutes the same distinct keys |
| NodeIds.IdTextInjective | llm_gent/flow/_node_id.py:129-132 | different inputs are hashed as different texts, whatever the target holds |
| NodeIds.IdTextReads | llm_gent/flow/_node_id.py:129-132 | the text holds context, kind, occurrence in decimal and target, in that order |
| NodeIds.ContextTextApart | llm_gent/flow/_node_id.py:187-198 | no id is hashed from the text of a chain context |
| FlowGraphs.IterFlows | llm_gent/flow/_node_id.py:135-146 | every reachable flow once, the root first, on cyclic graphs too |
| FlowGraphs.InnerRegion | llm_gent/flow/_shortcut.py:130-144 | a flow under the region that declares its signal is found if and only if there is one, the region itself around a cycle included |
| FlowGraphs.CheckShortcuts | llm_gent/flow/_shortcut.py:94-127 | accepts exactly the trees whose signals are on the root, whose regions name one, and which nest no region in another on its signal |
| FlowGraphs.AcceptedExactly | llm_gent/flow/_shortcut.py:94-127 | what is accepted, in full: signals on the root alone, every shortcut names one, and no flow under a shortcut's declares one on its signal |
| FlowGraphs.OneRegionPerSignal | llm_gent/flow/_shortcut.py:114-127 | in an accepted tree no two flows on the way to a position make regions on one signal |
| FlowGraphs.RegionIsMade | llm_gent/flow/flow.py:1424-1438 | every region of a position is made by a flow on the way to it, and left exactly when it drains and an item was entered below it |
| FlowGraphs.MadeIsRegion | llm_gent/flow/_shortcut.py:239-245 | and every flow on the way that declares one makes it |
| FlowGraphs.DrainIsolation | llm_gent/flow/_shortcut.py:26-31 | inside a started map item, at any depth, a drain region above it changes nothing but that the position drains; other regions still cut it |
| FlowGraphs.FastForwardsExactly | llm_gent/flow/_shortcut.py:202-204 | when a position fast-forwards, as an if-and-only-if over the flows on the way to it |
| FlowGraphs.DrainsExactly | llm_gent/flow/_shortcut.py:207-209 | a position drains exactly when a draining flow on the way is cut and an item was started under it; with no signal set nothing is cut |
| FlowGraphs.ShortcutMakesRegion | llm_gent/flow/_shortcut.py:261-269 | in an accepted tree every shortcut on the way makes a region of the run's signal of that name |
| Structures.Of | llm_gent/flow/structure.py:207-221 | extraction ends on every finite graph, cyclic or not, with one step per node |
| Structures.StructureOf | llm_gent/flow/structure.py:207-221 | the loops over steps and children compute it |
| Structures.OfCanonical | llm_gent/flow/structure.py:207-221 | extracted occurrences follow from the order, at every level |
| Structures.ExtractedChild | llm_gent/flow/structure.py:207-221 | a step's child by a boundary is the flow it descends into, in full, or its depth on the way down when it is on it |
| Structures.JsonFormat | llm_gent/flow/structure.py:114-123 | what a commit records: per step its kind, target and children by boundary, a nested list or a cycle's depth |
| Structures.RoundTrip | llm_gent/flow/structure.py:97-123 | reading back what was written gives the structure exactly when its occurrences follow from its order |
| Structures.ExtractedRoundTrip | llm_gent/flow/structure.py:97-123 | so for every structure a flow has, cycle markers included |
| Structures.FromJson | llm_gent/flow/structure.py:97-112 | reads exactly the JSON that describes a structure, and fails on the rest |
| Structures.SameTextSameStructure | llm_gent/flow/structure.py:165-168 | the texts differ exactly when the structures do |
| StructurePaths.PathsUnique | llm_gent/flow/structure.py:134-138 | no two steps of a structure share a path |
| StructurePaths.PathFindsStep | llm_gent/flow/structure.py:134-138 | every step, wherever it sits, is the one its path leads to |
| StructurePaths.StepsByPath | llm_gent/flow/structure.py:134-138 | the collected paths are exactly those that lead to a step, each once, parents before children |
| StructurePaths.PathIndex.Collect | llm_gent/flow/structure.py:234-243 | adds exactly the steps under its prefix and changes no other |
| StructurePaths.DiffExact | llm_gent/flow/structure.py:178-191 | kept and added partition the new paths, kept and removed the old, each once; kept is in both |
| StructurePaths.SubtreesGoTogether | llm_gent/flow/structure.py:154-161 | paths are prefix-closed, and everything under a removed step is removed |
| StructureIds.SameStructureSameIds | llm_gent/flow/structure.py:14-19 | flows with equal structures give equal ids to every chain a run can descend into, in every map item and through cycles |
| StructureIds.StepIdIsPathId | llm_gent/flow/_map.py:415-423 | the id a run gives a step is a function of its path and of the items of the maps on the way |
| StructureIds.PathIdInjective | llm_gent/flow/_node_id.py:95-126 | different paths of a structure, or different items on the way, have different ids |
| StructureIds.StepIdsDistinct | llm_gent/flow/_node_id.py:107-112 | so across the tree no two steps of a run share an id, nor one step in two items of a map |
| CostTrackers.CostTracker.Track | llm_gent/core/cost/tracker.py:203-248 | the cost, the given one or the price, is recorded at exactly this tracker and those above it; at each, the latch and the halt fire exactly when its own spend goes from within its cap to it or over it; callbacks run top-down to the first that raises, and each of them, also one that raises, sees every level booked |
| CostTrackers.CostTracker.RecordCost | llm_gent/core/cost/tracker.py:325-355 | the same for the recursion up the parents, from any level of it |
| CostTrackers.TrackInLedger | llm_gent/core/cost/tracker.py:60-66 | conservation: for any trackers, spent equals what was tracked at or below, by op too, and equals the sum of its ops; trackers off the chain are untouched |
| CostTrackers.ChildInLedger | llm_gent/core/cost/tracker.py:179-201 | a new child accounts for everything tracked so far |
| CostTrackers.Session | llm_gent/core/cost/tracker.py:60-66 | after any sequence of usages tracked, children added and caps amended, every tracker of the tree holds exactly what was tracked at it or below it |
| CostTrackers.CostTracker.Restore | llm_gent/core/cost/tracker.py:293-323 | this level alone; spend over the cap latches and halts, spend under it takes neither back |
| CostTrackers.CostTracker.UpdateBudget | llm_gent/core/cost/tracker.py:250-270 | a cap at or under the spend neither latches nor halts; a cap that is not positive changes nothing |
| CostTrackers.LatchedIfEverExceeded | llm_gent/core/cost/tracker.py:343-351 | a tracker has latched exactly when its spend was over its cap after some record |
| CostTrackers.LatchedIfEverCrossed | llm_gent/core/cost/tracker.py:250-270 | over any records and amended caps a tracker latches exactly when some record crossed the cap it had then; one that is over its cap already does not latch again |
| CostTrackers.RecordChanges | llm_gent/core/cost/tracker.py:343-351 | a record adds to the spend and to its op alone, and latches exactly when it takes the spend from within the cap to it or over it |
| CostTrackers.CalledTopDown | llm_gent/core/cost/tracker.py:334-342 | callbacks are called from the root down, all of them or up to the first that raises |
| CostTrackers.SumAdds | llm_gent/core/cost/tracker.py:345-347 | booking a cost under an op adds it to the sum of the ops |
| JsonCleaners.ScanJsonStructure | llm_gent/core/llm/json_cleaner.py:302-330 | the loop computes the closers owed, as a fold over the text |
| JsonCleaners.OwesItsGroups | llm_gent/core/llm/json_cleaner.py:302-330 | of well-nested text cut off inside groups the scan yields exactly the closers of those groups, whatever strings and escapes it holds |
| JsonCleaners.WellNestedScans | llm_gent/core/llm/json_cleaner.py:302-330 | well-nested text owes nothing, wherever it stands outside a string |
| JsonCleaners.AutoCloseBalances | llm_gent/core/llm/json_cleaner.py:279-300 | appending the owed closers closes everything exactly when the text ends outside a string or owes none |
| JsonCleaners.AutoCloseFails | llm_gent/core/llm/json_cleaner.py:298-300 | a text whose closed form still owes a closer |
| JsonCleaners.ShortestClose | llm_gent/core/llm/json_cleaner.py:298-300 | nothing shorter closes everything, and outside a string nothing else as short |
| JsonCleaners.StrayIsPassedOver | llm_gent/core/llm/json_cleaner.py:322-328 | a closer that does not close the innermost open bracket closes nothing |
| JsonCleaners.AutoCloseJson | llm_gent/core/llm/json_cleaner.py:279-300 | valid or empty text is left alone; otherwise the result extends the text and, outside a string, is balanced |
| JsonCleaners.ReplaceEscapesOutsideStrings | llm_gent/core/llm/json_cleaner.py:208-236 | the scanning loop computes the replacement |
| JsonCleaners.FixedRepairsTokens | llm_gent/core/llm/json_cleaner.py:238-244 | the result read again is the content with exactly its literal `\n` and `\t` outside strings replaced |
| JsonCleaners.FixedIdempotent | llm_gent/core/llm/json_cleaner.py:208-244 | replacing escapes twice is replacing them once |
| JsonCleaners.FixedKeepsQuoted | llm_gent/core/llm/json_cleaner.py:188-196 | every quoted string is copied as it is |
| JsonCleaners.EscapeOutside | llm_gent/core/llm/json_cleaner.py:238-244 | outside strings a literal `\n` becomes a newline and `\t` a tab; any other escape stays |
| JsonCleaners.StringStays | llm_gent/core/llm/json_cleaner.py:214-230 | a quoted string stays as it is, escapes and all |
| JsonCleaners.FixedKeepsScan | llm_gent/core/llm/json_cleaner.py:181-186 | replacing escapes leaves the bracket scan that follows as it was, even where the two scanners disagree on what is quoted |
| LoopCaps.TurnBounded | llm_gent/flow/loop.py:598-615 | over n calls a turn uses at most its cap and one iteration for each later call |
| LoopCaps.BoundMet | llm_gent/flow/loop.py:603-606 | and a turn can use that many |
| LoopCaps.ContinuedCaps | llm_gent/flow/loop.py:598-615 | a continued call may use what its turn left of each cap, at least one; no cap stays no cap |

## Left out

- User code is deterministic and its exceptions other than an interrupt are not modelled in the tree; a step's `project=` is a function of the value alone.
- Rescue, `after`, `on_error` and `on_item_complete` hooks, deadlines, resources, traits and logging.
- Signals set from outside while no user code runs, and signals cleared; a signal is set during some call of the run.
- A verb that raises Interrupted while the halt is not set, and one that changes state before it raises.
- Loop turns and their cursors in the tree (`PausedTurn`, conversations, saved tasks): only their caps are modelled.
- Maps inside the sequential tree: a scoped map is a protocol of its own, whose item bodies are abstract. Unscoped maps have no merge; `max_concurrency`, `aggregate`, dynamic items and cancellation are not modelled, and a projection that suspends is one step; a guard counts as asked until its item's refusal is recorded, the hooks after it included.
- MapRunners.MapRunner.Gather: a merge is atomic, and only an item's own body writes its scope; the results the map returns are not collected.
- Flows in the engine are finite trees; flows that re-enter themselves are modelled in the graph and structure parts alone. An iterate that would pass a bound on its passes, arbitrary and the same with and without halts, ends as diverged.
- An iterate's pass counter, carried value and verdict are one cursor entry; the registry holds the cursors live runners report rather than references to the runners.
- Sessions.CaptureRestores: a snapshot holds values as they are; serialization of states, inputs and results is taken as faithful, and states that cannot be serialized appear only as commits without state.
- Sessions.EveryVerbSplitsTheRun: the checkpoint in a verb is the one taken as the verb is called; what a verb changes before it takes one is not modelled.
- Hashes are injective. Objects and trees are one set per commit; `prune`, `delete_history` and `gc_on_success`, which remove objects, are not steps of the history.
- CheckpointContexts.Checkout: of what other writers do while the history is read, only a move of HEAD is a parameter.
- CheckpointContexts.CheckpointContext.PutTag: of what other writers do between its read and its compare-and-set, only a move of the same tag is a parameter; in Commits anything can come between.
- `restart=`, `added_before`, `path_label`, the readable labels.
- Structures.FromJson: a `cycle` entry that is not a number is refused, where the code keeps whatever it finds.
- CostTrackers.CostTracker.RecordCost: callbacks are functions of cost and context that do not track costs themselves; reals stand for floats, so a cost is always finite. `restore_spent` and the `urgent_wrapup` setter are not modelled.
- The JSON decoder, code fences, extraction of one of several objects, and the unwrapping of parsed data.
- LoopCaps.TurnBounded: tokens are not bounded, since one call may use more than the cap it is left.
- Builders and their validation, factories, the bus, transports, the HTTP server, the CLI, databases.
