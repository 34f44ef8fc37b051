# Verified model of RAGFlow's workflow engine and protocol cores

This project models the parts of RAGFlow whose behaviour is hardest to see from reading one function, and proves
what they promise over whole runs.

**The workflow engine.** `Canvas.run` schedules components over a mutable path. One turn of its while loop announces
the entries from `idx` on, removes those whose inputs are not there, invokes the rest and post-processes them, which
appends successors by component kind. `Scheduler` says what a turn does as a function on states; `CanvasObject` is
the object itself, with the fields that the source updates, and each of its methods is proved to produce exactly the
state the function says; its methods for single components, messages and successors are the links of that refinement,
whose outcome are `Turn`, `Run` and the in-place check `CheckBatch`. Everything a component's own code does is a `World`: arbitrary functions of the memory, of the
component and of a tick that grows with every call, plus the moment from which the task is seen as canceled. A
theorem for all worlds is one for everything the components may do. The `_idx` of an item is the map `cursors`. `ran`
(the executed positions of the path) and `popped` (the entries removed by the dependency check) are records for the
proofs. On top of the scheduler:

- `FanOut`: what follows a component is all of its downstream, or all the branches chosen (`Sequences` says what it means
  to keep some elements of a sequence and no others).
- `TurnOutcome`: when a turn ends the run with an error, finishes it, asks the user, or goes on, and where the next run
  starts.
- `ComponentMeaning`: what single components leave behind, output by output.
- `DependencyOrder`: over any number of runs, executed entries come after everything they refer to.
- `EventBalance`: every `node_started` is matched by a `node_finished`, a waiting stream, or a removal.
- `Termination`: on acyclic workflows with one successor per component every run halts, within a bound computed from
  the graph. The rank of a state lists, from the outermost block inwards, the position of the block and the passes it
  has left.
- `SwallowedError` and `SwallowedErrorExample`: runs that do not halt, because a default value takes over the errors of
  an item that stalls.
- `IterationMap` and `BoundedLoop`: an iteration is a map over its array and a loop is a bounded while, shown by
  running the scheduler against direct definitions of both (`BodyChain` runs a chain of components as such).

**RAPTOR.** `Raptor` is the object that clusters and summarises chunks layer by layer; what the models answer, the
scores, the probabilities, cancellation and the order in which concurrent summaries finish are all arbitrary.
`SummaryTree` says what a tree of summaries is.

**Protocols and loops.** `McpSession` (request queue, worker, close), `ReActHistory` (message history and window),
`StreamRender` (streaming against one-shot rendering), `TableScan` and `SheetNames` (tables of a message and their
sheet names), `MarkdownBlocks` (block scanner), `WordWrap`, `MetaFilter`, `ImageStrip` and `Once`.

## Findings

The model follows the code. Where that differs from what one would expect, the difference is proved:

- The cursor of an iteration or loop item is never reset, so an iteration is a map exactly when its item's cursor is 0
  (`IterationMap.IterationIsMap`, for every cursor). Entered again after it has ended, it takes the last element once
  more before all others, and on an empty array it raises, which without a handler ends the run
  (`IterationMap.ReentryRepeatsLast`).
  Entered with a cursor above 0, as a failed or canceled run leaves it, it skips the elements before the cursor and
  collects once before the first pass. A loop entered again after it has ended has one pass more exactly when a fresh one
  would stop at its limit with the condition still false there (`BoundedLoop.ReentryHasOneMore`). One left by ExitLoop
  keeps the count it had (`BoundedLoop.EarlyExitKeepsCount`), so entered again it has at most the passes that the
  limit leaves (`BoundedLoop.CountedPassesAreLost`).
- An exception handler with a default value on an iteration item can keep a run going for ever: when the outputs of the
  iteration cannot be collected, the cursor stays and the body is entered again. What separates the runs that halt
  from those that need not is whether such an item ever stalls, that is, is visited, before it has ended, with an array
  that cannot be looked up or, after a pass, with an output to collect that is neither empty nor a list
  (`Termination.StallsExactly`). If none ever does, every run halts (`Termination.EveryRunHalts`); if one does and its
  body does not repair the output, the run never ends (`SwallowedError.SwallowedErrorNeverEnds`). One workflow shows
  both: where its body overwrites the output, its run goes on for ever from its start
  (`SwallowedErrorExample.WorkflowNeverEnds`), and in every environment that keeps the output empty or a list, its
  runs halt (`SwallowedErrorExample.HarmlessRunHalts`).
- In `evaluate_condition` the branch for truth values is never reached, since a truth value is an int: "is" and "is not"
  raise on it (`LoopConditions.BooleanTestsRaise`). On a missing value every operator but "empty" answers false, its
  opposite too, and so do all order comparisons with NaN (`LoopConditions.OppositesDisagree`).
- After a suspension the next run resumes at the last entry of the path, which is a form only when nothing but forms is
  pending; otherwise it begins anew behind what was pending (`TurnOutcome.ResumesAtForm`).
- A loop without conditions ends at once with "and", and only at its limit with "or" (`LoopConditions.ShouldEndMeaning`).
- `meta_filter` with "and" skips leading filters that match nothing, although its comment treats a missing key as no
  match. The result is the intersection of all filters exactly when the first filter selects something or no document
  is selected by all filters from the first on that selects any (`MetaFilter.AndIsIntersectionIff`, with an instance
  in `MetaFilter.LeadingEmptyFilterIsSkipped`).
- The word wrapper counts one character too many on its first line. It differs from ordinary greedy wrapping exactly
  when the first line of that has several words and fills the limit (`WordWrap.FirstLineIsShort`).
- Removing images is not idempotent: a dictionary whose `type` is a set passes the first time, which turns the set into
  a list, and raises the second time. It is idempotent exactly when no dictionary that is kept has a set with anything
  but images in it as its `type` (`ImageStrip.RemovedIsClean`, with an instance in `ImageStrip.SetTypeIsNotStable`).
- RAPTOR may return without a root: exactly when it tolerated an error on a layer of two chunks
  (`Raptor.Raptor.Call`, with an instance in `Raptor.RootlessPair`).
- Streaming a template succeeds on values on which rendering it at once raises (`StreamRender.StreamRefinesRender`, with an
  instance in `StreamRender.OpaqueOnlyStreams`).

## Model

| member | source | states |
|---|---|---|
| LoopConditions.OppositesDisagree | agent/component/loopitem.py:48-121 | An operator and its opposite raise on the same operands; where they do not, they answer oppositely, except that only the two emptiness operators do on a missing value, and that order comparisons with NaN are all false |
| LoopConditions.BooleanTestsRaise | agent/component/loopitem.py:85-93 | The operators offered for truth values raise on every truth value |
| LoopConditions.ShouldEndMeaning | agent/component/loopitem.py:123-155 | With "and" a loop ends iff every condition is true, with "or" iff some condition is; without conditions "and" ends it and "or" does not; it raises iff a test raises or the logic is neither |
| LoopConditions.TestMeaning | agent/component/loopitem.py:124-142 | A condition compares its variable, by its operator, with its constant or with another variable |
| LoopConditions.TestRaises | agent/component/loopitem.py:124-142 | A condition without variable or operator, with an unknown mode, or with a reference to nothing cannot be tested |
| LoopConditions.TextOperators | agent/component/loopitem.py:48-65 | On texts "contains", "start with" and "end with" are about a text put between, before and behind others; "is" is equality, "empty" length 0 |
| LoopConditions.SubstringMeaning | agent/component/loopitem.py:49-50 | The search for a text finds it exactly where it occurs |
| LoopConditions.TextAndOthers | agent/component/loopitem.py:48-65 | A text is not searched for anything but a text, and equals nothing else |
| LoopConditions.NumberOperators | agent/component/loopitem.py:67-83 | Numbers are compared as numbers, truth values as 1 and 0; no number is empty |
| LoopConditions.InfiniteOperators | agent/component/loopitem.py:67-83 | Every number lies between the infinities |
| LoopConditions.NumberAndOthers | agent/component/loopitem.py:67-83 | Ordering a number with anything else raises; it equals nothing else |
| LoopConditions.ListOperators | agent/component/loopitem.py:103-117 | A list contains what equals one of its elements, and equals a list with equal elements in the same places |
| LoopConditions.EqualityMeaning | agent/component/loopitem.py:48-117 | Values of different kinds are unequal, but for truth values and numbers; dictionaries are equal key by key |
| LoopConditions.OtherOperators | agent/component/loopitem.py:48-121 | What cannot be asked of a kind of value raises; a missing value answers every operator, "empty" with yes |
| LoopConditions.FalseValues | agent/canvas.py:572-581 | The values that count as false: nothing, false, zero, and the empty text, list and dictionary |
| CollationEffect.CollateFromEffect | agent/component/iterationitem.py:75-85 | Collecting from one component appends its value, once, to exactly the parent outputs that refer to it, and touches nothing else |
| CollationEffect.CollateAllEffect | agent/component/iterationitem.py:62-85 | A whole collation appends one value to each parent output that refers to a component of the block; other outputs, other components and their errors stay |
| CanvasObject.Canvas.constructor | agent/canvas.py:81-107 | A canvas before its first run, with the path of its description and all item cursors at 0 |
| CanvasObject.Canvas.OutputCollation | agent/component/iterationitem.py:62-85 | The two loops over components and outputs do what the collation function says, including where they raise half way |
| CanvasObject.Canvas.InvokeIterationItem | agent/component/iterationitem.py:35-60 | The new memory and cursor of an iteration item, for every cursor, array, parent and moment of cancellation |
| CanvasObject.Canvas.InvokeLoopItem | agent/component/loopitem.py:35-46 | The new memory and cursor of a loop item, for every cursor, limit and moment of cancellation |
| CanvasObject.Canvas.InvokeLoop | agent/component/loop.py:53-76 | The loop over the loop variables sets them in order, up to the first reference that raises |
| CanvasObject.Canvas.InvokeOne | agent/component/base.py:407-419 | One invocation of a component of any kind, errors recorded |
| CanvasObject.Canvas.MissesInput | agent/canvas.py:451-456 | An entry is held back iff some component it refers to is not before it and the path does not start with a user form |
| CanvasObject.Canvas.CheckBatch | agent/canvas.py:440-459 | Removing from the path while walking it keeps exactly the entries that a left-to-right pass keeps, each judged against what was kept before it, and schedules each once |
| CanvasObject.CheckOne | agent/canvas.py:446-459 | One entry of the check, removed or kept, leaves the same result to come |
| CanvasObject.Canvas.RunBatch | agent/canvas.py:422-469 | The state after the check and all invocations of a batch, taken in path order; a canceled batch raises before the check |
| CanvasObject.Canvas.Flush | agent/canvas.py:564-569 | The components at the front of `partials` that have finished streaming are reported, in order |
| CanvasObject.Canvas.SpeakEntry | agent/canvas.py:503-569 | A message is drained, its content stored, and waiting components are reported |
| CanvasObject.Canvas.ExtendThePath | agent/canvas.py:593-606 | The loop over the ids appends what ExtendPath says, which FanOut.ExtendMeaning pins down: every id that differs from the one it would follow, in order |
| CanvasObject.Canvas.AppendSuccessors | agent/canvas.py:608-621 | The successors of an entry by its kind: items that end or go on, chosen branches, block starts, early exits, back edges, downstream; FanOut says of each kind what all follows |
| CanvasObject.Canvas.PostEntry | agent/canvas.py:500-621 | Post-processing of one entry, from its message to its successors; TurnOutcome.ErrorIffFails says when it finds an error |
| CanvasObject.Canvas.SettleBatch | agent/canvas.py:623-653 | What follows a batch: the next batch, the end after an error, suspension on a user form, or the end of the workflow |
| CanvasObject.Canvas.Turn | agent/canvas.py:487-644 | One turn of the while loop is one step of the state machine, whatever the batch |
| CanvasObject.Canvas.Prepare | agent/canvas.py:375-417 | The start of a run: outputs are cleared, item cursors are not, "begin" is appended unless the path ends with a user form |
| CanvasObject.Canvas.Run | agent/canvas.py:369-653 | A run, cut after any number of turns, is as many steps of the state machine |
| FanOut.ExtendMeaning | agent/canvas.py:593-606 | Extending the path appends, in order, exactly the ids that differ from the entry they would follow |
| FanOut.ExtendHasAll | agent/canvas.py:593-606 | Afterwards every id is there from the former last entry on; when no id repeats the one before it, the path is the old one followed by all of them |
| FanOut.OrdinaryFansOut | agent/canvas.py:620-621 | A component of an ordinary kind that does not fail is followed by the whole of its downstream, parallel branches included |
| FanOut.ChoiceFansOut | agent/canvas.py:612-613 | A switch or a categorizer is followed by all the targets that it has chosen |
| FanOut.JumpFansOut | agent/canvas.py:573-576 | After a jump of an exception handler exactly its targets follow |
| FanOut.ItemFollows | agent/canvas.py:614-619 | A block is followed by its item, and so is the last component of its body |
| FanOut.LeavingFansOut | agent/canvas.py:608-617 | An item that has ended, or an early exit, is followed by the whole downstream of the block |
| FanOut.PostAllCompose | agent/canvas.py:500-621 | A batch is post-processed entry by entry, each on what the ones before it left |
| FanOut.BatchFansOut | agent/canvas.py:500-621 | After a batch the whole downstream of each ordinary entry that did not fail is in the path |
| TurnOutcome.ErrorIffFails | agent/canvas.py:571-582 | For a component of every kind: post-processing it leaves an error iff there was one, or the component reports one and its handler neither jumps nor has a default value |
| TurnOutcome.ErrorIffEntryFails | agent/canvas.py:571-582 | A batch leaves an error iff one of its entries fails like that |
| TurnOutcome.TurnFailsIff | agent/canvas.py:571-626 | A turn ends the run with an error iff a kept entry of its batch fails; then the path is cut where the batch began and the workflow is not reported as finished |
| TurnOutcome.TurnGoesOn | agent/canvas.py:626-653 | A turn without errors goes on with exactly the entries appended: none, and the workflow is finished and reported so; a form among them, and the user is asked; otherwise they are the next batch |
| TurnOutcome.OrdinaryRaisesIff | agent/canvas.py:503-621 | Post-processing a component of an ordinary kind raises iff it is a message whose content is no text, or the last of a body whose parent is no block |
| TurnOutcome.BlockRaisesIff | agent/canvas.py:614-617 | A block never raises; an early exit does iff it has no parent, or is the last of a body whose parent is no block |
| TurnOutcome.ChoiceRaisesIff | agent/canvas.py:612-613 | A switch or categorizer raises iff what it has chosen is neither a list of ids nor empty; after an empty choice nothing follows |
| TurnOutcome.ItemRaisesIff | agent/canvas.py:608-619 | An item that has ended raises iff it has no parent; that of an iteration that has not, iff it is the last of a body whose parent is no block |
| TurnOutcome.LoopItemRaisesIff | agent/component/loopitem.py:123-155 | The item of a loop that has not ended raises iff it has no loop or a condition of that cannot be tested |
| TurnOutcome.BlockIsReportedIff | agent/canvas.py:608-611 | A block is reported as finished once when one of its items ends, by its cursor or by a condition of the loop, and at no other time |
| TurnOutcome.FormsSplit | agent/canvas.py:628-640 | What is pending when the user is asked stays complete, forms first, each part in order |
| TurnOutcome.BatchIsAnnounced | agent/canvas.py:489-498 | Every entry of a batch is announced, in order, before any of it is invoked |
| TurnOutcome.StartMeaning | agent/canvas.py:375-412 | A run goes on at the last entry of the path iff that is named like a user form, else behind the path with "begin"; outputs are cleared, cursors kept |
| TurnOutcome.ResumesAtForm | agent/canvas.py:628-642 | Where forms, and only forms, are named like user forms: after a suspension the next run goes on without "begin" iff nothing but forms is pending |
| TurnOutcome.ResetMeaning | agent/canvas.py:130-133 | A reset forgets the path and every output, and no cursor |
| ComponentMeaning.InvokesAll | agent/canvas.py:440-469 | Every entry of a batch is invoked once, on what the ones before it left |
| ComponentMeaning.LookupMeaning | agent/canvas.py:191-206 | A reference to an output reads what was set last, the empty text when nothing was; it raises iff the component, or the global, is unknown |
| ComponentMeaning.InvokeMeaning | agent/component/base.py:407-419 | A component whose code is not modelled runs it once on the memory as it is; an early exit does nothing |
| ComponentMeaning.FailMeaning | agent/component/base.py:407-419 | An exception becomes an error, or with the method "comment" the default value becomes the result; nothing else changes |
| ComponentMeaning.CanceledMeaning | agent/component/base.py:396-405 | A canceled item or block reports an error and does nothing else |
| ComponentMeaning.CanceledLater | agent/component/iterationitem.py:35-60 | An item canceled at its second or third check reports an error and keeps its cursor, before it collects or behind that and before it hands out an element |
| ComponentMeaning.CanceledLoopItem | agent/component/loopitem.py:35-46 | The item of a loop canceled before it begins another pass reports an error and keeps its cursor |
| ComponentMeaning.ItemFailsWithout | agent/component/iterationitem.py:35-43 | An item without a block of its kind, or of an iteration whose array is not there, fails and keeps its cursor; where something else stands in place of the array, it fails and has ended |
| ComponentMeaning.StartMeaning | agent/component/iteration.py:52-57 | A body starts with the first item of its block's kind among the components, or with nothing |
| ComponentMeaning.IterationChecksArray | agent/component/iteration.py:59-65 | An iteration reports an error when what it iterates over is no array, and fails when it is not there |
| ComponentMeaning.SetOutMeaning | agent/component/base.py:458-461 | Setting an output changes that output and nothing else |
| ComponentMeaning.LoopVarsMeaning | agent/component/loop.py:53-76 | Entering a loop sets its variables one after the other, to their constants or to what the variables they refer to are at that time, up to the first that refers to nothing, at which the loop fails; nothing else changes |
| ComponentMeaning.FlushMeaning | agent/canvas.py:564-569 | The waiting components are reported from the front on, up to the first that still streams |
| ComponentMeaning.SpeakMeaning | agent/canvas.py:503-563 | A message sends its stream in full, and the text sent becomes its content; content that is no text raises |
| ComponentMeaning.SpeakReports | agent/canvas.py:564-569 | Every message reports the waiting components, whether its own content streams or not |
| ComponentMeaning.ReportMeaning | agent/canvas.py:584-591 | A component is reported as finished, or waits at the end of `partials` while it streams, or loses its content after an error; blocks are reported by their items |
| ComponentMeaning.FillUpMeaning | agent/canvas.py:410-411 | An id is named like a user form iff "userfillup" occurs in it, whatever its case |
| DependencyOrder.KeptAreReady | agent/canvas.py:451-456 | Every entry the check keeps is ready in the path as it stands after the check |
| DependencyOrder.KeptAndDropped | agent/canvas.py:440-459 | What is kept and what is removed make up the batch |
| DependencyOrder.KeptMeaning | agent/canvas.py:440-459 | The check keeps exactly the entries that may run when exactly those are kept, and removes the others, in order: entries that begin or are forms, or a path headed by a form, or inputs that are before the batch or kept before the entry |
| DependencyOrder.StepKeepsOrder | agent/canvas.py:487-644 | A turn keeps every executed entry satisfied, also when it suspends or cuts the path |
| DependencyOrder.DependenciesPrecedeUse | agent/canvas.py:440-459 | In every state reached over any number of runs, turns and resets, each executed entry other than Begin and UserFillUp has all it refers to earlier in the path, unless the path starts with a user form |
| EventBalance.PostOnePays | agent/canvas.py:583-591 | Post-processing an entry settles one announcement of its component and none of any other component outside Iteration and Loop |
| EventBalance.BatchCharges | agent/canvas.py:489-498 | Announcing and checking a batch leaves one open announcement for each entry kept |
| EventBalance.StartedIsAccountedFor | agent/canvas.py:487-591 | At every batch boundary of every run, for each component other than Iteration and Loop, the started events are its finished events, its places in `partials` and its entries removed by the check |
| SingleToken.SingleStep | agent/canvas.py:487-644 | With one pending entry a turn is: invoke it, post-process it, settle |
| SingleToken.BlockedStep | agent/canvas.py:446-459 | An entry that is unknown, not ready or canceled ends a run that has no other |
| SingleToken.FailedItemEnds | agent/canvas.py:571-582 | An item that fails ends the run, unless a handler takes over with a default value or a jump |
| Termination.ItemAdvances | agent/component/iterationitem.py:45-60 | An item that does not fail ends, or begins one more pass while the limit is not reached; no other cursor moves |
| Termination.ProceedIsLower | agent/canvas.py:618-621 | Downstream edges and back edges of body leaves lead to a lower rank |
| Termination.ItemSuccessorIsLower | agent/canvas.py:608-611 | After an item has ended or begun a pass its successor has a lower rank, a cursor of -1 included |
| Termination.StepIsLower | agent/canvas.py:483-626 | Every turn ends the run or moves its token to a lower rank |
| Termination.StallsExactly | agent/component/iterationitem.py:35-60 | An item of an iteration that has not ended makes no progress at a visit iff its array cannot be looked up or, after a pass, an output that collects from a component of the block is neither empty nor a list |
| Termination.EveryRunHalts | agent/canvas.py:483-644 | Every run of an acyclic workflow with bounded arrays and loops, in which no item whose errors a handler takes over stalls, halts, within a number of turns given by the graph, wherever the cursors stand at its start; default values, jumps of handlers along edges and cancellation included |
| Termination.ExecKeepsCursors | agent/component/iterationitem.py:31-60 | No cursor ever falls below -1, over any runs, turns and resets |
| Termination.EveryLaterRunHalts | agent/canvas.py:369-644 | So does every run of a canvas that has been through any runs, turns and resets before |
| CollationEffect.CollateAllRaisesIff | agent/component/iterationitem.py:62-85 | A collation raises iff an output that collects from a component of the block is neither empty nor a list |
| SwallowedError.SwallowedErrorNeverEnds | agent/component/iterationitem.py:45-48 | From one visit of an item that has begun a pass, with a default value for its errors and an output that is neither empty nor a list, the run never ends, if the body on its own neither fails nor repairs that output |
| SwallowedErrorExample.WorkflowNeverEnds | agent/component/base.py:407-419 | The run of a workflow of four components, from its start, whose body overwrites the output: it never ends, whether the default value is stored as a comment or not |
| SwallowedErrorExample.HarmlessRunHalts | agent/component/base.py:407-419 | The runs of the same workflow halt in every environment that leaves its array alone and its output empty or a list |
| BodyChain.PlainStep | agent/canvas.py:618-621 | A component that does not fail hands the token to its one successor, downstream or back to the item |
| BodyChain.BodyPass | agent/canvas.py:618-621 | A pass over a chain takes as many turns as the chain has components and leaves what running them one after the other leaves |
| IterationMap.OnePass | agent/component/iterationitem.py:45-60 | From one visit of the item to the next: one element handed out, the body run once, the cursor one further |
| IterationMap.Passes | agent/component/iterationitem.py:35-60 | After n undisturbed passes the body has run on n consecutive elements in order, and the path shows n rounds |
| IterationMap.IterationIsMap | agent/component/iterationitem.py:35-60 | For every cursor: the elements handed out in the run are those from the cursor on, the last one first when the item had ended; the body runs once for each, in order, and what follows is entered exactly once, or else an item that had ended meets an empty array and the run ends with an error. This is map, with as many collations as passes, iff the cursor is 0 |
| IterationMap.ReentryRepeatsLast | agent/component/iterationitem.py:50-60 | Entered again after it has ended, an iteration hands out the last element and then all of them; on an empty array the run ends with an error |
| IterationMap.PassSeesElement | agent/component/iterationitem.py:57-58 | What a pass reads as `item` and `index` |
| IterationMap.CollectedInOrder | agent/component/iterationitem.py:62-85 | For every cursor: each parent output that refers to a component of the block is extended by that component's values at the visits whose cursor is above 0, in order |
| IterationMap.IterationCollects | agent/component/iterationitem.py:35-88 | The whole run of an iteration with what it leaves: each parent output that refers to a component of the block holds, from a fresh item on, the list of that component's end-of-pass values, one for each element, in order; the body need only leave the array and these outputs alone |
| BoundedLoop.PassCountMeaning | agent/component/loopitem.py:35-46 | The reference while loop: the passes begun are those before which the limit is not reached and the condition is false, and the next one fails that test |
| BoundedLoop.VisitBegins | agent/component/loopitem.py:123-155 | A visit at which the limit is not reached and the condition is false sends the token into the body |
| BoundedLoop.LastVisit | agent/component/loopitem.py:123-155 | A visit at the limit, or at which the condition holds, enters the downstream of the loop once and leaves the cursor at -1 |
| BoundedLoop.OnePass | agent/component/loopitem.py:35-46 | From one visit of the item to the next: the body run once, the cursor one further |
| BoundedLoop.LoopIsBoundedWhile | agent/component/loopitem.py:35-155 | A loop runs its body as often as the reference while loop, hence at most as often as the limit leaves from the cursor it is entered with, and then enters what follows exactly once |
| BoundedLoop.EarlyExitKeepsCount | agent/canvas.py:616-617 | ExitLoop enters the downstream of its loop and changes no cursor |
| BoundedLoop.ReentryHasOneMore | agent/component/loopitem.py:40-46 | Entered with the cursor at -1, a loop has one pass more than a fresh one iff that stops at its limit with the condition still false; otherwise as many |
| BoundedLoop.CountedPassesAreLost | agent/component/loopitem.py:40-46 | Entered with k0 passes counted, it has as many passes as a fresh one but at most those the limit leaves |
| SummaryTree.RootReaches | rag/raptor.py:164-218 | From the single chunk of the last layer every chunk is reached |
| SummaryTree.ParentIsInNextLayer | rag/raptor.py:164-218 | A parent lies in the layer after that of its child and nowhere else |
| SummaryTree.ForestIsTree | rag/raptor.py:164-218 | Layers that summarise each other and end in one chunk form a tree: one parent for every chunk but the root, in the next layer |
| Raptor.AppendedSummarises | rag/raptor.py:195-210 | Summaries appended in any order of completion, one for each cluster, summarise the layer |
| Raptor.FirstArgMin | rag/raptor.py:109-109 | The first place of the least score, and an exception without scores |
| Raptor.FirstAbove | rag/raptor.py:192-193 | The first label above the threshold, and an exception when there is none |
| Raptor.FilteredMeaning | rag/raptor.py:115-115 | The leaves are exactly the chunks that have a text and an embedding, in order |
| Raptor.MembersIncrease | rag/raptor.py:197-197 | The members of a cluster are listed once each and in order |
| Raptor.TextsMeaning | rag/raptor.py:125-125 | The texts sent to the model are those of the chunks, one for each, in order |
| Raptor.Raptor.OptimalClusters | rag/raptor.py:99-110 | At least one cluster and fewer than the smaller of the maximum and the number of chunks; it raises when there is no such number |
| Raptor.Raptor.Label | rag/raptor.py:186-193 | One label below the number of clusters for every chunk, or an exception |
| Raptor.Raptor.Summarize | rag/raptor.py:119-162 | One task appends what the models make of exactly the texts of its chunks, each once and in order, or counts one error and appends nothing, or raises once the errors are too many |
| Raptor.Raptor.SummarizeClusters | rag/raptor.py:195-210 | For every order of completion: on return no error was counted and the new chunks summarise the layer, one for each cluster |
| Raptor.Raptor.SummarizePair | rag/raptor.py:169-177 | Two chunks become one summary, or an error is counted and none |
| Raptor.Raptor.SummarizeLayer | rag/raptor.py:165-216 | A pass makes a strictly smaller layer, with fewer chunks than the maximum of clusters |
| Raptor.Raptor.Climb | rag/raptor.py:164-218 | The loop ends; layers stay contiguous and cover the list, there is a label for every chunk below the last layer, and the size bound holds |
| Raptor.Raptor.Call | rag/raptor.py:112-218 | On return: the usable inputs, all of them and in order, come first, and every other chunk is what the models made of exactly the texts of its children, each once and in order; the layers cover the list and shrink to at most one chunk; the root is missing iff an error was counted; at most n + m(m-1)/2 chunks |
| Raptor.CallBuildsTree | rag/raptor.py:112-218 | What an error-free call returns from at least one usable chunk is a tree whose last chunk reaches every chunk |
| Raptor.RootlessPair | rag/raptor.py:169-177 | Two chunks whose summary fails, with two errors allowed: the call returns just these |
| McpSession.ApplyKeepsInv | common/mcp_tool_call_conn.py:122-158 | Every step of callers, worker and close keeps the queue a tail of the submissions and every task before it with one fate |
| McpSession.EveryTaskInOnePlace | common/mcp_tool_call_conn.py:122-165 | In every interleaving a submitted task is queued, in hand, answered or lost, exactly one of them, and gets at most one reply |
| McpSession.RepliesFollowSubmission | common/mcp_tool_call_conn.py:122-158 | The worker replies in the order of submission |
| McpSession.NothingQueuedAfterDrain | common/mcp_tool_call_conn.py:227-243 | After the drain of close nothing is queued any more |
| McpSession.AtMostOneMoreTask | common/mcp_tool_call_conn.py:122-130 | After close the worker takes at most one more task, none unless it was already waiting, and no task is submitted |
| McpSession.DrainTellsTheQueued | common/mcp_tool_call_conn.py:233-243 | The drain gives the closing reply to exactly the queued tasks |
| McpSession.EventMeaning | common/mcp_tool_call_conn.py:122-158 | A task hears the reply that the worker has for it when the worker has it in hand, or the closing reply when it is drained, and nothing else |
| McpSession.WorkerMeaning | common/mcp_tool_call_conn.py:122-158 | The worker leaves its loop iff it finds the session closed or is canceled; it waits only after finding it open, and holds the task from the front of the queue until it has replied or is canceled |
| McpSession.ReplyIsFinal | common/mcp_tool_call_conn.py:122-165 | Nothing that happens later changes a reply or adds to it |
| McpSession.MCPToolCallSession.Call | common/mcp_tool_call_conn.py:160-165 | A call is queued with a reply queue of its own unless the session is closed |
| McpSession.MCPToolCallSession.Close | common/mcp_tool_call_conn.py:227-243 | Closing sets the flag and drains the queue; closing again does nothing |
| ReActHistory.PlayKeepsProper | agent/component/agent_with_tools.py:379-415 | A round, normal or exceptional, adds exactly two messages and keeps the roles alternating |
| ReActHistory.RoundsKeepProper | agent/component/agent_with_tools.py:379-415 | After r rounds there are exactly 2r more messages and the roles still alternate |
| ReActHistory.WindowIsSubsequence | agent/component/agent_with_tools.py:334-336 | The window is a subsequence of at most 12 messages |
| ReActHistory.WindowAlternates | agent/component/agent_with_tools.py:334-336 | The window of an alternating history alternates iff nothing is cut or the history has an even length |
| ReActHistory.WindowMeaning | agent/component/agent_with_tools.py:334-336 | The window shows the whole history, or its first two and its last ten messages; it ends with the last message |
| ReActHistory.AppendUserMeaning | agent/component/agent_with_tools.py:370-374 | User content is added at the end of what has been said, in the last message or in one of its own; no other message changes |
| ReActHistory.WithPromptsMeaning | agent/component/agent_with_tools.py:320-333 | The schema, or else the citation guidelines of a short history, are added to the system message; nothing else changes |
| ReActHistory.PlayMeaning | agent/component/agent_with_tools.py:379-415 | A round adds the response of the model and a user message with the observation, the error, or the request for the final answer; earlier messages stay |
| ReActHistory.RoundsAreHeard | agent/component/agent_with_tools.py:379-415 | After r rounds the messages added are, in order, each response followed by its observation or error |
| ReActHistory.AskedEndsAsking | agent/component/agent_with_tools.py:398-402 | The window shown when an answer is complete ends with the prompt it was asked with |
| ReActHistory.FinalEndsAsking | agent/component/agent_with_tools.py:417-435 | So does the window of the forced final answer |
| ReActHistory.ShownEndAsking | agent/component/agent_with_tools.py:379-415 | Every window shown in any number of rounds ends with its prompt |
| ReActHistory.Agent.AppendUserContent | agent/component/agent_with_tools.py:370-374 | A user message at the end is extended by the content, otherwise one with the content is added |
| ReActHistory.Agent.Complete | agent/component/agent_with_tools.py:320-338 | The history after the final answer is asked for, and the window the model sees |
| ReActHistory.Agent.PlayRound | agent/component/agent_with_tools.py:379-415 | One turn of the round loop in all six ways it can go, and the window shown when the final answer is asked for |
| ReActHistory.Agent.React | agent/component/agent_with_tools.py:370-435 | The model is called at most max_rounds + 1 times; the history is that of the rounds; every window shown for a final answer, given or broken off, alternates and has at most 12 messages |
| ReActHistory.ShownAlternate | agent/component/agent_with_tools.py:334-336 | In any number of rounds only alternating windows are shown for final answers |
| SheetNames.CandidatesDiffer | agent/component/message.py:380-382 | Different counters give different names, even after truncation |
| SheetNames.CandidateMeaning | agent/component/message.py:380-382 | A candidate keeps as much of the start of the name as the limit allows and ends with an underscore and the counter |
| SheetNames.DecimalMeaning | agent/component/message.py:380-380 | The counter reads back as the number it was, without zeros in front |
| SheetNames.Pigeonhole | agent/component/message.py:379-382 | Names in use that include n candidates are at least n |
| SheetNames.UniqueName | agent/component/message.py:377-383 | The name itself or its first free candidate, after at most one candidate more than there are names in use |
| SheetNames.FreeNameFits | agent/component/message.py:380-381 | With fewer than 10^30 names in use a short name stays within 31 characters |
| SheetNames.AllocateNames | agent/component/message.py:374-384 | The names are pairwise distinct, a title nobody used before is kept, and names stay within the limit |
| TableScan.ScanStep | agent/component/message.py:298-352 | One line of the flag-driven scan takes from what is still to come exactly what it completes |
| TableScan.FindTables | agent/component/message.py:298-364 | The scan finds the tables that splitting at the ending lines gives, with rows, order and titles |
| TableScan.RowsLandOnce | agent/component/message.py:298-364 | Every row lands in exactly one table, in order, and no table is without rows |
| TableScan.OneTable | agent/component/message.py:310-325 | Lines none of which ends a table hold one table when there are rows among them, and none otherwise |
| TableScan.DividedTables | agent/component/message.py:327-352 | A line that ends a table divides the message: its tables are those before that line and those behind it, with the title pending there |
| TableScan.LeftSnoc | agent/component/message.py:302-322 | What title is pending: none behind a row, else that of the last line that looks like a title |
| TableScan.TitleTextMeaning | agent/component/message.py:309-309 | The text of a title stands behind all its leading "#" signs, without the spaces around it |
| TableScan.CleanMeaning | agent/component/message.py:336-336 | Cleaning works character by character: slashes become underscores, five other characters go, the rest stays |
| TableScan.SheetTitleMeaning | agent/component/message.py:333-338 | A short title without such characters is the name asked for; a long one counts up to the limit; a table without title asks for its number |
| TableScan.RowMeaning | agent/component/message.py:311-311 | A table row begins with a bar and has another one |
| TableScan.SeparatorMeaning | agent/component/message.py:313-315 | A separator line consists of bars, dashes, colons and blanks, and of nothing else |
| TableScan.TitlesIgnoreCase | agent/component/message.py:303-308 | Whether a line looks like a title does not depend on the case of its letters |
| TableScan.TitleMarks | agent/component/message.py:303-308 | "Table" or "#" in front, or a colon, make a title, except behind a leading bar |
| TableScan.FilledMeaning | agent/component/message.py:328-331 | Exactly the tables with contents are written, in order |
| TableScan.Titles | agent/component/message.py:328-339 | Tables with contents are numbered in order, and each asks for its cleaned title or its number |
| TableScan.SheetsFor | agent/component/message.py:285-384 | One sheet for each table with contents, named after it unless an earlier one took the name, or one for everything; names distinct and short |
| StreamRender.RenderOnce | agent/canvas.py:164-189 | The loop over the matches gives the template with every reference replaced, or raises |
| StreamRender.NextReplaced | agent/canvas.py:169-186 | One match is replaced by its value, or the whole rendering raises |
| StreamRender.Stream.Drain | agent/component/message.py:129-147 | A generator is sent in full, or up to the check that sees the cancellation |
| StreamRender.Stream.SendReference | agent/component/message.py:120-160 | The value of a reference is sent, from the cache if it is there; the cache stays correct |
| StreamRender.Stream.SendSpan | agent/component/message.py:113-160 | One match: the text before it and its value are sent, or a prefix of them when it is cut short |
| StreamRender.Stream.Run | agent/component/message.py:109-169 | What is sent is always a prefix of the full text; it is stored exactly when nothing canceled or raised, and then it is all of it |
| StreamRender.StreamRefinesRender | agent/component/message.py:109-169 | Rendering at once succeeds iff every referenced value is plain, and then gives the text of the uninterrupted stream, repeated references included |
| StreamRender.StreamedMeaning | agent/component/message.py:109-169 | The stream is made of its pieces in the order of the template: text, value, text, and so on; a value is its own text, or its chunks one after the other, at once or awaited |
| StreamRender.ConcatMeaning | agent/component/message.py:103-107 | Joined texts are put one behind the other |
| StreamRender.OpaqueOnlyStreams | agent/component/message.py:152-156 | A template with one value that has no JSON text streams, and raises when rendered at once |
| MarkdownBlocks.BlockUnique | agent/component/docs_generator.py:709-817 | At each position at most one block satisfies what the kinds of blocks demand |
| MarkdownBlocks.DivisionUnique | agent/component/docs_generator.py:709-817 | A text has only one division into such blocks |
| MarkdownBlocks.BeginsMeaning | agent/component/docs_generator.py:710-800 | What a line begins, each kind by a test of its own: headings of level 1 to 3 by as many "#" signs and a space, and so on; the order of the tests does not matter |
| MarkdownBlocks.NumberMeaning | agent/component/docs_generator.py:761-761 | A numbered line starts with digits, a dot and a space |
| MarkdownBlocks.SpecialMeaning | agent/component/docs_generator.py:821-830 | Any line that begins something else ends a paragraph, and so do lines with a "#" in front or a bar inside |
| MarkdownBlocks.NextBlock | agent/component/docs_generator.py:710-817 | The block at the cursor is what its kind demands, also where the cursor is set back |
| MarkdownBlocks.Scan | agent/component/docs_generator.py:709-819 | The scanner ends on every text and its blocks cover all lines in order, without gaps or overlaps |
| WordWrap.Wrap | agent/component/docs_generator.py:1081-1096 | The lines hold the words in order; each is within the limit or a single word, and takes every word that fits |
| WordWrap.WrappingUnique | agent/component/docs_generator.py:1081-1096 | There is only one such division of the words |
| WordWrap.FirstLineIsShort | agent/component/docs_generator.py:1093-1093 | The wrapper gives ordinary greedy wrapping iff the first line of that is a single word or leaves a character free |
| WordWrap.FullFirstLineIsDivided | agent/component/docs_generator.py:1080-1093 | A paragraph of 302 characters under the limit of 100: its first two words would fill the first line and are divided |
| MetaFilter.FilterOut | common/metadata_utils.py:45-139 | The documents of the matching entries and no others |
| MetaFilter.Apply | common/metadata_utils.py:141-159 | "or" is the union; "and" is the intersection of all filters from the first one that selects anything, and that of all filters iff none that matters is skipped; nothing is listed twice |
| MetaFilter.InMeaning | common/metadata_utils.py:150-156 | "and" selects a document iff every filter from the first that selects anything selects it |
| MetaFilter.InUnion | common/metadata_utils.py:157-158 | "or" selects a document iff some filter selects it |
| MetaFilter.EmptyStays | common/metadata_utils.py:153-156 | An intersection that has become empty stays empty |
| MetaFilter.AndIsIntersectionIff | common/metadata_utils.py:150-156 | "and" is the intersection of all filters iff the first filter selects something or no document is selected by all filters from the first on that selects any |
| MetaFilter.LeadingEmptyFilterIsSkipped | common/metadata_utils.py:150-151 | Two filters whose intersection is empty although "and" selects a document |
| ImageStrip.Collector.Walk | agent/component/llm.py:132-149 | The recursive walk appends exactly the images of the value, in order |
| ImageStrip.ImageMeaning | agent/component/llm.py:135-138 | A text is an image iff "data:image/" follows its leading spaces |
| ImageStrip.ExtractMeaning | agent/component/llm.py:132-149 | What is extracted: the stripped text of each image, item by item in order; of a dictionary what is under `content`, or without that key what is under any key |
| ImageStrip.RemovedEntirely | agent/component/llm.py:169-224 | Removal takes away altogether exactly images, and dictionaries that say they are images and hold one |
| ImageStrip.RemovedHasNoImages | agent/component/llm.py:169-224 | Nothing can be extracted from what removal leaves, for every value |
| ImageStrip.RemovedIsClean | agent/component/llm.py:169-224 | Removing again succeeds, and then changes nothing, iff no dictionary that is kept has a set with anything but images in it as its `type` |
| ImageStrip.SetTypeIsNotStable | agent/component/llm.py:199-212 | The dictionary {"type": {"x"}} becomes {"type": ["x"]}, on which removal raises |
| ImageStrip.RemovalKeepsLeaves | agent/component/llm.py:169-224 | Every scalar that is neither an image nor inside an image dictionary stays, in order and under the same keys; a part is dropped iff it holds none |
| ImageStrip.TypeAfterRemoval | agent/component/llm.py:210-222 | The `type` left in a stripped dictionary is the stripped type, or none when that is empty |
| Once.ApplyKeepsInv | common/misc_utils.py:94-104 | Every step of every caller keeps: one start at most, and the lock held while the function runs |
| Once.StartsAtMostOnce | common/misc_utils.py:94-104 | In every interleaving the function starts at most once |
| Once.EveryCallAgrees | common/misc_utils.py:94-104 | Calls return only after the function has ended, and all with its one result, or all with nothing when it raised |
| Once.OutcomeIsFinal | common/misc_utils.py:94-104 | The outcome of the function never changes |
| Once.OutcomeHappened | common/misc_utils.py:94-104 | The outcome is what the function returned, or raised, in the one call that ran it |
| Strings.StripMeaning | agent/component/docs_generator.py:710-710 | Stripping takes spaces off both ends and leaves none there |
| Strings.StripUnique | agent/component/docs_generator.py:710-710 | What stands between spaces and has none at its ends is what stripping leaves |
| Strings.LowerMeaning | agent/component/message.py:305-305 | Capitals become the small letters of the alphabet, everything else stays |

## Left out

- Event payloads, `thoughts()`, speech output, timing, logging, and the message, message_end and workflow_started
  events: only the kinds and components of the other events are kept.
- The workflow_finished event of a run that ends with a canceled component; the history, retrieval and memory lists.
- Webhook payloads, files and the conversation counter at the start of a run: the globals it leaves are a parameter, so
  that clearing globals in a reset is not modelled either.
- Nested paths in variable references and `set_variable_param_value`: a reference is a global or an output of a
  component; side effects of `get_input`.
- A reference of an iteration output that does not have the form component@variable, and an exception whose text is
  empty, which the code does not take for an error.
- CanvasObject.Canvas.RunBatch: the components of a batch run concurrently in the source; here they are invoked in the
  order of the path, one after the other, and a component that raises leaves what its oracle says.
- LoopConditions.OppositesDisagree: numbers are reals, infinities and NaN, without rounding; a NaN inside a list or
  dictionary equals itself, as one object does.
- CanvasObject.Canvas.Run: it is cut after a number of turns, since a run need not end; `Termination.EveryRunHalts`
  says when it does.
- Termination.EveryRunHalts: components with more than one successor, and handlers that jump elsewhere than along an edge
  or out of their block, are excluded; with them several tokens share the path, and a jump may go back.
- IterationMap.IterationIsMap: the body is a chain of plain components and messages that do not fail; nested blocks,
  switches and early exits inside the body are covered by the general theorems only.
- BoundedLoop.LoopIsBoundedWhile: as for iterations, the body is a chain of plain components and messages.
- Dimension reduction, mixture models, language and embedding models: their answers are arbitrary. Truncation of the
  texts to the token limit, and tasks still running after a call has raised.
- The matching of reference patterns: the matches are given as non-overlapping spans. Templates in Jinja syntax.
- Results of awaited values and stream chunks are strings.
- Parsing of table rows into data frames, writing of files, and the other output formats of a message.
- What `asyncio.wait_for` does inside, closing from another event loop, the timeouts of callers of an MCP session and the
  interpretation of its results.
- MetaFilter.FilterOut: the comparison of values is given as an answer for each entry, since it rebinds its operand
  as it walks and depends on the order of a dictionary.
- White space, digits and letter case beyond ASCII; inline formatting and the elements of the PDF.
- Sets are given in the order of one walk and dictionary keys are strings in `ImageStrip`.
- The deltas between `<think>` tags, `common/crypto_utils.py`, the admin client and all input and output.
