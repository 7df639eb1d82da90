# Verification of Spork's scheduler, loops and batching passes

Spork runs a loop sequentially and lets a heartbeat signal promote what is left
of it to parallel jobs, at any machine step.  A compiler pass then batches that
loop by K.  Neither half is correct alone: the handler must know how far a batch
may run ahead of the published progress, and the batched loop must tolerate a
bound that the handler shortens under it.  This project models both halves and
the in-place scan built on them, and proves that they keep the meaning of the
sequential program under every interleaving.

`dafny verify dfyconfig.toml` checks the whole project.  Proofs hide the
definitions they do not need, to keep each of them small for the solver.

## What is modelled

**The scheduler as a machine** (`Machine.dfy`).  A state holds all workers, each
with its call stack, slot chain, heartbeat tokens and job deque, and the job
table.  A step is one main-thread micro-step of one worker (load the bound, test
it, run a body, publish progress, commit or close a slot, read or write the token
counter, pop, join, wait, return), a whole handler call between two micro-steps,
or a steal from the far end of another worker's deque.  The slots of a worker are
the live frames of its stack, oldest first.  Work is a tree of tasks: a `Loop` is
`parfor_`, a `Fork` is `par` or `spork` (and, with its middle part, the shape of
`scan`'s join), a `Leaf` one iteration.  Accumulators are kept as trees of `binop`
applications, so that one run speaks for every monoid.  A loop step takes any
size up to the published factor; that covers the loop as written (factor 1) and
as batched (factor K).  The proofs build up from one frame (`FrameInvariant`) over
one stack (`StackInvariant`) and one worker (`WorkerInvariant`, `StepInvariant`,
`Stolen`) to the system (`SystemInvariant`).  On top stand `Theorems`, `Budget`,
`Progress`, `Termination` and `Completion`, `Tokens` and `Counters`, and
`Executions`, `JobPlaces` and `JobOwners`.

**The mutable objects.**  `Slots.dfy` is one thread's slot chain as linked objects
with stale `next` pointers, interrupted between any two writes; its pointer walk
is proved to be the machine's walk.  `Parfor.dfy` is one call of `parfor_` on
machine integers, its fields written by loop and handler.  `Scan.dfy` is the scan
over an array, with `Thirds.dfy` for its index arithmetic.

**The passes.**  `LoopIR.dfy` is a small loop language: basic blocks with PHI nodes
and one operand per predecessor, volatile loads and stores as events, one pure
body.  `FableRewrite`, `GemRewrite` and `TransplantRewrite` are the rewrites as
updates of blocks; `Fable`, `Gem`, `Transplant` and `OriginalLoop` show what the
resulting programs execute; `Batching` and `StepChain` show that this is the
original loop under any environment that follows the promotion protocol, and
`Pacing` how often and when they touch the two shared words.
`BatchGuard.dfy` is the fixed-width guard, `ValueGraph`, `Sink`, `SunkValues` and
`SinkRewrite` are the sinking of the snapshot limit, `Driver.dfy` the decision per
site.

Where the code and its comments disagree the model follows the code: the comment
at scheduler.hpp:84 says that promotion is innermost-first, but `promote_front`
(scheduler.hpp:274-282) promotes from the oldest slot on.

Parameters of the model rather than parts of it: the schedule, the heartbeats, the
choice of step sizes, the bodies, the monoid, the values read by volatile loads,
whether an allocation fails, and what LLVM's vectorizer makes of a probe.  The
work-stealing deque is a sequence, popped and pushed by its owner at one end and
stolen from at the other.

## Model

| member | source | states |
|---|---|---|
| Theorems.ResultIsSequential | parfor.hpp:68-147 | A run that delivers a result delivers, in every monoid, what the sequential program folds onto the starting accumulator, for every schedule, promotion, steal and mix of step sizes; commutativity is not needed. |
| Theorems.PopIsSynced | scheduler.hpp:100-125 | At every join the deque's near end is the job being joined, or the deque is empty and that job is finished or running on another worker, so the popped pointer may be discarded. |
| Theorems.SlotsInOrder | scheduler.hpp:83-91 | Promoted slots are a prefix of the chain; outside the commit-to-eager window tokens mean that every slot is promoted; at and below every waiting frame all live slots are promoted. |
| Theorems.LoopBounds | parfor.hpp:103-136 | progress <= i <= progress + factor and i <= loop_end <= j at every micro-step; a step in flight fits the current bound even if its test read an older one; the loop is left with i = loop_end. |
| Theorems.TokenShares | parfor.hpp:126-135 | A promotion pays one token; a fork's job gets the smaller half of the rest, a loop's r the larger half, l all that remains, and the worker keeps the other half only if there is no l. |
| Theorems.HandlerShortens | parfor.hpp:114-136 | A handler call touches neither the index nor the accumulator, only shortens the bound, to progress + factor, and puts exactly what it cuts off into jobs. |
| SystemInvariant.NextKeeps | scheduler.hpp:70-125 | Every micro-step, heartbeat and steal keeps the invariant of the whole system. |
| SystemInvariant.RunKeeps | scheduler.hpp:70-125 | The invariant of the whole system holds in every state of every run. |
| Progress.RunNeverStuck | scheduler.hpp:109-125 | As long as there is no result some worker can step: waiting on stolen jobs never deadlocks. |
| Completion.RunCompletes | scheduler.hpp:109-125 | Every run, whatever has been promoted and stolen so far, can be carried on to one that delivers the result. |
| Progress.RunnerIsYounger | scheduler.hpp:83-91 | Whoever runs a stolen job has a younger frame on top than the frame that waits for the job. |
| Termination.RunIsBounded | parfor.hpp:114-146 | Every run takes at most a number of steps fixed by the work alone, besides heartbeats, however often ranges are split. |
| Termination.MainStepPays | parfor.hpp:103-146 | Every main-thread micro-step lowers the potential of its worker. |
| Budget.RunBudget | scheduler.hpp:333-345 | Over all workers and whole runs: promotions done, tokens held and tokens of queued jobs never exceed 30 per handled heartbeat. |
| Budget.ReclaimCosts | scheduler.hpp:104-107 | Taking back a job's tokens creates none, whatever heartbeat lands between the read and the write of the counter. |
| Counters.ReclaimIsExact | scheduler.hpp:100-107 | In every run, from the pop of a job to its call without a heartbeat on the owner in between, the owner's tokens grow by exactly the job's tokens if it is a loop's l, and not at all if it is a loop's r or a fork's job. |
| Counters.RunCounts | scheduler.hpp:267-282 | The machine's counters are right: promotions are the flags raised, beats the handler calls not refused, over every run. |
| Counters.ThirtyPerBeat | scheduler.hpp:333-345 | Flags raised, tokens in the workers' counters and tokens of queued jobs never exceed 30 for each heartbeat handled. |
| Tokens.BeatFills | scheduler.hpp:333-345 | After a handled heartbeat the worker's tokens, those of the jobs it enqueued and the promotions it paid for make up exactly 30, and the oldest unpromoted slot has been promoted. |
| Tokens.EagerSpends | scheduler.hpp:285-300 | With tokens, eager promotion promotes an unpromoted slot, for one token, and keeps or hands to the new jobs every other one. |
| Tokens.EagerPromoteIsWalk | scheduler.hpp:285-300 | Eager promotion does to stack, tokens, deque and job table what a walk over the whole chain would do. |
| Tokens.MainTokens | scheduler.hpp:104-107 | No other main-thread step touches the token counter but the write of fast_clone, which leaves the value read before plus the job's tokens. |
| Tokens.StealEnabled | scheduler.hpp:109-125 | A steal is possible exactly for an idle or waiting worker without own jobs, from another worker with jobs. |
| Tokens.StealTakes | scheduler.hpp:70-77 | The thief takes the oldest job and holds exactly the tokens that came with it. |
| Tokens.StepSizes | parfor.hpp:108-112 | At its test a loop may take every step size up to the factor that fits the bound it loaded, and no other. |
| Budget.BeatWalkCosts | scheduler.hpp:333-345 | A handler call adds at most one heartbeat's tokens, and pays a token for each promotion. |
| Budget.BeatClamps | scheduler.hpp:341-344 | After a handled heartbeat a worker holds at most one heartbeat's tokens. |
| Executions.Conserved | parfor.hpp:103-147 | In every state the executions of an iteration so far and those still outstanding add up to the sequential program. |
| Executions.MainTodo | parfor.hpp:103-147 | A main-thread micro-step turns outstanding work into executions one for one. |
| Executions.VisitTodo | parfor.hpp:114-136 | A promotion moves work into jobs and loses or duplicates none. |
| JobOwners.ExactlyOnce | parfor.hpp:68-147 | When the result is there every iteration has been executed exactly as often as sequentially, and no call or queued job is left anywhere. |
| JobOwners.JobObjectsLive | parfor.hpp:76-92 | While a job is queued or running, the call frame in which its object lives is alive and has not joined it. |
| JobOwners.ResultIsLast | scheduler.hpp:109-125 | When the root call returns, all stacks and deques are empty. |
| JobPlaces.RunOnePlace | scheduler.hpp:93-125 | No job is ever in two places at once: in a deque, in its owner's hands, running, or finished. |
| JobPlaces.UnjoinedOnePlace | scheduler.hpp:93-125 | No job is lost: one that has been created and not yet joined is in exactly one of these places. |
| JobPlaces.NeverFinishedTwice | scheduler.hpp:70-77 | The assertion in operator() holds: a job that is run has not been finished before. |
| StepInvariant.DequeEnd | scheduler.hpp:100-115 | The job at the owner's end of a nonempty deque is the one the top frame joins next. |
| StepInvariant.MainStepKeeps | scheduler.hpp:93-125 | Each main-thread micro-step keeps the worker's invariant on stack, deque and tokens. |
| Stolen.WaitingBelow | scheduler.hpp:83-91 | At every wait, the live slots up to the waiting frame are promoted. |
| WorkerInvariant.HandlerKeeps | scheduler.hpp:274-282 | A walk of the chain between any two micro-steps keeps the worker's invariant. |
| WorkerInvariant.EagerIsWalk | scheduler.hpp:285-300 | When all older slots are promoted, a walk over the whole chain comes down to visiting the youngest slot. |
| StackInvariant.WalkPending | scheduler.hpp:274-282 | The jobs a walk enqueues are the youngest unjoined jobs of the stack, in order. |
| StackInvariant.WalkReachesBack | scheduler.hpp:274-282 | Tokens left over mean that the walk promoted every live slot. |
| StackInvariant.WalkKeepsPrefix | scheduler.hpp:274-282 | A walk keeps promoted slots in front of unpromoted ones. |
| StackInvariant.WalkTokens | scheduler.hpp:267-282 | Every token a walk takes pays for a promotion or travels with a job; no subtraction underflows. |
| FrameInvariant.PromoteKeepsFrame | parfor.hpp:114-136 | A promotion at any micro-step leaves index, accumulator and step in flight as they are and the frame's contributions complete. |
| FrameInvariant.PromoteJobs | parfor.hpp:126-135 | The jobs of a promotion match the frame's records and their tokens come out of the worker's without underflow. |
| FrameInvariant.PendWordOfSplit | parfor.hpp:121-135 | The two jobs cover what the loop gave up, in joining order l then r. |
| FrameInvariant.TestKeepsFrame | parfor.hpp:108-112 | A step that fits the bound that was loaded fits the bound as it is now. |
| FrameInvariant.LoopStepKeepsFrame | parfor.hpp:108-112 | Every micro-step of the loop keeps the protocol between loop and handler. |
| FrameInvariant.ReceiveKeepsFrame | parfor.hpp:137-146 | Adding a joined job's value to the accumulator settles exactly that job's contributions. |
| Tasks.EvalIsWord | parfor.hpp:26-39 | In a monoid the value of an accumulator depends only on the order of its contributions, not on the bracketing. |
| Tasks.SequentialWord | parfor.hpp:26-39 | The sequential program contributes its iterations in order after the starting accumulator. |
| Handler.SplitTiles | parfor.hpp:58-64 | The handler splits exactly when more than the factor is left; the parts tile the range in halves that differ by at most one, r is never empty, l only when a single iteration is left for both. |
| Handler.FixedSplitExact | parfor.hpp:114-136 | With j - i and the factor representable no operation of the handler wraps, and both jobs are strictly smaller ranges. |
| Handler.WideRangeNeverSplits | parfor.hpp:121-121 | Whenever what is left is not a representable number the difference wraps to a negative one: the handler takes the range for exhausted although it should split. |
| Handler.SplitExactIff | parfor.hpp:114-136 | A handler call decides and cuts as on unbounded integers if and only if what is left is representable. |
| Handler.RangeExactIff | parfor.hpp:68-121 | All handler calls over [i, j) are right if and only if j - i is representable: the condition a caller can check. |
| Handler.PublishedIndex | parfor.hpp:73-111 | An index published through a type at least as wide is read back unchanged. |
| Slots.Thread.PromoteFront | scheduler.hpp:274-282 | The pointer walk visits the live slots in creation order, stops only without tokens or at the back slot, never follows the back slot's stale next, and is the machine's walk. |
| Slots.Thread.HeartbeatHandler | scheduler.hpp:333-346 | On the slot chain the handler does what the machine's heartbeat does to the stack: tokens left, tokens of new jobs and promotions make up exactly 30, and the oldest unpromoted slot is promoted; while heartbeats are disabled it does nothing. |
| Slots.Thread.Visit | scheduler.hpp:274-282 | One turn of the walk promotes the slot unless it is promoted, and keeps the chain consistent. |
| Slots.Thread.Link | scheduler.hpp:244-252 | Writing the previous slot's next leaves the chain as it was: the new slot is not in it yet. |
| Slots.Thread.Commit | scheduler.hpp:244-252 | The write of the back pointer adds exactly the new slot, unpromoted, at the end. |
| Slots.Thread.PromoteBack | scheduler.hpp:291-297 | With heartbeats disabled, tokens mean that the back slot ends promoted, exactly once, and every token pays for that or stays with worker and jobs. |
| Slots.Thread.EagerPromote | scheduler.hpp:285-300 | With heartbeats anywhere in it, eager promotion entered with tokens ends with its slot promoted, keeps tokens only if every slot is promoted, and restores the disable flag. |
| Slots.Thread.Close | scheduler.hpp:260-265 | Closing removes exactly the back slot and returns whether its callback ever ran, also if a heartbeat comes in between. |
| Slots.Thread.WithPromHandler | scheduler.hpp:413-426 | For every placement of heartbeats and every nesting, the callback runs at most once, the result says whether it ran, and the chain is restored. |
| Parfor.Call | parfor.hpp:66-147 | On machine integers, under every interleaving of heartbeats and thieves and every mix of step sizes, the result is the sequential loop's, also where j - i is not representable and the handler cannot split yet. |
| Parfor.LoopFrame.Prom | parfor.hpp:114-136 | The handler's writes to loop_end and to the ranges of l and r tile what was left; a job is nonempty exactly when enqueued. |
| Parfor.LoopFrame.Loop | parfor.hpp:108-112 | The loop ends exactly at the current bound with the iterations before it folded into a. |
| Parfor.LoopFrame.TryDequeue | scheduler.hpp:100-102 | The pop returns the job being joined or nothing because it was stolen. |
| Parfor.LoopFrame.Joins | parfor.hpp:137-146 | The joins sync exactly the queued jobs, in reverse push order, and complete the fold. |
| Parfor.JoinJob | parfor.hpp:81-84 | A job's fold from the identity, added with binop, continues the sequential fold. |
| OriginalLoop.OriginalRun | fablepass/SporkUnrollPass.cpp:310-475 | The accepted loop executes as body, progress store, bound load and test, for every sequence of bounds read. |
| FableRewrite.Code.FormBatchedLoop | fablepass/SporkUnrollPass.cpp:1232-1399 | The seven groups of updates turn the original blocks into the batched ones, PHI by PHI. |
| FableRewrite.Code.FindLatch | fablepass/SporkUnrollPass.cpp:1322-1329 | The exit value past a failed guard is taken from the first header PHI whose latch input it is. |
| Fable.FableRun | fablepass/SporkUnrollPass.cpp:1223-1399 | The rewritten blocks execute whole batches while they fit the bound just loaded, then the cleanup loop, for every sequence of bounds. |
| Batching.FableKeepsMeaning | fablepass/SporkUnrollPass.cpp:1223-1399 | Entered below the bound and interrupted only as the protocol allows, the rewritten loop runs the original bodies on the same values in the same order and leaves with the same exit values as the original run uninterrupted to the bound where it stopped. |
| Batching.BatchedDoes | fablepass/SporkUnrollPass.cpp:33-35 | Under every legal shortening of the bound the batched loop ends exactly at the last bound it read. |
| Batching.LegalBatch | fablepass/SporkUnrollPass.cpp:33-35 | A batch whose guard passed on a fresh load stays within every bound the handler can set meanwhile. |
| Batching.LegalIff | parfor.hpp:114-136 | The environment the rewrites are proved against is the handler's: it never strikes, or once at any moment, finding more than the factor left beyond the published progress and setting the bound to progress + factor. |
| Pacing.FablePace | fablepass/SporkUnrollPass.cpp:33-35 | For every sequence of bounds the rewritten loop publishes exactly the index reached, runs no iteration at or past the bound last loaded, and none K or more ahead of the published progress. |
| Pacing.FableCounts | fablepass/SporkUnrollPass.cpp:1223-1399 | Not interrupted over n iterations it makes n / K + n % K progress stores, and two bound loads more. |
| Pacing.GemPace | gempass/SporkUnrollPass.cpp:493-624 | The clone chain keeps the same pace. |
| Pacing.GemCounts | gempass/SporkUnrollPass.cpp:493-624 | It makes the same numbers of stores and loads. |
| Pacing.TransplantPace | fablepass/SporkUnrollPass.cpp:1043-1094 | The transplanted chain keeps the same pace, whichever loops are skipped and whatever bounds are read. |
| Pacing.TransplantCounts | fablepass/SporkUnrollPass.cpp:1043-1094 | Not interrupted, each loop let in takes as many steps as fit; there is a store and a load for each step, a load for each failing guard up to a succeeding no-remainder test, and one for the snapshot. |
| Batching.ResumeIsExit | fablepass/SporkUnrollPass.cpp:459-470 | A loop left between two iterations hands over what it would have handed over after the last one. |
| GemRewrite.FormBatchedLoopWithCleanup | gempass/SporkUnrollPass.cpp:493-624 | Erasing intermediate checks and stores, guarding entry and last clone and appending the cleanup loop gives the batched blocks. |
| Gem.GemRun | gempass/SporkUnrollPass.cpp:493-624 | The rewritten clone chain executes as the same reference loop as the other pass's result. |
| Batching.GemKeepsMeaning | gempass/SporkUnrollPass.cpp:490-624 | The clone-chain rewrite preserves meaning in the same sense. |
| Batching.SameTraces | gempass/SporkUnrollPass.cpp:493-624 | On loops both passes accept, the results have identical loads, stores and iterations for every sequence of bounds read. |
| Batching.BothHalt | gempass/SporkUnrollPass.cpp:493-624 | Both rewritten loops reach their end, or the next load for which there is no bound. |
| TransplantRewrite.ReplacePastExit | fablepass/SporkUnrollPass.cpp:1051-1058 | Planning and sinking the limit on the value graph of its uses replaces exactly its uses past the exit by the real exit index: in the no-remainder test, the next loop's resume values and the returned values. |
| TransplantRewrite.RewriteStepLoop | fablepass/SporkUnrollPass.cpp:1043-1094 | A step loop gets a guard on entry and at its latch, a progress store, exit PHI inputs for the skipped case, and the real exit index where the limit was resumed from, returned or tested. |
| TransplantRewrite.RewriteProbe | fablepass/SporkUnrollPass.cpp:1122-1123 | Rewriting every step loop of the probe gives the protocol's chain. |
| TransplantRewrite.FromPreheader | fablepass/SporkUnrollPass.cpp:1081-1092 | An exit PHI of a skipped loop takes the induction's entry value, an outside value as it is, or else the entry value of the last header PHI with that latch value. |
| Transplant.TransplantRun | fablepass/SporkUnrollPass.cpp:1043-1094 | The rewritten chain executes its stages as stated, whichever loops the snapshot tests skip. |
| StepChain.ChainDoes | fablepass/SporkUnrollPass.cpp:1043-1094 | From any resume point the chain runs every iteration below the bound where it stops; a succeeding no-remainder test on the real exit index leaves nothing below the current bound. |
| StepChain.TransplantKeepsMeaning | fablepass/SporkUnrollPass.cpp:1099-1195 | The transplanted chain has the iterations and exit values of the original run uninterrupted to the bound where it stopped, provided that header PHIs sharing a latch value start with the same value or the first loop the snapshot tests let in has room for a step below the snapshot. |
| StepChain.MeaningNeedsRoom | fablepass/SporkUnrollPass.cpp:1081-1092 | That condition is exact: any legal run of the chain that is a run of the original loop meets it. |
| Transplant.FallbackSettles | fablepass/SporkUnrollPass.cpp:1081-1092 | Whatever the resume values, those that leave a skipped loop agree wherever two PHIs share a latch value, and keep the index. |
| Transplant.SettledFallback | fablepass/SporkUnrollPass.cpp:1087-1090 | Once an iteration has run, leaving a skipped loop hands over the resume values unchanged, whichever PHI with a latch value is taken. |
| BatchGuard.GuardExact | fablepass/SporkUnrollPass.cpp:537-563 | With widening casts and count - 1 representable the guard holds exactly when base + count - 1 fits the index type and is below the bound. |
| BatchGuard.ExactIff | fablepass/SporkUnrollPass.cpp:547-561 | Without casts the guard is exact for all bases and bounds if and only if count - 1 fits the index type, or is all ones in an unsigned one. |
| BatchGuard.GuardIsTest | fablepass/SporkUnrollPass.cpp:537-563 | For a bound of the index type the guard is the plain test base + count - 1 < bound. |
| BatchGuard.GuardsAgree | gempass/SporkUnrollPass.cpp:402-432 | The second implementation, which adds also for a single iteration, is the same guard. |
| BatchGuard.ReplayKeepsNumber | fablepass/SporkUnrollPass.cpp:258-263 | A chain that widens as the predicate reads keeps the number. |
| BatchGuard.Capture | fablepass/SporkUnrollPass.cpp:243-256 | Capturing finds a chain exactly when the root is reached from the template through casts; it holds the casts passed, innermost first. |
| BatchGuard.CapturedIff | fablepass/SporkUnrollPass.cpp:243-256 | There is a chain if and only if following the arguments of casts from the template meets the root. |
| BatchGuard.CapturedCasts | fablepass/SporkUnrollPass.cpp:243-256 | A chain lists exactly the casts passed on the way to the root, the outermost last. |
| BatchGuard.ReplayCaptured | fablepass/SporkUnrollPass.cpp:240-264 | Replaying a captured chain on its root gives the original value. |
| ValueGraph.NeededIsReachable | fablepass/SporkUnrollPass.cpp:870-893 | A value is needed exactly when pure users lead from it to a use after the exit. |
| Sink.SinkPlan.Needs | fablepass/SporkUnrollPass.cpp:882-893 | The memoised search decides whether a value feeds a use after the exit, and records a failure exactly when it feeds memory, a call or a foreign user before it. |
| Sink.SinkPlan.Plan | fablepass/SporkUnrollPass.cpp:916-920 | The plan is accepted exactly when the limit cannot reach memory, a call or a foreign user before the exit. |
| SinkRewrite.ReplaceOrSinkPastExit | fablepass/SporkUnrollPass.cpp:925-955 | The worklist ends with every needed value cloned once, and exactly the after-exit uses and the clones redirected. |
| SinkRewrite.SinkLimit | fablepass/SporkUnrollPass.cpp:1056-1058 | An accepted limit is sunk completely; a limit is rejected exactly when a value computed from it reaches memory, a call or a foreign user before the exit. |
| SunkValues.RejectedIff | fablepass/SporkUnrollPass.cpp:895-920 | The search records a failure exactly when, before the exit, some value computed from the limit is used by a node that touches memory, has side effects or is no instruction. |
| SunkValues.SinkingIsRight | fablepass/SporkUnrollPass.cpp:923-955 | Every use after the exit evaluates as the original expression with the limit replaced by the real exit index; every other use keeps operand and value. |
| SunkValues.NeededIsMoved | fablepass/SporkUnrollPass.cpp:940-949 | Whatever comes from the limit before the exit and is needed after it has been sunk. |
| Driver.MeasureProbe | fablepass/SporkUnrollPass.cpp:578-609 | The batch is the largest over the probe's loops of the smallest constant step. |
| Driver.MatchStepLoop | fablepass/SporkUnrollPass.cpp:988-1005 | A step loop is accepted exactly when it has one integer induction, of the index type, with a positive constant step; that step is the one measured for it. |
| Driver.Rewrite | fablepass/SporkUnrollPass.cpp:1511-1516 | The loops left are the step loops of an understood probe, with their measured steps, or else the batch loop and its cleanup; none steps further than the batch. |
| Driver.CheckMarker | fablepass/SporkUnrollPass.cpp:1440-1507 | A marker is accepted exactly when its loops are recognised, share a progress slot and propose the same batch of at least two. |
| Driver.RunSite | fablepass/SporkUnrollPass.cpp:1435-1535 | A site's factor covers every loop left under it: the common batch when all loops agree, otherwise one with no loop changed. |
| Driver.Run | fablepass/SporkUnrollPass.cpp:1414-1561 | For every module: a site whose markers agree gets the common batch as its factor and its loops are the rewritten ones, any other site gets factor 1 and keeps its loops; the factor covers every loop left; each factor query is answered by its own site's factor, or 1 if there is no such site. |
| Driver.FactorQuery | fablepass/SporkUnrollPass.cpp:1545-1561 | A query is answered by exactly the factor of its site, and by 1 without a known site. |
| Thirds.CutShape | scan.hpp:68-79 | The handler of scan cuts exactly when ten elements are left beyond the progress: a fifth of what lies past the split point to the owner, two fifths from the end to the last part; all three parts have work, and the thirds recomputed after the loop are the handler's. |
| Thirds.FixedCutExact | scan.hpp:68-79 | With n + 5 representable the handler decides and cuts as on unbounded integers, also when n - prom is negative and wraps. |
| Thirds.Chunks | scan.hpp:33-41 | The chunks follow one another, none is empty, and the last one ends at n. |
| Thirds.FewChunks | scan.hpp:21-34 | There are at most n chunks and none is larger than n, which bounds the mutual recursion. |
| Thirds.FixedThirdsExact | scan.hpp:68-79 | Thirds of a range inside the array do not wrap. |
| Scan.ScanFrame.Prom | scan.hpp:119-130 | Promotion enqueues the middle part and shortens the bound to progress + 5 exactly when ten elements are left, at the fifths stated in numbers, and changes nothing otherwise. |
| Scan.ScanFrame.Loop | scan.hpp:104-118 | Under heartbeats anywhere in it the loop leaves the prefix scanned up to the index where it stopped, which is n or the split point. |
| Scan.ScanUpsweep | scan.hpp:28-49 | The partials are the prefixes of the segment at the chunk ends; there are none exactly when the allocation fails. |
| Scan.TotalsPrefix | scan.hpp:39-46 | Scanning the chunk totals gives the prefixes at the chunk ends. |
| Scan.ScanDownsweep | scan.hpp:51-66 | Scanning each chunk from the prefix before it, in any order, scans the whole segment. |
| Scan.Parts | scan.hpp:132-154 | The three parts of a promoted scan complete the prefixes, with the upsweep of the second part not stolen, or stolen and run before or after the first part is scanned. |
| Scan.Rest | scan.hpp:138-153 | Both ways of finishing, through the stolen upsweep's partials or by one more scan, complete the prefixes. |
| Scan.Scan | scan.hpp:83-154 | For every promotion point and every steal the array ends with the sequential inclusive prefixes onto the start value, and nothing else changes. |
| Scan.ScanOne | scan.hpp:114-117 | One iteration of the plain loop extends the scanned prefix by one. |

## Left out

- Machine: indices are offsets into the sequence of a call's iterations; literal machine indices are in `Parfor` and `Handler`.
- Machine: bodies may contain nested loops and forks but no shared memory of their own; side effects appear as executions of leaves.
- Machine: the weak memory model, signals, timers, errno and heartbeat statistics; a handler call is one atomic step and a heartbeat may hit any worker that has not disabled them.
- Machine: the frame of `scan`, which can be promoted without enqueuing a job; its handler, loop and join are in `Scan`.
- Machine: the capacity of the work-stealing deque, and exceptions in bodies or callbacks.
- Slots: the slot objects of closed calls are not reused for other data; only the links of the chain and the stale next of its back slot are of interest.
- Slots: the state a callback captures is a machine frame; what the body does to that frame meanwhile is in `Machine`.
- Parfor: a difference of indices that is not representable wraps around; for a signed index type C++ leaves it undefined.
- Parfor: jobs stolen from this call run at the point where they are joined; their real overlap is in `Machine`.
- The branch of `parfor` that cuts ranges above 2^32 - 1 into blocks: its test at parfor.hpp:190 compares `block` with a value it never reaches, so the blocks do not tile.
- `parfor_` called with i > j on unsigned indices, where `loop_end - ssi` wraps.
- `par` and `spork` as separate methods: both are the machine's `Fork`, which would only be restated.
- LoopIR: LLVM itself (dominators, scalar evolution, cost models, metadata, inlining) and the recognizers' syntactic checks; an accepted loop is a precondition, and its body is one pure operation.
- LoopIR: cast chains and widths of index and bound; they are in `BatchGuard`, whose `GuardIsTest` is the test used here.
- Transplant: vector lanes and reordering inside a step; a step of s is s iterations of the original body.
- Transplant: whether a snapshot test skips a loop is an arbitrary choice per run; that it lets in no loop without room for a first step is LLVM's minimum-iteration check and needed only where header PHIs share a latch value or have a loop-invariant one.
- Transplant: the last loop being scalar is a precondition on the probe.
- Transplant: values derived from the limit before the exit, which the rewrite clones; they are in `SinkRewrite` and `SunkValues`.
- BatchGuard: cast chains that truncate, or extend against the predicate's signedness, have no contract beyond `ReplayCaptured`.
- SinkRewrite: where the clones are placed inside the exit block; only their values are stated.
- Driver: two markers that denote the very same loop.
- Scan: the lifetime of the partials, which scan.hpp:65 frees before the read at scan.hpp:145 when the inner `par` is not promoted; they are an array that stays readable.
- Scan: the stolen upsweep runs as a whole, before or after the first part; it reads only the second part, which neither the loop nor the first part writes.
- Scan: chunks are processed in an arbitrary order, one after the other; they write disjoint parts.
- `scan_chunksize` computes its square root in floating point; the model takes the integer square root, which it is for the index types `scan` accepts.
- The experiments in `old/` and `pass/`, the benchmarks, the drivers and the scripts.
