# Verification of the agent extensions

This project models the stateful cores of four extensions of a coding agent and proves what they
promise over every input, every run and every interleaving of events: the subagent manager
(`pi-subagents`), the routine extension (`pi-routines`), the orchestrator's plan tools
(`pi-orchestrator`) and the parsers, editors and limiters around them.

Asynchronous code is modelled as a state machine with one step for each stretch between two `await`
points. A class with the source's fields carries the imperative form; each of its methods is proved
equal to the step function it implements, and the theorems are lemmas about those functions and
about runs of them. `dafny verify dfyconfig.toml` checks everything.

## The parts

**Subagent scheduler** (`agent_state`, `agent_invariants`, `agent_drain`, `agent_safety`,
`agent_runs`, `agent_waiting`, `agent_outcomes`, `agent_manager`). One tagged queue serves a background and a foreground pool. A
suspended continuation is a `Task` that carries the pool it was charged to and the release callback it
still owes. The counters are always the number of charged continuations of each pool; every
release callback is queued, settling, or called, exactly one of these; the drain of the tagged queue
is two independent FIFO drains; and nobody is left marked as queued with nothing that would start it. A
stopped agent stays stopped except through one of four events (`StoppedStaysIff`), one of which is the end
of an inline resume.

**Handles** (`agent_names`, `agent_handles`). Live agents and tombstones share one namespace. It stays sound under
every operation but one: a mention by the id of an evicted agent finds the tombstone even while the
conversation is already reopened, and reopening it again gives two live agents the same handle
(`MentionByIdCanFork`). `ReopeningIsSafeIff` is the exact condition.

**Group join** (`group_join`, `group_awaited`, `group_windows`). Completions are held, joined, delivered, and stragglers
batched again. Every completion is passed back, delivered once, held, or displaced; `SupersededIff` says
exactly when it is displaced. A background resume can register an agent that an older live group still
lists. Nothing handed in is lost by that, but a group may then wait for a completion that never reaches it:
`ForgettingIff` names exactly the steps that cause it, and `ResumedAgentIsForgotten` is a run that does.

**Fire queue** (`fire_state`, `fire_invariants`, `fire_actions`, `fire_deferred`, `fire_teardown`,
`fire_catch_up`, `fire_steps`, `fire_turns`, `fire_runtime`). The bounded queue with its priority prefix, its mirror on disk, the drain coroutine,
the single-turn guard and the watchdog, under every event order. Each issued run id is in exactly one
place, and every fire was taken from the queue while the session was idle (`FiredWasTakenInQuiet`). A
deferred shutdown hook is in one place too, except after one kind of `agent_end` (`StepBreaksIff`), which a
session can reach and which runs the hook twice (`AHookCanRunTwice`). A teardown leaves the normal queue
in the mirror; events that still arrive keep it exactly when none of them passes the gates before the
queue or deletes a saved entry (`SavedQueueSurvivesIff`). The comment at `pi-routines/src/scheduler.ts:620-621`
promises that at session start the fires that came back win over the catch-up of missed slots; they do exactly
when the queue has room for both (`SurvivorsKeepTheirPlaceIff`, `SurvivorsAreDropped`).

**Fire budget** (`fire_budget`, `fire_life`, `tick_store`). The lifetime and daily caps and the run log
of one routine, as a life that every session of the fire queue projects to, restarts included. The caps
hold while the dates read do not go back; `CapHoldsIffSteady` is the exact condition on the clock. The
documented back-off on quiet ticks is never reached, because each start forgets the count
(`SilentRunsNeverBackOff`); the code is followed, the documentation at
`pi-routines/src/scheduler.ts:75-91` is not.

**Store and restart** (`json`, `store_sanitizer`, `store_written`, `store_refused`, `store_reload`,
`transcript_trim`, `rehydrate`). A file as the extension writes it is loaded back unchanged (`FileIsKept`). What a load keeps of
a stored file, when loading again changes nothing, and what a restart brings back of the queue. The
transcript trim is not idempotent in exactly one family of cuts (`TrimIdempotentIff`), so neither is
the load (`StoreStableIff`, with a store file in `StoreChangesAgain`); nothing else in the store changes on
a second load.

**Plans** (`phase_validation`, `plan_tools`, `plan_outcomes`, `plan_board`). The rule set as a catalogue of shapes, the
incremental validator against the atomic one, and the four tools over a task file. A running list
with an early review is accepted and can never be finished (`CompletableIff`).

**GitHub poller** (`github_poller`, `github_branches`, `github_events`). A cursor over a bounded page of a feed that only
grows; several branches polled together are as many pollers with one cursor each. Each event is handed on
once whatever its time, and in the order of arrival exactly when times follow the feed within each batch
(`EveryArrivalIsHandedOnce`); merging commits that were authored earlier is enough to change the order. Branches are polled by
their trimmed names and filtered by the names as written, so a filter works exactly when each name also
stands in it trimmed (`BranchFilterWorksIff`).

**Cron and intervals** (`cron`, `cron_sunday`, `interval_parser`, `interval_units`, `interval_dropped`, `text`,
`decimal`).
Fields denote the union of their parts; the search returns the least matching minute, except before the
epoch when the boundary it passes over matches (`NextFireIsLeastIff`). The comment at
`pi-routines/src/parser.ts:183` promises that 7 is Sunday; in ranges and steps it is not: "5-7" and "*/7"
are refused, "0-7" becomes Sunday alone and "7/2" every second day (`SevenIsSundayIff`). Interval texts
round-trip; a unit called `constructor` escapes the bounds (`BoundsFailIff`), and what a blank cuts off
from a number or a unit is dropped without a word (`AcceptedIsReadIff`).

**Front matter and rate limit** (`agent_file_toggle`, `toggle_forms`, `rate_limiter`). Enabling undoes disabling
exactly when the block had no `enabled: false` line; every window of a minute holds at most sixty
accepted requests while the clock does not go back, and `LimitHoldsIff` says which clocks do.

## Model

| member | source | states |
|---|---|---|
| AgentRuns.CountersAreInFlightRuns | pi-subagents/src/agent-manager.ts:694-741 | In every state any run can reach, each pool counter is exactly the number of suspended runs charged to that pool at their start, limit changes and resumes included; it never goes below zero. |
| AgentRuns.RunKeepsInv | pi-subagents/src/agent-manager.ts:968-986 | Any sequence of events keeps the whole invariant: counters, task records, queue entries, release callbacks, and drains owed. |
| AgentRuns.StepKeepsInv | pi-subagents/src/agent-manager.ts:666-741 | Each of the nineteen events, at any moment it can happen, keeps that invariant. |
| AgentRuns.OwnedAgentsNeverQueue | pi-subagents/src/agent-manager.ts:107-156 | A queued agent has no parent and belongs to no workflow, and its entry is tagged with the pool its record qualifies for. |
| AgentRuns.RoomMeansDrainOwed | pi-subagents/src/agent-manager.ts:736-741 | Between events an entry whose pool has room implies a failed startup that holds no slot any more and has yet to drain. |
| AgentRuns.EveryWaiterIsTracked | pi-subagents/src/agent-manager.ts:1016-1041 | Every release callback is in exactly one of three places: its entry is queued, its start is settling, or it was called, and it is called at most once. |
| AgentRuns.IdleMeansNobodyWaits | pi-subagents/src/agent-manager.ts:1078-1101 | When nothing is suspended any more the queue is empty, both counters are zero and every callback was called, so no caller waits for ever. |
| AgentRuns.StepStaysWithin | pi-subagents/src/agent-manager.ts:556-577 | Events other than a bypassing spawn or a limit set below the running count keep both pools within their limits. |
| AgentRuns.RunStaysWithin | pi-subagents/src/agent-manager.ts:474-478 | A run without such events never exceeds a limit. |
| AgentRuns.LimitKeptByDrain | pi-subagents/src/agent-manager.ts:1008-1027 | Draining changes no limit. |
| AgentRuns.AbortedSignalNeverQueues | pi-subagents/src/agent-manager.ts:595-607 | A spawn whose signal has already fired leaves the queue as it was and issues no callback. |
| AgentRuns.InitInv | pi-subagents/src/agent-manager.ts:418-430 | A new manager satisfies the invariant. |
| AgentWaiting.StepKeepsWaiting | pi-subagents/src/agent-manager.ts:556-577 | Every event keeps: a listed agent marked as queued has an entry in the queue, or its failed startup is yet to be reported. |
| AgentWaiting.QueuedAgentsAreExpected | pi-subagents/src/agent-manager.ts:556-577 | The same in every reachable state. |
| AgentWaiting.IdleMeansNobodyIsQueued | pi-subagents/src/agent-manager.ts:1008-1027 | When nothing is suspended any more no listed agent is marked as queued. |
| AgentOutcomes.HeldBackSpawnWaits | pi-subagents/src/agent-manager.ts:556-577 | A spawn whose pool is at its limit, without bypass, is the last entry of the queue, in its pool, with a callback of its own, and takes no slot; if its signal has fired it is stopped and not queued. |
| AgentOutcomes.OtherSpawnStarts | pi-subagents/src/agent-manager.ts:556-580 | Every other spawn joins no queue and starts at once: it takes the slot of its pool and awaits its copy or runs, or its bad directory is reported. |
| AgentOutcomes.TakenEntryStarts | pi-subagents/src/agent-manager.ts:1008-1027 | A turn of the drain starts a waiting agent, which takes a slot of the entry's pool and owes its callback; a stale entry's callback is called. |
| AgentOutcomes.DrainTouchesWaiting | pi-subagents/src/agent-manager.ts:1008-1027 | A drain changes the records of waiting agents only, and lists nobody new. |
| AgentOutcomes.ResumeWaitsOrRuns | pi-subagents/src/agent-manager.ts:1122-1167 | A background resume of an agent at rest is last in the queue when a top-level one finds the pool full, else runs with a slot; any other resume is refused and changes nothing. |
| AgentOutcomes.InlineResumeRuns | pi-subagents/src/agent-manager.ts:1169-1176 | An inline resume of a record with a session runs at once and takes no slot. |
| AgentOutcomes.CopyDecides | pi-subagents/src/agent-manager.ts:713-742 | A failed copy, and one that landed for a stopped run, give the slot back and go on as a failed startup and a discard; any other begins the run with the slot it was charged. |
| AgentOutcomes.RunEnds | pi-subagents/src/agent-manager.ts:930-937 | Each outcome leaves its own status, and a stopped agent stays stopped; the slot is kept. |
| AgentOutcomes.SettledRunFreesItsSlot | pi-subagents/src/agent-manager.ts:968-998 | After the clean-up the slot of the charged pool is free, exactly the listed children in flight are stopped, and the drain follows if a slot was held or the agent ran in the background. |
| AgentOutcomes.SettledResumeFreesItsSlot | pi-subagents/src/agent-manager.ts:1241-1266 | The same for a background resume, which always drains. |
| AgentOutcomes.InlineResumeEnds | pi-subagents/src/agent-manager.ts:1194-1210 | An inline resume ends completed or failed, even if its agent was stopped meanwhile. |
| AgentOutcomes.StartupIsReported | pi-subagents/src/agent-manager.ts:622-650 | A failed startup that nobody queued leaves the list; a queued one ends failed and its callback is still due; both drain. |
| AgentOutcomes.AbortStops | pi-subagents/src/agent-manager.ts:1407-1426 | An abort stops a listed agent that is queued or running, calls the callbacks of its entries, and gives no slot back. |
| AgentOutcomes.AbortAllStops | pi-subagents/src/agent-manager.ts:1508-1530 | Aborting everything stops exactly the listed agents that run or have an entry, and calls every callback. |
| AgentOutcomes.StoppedStaysIff | pi-subagents/src/agent-manager.ts:930-937 | An event un-stops an agent exactly when it is an accepted resume, the answer of an inline resume, or the report that its startup from the queue failed. |
| AgentOutcomes.StoppedEndsStopped | pi-subagents/src/agent-manager.ts:930-937 | So an agent stopped while it ran ends stopped over any run without such an event, whatever its run answers. |
| AgentOutcomes.LeavesTheListIff | pi-subagents/src/agent-manager.ts:1429-1443 | A listed agent leaves the list exactly when it is evicted at rest, its startup that nobody queued failed, or the manager is disposed. |
| AgentOutcomes.EvictedCannotResume | pi-subagents/src/agent-manager.ts:1429-1443 | An evicted agent is no longer listed, has no session, and no resume finds it. |
| AgentOutcomes.LimitsAreSet | pi-subagents/src/agent-manager.ts:433-450 | Limits become what was asked for, at least one in the background; zero or less lifts the foreground limit. |
| AgentOutcomes.SessionOpensResume | pi-subagents/src/agent-manager.ts:1111-1176 | A run that has opened its session can be resumed once it is at rest. |
| AgentOutcomes.DiscardedGoesOn | pi-subagents/src/agent-manager.ts:736-741 | Once the copy of a stopped run is gone its startup has resolved and the drain it owes runs. |
| AgentOutcomes.DueCallbackIsCalled | pi-subagents/src/agent-manager.ts:1025 | The callback of a settled start is called once. |
| AgentDrain.DrainRefinesTwoFifos | pi-subagents/src/agent-manager.ts:1008-1027 | For each pool, what the drain of the one tagged queue starts and leaves is what a FIFO queue of that pool alone would start and leave. |
| AgentDrain.FifoStartsTheFirst | pi-subagents/src/agent-manager.ts:1000-1007 | The reference drain starts exactly the first min(room, live entries) live entries, in order. |
| AgentDrain.FifoTakesAPrefix | pi-subagents/src/agent-manager.ts:1000-1007 | What the reference leaves is a suffix of its queue; the started entries come from the prefix, in order. |
| AgentDrain.DrainStartsTheFirst | pi-subagents/src/agent-manager.ts:1008-1027 | Per pool the drain starts exactly the first min(room, live) non-stale entries when no start fails at once. |
| AgentDrain.TakeOwnPool | pi-subagents/src/agent-manager.ts:1010-1016 | One turn of the drain loop is one step of the FIFO drain of the pool it served. |
| AgentDrain.TakeOtherPool | pi-subagents/src/agent-manager.ts:1010-1016 | The same turn changes nothing the other pool can see. |
| AgentDrain.DrainStaysWithin | pi-subagents/src/agent-manager.ts:1008-1027 | A drain that starts within the limits stays within them. |
| AgentDrain.DrainKeepsAll | pi-subagents/src/agent-manager.ts:736-741 | After a drain the full invariant holds again, whatever room there was before it. |
| AgentInvariants.DrainKeepsInv | pi-subagents/src/agent-manager.ts:1008-1027 | After a drain no entry has room in its pool. |
| AgentInvariants.TakeKeepsSound | pi-subagents/src/agent-manager.ts:1012-1025 | Starting or dropping one entry keeps records, counters and callbacks consistent. |
| AgentInvariants.StartAgentKeepsSound | pi-subagents/src/agent-manager.ts:694-703 | Starting an agent charges one pool and leaves one continuation that carries the charge. |
| AgentInvariants.StartResumeKeepsSound | pi-subagents/src/agent-manager.ts:1220-1232 | Starting a background resume keeps counters and callbacks consistent. |
| AgentInvariants.PopKeepsSound | pi-subagents/src/agent-manager.ts:1012 | Taking an entry out leaves exactly its own callback to be settled. |
| AgentInvariants.TicketsAfterDequeue | pi-subagents/src/agent-manager.ts:1034-1041 | Removing entries releases exactly the removed ones, once each. |
| AgentSafety.SpawnKeepsInv | pi-subagents/src/agent-manager.ts:489-578 | A spawn, queued, refused by its signal or started, keeps the invariant. |
| AgentSafety.SpawnStaysWithin | pi-subagents/src/agent-manager.ts:556-577 | A spawn that does not bypass the queue starts only within the limit. |
| AgentSafety.CopySettledKeepsInv | pi-subagents/src/agent-manager.ts:713-742 | The three answers to the awaited copy keep the invariant; a failed or stopped one gives its slot back. |
| AgentSafety.CopySettledStaysWithin | pi-subagents/src/agent-manager.ts:713-742 | None of them exceeds a limit. |
| AgentSafety.DiscardSettledKeepsInv | pi-subagents/src/agent-manager.ts:736-741 | After the copy of a stopped run is removed the owed drain runs. |
| AgentSafety.StartupSettledKeepsInv | pi-subagents/src/agent-manager.ts:622-650 | A startup that failed drops or marks its record, then drains, and still wakes its waiter. |
| AgentSafety.ReleaseFiredKeepsInv | pi-subagents/src/agent-manager.ts:1025 | The release after a settled start keeps the invariant. |
| AgentSafety.RunFinishedKeepsInv | pi-subagents/src/agent-manager.ts:934-937 | A finished run keeps its slot until its clean-up is over. |
| AgentSafety.RunSettledKeepsInv | pi-subagents/src/agent-manager.ts:968-986 | The settle gives back the pool charged at the start and drains. |
| AgentSafety.ResumeInBackgroundKeepsInv | pi-subagents/src/agent-manager.ts:1122-1167 | A background resume, queued or started, keeps the invariant, also on a stopped record whose run has not settled. |
| AgentSafety.ResumeChargeIsStable | pi-subagents/src/agent-manager.ts:1231-1263 | The pool recomputed when a resume settles is the one it was charged to. |
| AgentSafety.ResumeSettledKeepsInv | pi-subagents/src/agent-manager.ts:1253-1266 | The settle of a background resume keeps the invariant. |
| AgentSafety.ResumeInlineKeepsInv | pi-subagents/src/agent-manager.ts:1169-1176 | An inline resume of any record with a session keeps the invariant, stale queue entries included. |
| AgentSafety.InlineSettledKeepsInv | pi-subagents/src/agent-manager.ts:1194-1210 | So does its end. |
| AgentSafety.AbortKeepsInv | pi-subagents/src/agent-manager.ts:1407-1426 | An abort takes a queued agent out and releases it, or only marks a running one; no slot is given back twice. |
| AgentSafety.AbortOneChild | pi-subagents/src/agent-manager.ts:994-998 | Aborting owned children one at a time changes their statuses only, since none is queued. |
| AgentSafety.AbortAllKeepsInv | pi-subagents/src/agent-manager.ts:1508-1530 | Aborting everything empties the queue and keeps the invariant. |
| AgentSafety.EvictKeepsInv | pi-subagents/src/agent-manager.ts:1429-1443 | Evicting a settled record keeps the invariant. |
| AgentSafety.LimitsKeepInv | pi-subagents/src/agent-manager.ts:433-450 | Changing either limit mid-run keeps the invariant. |
| AgentSafety.DisposeKeepsInv | pi-subagents/src/agent-manager.ts:1557-1563 | Disposing releases every waiter and keeps the invariant. |
| AgentManagerClass.AgentManager.constructor | pi-subagents/src/agent-manager.ts:418-430 | A manager starts with nothing queued, running or registered. |
| AgentManagerClass.AgentManager.PoolFor | pi-subagents/src/agent-manager.ts:468-472 | Answers the pool a record is charged to under the current limits. |
| AgentManagerClass.AgentManager.PoolHasRoom | pi-subagents/src/agent-manager.ts:474-478 | Answers whether that pool has room; a foreground limit of zero is no limit. |
| AgentManagerClass.AgentManager.Spawn | pi-subagents/src/agent-manager.ts:489-578 | The new state is the spawn step: registered, then queued, refused or started. |
| AgentManagerClass.AgentManager.StartAgent | pi-subagents/src/agent-manager.ts:666-703 | Takes the slot before the copy is awaited, or fails at once on a bad directory. |
| AgentManagerClass.AgentManager.OnCopySettled | pi-subagents/src/agent-manager.ts:713-742 | Continues after the copy: reject, discard, or run. |
| AgentManagerClass.AgentManager.OnCopyDiscarded | pi-subagents/src/agent-manager.ts:737-741 | Drains after a discarded copy. |
| AgentManagerClass.AgentManager.OnStartupSettled | pi-subagents/src/agent-manager.ts:622-650 | Delivers the outcome of a startup and drains after a failure. |
| AgentManagerClass.AgentManager.OnReleaseDue | pi-subagents/src/agent-manager.ts:1025 | Calls the release callback of a started entry. |
| AgentManagerClass.AgentManager.OnRunFinished | pi-subagents/src/agent-manager.ts:930-937 | Records how a run ended; a stopped record stays stopped. |
| AgentManagerClass.AgentManager.OnRunSettled | pi-subagents/src/agent-manager.ts:968-986 | Gives the slot back, stops owned children, drains. |
| AgentManagerClass.AgentManager.DrainQueue | pi-subagents/src/agent-manager.ts:1008-1027 | The loop takes the earliest entry with room until none is left, and equals the drain function. |
| AgentManagerClass.AgentManager.Dequeue | pi-subagents/src/agent-manager.ts:1034-1041 | Keeps the entries not picked, in order, and releases the others in order. |
| AgentManagerClass.AgentManager.ResumeInBackground | pi-subagents/src/agent-manager.ts:1122-1167 | Refuses a record in flight, else queues or starts a resume. |
| AgentManagerClass.AgentManager.StartResume | pi-subagents/src/agent-manager.ts:1220-1232 | Charges the background pool for a resume that occupies a slot. |
| AgentManagerClass.AgentManager.OnResumeSettled | pi-subagents/src/agent-manager.ts:1253-1266 | Gives that slot back and drains. |
| AgentManagerClass.AgentManager.ResumeInline | pi-subagents/src/agent-manager.ts:1113-1175 | Marks a record running without a slot. |
| AgentManagerClass.AgentManager.OnInlineSettled | pi-subagents/src/agent-manager.ts:1194-1210 | Ends an inline resume. |
| AgentManagerClass.AgentManager.Abort | pi-subagents/src/agent-manager.ts:1407-1426 | Equals the abort step. |
| AgentManagerClass.AgentManager.AbortAll | pi-subagents/src/agent-manager.ts:1508-1530 | Stops queued and running agents and leaves an empty queue. |
| AgentManagerClass.AgentManager.AbortOwnedChildren | pi-subagents/src/agent-manager.ts:994-998 | The loop over a settled parent's children equals stopping them all. |
| AgentManagerClass.AgentManager.Evict | pi-subagents/src/agent-manager.ts:1429-1443 | Drops a settled record from the map. |
| AgentManagerClass.AgentManager.SetMaxConcurrent | pi-subagents/src/agent-manager.ts:433-437 | Floors the limit at one and drains. |
| AgentManagerClass.AgentManager.SetMaxConcurrentForeground | pi-subagents/src/agent-manager.ts:444-450 | Floors the limit at zero and drains. |
| AgentManagerClass.AgentManager.Dispose | pi-subagents/src/agent-manager.ts:1557-1563 | Releases everybody and forgets all agents. |
| AgentNames.HandleBase | pi-subagents/src/mention.ts:52-62 | A handle is a slug: at most 64 characters of the handle alphabet, no hyphen at either end. |
| AgentHandles.SlugIsItself | pi-subagents/src/mention.ts:52-62 | A text that is a slug already is its own slug. |
| AgentHandles.CaseDoesNotMatter | pi-subagents/src/mention.ts:53 | Texts that differ in case only have the same slug. |
| AgentHandles.RunsBecomeOneHyphen | pi-subagents/src/mention.ts:54 | A run of characters outside the alphabet, between characters of it or at an end, reads as one hyphen. |
| AgentHandles.OuterHyphensAreDropped | pi-subagents/src/mention.ts:55 | Hyphens around a slug are dropped. |
| AgentHandles.LongNamesAreCut | pi-subagents/src/mention.ts:56-58 | A longer text of the alphabet is cut at 64 characters, and only hyphens of the cut are dropped. |
| AgentHandles.NamelessIsAgent | pi-subagents/src/mention.ts:59 | A text with nothing else in it is called "agent". |
| AgentHandles.AlphabetIs | pi-subagents/src/mention.ts:52-62 | The handle alphabet by code point, and that a capital belongs to it once its case is gone. |
| AgentHandles.NumbersFromTwo | pi-subagents/src/mention.ts:67-75 | The numbered names are the base, then -2, -3 and so on; one name is reserved. |
| AgentHandles.FreeSlugIsGiven | pi-subagents/src/mention.ts:67-75 | A slug that is free is given as it is. |
| AgentHandles.HolderAnswers | pi-subagents/src/agent-manager.ts:1359-1372 | Whoever holds a name answers to it in any case, and nobody else does. |
| AgentHandles.OneMeaning | pi-subagents/src/agent-manager.ts:1359-1380 | In a sound namespace a name resolves to one thing only, the first tombstone where no live agent answers. |
| AgentHandles.ReopenedAnswers | pi-subagents/src/agent-manager.ts:500-516 | An agent reopened from a tombstone, whose handle no live agent holds, answers to the names the tombstone kept. |
| AgentHandles.SpawnedNameIsFound | pi-subagents/src/agent-manager.ts:545-551 | An agent spawned under a free slug is found under it. |
| AgentHandles.SpawnAndMention | pi-subagents/src/agent-manager.ts:545-551 | The same as one call after the other. |
| AgentHandles.BuriedUnderItsHandle | pi-subagents/src/agent-manager.ts:1451-1461 | An eviction leaves one tombstone under the handle, with id, alias, session file and time of the agent, and the others as they were. |
| AgentHandles.HundredAreKept | pi-subagents/src/agent-manager.ts:1464-1467 | Up to a hundred tombstones are kept. |
| AgentHandles.EvictedIsFoundAgain | pi-subagents/src/agent-manager.ts:1375-1380 | An evicted agent that can be reopened is found under its handle and its alias. |
| AgentNames.CandidateInjective | pi-subagents/src/mention.ts:67-75 | Numbered candidates of one base never coincide. |
| AgentNames.AssignHandle | pi-subagents/src/mention.ts:67-75 | The search ends with the first candidate that is neither taken nor reserved. |
| AgentNames.OneLiveAnswer | pi-subagents/src/agent-manager.ts:1359-1372 | In a sound namespace a mention has at most one live answer, whatever order the records are walked in. |
| AgentNames.ReopeningIsSafeIff | pi-subagents/src/agent-manager.ts:509-518 | Reopening a tombstone keeps the namespace sound if and only if no live agent holds its handle. |
| AgentNames.MentionByNameIsSafe | pi-subagents/src/agent-manager.ts:1375-1379 | A tombstone found by handle or alias is safe to reopen. |
| AgentNames.MentionByIdCanFork | pi-subagents/src/agent-manager.ts:1376 | A tombstone found by its old id may not be: after reopening it again two live agents share a handle. |
| AgentNames.TrimDropsTheOldest | pi-subagents/src/agent-manager.ts:1464-1467 | Trimming keeps only given tombstones and drops none younger than one it keeps. |
| AgentNames.TrimKeepsSound | pi-subagents/src/agent-manager.ts:1464-1467 | Trimming keeps the namespace sound. |
| AgentNames.BuryKeepsSound | pi-subagents/src/agent-manager.ts:1451-1461 | Eviction hands a record's names over to its tombstone without a clash. |
| AgentNames.FreshNamesKeepSound | pi-subagents/src/agent-manager.ts:545-551 | A spawn whose names nobody holds keeps the namespace sound. |
| AgentNames.NameTable.TakenHandles | pi-subagents/src/agent-manager.ts:1337-1351 | The set is exactly the handles and aliases of live agents and tombstones. |
| AgentNames.NameTable.Register | pi-subagents/src/agent-manager.ts:501-551 | A spawn takes the first free number of its type's slug as handle, and of its name's slug as alias; an owned one takes none. |
| AgentNames.NameTable.Reopen | pi-subagents/src/agent-manager.ts:513-518 | A reopening spawn takes its names back verbatim, and the table stays valid exactly when no live agent holds the handle. |
| AgentNames.NameTable.Evict | pi-subagents/src/agent-manager.ts:1429-1468 | An eviction buries what can be reopened, trims to one hundred, and keeps the table valid. |
| AgentNames.NameTable.DropTombstone | pi-subagents/src/agent-manager.ts:1392-1394 | Forgets the tombstone of a handle and keeps the table valid. |
| AgentNames.NameTable.ResolveMention | pi-subagents/src/agent-manager.ts:1359-1381 | Answers a live agent by name, then by id, then a tombstone, in that order. |
| GroupJoin.FullMeansEveryone | pi-subagents/src/group-join.ts:69 | The size comparison holds exactly when every remaining member has completed. |
| GroupJoin.FullDeliveryIff | pi-subagents/src/group-join.ts:66-72 | A full delivery happens exactly when the last remaining member completes, and holds the newest completion of each member. |
| GroupJoin.PartialDeliveryIsProper | pi-subagents/src/group-join.ts:85-108 | An expired timer delivers something and leaves someone; together they are the group. |
| GroupJoin.RegisterKeepsInv | pi-subagents/src/group-join.ts:38-50 | Registering a new batch keeps the invariant, whether or not its agents are in another live group. |
| GroupJoin.CompleteKeepsInv | pi-subagents/src/group-join.ts:59-83 | A completion keeps: completed members belong to their group, and the timer runs exactly while some are held. |
| GroupJoin.TimerKeepsInv | pi-subagents/src/group-join.ts:85-108 | So does an expired timer. |
| GroupJoin.RunKeepsGood | pi-subagents/src/group-join.ts:38-127 | Over any run, overlapping batches included: the invariant, conservation of completions and prompt deadlines. |
| GroupJoin.SupersededIff | pi-subagents/src/group-join.ts:66 | A completion is displaced exactly when its agent completes again, into the group that holds it, before that group delivers. |
| GroupJoin.EachCompletionOnceIff | pi-subagents/src/group-join.ts:59-118 | A completion handed in once is passed back, in exactly one delivery, or held by exactly one group, and only one of these, exactly when it was not displaced. |
| GroupJoin.SecondCompletionDisplaces | pi-subagents/src/group-join.ts:66 | An input for the failing half: of two completions of a held agent the first is lost. |
| GroupJoin.AgreementBreaksIff | pi-subagents/src/group-join.ts:47-49 | The two maps agree both ways, so that no agent is in two live groups, until exactly the moment an agent that a live group still lists is registered again. |
| GroupAwaited.AwaitedIff | pi-subagents/src/group-join.ts:59-72 | A completion reaches every live group that waits for its agent exactly while each of these groups is the one the agent is looked up in. |
| GroupAwaited.ForgettingIff | pi-subagents/src/group-join.ts:38-127 | That stops exactly at a registration of an agent some live group waits for, or at a delivery or a timer that takes out of the lookup an agent another group waits for. |
| GroupAwaited.WaitingGroupsAreServedIff | pi-subagents/src/group-join.ts:38-127 | Over any run from an empty manager it holds at every moment exactly when the run has no such step. |
| GroupAwaited.ResumedAgentIsForgotten | pi-subagents/src/group-join.ts:120-127 | A run from the empty manager with such a step: a held agent is registered again, the older group delivers, and each later completion of the agent is passed back although the newer group waits for it. |
| GroupWindows.NewBatchWaits | pi-subagents/src/group-join.ts:38-50 | A new batch waits for exactly its agents, takes their completions, and has no timer. |
| GroupWindows.HeldCompletionWaits | pi-subagents/src/group-join.ts:59-83 | A held completion joins in order of first arrival; the first one starts the window, later ones do not move it. |
| GroupWindows.RestWaitsShorter | pi-subagents/src/group-join.ts:85-108 | A timer delivers what is held as partial, and the rest waits with a window of fifteen seconds. |
| GroupWindows.FreshBatchWaitsFull | pi-subagents/src/group-join.ts:74-80 | A batch whose timer has not fired waits the full window, thirty seconds by default. |
| GroupWindows.RestIff | pi-subagents/src/group-join.ts:96-108 | A live group is a rest exactly when its timer has fired since it was registered. |
| GroupWindows.PassedBackIff | pi-subagents/src/group-join.ts:59-64 | A completion is passed back exactly when its agent is looked up nowhere; a delivery removes its group and its members' entries only. |
| GroupJoin.HeldBriefly | pi-subagents/src/group-join.ts:74-80 | Every group that holds a completion has an armed timer that expires within the group's window of its arrival. |
| GroupJoin.FiringFlushes | pi-subagents/src/group-join.ts:85-108 | Letting every armed timer expire, in any order, leaves nothing held. |
| GroupJoin.GroupJoinManager.constructor | pi-subagents/src/group-join.ts:28-35 | A manager starts with no groups and the default timeout unless told otherwise. |
| GroupJoin.GroupJoinManager.RegisterGroup | pi-subagents/src/group-join.ts:38-50 | Equals the registration step. |
| GroupJoin.GroupJoinManager.OnAgentComplete | pi-subagents/src/group-join.ts:59-83 | Equals the completion step: pass, held, or delivered with the records in order of arrival. |
| GroupJoin.GroupJoinManager.OnTimeout | pi-subagents/src/group-join.ts:85-108 | Equals the timer step: partial delivery and a straggler group of the rest. |
| GroupJoin.GroupJoinManager.CleanupGroup | pi-subagents/src/group-join.ts:120-127 | Removes a group and its members' entries. |
| GroupJoin.GroupJoinManager.DisposeAll | pi-subagents/src/group-join.ts:134-140 | Forgets every group. |
| FireInvariants.StepKeepsInv | pi-routines/src/scheduler.ts:791-859 | Every event at any moment keeps: at most three queued, deferred before normal, mirror equal to the normal part, watchdog armed over work, guard held exactly while a run is pending, and the account of any run id. |
| FireInvariants.RunKeepsInv | pi-routines/src/scheduler.ts:146-159 | The same over whole sessions. |
| FireInvariants.EveryFireIsInOnePlace | pi-routines/src/scheduler.ts:193-237 | A run id that was issued once is in exactly one place: queued, in the drain's hand, in flight, logged once, discarded with its routine, or stranded by a teardown. |
| FireInvariants.NothingComesFromNowhere | pi-routines/src/scheduler.ts:193-237 | An id nobody issued is in none of them. |
| FireInvariants.WaitingWorkIsSafe | pi-routines/src/scheduler.ts:712-782 | Whatever happened, waiting work has the watchdog armed, is mirrored, is bounded, and is deferred entries followed by normal ones. |
| FireInvariants.NormalsAreTheTail | pi-routines/src/scheduler.ts:223-228 | A queue of that shape is its deferred prefix followed by its normal part in order. |
| FireInvariants.AcquireNeverThrows | pi-routines/src/guard.ts:34-42 | Acquiring the turn for the entry in hand never finds it taken. |
| FireInvariants.WatchdogMakesProgress | pi-routines/src/scheduler.ts:742-759 | Over waiting work a tick in an idle session takes the oldest entry. |
| FireInvariants.OneHookAnOffer | pi-routines/src/hooks.ts:197-203 | One offer of `agent_end` hooks queues at most one of them. |
| FireSteps.TakesIff | pi-routines/src/scheduler.ts:791-817 | With nothing in hand, an event leaves an entry in hand exactly when work waits, the event comes to the drain, no turn goes on and its context is live, idle and without pending messages; the entry is the first. |
| FireSteps.FiredWasTakenInQuiet | pi-routines/src/scheduler.ts:791-817 | Over any session whatever is in hand, and so whatever is fired, was taken by such an event. |
| FireSteps.HandChangesIff | pi-routines/src/scheduler.ts:820-854 | With an entry in hand, only the return of the drain changes that; the next one is taken exactly when this one is given up, work waits and the session is quiet. |
| FireSteps.HandIsResolved | pi-routines/src/scheduler.ts:820-854 | The entry in hand: routine gone, paused meanwhile, lifetime spent, day's budget used, not sent, or started; each with what is logged, discarded and deleted. |
| FireSteps.OfferedIsQueued | pi-routines/src/scheduler.ts:193-237 | An event that passes its gates queues one entry, the oldest of a full queue making room, whatever is queued already; it is last, unless it is taken at once. |
| FireSteps.OthersQueueNothing | pi-routines/src/scheduler.ts:393-470 | An event that does not pass queues nothing, and logs exactly what its gates refuse. |
| FireSteps.PromotionIs | pi-routines/src/hooks.ts:502-557 | A promotion puts the hooks that can be promoted and find room behind the deferred entries and before the others, in the order stored. |
| FireSteps.SecondTriggerIsRefused | pi-routines/src/scheduler.ts:425-440 | Of two triggers of a routine within half a second the second is logged as skipped and never queued. |
| FireTurns.MessageDecides | pi-routines/src/suppressor.ts:55-75 | The message makes a run silent exactly when it is the token alone and the routine is quiet. |
| FireTurns.TurnIsLogged | pi-routines/src/hooks.ts:152-192 | The end of a turn frees it and logs its run once, as it stands. |
| FireTurns.InterruptedTurnFailed | pi-routines/src/hooks.ts:233-259 | A teardown logs the open turn as failed. |
| FireTurns.TokenTurnIsSilent | pi-routines/src/suppressor.ts:55-75 | Fired, answered with the token, ended: logged as silent if the routine is quiet, else as a success. |
| FireTurns.ErrorsAreFailuresInARow | pi-routines/src/executor.ts:354-363 | From a start or a load on, the error count is the number of failures in a row, skipped runs passed over. |
| FireTurns.RowCounts | pi-routines/src/executor.ts:275-363 | Each logged run moves both streak counts as the log says, and the last twenty runs are stored. |
| FireTurns.DelayInNumbers | pi-routines/src/scheduler.ts:93-107 | The delay of a pulse for each number of fruitless runs in a row. |
| FireTurns.SavedRoutineKeepsItsTicks | pi-routines/src/tools/_mutate.ts:360-385 | Saving replaces one routine; a known one keeps its tick state, a new one begins with an empty one. |
| FireTurns.PauseSetsOneFlag | pi-routines/src/tools/_mutate.ts:476-497 | Pausing sets one flag of one routine. |
| FireTurns.DeletedLeavesNothing | pi-routines/src/tools/_mutate.ts:410-443 | A deletion leaves nothing of the routine and everything of the others. |
| FireActions.StepActs | pi-routines/src/scheduler.ts:169-237 | Every event of a session is a list of elementary actions on the queue, each of which the event accounts for: run ids, times and payloads of what is queued come from the event. |
| FireActions.ActKeepsInv | pi-routines/src/scheduler.ts:169-237 | Each action keeps the invariant of the fire queue and the account of every run id. |
| FireDeferred.StepBreaksIff | pi-routines/src/hooks.ts:502-556 | A step puts a deferred hook into a second place (queue, pending run, the drain's hand) exactly when it is a promoting `agent_end` while the drain holds an entry whose own hook is still stored, can be promoted and finds room. |
| FireDeferred.DeferredHooksAreInOnePlace | pi-routines/src/hooks.ts:507-513 | Over a whole session without such a step each deferred hook is in one place. |
| FireDeferred.PromoteQueues | pi-routines/src/hooks.ts:513-554 | A promotion adds to the queue exactly the stored hooks that can be promoted and find room, each once. |
| FireDeferred.AHookCanRunTwice | pi-routines/src/scheduler.ts:816-822 | A run from a fresh session in which such a step happens, after which the routine starts twice for one hook. |
| FireInvariants.TeardownKeepsTheMirror | pi-routines/src/hooks.ts:238-259 | A shutdown clears the queue, closes the turn and leaves exactly the normal part on disk. |
| FireInvariants.QueueingAfterATeardownForgets | pi-routines/src/scheduler.ts:129-159 | An input for the failing half of what follows: an enqueue after a teardown rewrites the saved queue to the new entry alone. |
| FireTeardown.SavedQueueSurvivesIff | pi-routines/src/scheduler.ts:129-159 | Over any run from a teardown on, the saved queue is still the old normal queue exactly when no event passed the gates before the queue and none deleted a routine with a saved entry. |
| FireTeardown.UndisturbedStep | pi-routines/src/scheduler.ts:182-236 | Over an empty queue an event that passes no gate and deletes no saved entry changes neither the queue nor what is saved. |
| FireTeardown.AdmittedIssues | pi-routines/src/scheduler.ts:169-237 | An event that passes the gates does issue a run. |
| FireCatchUp.CaughtUpIffPassed | pi-routines/src/scheduler.ts:647-673 | A routine has a missed slot exactly when a slot of one of its triggers lies after its last fire and creation and not after now (for cron inside the search horizon), and the slot chosen is the oldest. |
| FireCatchUp.NoSlotTwice | pi-routines/src/scheduler.ts:610-614 | The fire moves the anchor, so no slot up to it is counted again. |
| FireCatchUp.FindMissed | pi-routines/src/scheduler.ts:648-672 | The loop over the triggers finds the first trigger whose missed slot is the oldest. |
| FireCatchUp.SurvivorsKeepTheirPlaceIff | pi-routines/src/scheduler.ts:635-696 | The queue that came back keeps its entries and gains one for each routine that is due (missed, not paused, queued or in flight) exactly when there is room for all of them. |
| FireCatchUp.SurvivorsAreDropped | pi-routines/src/scheduler.ts:620-622 | An input for the failing half: from a restart with three fires, catching up a fourth routine drops the oldest of them, whose routine is then caught up anew and drops the next. |
| FireCatchUp.CaughtUpFireIs | pi-routines/src/scheduler.ts:648-696 | With room, a due routine gains one entry at the end, for a trigger that missed a slot: a cron fire for a calendar, a pulse for an interval, with the time and the note. |
| FireCatchUp.CatchUpAllRuns | pi-routines/src/scheduler.ts:635-696 | The loop over all routines is a run of catch-up events of the session. |
| FireInvariants.EnqueueKeepsInv | pi-routines/src/scheduler.ts:193-237 | An enqueue keeps the invariant, overflow and priority insertion included. |
| FireInvariants.EnqueueKeepsAccount | pi-routines/src/scheduler.ts:202-213 | An overflow drop moves one id from the queue to the log or the discarded ones, and nothing else moves. |
| FireInvariants.LoopHeadKeepsInv | pi-routines/src/scheduler.ts:799-817 | Each exit of the drain loop and the shift keep the invariant. |
| FireInvariants.ResumeKeepsInv | pi-routines/src/scheduler.ts:820-854 | Each continuation of the drain does: unknown routine, paused routine, and every outcome of the fire. |
| FireInvariants.FireKeepsInv | pi-routines/src/executor.ts:131-262 | Every outcome of a fire keeps the invariant. |
| FireInvariants.PromoteKeepsInv | pi-routines/src/hooks.ts:502-557 | Promoting deferred hooks keeps the invariant. |
| FireInvariants.AgentEndKeepsInv | pi-routines/src/hooks.ts:152-192 | The end of a turn logs it once, promotes and drains within the invariant. |
| FireInvariants.ShutdownKeepsInv | pi-routines/src/hooks.ts:233-259 | A shutdown keeps the invariant. |
| FireInvariants.DeleteKeepsInv | pi-routines/src/tools/_mutate.ts:410-443 | Deleting a routine takes its entries out of queue and mirror alike. |
| FireRuntime.RoutineRuntime.constructor | pi-routines/extensions/index.ts:76-87 | A runtime starts with nothing queued, in flight or logged. |
| FireRuntime.RoutineRuntime.RecordRow | pi-routines/src/executor.ts:275-298 | The push-and-shift loop leaves the last twenty rows and updates both streak counters. |
| FireRuntime.RoutineRuntime.PersistQueue | pi-routines/src/scheduler.ts:156-159 | The mirror becomes the normal part of the queue, in order. |
| FireRuntime.RoutineRuntime.QueueHasRoutine | pi-routines/src/scheduler.ts:165-167 | Answers whether any entry is of that routine. |
| FireRuntime.RoutineRuntime.DropQueuedFireAt | pi-routines/src/scheduler.ts:169-176 | Removes one entry and logs or discards it. |
| FireRuntime.RoutineRuntime.OverflowVictim | pi-routines/src/scheduler.ts:203-212 | The oldest entry, or for a priority entry the newest normal one. |
| FireRuntime.RoutineRuntime.InsertEntry | pi-routines/src/scheduler.ts:223-228 | A priority entry goes before the first normal one, any other last. |
| FireRuntime.RoutineRuntime.EnqueueRoutineFire | pi-routines/src/scheduler.ts:193-237 | Equals the enqueue step. |
| FireRuntime.RoutineRuntime.EnqueueTriggerFire | pi-routines/src/scheduler.ts:393-470 | Equals the trigger step: existence, pause, collapse window, lock and duplicate gates in that order. |
| FireRuntime.RoutineRuntime.EnqueueFireRequest | pi-routines/src/scheduler.ts:477-499 | Equals the request step and answers the run id exactly when routine and trigger exist. |
| FireRuntime.RoutineRuntime.RoutineRunNow | pi-routines/src/commands/routine-run-now.ts:40-99 | Equals the manual step: not during a turn, not twice, past a pause. |
| FireRuntime.RoutineRuntime.RehydrateQueuedFires | pi-routines/src/scheduler.ts:527-603 | The loop over the persisted list equals rehydration. |
| FireRuntime.RoutineRuntime.CatchUpMissedTicks | pi-routines/src/scheduler.ts:635-696 | The loop over the routines equals the catch-up function and keeps the invariant. |
| FireRuntime.RoutineRuntime.StopScheduler | pi-routines/src/scheduler.ts:129-144 | Clears the queue and keeps the mirror. |
| FireRuntime.RoutineRuntime.DrainHead | pi-routines/src/scheduler.ts:799-817 | One evaluation of the loop head, up to the await after the shift. |
| FireRuntime.RoutineRuntime.DrainQueue | pi-routines/src/scheduler.ts:791-798 | Returns at once while another drain runs. |
| FireRuntime.RoutineRuntime.FireRoutine | pi-routines/src/executor.ts:105-262 | Equals the fire step: caps, guard, send, write-through, or the error path. |
| FireRuntime.RoutineRuntime.CheckCaps | pi-routines/src/executor.ts:131-174 | Spent and capped exactly when the budget function says so. |
| FireInvariants.StartedFireMeans | pi-routines/src/executor.ts:176-242 | A fire that starts: the turn is this run's, one more start is counted, an automatic one in the day's budget too, the deferred hook it stems from is stored no longer and every other hook is, and nothing else changed. |
| FireRuntime.RoutineRuntime.ContinueDrain | pi-routines/src/scheduler.ts:820-854 | The drain after an await equals the resume step. |
| FireRuntime.RoutineRuntime.OnWatchdogTick | pi-routines/src/scheduler.ts:748-756 | Disarms over an empty queue, else drains. |
| FireRuntime.RoutineRuntime.EnqueueHookFire | pi-routines/src/hooks.ts:330-350 | Queues a due hook while there is room, else logs a skip. |
| FireRuntime.RoutineRuntime.OfferAgentEndHooks | pi-routines/src/hooks.ts:197-203 | The loop stops at the first hook that is queued. |
| FireRuntime.RoutineRuntime.PromoteDeferredHooks | pi-routines/src/hooks.ts:502-557 | The loop over the stored hooks equals the promotion function. |
| FireRuntime.RoutineRuntime.OnMessageEnd | pi-routines/src/suppressor.ts:55-75 | Marks the pending run silent or quiet. |
| FireRuntime.RoutineRuntime.OnAgentEnd | pi-routines/src/hooks.ts:152-192 | Equals the end-of-turn step. |
| FireRuntime.RoutineRuntime.OnAgentSettled | pi-routines/src/hooks.ts:220-231 | Drains unless a turn is active. |
| FireRuntime.RoutineRuntime.OnSessionShutdown | pi-routines/src/hooks.ts:233-259 | Equals the shutdown step. |
| FireRuntime.RoutineRuntime.SetRoutinePaused | pi-routines/src/tools/_mutate.ts:476-497 | Sets the flag of a known routine and nothing else. |
| FireRuntime.RoutineRuntime.Delete | pi-routines/src/tools/_mutate.ts:410-443 | Equals the deletion step. |
| FireBudget.DailyCapHolds | pi-routines/src/executor.ts:145-174 | Restarts included: while the dates read do not go back, automatic starts on one date never exceed the daily cap. |
| FireBudget.CounterCountsAutomaticStarts | pi-routines/src/executor.ts:212-220 | For any date a steady clock may read next the stored counter is the true number of automatic starts on it: manual and deferred ones neither use nor reset it. |
| FireBudget.CapHoldsIffSteady | pi-routines/src/executor.ts:151-154 | The clocks under which every cap holds in every life are exactly those that read no other date between two starts on one date. |
| FireBudget.CheckElsewhereBreaksTheCap | pi-routines/src/executor.ts:151-153 | An input for the failing half: a check on another date lets a second start through. |
| FireBudget.StartElsewhereBreaksTheCap | pi-routines/src/executor.ts:212-216 | Another: a start on another date in between, even a manual one, resets the counter. |
| FireBudget.StartsNeverExceedMaxTicks | pi-routines/src/executor.ts:131-140 | Over a routine's life the starts never exceed its lifetime cap. |
| FireBudget.StoredRunsAreTheLast | pi-routines/src/executor.ts:290-293 | The stored runs are always the last twenty of the full log. |
| FireBudget.SilentRunsNeverBackOff | pi-routines/src/executor.ts:221-230 | The silent counter never reaches the back-off threshold, so the delay depends on failed runs alone. |
| FireBudget.BackoffShortensIff | pi-routines/src/scheduler.ts:93-107 | Back-off shortens the delay exactly when it engages and the interval is above its ceiling. |
| TickStore.RunRoundTrip | pi-routines/src/store.ts:258-277 | A run as the recorder writes it is accepted by the load and reads back as it was. |
| TickStore.LoadIsReload | pi-routines/src/store.ts:279-321 | Saving a tick state and loading it keeps counts, date and runs and forgets the two streaks: exactly the reload that the lives above are about. |
| FireLife.RunProjects | pi-routines/src/scheduler.ts:791-859 | Every run of a session is, for each routine, a life with the same starts and the same readings of the clock. |
| FireLife.RestartProjects | pi-routines/src/store.ts:427-440 | A restart, whenever the process ends, is a reload and some skipped fires in that life. |
| FireLife.SessionsKeepTheDailyCap | pi-routines/src/executor.ts:145-174 | Over any number of sessions and restarts of the fire queue a routine's automatic starts on one date never exceed its daily cap while the dates its fires read do not go back. |
| FireLife.SessionsKeepTheLifetimeCap | pi-routines/src/executor.ts:131-140 | And all its starts together never exceed its lifetime cap. |
| StoreSanitizer.StoreStableIff | pi-routines/src/store.ts:418-458 | Loading a loaded store changes nothing if and only if no kept transcript is cut three bytes before the end of a four-byte character. |
| StoreSanitizer.TriggerStable | pi-routines/src/store.ts:110-214 | A sanitised trigger is sanitised to itself, for all six kinds. |
| StoreSanitizer.RoutineStable | pi-routines/src/store.ts:216-256 | A sanitised routine is sanitised to itself. |
| StoreSanitizer.TickStateStable | pi-routines/src/store.ts:279-322 | So is a tick state, with or without migrated once-markers. |
| StoreSanitizer.DeferredHookStableIff | pi-routines/src/store.ts:332-370 | A sanitised deferred hook is sanitised to itself exactly when its transcript is cut well. |
| StoreSanitizer.HooksStableIff | pi-routines/src/store.ts:446-450 | The sorted and bounded list of hooks is stable under the same condition. |
| StoreSanitizer.HooksAreCleanKeepers | pi-routines/src/store.ts:446-450 | That list is the valid hooks, oldest first, the last five, each sanitised. |
| StoreSanitizer.PendingQueueStable | pi-routines/src/store.ts:453-456 | The pending queue of a load is stable. |
| StoreSanitizer.RoutinesStable | pi-routines/src/store.ts:420-426 | So are the routines. |
| StoreSanitizer.TickStatesStable | pi-routines/src/store.ts:427-445 | And the tick states. |
| StoreWritten.FileIsKept | pi-routines/src/store.ts:418-458 | A store file as the extension writes it is loaded unchanged. |
| StoreWritten.TriggerIsKept | pi-routines/src/store.ts:110-214 | A trigger as it is written, of whichever of the six kinds, comes back member for member. |
| StoreWritten.RoutineIsKept | pi-routines/src/store.ts:216-256 | So does a routine: caps, paused flag, triggers. |
| StoreWritten.AcceptedRoutineMeans | pi-routines/src/store.ts:216-256 | Whatever routine is accepted keeps its own members, and is paused exactly when the file says true. |
| StoreWritten.TicksAreKept | pi-routines/src/store.ts:279-322 | A tick state as it is written comes back: counts, times, the user's own state, runs, markers. |
| StoreWritten.HookIsKept | pi-routines/src/store.ts:332-370 | A deferred hook whose transcript fits comes back as it was. |
| StoreWritten.TriggerRefusedIff | pi-routines/src/store.ts:110-214 | A load refuses a trigger for exactly the listed faults. |
| StoreRefused.RoutineRefusedIff | pi-routines/src/store.ts:216-256 | A load refuses a routine for exactly the listed faults. |
| StoreRefused.RunRefusedIff | pi-routines/src/store.ts:258-277 | A load drops a logged run for exactly the listed faults. |
| StoreRefused.HookRefusedIff | pi-routines/src/store.ts:332-356 | A load drops a deferred hook for exactly the listed faults. |
| StoreRefused.EntryRefusedIff | pi-routines/src/store.ts:382-415 | A load drops a queued fire for exactly the listed faults. |
| StoreRefused.LoadIsBounded | pi-routines/src/store.ts:446-456 | At most twenty runs, the last; five hooks; three entries, the first. |
| StoreRefused.NewestHooksAreKept | pi-routines/src/store.ts:446-450 | Of more than five deferred hooks the newest are kept, oldest first. |
| StoreRefused.FaultyMembersBeginAnew | pi-routines/src/store.ts:279-322 | Faulty members of a tick state begin anew; the others are kept. |
| StoreRefused.OldMarkerIff | pi-routines/src/store.ts:427-445 | A load adds the once-marker of an older store for a routine whose only trigger is a daily hook that has fired, and in no other case. |
| TranscriptTrim.DecodeEncode | pi-routines/src/store.ts:324-330 | Decoding an encoded text gives it back. |
| TranscriptTrim.DecodeCut | pi-routines/src/store.ts:327 | Decoding a cut encoding gives one replacement character for each left-over byte of a split character. |
| TranscriptTrim.WidthIsShortest | pi-routines/src/store.ts:325 | A character takes the shortest UTF-8 sequence that holds its code point. |
| TranscriptTrim.CutIsReportedIff | pi-routines/src/store.ts:324-330 | The truncated flag says exactly whether the text was too long, and a text that fits is unchanged. |
| TranscriptTrim.TrimFitsIff | pi-routines/src/store.ts:324-330 | The result fits the limit exactly when at most one byte of a split character is left over, and overruns it by at most three. |
| TranscriptTrim.TrimIdempotentIff | pi-routines/src/store.ts:324-330 | Trimming twice is trimming once, except exactly when three bytes are left over. |
| TranscriptTrim.TrimmedTwiceDiffers | pi-routines/src/store.ts:324-330 | An input for the failing half, at every limit of at least three bytes: a character of four bytes and letters that fill the limit up to its last three. |
| StoreReload.HookChangesAgain | pi-routines/src/store.ts:332-370 | A deferred hook with such a transcript changes when it is sanitised again. |
| StoreReload.StoreChangesAgain | pi-routines/src/store.ts:418-458 | A store file with one routine and that hook changes on the second load. |
| Rehydrate.DecodeEncode | pi-routines/src/scheduler.ts:156-159 | An entry saved and read back is the same entry, payloads, times and once-markers included. |
| Rehydrate.AcceptedIff | pi-routines/src/store.ts:382-415 | A load accepts a well-formed entry exactly when its routine is known and it stems from no deferred hook. |
| Rehydrate.LoadedQueue | pi-routines/src/store.ts:453-456 | A load of a saved queue is its entries of known routines, in order. |
| Rehydrate.FateIsSurvival | pi-routines/src/scheduler.ts:539-590 | The gates of the loop agree with the independent definition of a surviving entry. |
| Rehydrate.WaitingRoutineIsNotQueuedAgain | pi-routines/src/scheduler.ts:574-590 | An entry of a routine that waits already, or came back earlier in the list, leaves the queue as it is unless its kind stacks. |
| Rehydrate.RehydrateYields | pi-routines/src/scheduler.ts:527-603 | Rehydration fills the empty queue with exactly the survivors, in order, and logs each refused entry of a known routine once. |
| Rehydrate.RehydrateKeepsInv | pi-routines/src/scheduler.ts:527-603 | The rehydrated session satisfies the fire-queue invariant. |
| Rehydrate.RestartYields | pi-routines/src/scheduler.ts:527-603 | After a teardown, events that leave the saved queue alone, load and rehydration the queue is the old normal queue in order, minus exactly the entries that do not survive. |
| Rehydrate.RestartIsSound | pi-routines/src/scheduler.ts:527-603 | What comes back is again a sound session that can be saved and loaded. |
| Rehydrate.RestartTwice | pi-routines/src/scheduler.ts:527-603 | Restarting once more at the same time changes nothing and refuses nothing. |
| Rehydrate.RunKeepsWell | pi-routines/src/scheduler.ts:201-236 | With times since the epoch and objects as payloads every entry of every session can be saved and loaded. |
| Rehydrate.EverySessionRestarts | pi-routines/src/scheduler.ts:527-603 | So the restart theorem holds of every session, and the session it makes is one of them again. |
| PhaseValidation.FinalIffInCatalogue | pi-orchestrator/src/phase-validation.ts:266-358 | The ordered rules accept exactly the plans of the shape catalogue. |
| PhaseValidation.IncrementalIffAtomic | pi-orchestrator/src/phase-validation.ts:139-223 | For every shape but multi-track the plans that can be built one accepted add at a time and closed are exactly those accepted at once. |
| PhaseValidation.MultiTrackIncremental | pi-orchestrator/src/phase-validation.ts:210-222 | For multi-track they are exactly two to ten implement phases. |
| PhaseValidation.MultiTrackPathsDiffer | pi-orchestrator/src/phase-validation.ts:289-298 | A multi-track plan with a review is accepted at once but not step by step. |
| PhaseValidation.CompletableIff | pi-orchestrator/src/phase-validation.ts:139-223 | An accepted running list can still be finished exactly when it is finished, or has no review and room for what is missing. |
| PlanOutcomes.AcceptedIff | pi-orchestrator/src/phase-validation.ts:266-358 | A plan is accepted exactly when its rationale has ten to five hundred characters and it is in the catalogue. |
| PlanOutcomes.RunningListIff | pi-orchestrator/src/phase-validation.ts:139-223 | A running list is accepted exactly when nothing is wrong with it yet, by the table of shapes. |
| PlanOutcomes.RefusalIsTrue | pi-orchestrator/src/phase-validation.ts:139-358 | A refusal names a rule that the plan does break. |
| PlanOutcomes.PhasesReachTheRightAgents | pi-orchestrator/src/orchestrator-tool.ts:69-75 | Over any calls on an empty board every plan task goes to a reviewer exactly when its phase is a review, and else to a developer, whatever the caller's metadata said. |
| PlanOutcomes.PlanTaskSays | pi-orchestrator/src/orchestrator-tool.ts:465-473 | A plan task has its phase's subject, description and metadata, and the tools' own stamps. |
| PlanOutcomes.ConversionLeaves | pi-orchestrator/src/orchestrator-tool.ts:441-492 | A conversion completes and marks the intent, adds one task a phase in order with the next ids, and touches no other task. |
| PlanOutcomes.AddedPhaseLeaves | pi-orchestrator/src/orchestrator-tool.ts:764-800 | An added phase is one task with its running number, listed in the planning state, and the intent stays open. |
| PlanOutcomes.CloseLeaves | pi-orchestrator/src/orchestrator-tool.ts:892-909 | A close completes the intent and lists its plan tasks. |
| PlanOutcomes.ConversionRefusedFor | pi-orchestrator/src/orchestrator-tool.ts:389-439 | What a conversion is refused for, and with which answer. |
| PlanOutcomes.PlanningRefusedFor | pi-orchestrator/src/orchestrator-tool.ts:578-646 | What planning is refused for, and the empty state it stores. |
| PlanOutcomes.OpenPlanningMeans | pi-orchestrator/src/orchestrator-tool.ts:697-746 | What adding and closing are refused for before the rules are looked at. |
| PlanOutcomes.AddAndCloseRefusedFor | pi-orchestrator/src/orchestrator-tool.ts:747-890 | And that only the rules refuse them after that. |
| PlanOutcomes.MergeMeans | pi-tasks/src/task-store.ts:275-285 | A null deletes its key, any other value replaces, the rest stays. |
| PlanTools.RunKeepsSound | pi-orchestrator/src/orchestrator-tool.ts:764-792 | Every call keeps count, ids and phases of every planning state aligned with the tasks it created: phase, mapped agent type, source intent, running count. |
| PlanTools.RunAllKeepsSound | pi-orchestrator/src/orchestrator-tool.ts:764-792 | The same over any sequence of calls. |
| PlanTools.FallbackEqualsStored | pi-orchestrator/src/orchestrator-tool.ts:742-746 | The reconstructed phase list equals the stored one, and its length is the stored count. |
| PlanTools.PlanTaskIsStamped | pi-orchestrator/src/orchestrator-tool.ts:465-473 | The stamps win over the caller's metadata, and everything else in it is kept. |
| PlanTools.StepByStepEqualsConvert | pi-orchestrator/src/orchestrator-tool.ts:389-492 | Planning, adding and closing yields the same ordered tasks as one conversion, and for every shape but multi-track on exactly the same plans. |
| PlanTools.StepByStepIff | pi-orchestrator/src/orchestrator-tool.ts:697-792 | The incremental path succeeds exactly on buildable and finally valid plans. |
| PlanTools.ConvertIff | pi-orchestrator/src/orchestrator-tool.ts:431-439 | The conversion succeeds exactly on finally valid plans. |
| PlanTools.ConvertedGainsNothing | pi-orchestrator/src/orchestrator-tool.ts:724-729 | No call gives a converted intent another plan task or takes its conversion back. |
| PlanTools.ConvertedGainsNothingEver | pi-orchestrator/src/orchestrator-tool.ts:846-851 | The same over any sequence of calls. |
| PlanTools.PlanAfterConvertIsIdle | pi-orchestrator/src/orchestrator-tool.ts:599-605 | Planning a converted intent is let through, adding a phase to it is not. |
| PlanBoard.TaskStore.CreateTask | pi-tasks/src/task-store.ts:187-213 | A new task gets the next id. |
| PlanBoard.TaskStore.MergeMetadata | pi-tasks/src/task-store.ts:275-285 | The loop is a shallow merge in which null deletes its key. |
| PlanBoard.TaskStore.UpdateTask | pi-tasks/src/task-store.ts:226-290 | Sets status and merges metadata of one task. |
| PlanBoard.TaskStore.FindPhases | pi-orchestrator/src/orchestrator-tool.ts:742-746 | Equals the stored list or its reconstruction. |
| PlanBoard.TaskStore.TaskPlanIntent | pi-orchestrator/src/orchestrator-tool.ts:578-646 | Equals the planning step; a refusal changes nothing. |
| PlanBoard.TaskStore.TaskAddPhase | pi-orchestrator/src/orchestrator-tool.ts:697-800 | Equals the adding step; a refusal changes nothing. |
| PlanBoard.TaskStore.TaskCloseIntent | pi-orchestrator/src/orchestrator-tool.ts:819-909 | Equals the closing step; a refusal changes nothing. |
| PlanBoard.TaskStore.TaskConvertIntent | pi-orchestrator/src/orchestrator-tool.ts:389-492 | Equals the conversion step and answers the new ids in order; a refusal changes nothing. |
| GithubEvents.EventsOfAResult | pi-routines/src/github-poller.ts:166-191 | A result makes one event, in its order, for each item that has its sha or its number; pull requests are no issues. |
| GithubEvents.PassesIff | pi-routines/src/github-poller.ts:194-219 | A filter asks for every label, for a merge of a closed pull request, for one of the branches of a push, and nothing else. |
| GithubEvents.FilteredCounts | pi-routines/src/github-poller.ts:194-219 | Filtering keeps each event that passes as often as it was there, and no other. |
| GithubEvents.HandedMeetsTheFilter | pi-routines/src/github-poller.ts:422-454 | What a poll hands on is exactly the arrivals that meet the filter. |
| GithubEvents.DelayIs | pi-routines/src/github-poller.ts:360-396 | The delay after a cycle: the interval, at least a minute; half an hour without `gh`; else the last one doubled, at most half an hour. |
| GithubPoller.AfterCursorOnFeed | pi-routines/src/github-poller.ts:243-257 | On a page that still shows the cursor the fresh part is what arrived since; on one that does not it is empty. |
| GithubPoller.ChronologicalReversesIff | pi-routines/src/github-poller.ts:440-447 | The batch comes out in the order of arrival exactly when no event has a later known time than the one just above it on the feed; unknown times count as in order. |
| GithubPoller.ChronologicalIsPermutation | pi-routines/src/github-poller.ts:440-447 | Whatever the times, the sorted batch is the batch as a multiset. |
| GithubPoller.ChronologicalKeepsEach | pi-routines/src/github-poller.ts:440-447 | Each place of the batch is filled from exactly one place of the unsorted one. |
| GithubPoller.HandedOncePerPoll | pi-routines/src/github-poller.ts:422-447 | One poll hands on the filtered arrivals since the cursor, each once whatever their times, and in the order of arrival exactly when times follow the feed in that batch. |
| GithubPoller.EveryArrivalIsHandedOnce | pi-routines/src/github-poller.ts:397-454 | While the cursor stays on the page, the events handed on are exactly the filtered arrivals since the seed, each once, whatever their times and whatever failed or was paused in between; in the order of arrival exactly when times follow the feed within each batch. |
| GithubPoller.NothingIsHandedTwice | pi-routines/src/github-poller.ts:397-454 | Even with lost cursors what is handed on are different events of the feed after the seed, each at most once; in the order of the feed exactly when times follow it within each batch. |
| GithubPoller.EarlierAuthorGoesFirst | pi-routines/src/github-poller.ts:260-272 | An input for the failing half: of two commits in one batch the later one was authored earlier, and is handed on first. |
| GithubPoller.LostCursorAdvances | pi-routines/src/github-poller.ts:251-254 | A lost cursor moves to the newest event and replays nothing. |
| GithubPoller.BranchesAreIndependent | pi-routines/src/github-poller.ts:401-420 | A branch's cursor moves by its own poll alone, and not at all when that poll failed. |
| GithubBranches.ChronologicalOnBranchIff | pi-routines/src/github-poller.ts:440-447 | Whatever the other branches bring, each branch's part of a batch comes out of the sort in the order of arrival exactly when its own times follow the feed. |
| GithubBranches.ChronologicalKeepsBranch | pi-routines/src/github-poller.ts:440-447 | Whatever the times, it comes out whole. |
| GithubBranches.StepSeenFromBranch | pi-routines/src/github-poller.ts:401-420 | Every poll cycle over several branches is, for each of them, a step of a single-cursor poller of its own. |
| GithubBranches.RunSeenFromBranch | pi-routines/src/github-poller.ts:397-454 | So is every run, and the branch's events keep the order of arrival exactly when each of its batches is in it. |
| GithubBranches.StepInOrderIff | pi-routines/src/github-poller.ts:422-447 | A poll cycle keeps the order of arrival of a branch exactly when the batch it finds there is in it. |
| GithubBranches.EveryCommitIsHandedOnce | pi-routines/src/github-poller.ts:397-454 | What is handed on of one branch is exactly its filtered commits since its cursor was seeded, each once whatever their times, while its cursor stays on its pages; in the order of arrival exactly when its times follow the feed within each batch. |
| GithubBranches.TickIsAPoll | pi-routines/src/github-poller.ts:422-447 | A cycle without branches is one poll of the single-cursor poller. |
| GithubBranches.TickIsACycle | pi-routines/src/github-poller.ts:401-447 | A cycle over branches is one cycle of the site. |
| GithubPoller.BranchPassesIff | pi-routines/src/github-poller.ts:213-215 | What a poll of a branch brings passes, all of it, exactly when the trimmed name is itself in the list as written; otherwise nothing does. |
| GithubPoller.BranchFilterWorksIff | pi-routines/src/github-poller.ts:345-348 | The filter lets through all it polls exactly when each name that is not blank also stands in it without blanks around it. |
| GithubPoller.PaddedBranchIsSilent | pi-routines/src/github-poller.ts:213-215 | An input for the failing half: with the names "main" and " dev " both branches are polled, and all that the poll of "dev" brings is filtered away. |
| GithubPoller.BlankBranchesPassIff | pi-routines/src/github-poller.ts:345-358 | When all names are blank the default branch is polled, and what it brings passes exactly when the empty name is in the list. |
| GithubPoller.BackoffDoubles | pi-routines/src/github-poller.ts:380-389 | After n failures in a row the delay is the interval doubled n times, at most half an hour, and below the interval exactly when that is longer than half an hour. |
| GithubPoller.Poller.NormaliseEvents | pi-routines/src/github-poller.ts:166-191 | The loop equals the normal form. |
| GithubPoller.Poller.SortChronologically | pi-routines/src/github-poller.ts:440-447 | The insertion by the source's comparison equals the ordering function. |
| GithubPoller.Poller.Tick | pi-routines/src/github-poller.ts:327-458 | With or without branches: a pause changes nothing; failed polls change no cursor of theirs; successful ones move theirs and hand the sorted batch on; the delay follows the back-off. |
| GithubPoller.NoAnswerNoChange | pi-routines/src/github-poller.ts:390 | A cycle in which every poll failed changes no cursor and hands nothing on. |
| GithubPoller.Poller.AdvanceBranches | pi-routines/src/github-poller.ts:401-420 | The loop over branches equals the branch function. |
| Cron.ExpandField | pi-routines/src/parser.ts:135-177 | The strictly sorted union of what the parts denote, inside the range, or the first error. |
| Cron.AddRange | pi-routines/src/parser.ts:174 | The inner loop adds exactly the values of the range. |
| Cron.ParseCron | pi-routines/src/parser.ts:187-213 | Accepts exactly five fields without an error, matches a moment exactly when the expression does, and never reports too many fires a day. |
| Cron.SortedIsShort | pi-routines/src/parser.ts:204-210 | A strictly sorted list inside a range is no longer than the range, so the limit on fires a day cannot be passed. |
| CronSunday.RewritesTokens | pi-routines/src/parser.ts:197-198 | Rewriting a part of a day-of-week field changes exactly the numbers that are 7. |
| CronSunday.SevenBeside | pi-routines/src/parser.ts:197-198 | A 7 beside a letter, a digit or an underscore stays, beside anything else it becomes 0. |
| CronSunday.FieldIsRewrittenByParts | pi-routines/src/parser.ts:197-199 | A field is rewritten part by part. |
| CronSunday.PartReads | pi-routines/src/parser.ts:142-173 | A written part is read as the range of numbers it shows, or refused. |
| CronSunday.SevenIsSundayIff | pi-routines/src/parser.ts:197-199 | A part that names 7 gives the days it says over 0 to 7, with 7 as Sunday, exactly when 7 is not the step, does not start a range that steps or runs backwards, and does not end one that starts on another day (or the part is refused either way). |
| CronSunday.FieldOfSafeParts | pi-routines/src/parser.ts:135-199 | A field whose parts that name 7 are all safe is accepted exactly when each part can be read, and denotes the union of the days its parts say, with 7 as Sunday. |
| CronSunday.AnotherPartMayHelp | pi-routines/src/parser.ts:135-199 | The converse fails: "0-7,1-6" denotes the whole week as it says, since its second part brings the days its first part loses. |
| CronSunday.RangeToSevenIsRefused | pi-routines/src/parser.ts:197-199 | Inputs: "1-7" to "6-7" are refused. |
| CronSunday.WholeWeekShrinksToSunday | pi-routines/src/parser.ts:197-199 | "0-7" is accepted and denotes Sunday alone. |
| CronSunday.StepOfSevenIsRefused | pi-routines/src/parser.ts:197-199 | A step of 7 is refused as a step of 0. |
| CronSunday.SevenAtTheStartGrows | pi-routines/src/parser.ts:197-199 | "7/2" denotes every second day, and "7-3" is accepted although it runs backwards. |
| Cron.ThirteenthOrFriday | pi-routines/src/parser.ts:233-243 | With both days restricted a schedule matches on either, with one restricted on that one. |
| Cron.OtherDialectsAreRefused | pi-routines/src/parser.ts:136-138 | A field is refused for one of the three foreign signs exactly when it has one. |
| Cron.FirstProbeIsNextIff | pi-routines/src/parser.ts:226 | The search starts at the next minute boundary exactly from the epoch on or from a boundary. |
| Cron.NextFireIsLeastIff | pi-routines/src/parser.ts:223-249 | The search returns the least matching boundary strictly later inside the horizon, or none if there is none, exactly from the epoch on, from a boundary, or when the boundary it would pass over does not match. |
| Cron.NextFireIsLeast | pi-routines/src/parser.ts:223-249 | In particular from the epoch on and from any boundary. |
| Cron.BeforeTheEpochAFireIsMissed | pi-routines/src/parser.ts:226 | An input for the failing half: a schedule of every minute misses a fire from any other moment. |
| Cron.NextCronFire | pi-routines/src/parser.ts:223-249 | The minute-by-minute loop equals the search. |
| Cron.FiresAreAllMatches | pi-routines/src/parser.ts:223-249 | Iterating the search lists matching minutes in order, leaving none out up to the last one listed. |
| IntervalParser.ParseInterval | pi-routines/src/parser.ts:49-97 | The accumulating loop equals the parse function, errors included. |
| IntervalParser.ParseOfFormat | pi-routines/src/parser.ts:100-111 | Parsing a formatted duration gives the same duration and text, for every whole second from thirty seconds to a day. |
| IntervalUnits.OneUnitIsWorth | pi-routines/src/parser.ts:75-97 | One number with one unit is worth the number, fraction included, times the unit; too long above a day, too short below half a minute. |
| IntervalUnits.OnlyTheseAreUnits | pi-routines/src/parser.ts:16-37 | There are the eighteen units of the table, and the name every object carries. |
| IntervalUnits.UnknownUnitIsRefused | pi-routines/src/parser.ts:79-83 | A number with another word cannot be read. |
| IntervalUnits.NumberAloneNeedsUnit | pi-routines/src/parser.ts:53-61 | A number alone asks for a unit. |
| IntervalUnits.EveryIsIdle | pi-routines/src/parser.ts:50-51 | The word "every" in front changes nothing. |
| IntervalUnits.CaseIsIdle | pi-routines/src/parser.ts:50 | Neither does the case of the letters. |
| IntervalUnits.HalvesRoundUp | pi-routines/src/parser.ts:100-111 | What is shown is rounded to the nearest second, halves up. |
| IntervalParser.AcceptedIsBounded | pi-routines/src/parser.ts:89-94 | What is accepted lies between thirty seconds and a day, unless it is no number. |
| IntervalParser.BoundsFailIff | pi-routines/src/parser.ts:79-94 | It is no number exactly when a unit is the name every object carries. |
| IntervalDropped.ConstructorIsAccepted | pi-routines/src/parser.ts:79-94 | An input that meets it: "1 constructor" is accepted and is no number. |
| IntervalDropped.ScannedIffWhole | pi-routines/src/parser.ts:65-73 | In a text that is all segments once its blanks are gone, the matches cover every character exactly when no blank cuts a number or a unit in two. |
| IntervalDropped.AcceptedIsReadIff | pi-routines/src/parser.ts:65-73 | So an accepted interval is read to the last character exactly when its text has no such blank. |
| IntervalDropped.LooseNumberIsDropped | pi-routines/src/parser.ts:65-73 | Inputs: "1 30s" and its like are accepted as the duration alone, and the number is never looked at. |
| IntervalDropped.CutUnitIsDropped | pi-routines/src/parser.ts:65-73 | "5m s" and its like are accepted as minutes. |
| AgentFileToggle.ConcatOfLines | pi-subagents/src/agent-file-toggle.ts:117 | Joining the split lines gives the text back. |
| AgentFileToggle.LinesOfConcat | pi-subagents/src/agent-file-toggle.ts:117 | Splitting joined lines gives the lines back. |
| ToggleForms.FenceIff | pi-subagents/src/agent-file-toggle.ts:101 | A fence is three hyphens and blanks, whatever the line end. |
| ToggleForms.DisablingLineIff | pi-subagents/src/agent-file-toggle.ts:99 | A disabling line is the key, blanks, the word and blanks, and nothing else. |
| ToggleForms.AddedLineIs | pi-subagents/src/agent-file-toggle.ts:128-161 | The added line ends as the first line of the file does. |
| ToggleForms.BlockIff | pi-subagents/src/agent-file-toggle.ts:112-129 | A block is a first line that is a fence past a byte order mark, up to the next fence. |
| ToggleForms.EditsAreMadeIff | pi-subagents/src/agent-file-toggle.ts:154-179 | When each edit is made; one that is not made leaves the text as it is. |
| AgentFileToggle.DisableAddsOneLine | pi-subagents/src/agent-file-toggle.ts:154-161 | Disabling adds one line after the first; every other line, the closing fence and all after it included, stays. |
| AgentFileToggle.EnableKeepsTheRest | pi-subagents/src/agent-file-toggle.ts:171-179 | Enabling removes only `enabled: false` lines of the block; the first line, the closing fence and all after it stay. |
| AgentFileToggle.EnableUndoesDisableIff | pi-subagents/src/agent-file-toggle.ts:154-179 | Disabling and enabling restores the text character for character exactly when the block had no such line. |
| AgentFileToggle.EnableTwiceIsOnce | pi-subagents/src/agent-file-toggle.ts:171-179 | After enabling nothing is left to enable. |
| AgentFileToggle.Disable | pi-subagents/src/agent-file-toggle.ts:154-161 | The splice equals the edit function. |
| RateLimiter.WindowHoldsAtMostSixty | pi-routines/src/server.ts:93-105 | With a clock that never goes back every half-open minute holds at most sixty accepted requests. |
| RateLimiter.StoredIsTheWindow | pi-routines/src/server.ts:96-103 | What is stored is all that was accepted in the last minute, at most sixty times. |
| RateLimiter.RefusedIff | pi-routines/src/server.ts:93-105 | While the clock does not go back a request is refused exactly when sixty were accepted in the minute before it. |
| RateLimiter.LimitHoldsIff | pi-routines/src/server.ts:94-97 | A clock keeps the limit, however many requests come at each of its readings, exactly when it never goes a window ahead of a reading and then back to within a window of it. |
| RateLimiter.SetBackBreaksTheLimit | pi-routines/src/server.ts:94-97 | An input for the failing half: sixty requests, one that prunes them, and one back in their window. |
| RateLimiter.ServerState.IsRateLimited | pi-routines/src/server.ts:93-105 | Equals the request step on one routine's list and leaves every other list alone. |

## Left out

- The language-model sessions, `runAgent`, git commands, the HTTP server, the `gh` process, widgets and menus: their answers are parameters of the events.
- Callbacks (`onStart`, `onComplete`, delivery) are taken not to throw and not to call back into the manager, and `createWorktree` to answer rather than reject; a rejection would leak the slot.
- Agent ids are fresh by assumption; a record is a value in a map that keeps evicted ones, since closures still hold them.
- AgentManagerClass.AgentManager.Spawn: does not model results, usage counters, notifications or the timestamps of a record.
- `waitForAll` is not modelled; it may return while stopped runs have not settled.
- AgentNames.NameTable.ResolveMention: leaves the choice by start time among several answers open, because a sound namespace has only one.
- GroupJoin.GroupJoinManager.OnAgentComplete: a delivered group leaves the map in the same call, so the `delivered` flag has no state of its own.
- The fire queue's session start (guard reset, store load) is a fresh session followed by rehydration; the await inside it is not interleaved with other events.
- Capturing deferred hooks at shutdown, their pruning by age, and the once-markers of hooks: whether a hook is due is a parameter.
- FireCatchUp.SurvivorsKeepTheirPlaceIff: the order in which the routines are walked is that of the list given; the times of last fires and creation come with it.
- FireLife.SessionsKeepTheDailyCap: speaks of a routine whose limits do not change, and of a store file that holds what the session last had in memory; a process that ends before a write reaches the disk is not modelled.
- FireInvariants.OneHookAnOffer: speaks of one offer; that hooks are offered on user-driven turns only is not modelled.
- AgentRuns.RoomMeansDrainOwed: does not tie the drain that is owed to the pool with room; a startup that failed before it took a slot owes one as well.
- AgentNames.HandleBase: states the shape of the slug only; letters outside ASCII are not lower-cased.
- CronSunday.FieldOfSafeParts: one way only, because another part may bring the days an unsafe one loses (`AnotherPartMayHelp`); for single parts `SevenIsSundayIff` is exact.
- CronSunday.SevenIsSundayIff: speaks of parts written with numbers, a star, a dash and a slash, read by any conversion that is right on printed numbers.
- GithubBranches.EveryCommitIsHandedOnce: the branches a trigger names do not change during the run.
- StoreSanitizer.StoreStableIff: the host's time zone test, name patterns and text sizes are parameters; object names inherited from every object are not looked up.
- The migration of the oldest store schemas, apart from the once-marker it adds, and reading or writing the file itself.
- Times and counts in JSON are real numbers; strings are sequences of Unicode scalar values, so lone surrogates do not occur and a length counts scalar values.
- PlanTools.RunKeepsSound: a new intent carries none of the tools' own stamps, and other tools change statuses only, not this metadata; deleted plan tasks are not modelled.
- GithubPoller.ChronologicalReversesIff: when known and unknown times mix against the feed order the comparison does not fix the order a sort gives; the model inserts one event at a time. That each event comes out once does not depend on it.
- GithubPoller.EveryArrivalIsHandedOnce: the feed only grows at its new end; pull requests re-sorted by their last update and commits that a merge lists below the newest one are outside it.
- The warning for a missing `gh` is logged once; logging is not modelled.
- Cron.NextCronFire: the calendar is any function from moments to fields; the largest representable date is not modelled.
- Cron.ExpandField: conversion of text to an integer is a parameter, and the set that is sorted at the end is kept sorted throughout.
- IntervalParser.ParseInterval: sums are exact reals, letters outside ASCII are not lower-cased, and a number too large for the source's arithmetic is reported as too long instead of unparseable.
- `parseOneOff`, the serialisers of agent files and `isEmptyStub` would only add easy members.
- AgentFileToggle.Disable: what counts as disabled already is asked of the loader's parser, a parameter.
- The token, host and body checks of the API server.
