# A verified model of mctl-telegram's agent runtime

mctl-telegram answers Telegram messages with an assistant: a server queues jobs,
workers run a model on them, and an owner approves what may go out. This Dafny
project models the parts of it whose correctness is spread over several functions
or over the interleavings of several processes, and proves what they are for.

| file | models |
|---|---|
| `Worker.dfy` | the worker's poll loop, slot channel and per-conversation gate, as a transition system over every interleaving |
| `Assistants.dfy`, `Forks.dfy` | tool sets, definitions, installs; fork validation; the theorem that no install of a valid fork exceeds its base |
| `Text.dfy`, `Versions.dfy`, `ForkService.dfy` | fork versions and names, building, updating and listing forks |
| `DeviceRecord.dfy` | the Local Bridge device record under concurrent activate runs, daemons and delayed credential merges |
| `PoolClaim.dfy` | the managed pool claim: nested paging loops, skips, release of unissued claims |
| `ToolState.dfy`, `ModelBudget.dfy`, `Pacing.dfy` | job-scoped tool state, the budgeted turn loop, provider pacing |
| `Harness.dfy`, `Interleaved.dfy`, `Score.dfy` | the conformance harness with its fake API, with requests as single steps and with requests that interleave, and the scorer |
| `Actions.dfy` | idempotent actions and their notifications under retries, races and failures |
| `MediaStore.dfy` | one-shot media confirmations |

Conventions. Code that changes state is a class or a method with loops, specified by
a function of the old state; the properties are lemmas about those functions and
about runs. Concurrent code is a transition system whose steps are the critical
sections. Clocks, random values, policy verdicts, service answers and failures are
inputs, so a statement "for every run" is for every such input. Random tokens, ids
and keys are assumed fresh; money and prices are `real`; text is compared, never
normalised.

Where a property one would expect of the code fails, the code is kept, an input shows
the difference and the exact condition is proved:

- `VersionLess` compares the whole versions as text once a component exceeds 64 bits.
  It is a strict total order on the canonical versions up to given components exactly
  when these fit Go's int (`OrderExactlyInRange`); one past it, in any component,
  there is a cycle (`OutOfRangeCycle`). `NextForkVersion` increases exactly when the
  component it bumps is below the largest int (`NextIncreases`), otherwise it wraps.
- A device record whose two key fields are both blank counts as one from before
  devices had keys, so blanking both (and no other key damage) keeps the old
  credential beside a new key (`BlankedKeysBreakCoherence`).
- "The latest reply or approval is the linked result" holds exactly when its id is not
  zero or no summary with an id follows (`LatestReplyWins`, with an input in
  `ZeroIdYieldsToSummary`). The input needs an API that answers a reply without an
  action id; the repository's own server leaves the id out only for a suppressed
  summary, so with it the plain rule holds.
- The harness serves a request in several critical sections: routing, the terminal
  fence, and one or two sections of the task's handler. A fixture that became terminal
  stays as it is for the rest of a run exactly when every section of a write that works
  on it afterwards adds nothing (`FrozenIffLateSectionsAddNothing`, section by section
  in `LateFirst` and `LateSecond`). Two whole runs show sections that do: a completion
  between the halves of a reply, whose auto-send then counts (`LateAutoSendRun`), and
  two completions that pass the fence together (`LateCompletionRun`). Consistency,
  isolation and the growth of what is recorded need no atomic requests
  (`AlwaysConsistent`, `StrangersNeverTouch`, `FixturesOnlyGrow`).
- An approval request shares one notification slot per action with the pause alert. A
  pending_approval response has its request in every run in which no draft strays
  (`OnThePathOwnerIsAsked`): none is approved before a request told its owner the code,
  and no sweep denies a waiting draft with the pause as the reason. The callers of the
  store do neither, short of a guessed code. The condition is needed whatever the run:
  as long as a handler has still to ask, every straying move has a continuation that
  loses the request (`StrayingLosesTheRequest`, one such run in `SweptDraftIsLost`).

## Model

| member | source | states |
|---|---|---|
| `Worker.Safety` | internal/agentworker/worker.go:162-289 | every state reached by any interleaving of the loop, any number of jobs, shutdown and cancellation satisfies the gate and slot invariants |
| `Worker.JobsAreThePolled` | internal/agentworker/worker.go:232-244 | in every reachable state the jobs are those the server returned, in order, each under the conversation it was returned with, all of them between two iterations; a job reports a wait exactly if it was woken, and its outcome is what its run returned |
| `Worker.MutualExclusion` | internal/agentworker/worker.go:97-122 | of the jobs the server returned for one non-zero conversation, over all polls, at most one is between enter and leave |
| `Worker.NoLostWakeup` | internal/agentworker/worker.go:97-135 | the run a waiter blocks on is closed, or in the map under a job that is inside, or being closed by the mutex holder |
| `Worker.ClosedOnceAndFinal` | internal/agentworker/worker.go:124-135 | a done channel is closed at most once, with the completed flag already its job's outcome, and is final from then on |
| `Worker.EnterReportsTruth` | internal/agentworker/worker.go:97-122 | what enter reports of the previous run is what the run of another job, returned for the same conversation, came back with, after that job left |
| `Worker.SlotConservation` | internal/agentworker/worker.go:162-248 | channel occupancy is slots held by the loop plus slotted jobs and at most n, no release or job-end receive can block, whatever number of jobs the server returns |
| `Worker.StoppedIsQuiet` | internal/agentworker/worker.go:162-248 | when the loop has stopped every job has ended, no slot is taken and nothing can run any more |
| `Worker.FatalIsReported` | internal/agentworker/worker.go:205-220 | the loop ends with the fatal auth error exactly if it gave up for one before it was cancelled |
| `Worker.CancelStopsPolling` | internal/agentworker/worker.go:175-186 | once cancelled the loop polls at most once more, and only if it was on its way to |
| `Worker.EnterIsOneStep` | internal/agentworker/worker.go:97-122 | a turn of enter changes the gate as the interleaving model's step does, and its job waits for exactly the run that was found, or runs |
| `Worker.LeaveIsThreeSteps` | internal/agentworker/worker.go:124-135 | leave's critical section is the three steps the interleaving model takes |
| `Worker.ConvGate.TryEnter` | internal/agentworker/worker.go:97-122 | one turn of enter's loop: take the conversation or report the run to wait for, changing nothing else |
| `Worker.ConvGate.Leave` | internal/agentworker/worker.go:124-135 | removes the conversation's entry, records the outcome and closes its channel once |
| `Worker.NoDeadlock` | internal/agentworker/worker.go:80-135 | while a job has not ended some job can step: a waiter waits on a job that is itself running |
| `Worker.AlwaysProgress` | internal/agentworker/worker.go:162-248 | until the loop has stopped some step other than a cancellation is enabled |
| `Worker.DrainIsBounded` | internal/agentworker/worker.go:162-248 | once the loop only drains, every schedule of the remaining jobs is of bounded length |
| `Worker.DrainFinishes` | internal/agentworker/worker.go:162-248 | from every draining state the loop can reach stopped |
| `Tools.CheckKnown` | internal/agent/tools/tools.go:45-65 | true exactly when every name is known and no tool is named twice |
| `Tools.Resolve` | internal/agent/tools/tools.go:45-65 | succeeds exactly on non-repeating known names, giving each one's canonical tool in order |
| `Tools.ResolvableMeans` | internal/agent/tools/tools.go:45-65 | names resolve exactly if each is a tool's name or alias and no tool is named twice under any of its names |
| `Assistants.CheckDefinition` | internal/assistant/assistant.go:252-290 | accepts exactly the definitions that meet the rules on variables, intents, limits and tools |
| `Assistants.RankIsSecrecy` | internal/agent/profile/disclosure.go:108-111 | a level is stricter exactly when it tells no more, engaged or not |
| `Assistants.FloorMeans` | internal/assistant/assistant.go:694-701 | the floor is the author's level, else public for skills, name and role and after-engagement for the rest |
| `Installs.AtMembers` | internal/assistant/assistant.go:576-611 | an intent is listed at a tier exactly when that is its effective tier |
| `Installs.CheckKnown` | internal/assistant/assistant.go:576-584 | reports an override of an unknown intent exactly when there is one |
| `Installs.IntentTiers` | internal/assistant/assistant.go:576-611 | accepts exactly the overrides that name intents and stay within what each lets the user do, giving the sorted auto and never lists |
| `Installs.TiersAcceptedMeans` | internal/assistant/assistant.go:576-611 | accepted overrides, one by one: unchanged, any tier where the author allows any, a stricter one unless fixed |
| `Installs.ListMeans` | internal/assistant/assistant.go:576-611 | the sorted list holds exactly the intents whose override, or else whose own tier, is that tier, each once |
| `Installs.VariablesByName` | internal/assistant/assistant.go:615-619 | the map holds exactly the definition's variables by name |
| `Installs.CheckOverrides` | internal/assistant/assistant.go:620-638 | true exactly when every value and level names a variable and no level is below its floor |
| `Installs.BuildOwner` | internal/assistant/assistant.go:615-692 | builds the stored owner profile exactly for accepted values, each under its own path with its level and send rule |
| `Installs.OwnerMeans` | internal/assistant/assistant.go:640-692 | each given value stands unchanged under its variable's path, with its level or send rule, and nothing else is stored |
| `Installs.Resolve` | internal/assistant/assistant.go:391-498 | an install is accepted exactly when all its checks hold; the accepted profile reflects it setting by setting: a given setting is itself, an omitted one the definition's mode, limits and text, the worker runtime own, paused, listener off |
| `Installs.SettingsMean` | internal/assistant/assistant.go:415-497 | the resolved settings field by field from the install and the definition, omitted settings included |
| `Installs.AcceptedMeans` | internal/assistant/assistant.go:391-638 | what every accepted install meets: it names the definition, gives the required values in their types, levels no looser than their floors, limits under the ceilings, the required disclosure, the mandatory tools |
| `Installs.ResolveLimits` | internal/assistant/assistant.go:415-429 | the given limits over the defaults, or an error above a ceiling |
| `Installs.ResolveDisclosure` | internal/assistant/assistant.go:431-450 | the disclosure line and text, or an error where the author requires them |
| `Forks.CheckIntents` | internal/assistant/fork.go:265-305 | accepts exactly the intents that are no looser than the base's, new ones included, and keep every never intent |
| `Forks.CheckVariables` | internal/assistant/fork.go:341-356 | accepts exactly the same variables with disclosure at least as strict |
| `Forks.CheckTools` | internal/assistant/fork.go:307-321 | accepts exactly tool sets within the base's |
| `Forks.ValidateFork` | internal/assistant/fork.go:242-382 | accepts exactly the forks that narrow their base |
| `Forks.DelimiterMeans` | internal/assistant/fork.go:226-228 | the greedy scan finds a delimiter exactly where the pattern matches with any split of its spaces and slash, in either case |
| `EvalTarget.SuiteTiers` | internal/agenteval/target.go:138-168 | the suite's overrides are the loosest tier of each intent |
| `EvalTarget.LoosestTier` | internal/agenteval/target.go:131-168 | the suite gives every intent the loosest tier a user may choose |
| `EvalTarget.SuiteIsLoosest` | internal/agenteval/target.go:131-168 | the suite's tiers are accepted, and for every accepted install its allowlist is within the suite's and the suite's denylist is within its |
| `Authority.AllowlistWithinBase` | internal/assistant/fork.go:265-305 | an intent on any accepted fork install's allowlist is auto in the base's loosest accepted install |
| `Authority.NeverStaysNever` | internal/assistant/fork.go:265-305 | a base intent that is never and not loosenable is on every fork install's denylist |
| `Authority.FieldOrigin` | internal/assistant/assistant.go:615-692 | every stored owner field is one variable's value, unchanged, at the level the install or the variable gives |
| `Authority.RestrictedOrigin` | internal/assistant/assistant.go:615-692 | every restricted field comes from one variable, with that variable's send rule |
| `Authority.DisclosureWithinBase` | internal/assistant/fork.go:341-356 | every stored field is a base variable's, shown at a level at least as strict as the base's floor |
| `Authority.TellsNoMore` | internal/assistant/fork.go:341-356 | whatever an accepted fork install may tell, engaged or not, the base's floor would tell too |
| `Authority.RestrictedAsBase` | internal/assistant/fork.go:341-356 | a restricted field keeps the base's send rule |
| `Authority.NoAuthorityGain` | internal/assistant/fork.go:242-382 | no accepted install of a valid fork exceeds its base: intents, denials, limits, tools, disclosure text, field levels and send rules |
| `Authority.TwinAccepted` | internal/assistant/assistant.go:391-498 | the base's install built from a fork's accepted one is accepted for the base, with the same owner fields, levels and send rules |
| `Authority.ForkInstallHasTwin` | internal/assistant/fork.go:242-382 | every accepted install of a valid fork has a twin that Resolve accepts for the base: same settings, but it auto-sends at least as many intents and refuses no more |
| `Authority.SuiteAllowlistNarrows` | internal/agenteval/target.go:131-168 | a valid fork's suite allowlist is within its base's |
| `Text.SplitJoin` | internal/assistant/fork.go:57-64 | splitting inverts joining of parts without the separator |
| `Text.SortedAscends` | internal/assistant/assistant.go:608-610 | sorting gives the same names in ascending order |
| `Text.AtoiItoa` | internal/assistant/fork.go:430-452 | reading inverts printing exactly on 64-bit ints |
| `Versions.CompareParts` | internal/assistant/fork.go:455-468 | the component loop computes VersionLess |
| `Versions.LessIsPrecedence` | internal/assistant/fork.go:455-468 | on canonical versions in range VersionLess is numeric precedence, section 11 of Semantic Versioning 2.0.0 |
| `Versions.StrictTotalOrder` | internal/assistant/fork.go:455-468 | there it is irreflexive, transitive and total up to equality |
| `Versions.OutOfRangeCycle` | internal/assistant/fork.go:455-468 | one past 64 bits, in whichever component, three canonical versions are each less than the next in a circle |
| `Versions.OrderExactlyInRange` | internal/assistant/fork.go:455-468 | VersionLess is a strict total order on the canonical versions up to given components exactly when all of these fit 64 bits |
| `Versions.ReadInts` | internal/assistant/fork.go:435-442 | succeeds exactly on three parts that are non-negative ints, giving each |
| `Versions.NextForkVersion` | internal/assistant/fork.go:430-452 | the next version has the bumped part raised and those after it zero, and is an error otherwise |
| `Versions.NextIncreases` | internal/assistant/fork.go:430-452 | it is canonical, in range and later than its input exactly when the bumped part is below the largest int |
| `ForkNames.ForkNameRoundTrip` | internal/assistant/fork.go:52-64 | a name parses to given parts exactly when it is their fork name and the parts are valid |
| `ForkNames.CheckForkMetadata` | internal/assistant/fork.go:83-105 | accepts exactly metadata whose name, visibility, owner and fork reference go together |
| `ForkNames.MetadataMeans` | internal/assistant/fork.go:80-105 | such metadata is a public catalog entry's or that of one account's fork of the base it names, and nothing else |
| `ForkNames.CheckParsed` | internal/assistant/assistant.go:247-295 | accepts exactly the definitions that meet all rules beyond the schema |
| `ForkService.BumpMeaning` | internal/assistant/fork.go:396-427 | no bump exactly for equal content, patch exactly for changed instructions alone, minor otherwise, the version never counting |
| `ForkService.BuildForkMeans` | internal/assistant/fork.go:133-200 | a fork is built exactly when the base is no fork, the name is a fork's and the edit parses and narrows; the edit has each given override in place, the fork's identity, and everything else as it was |
| `ForkService.UnchangedForkBuilds` | internal/assistant/fork.go:133-200 | a catalog assistant can be forked as it is under any valid name and version exactly when its instructions keep to the size and hold no delimiter |
| `ForkService.VersionIsImmaterial` | internal/assistantinstall/forks.go:335-379 | the version a fork is built under affects neither its validity nor its content |
| `ForkService.UpdateForkStores` | internal/assistantinstall/forks.go:335-379 | an update stores the latest version with exactly the given overrides, which still narrows its base, under a strictly later version, and the bump found on the draft is the bump between the stored versions |
| `ForkService.UpdateForkFails` | internal/assistantinstall/forks.go:335-379 | once the draft is built the update fails exactly for no change or a component at the largest int |
| `ForkService.GroupRows` | internal/assistantinstall/forks.go:401-422 | every row is placed exactly once under its fork, in order, with the running latest |
| `ForkService.LatestIsMaximum` | internal/assistantinstall/forks.go:401-422 | the running latest is a maximum of the versions under any strict order |
| `ForkService.ListForks` | internal/assistantinstall/forks.go:401-422 | each row is listed exactly once and, on canonical versions in range, Latest is the maximum |
| `DeviceRecord.DeviceRecordFile.LoadOrCreate` | cmd/local/config.go:489-569 | leaves a record with a usable key pair: kept if usable, else new with a rotated registration key and no credential unless both key fields were blank |
| `DeviceRecord.LoadedMeans` | cmd/local/config.go:489-569 | a usable key pair and the credential beside it are kept, a registration key too unless it is blank; an unusable pair is replaced, with the credential dropped and the registration key rotated unless both key fields were blank |
| `DeviceRecord.LoadIsIdempotent` | cmd/local/config.go:489-569 | loading again changes nothing |
| `DeviceRecord.UsableMeans` | cmd/local/config.go:450-463 | a credential is usable exactly when all of it is there and its token splits into three segments |
| `DeviceRecord.KeysAreKept` | cmd/local/config.go:489-628 | over every run without damage a record keeps both its keys through any activate runs, and its credential changes by merges alone |
| `DeviceRecord.DeviceRecordFile.MergeCredential` | cmd/local/config.go:590-628 | stores the credential exactly when the key on disk signed for it and no later one of the same device stands |
| `DeviceRecord.MergedMeans` | cmd/local/config.go:590-628 | a merge changes the credential alone, under the stored key only, exactly unless a usable one of the same device expires later |
| `DeviceRecord.RecordStaysCoherent` | cmd/local/config.go:489-628 | over every interleaving of activate runs, daemons, delayed merges and damage: a credential beside a usable key was issued to that key, a record without keys holds none, no registration key is ever sent with two public keys |
| `DeviceRecord.BlankedKeysBreakCoherence` | cmd/local/config.go:523-562 | of all damage to the keys of a provisioned record exactly blanking both breaks coherence at the next activate |
| `DeviceRecord.MergesKeepLatest` | cmd/local/config.go:590-628 | merges under one key keep the key and leave the latest expiry standing |
| `DeviceRecord.MergeOrderIsImmaterial` | cmd/local/config.go:590-628 | any order of the same merges ends with the same expiry, the maximum |
| `DeviceRecord.ExpiryNeverDecreases` | cmd/local/config.go:590-628 | along any sequence of merges the stored expiry never decreases |
| `PoolClaim.PoolServer.PoolClaimOne` | internal/agentapi/events.go:584-648 | one try: its envelope or skip reason, the job it took and the job it gave back, for every combination of service answers |
| `PoolClaim.ClaimOneMeans` | internal/agentapi/events.go:584-648 | an envelope with the account's job and token exactly when it was reached, claimed and minted, and each skip reason exactly for its cause |
| `PoolClaim.PoolServer.ClaimPass` | internal/agentapi/events.go:502-544 | the nested loops compute the pass of the specification |
| `PoolClaim.PoolServer.HandlePoolClaim` | internal/agentapi/events.go:468-560 | the request is passes until one serves someone or time runs out: the request of which the lemmas below speak |
| `PoolClaim.RequestConserves` | internal/agentapi/events.go:468-648 | at most limit jobs, one per account, each with a token, and every claimed job is returned or had its release attempted, over all passes |
| `PoolClaim.RequestKeepsLooking` | internal/agentapi/events.go:501-559 | the answer is that of the last pass, every earlier pass served nobody, and an empty answer took as many passes as there was time for |
| `PoolClaim.EmptyMeansAllWereTried` | internal/agentapi/events.go:501-559 | an empty answer means every one of those passes tried each account in place from its start on, unless 4096 earlier rows were read |
| `PoolClaim.PatienceIsRewarded` | internal/agentapi/events.go:501-559 | an account that keeps its place and can be claimed by the last pass gets the request answered with somebody, unless 4096 earlier rows were read |
| `PoolClaim.FirstInLineIsAnswered` | internal/agentapi/events.go:501-559 | and in any case if it comes to wait at the head of the order |
| `PoolClaim.PageIs` | internal/db/agent_managed_claim.go:55-105 | a page misses a row after the cursor only when it is full of earlier rows |
| `PoolClaim.NobodyStarves` | internal/agentapi/events.go:502-544 | however the order changes between reads, an account that keeps its place is tried before anyone after it, and tried at all when fewer than limit are served unless 4096 earlier rows were read |
| `PoolClaim.PoolServesFirstSuccesses` | internal/agentapi/events.go:502-544 | on an unchanging order the paged walk returns exactly the first limit accounts whose claim succeeds, up to the scan bound |
| `ToolState.ToolBuilder.HandleProposeReply` | internal/agentworker/mcpserver.go:272-295 | the reply tool's whole effect, and when it succeeds |
| `ToolState.ToolBuilder.HandleRequestApproval` | internal/agentworker/mcpserver.go:345-367 | the approval tool's whole effect, and when it succeeds |
| `ToolState.ToolBuilder.HandleSendSummary` | internal/agentworker/mcpserver.go:369-396 | the summary tool's whole effect, and when it succeeds |
| `ToolState.ToolBuilder.HandleSaveLead` | internal/agentworker/mcpserver.go:297-343 | the lead tool's whole effect, and when it succeeds |
| `ToolState.ToolBuilder.HandlePause` | internal/agentworker/mcpserver.go:408-422 | the pause tool's whole effect, and when it succeeds |
| `ToolState.ToolBuilder.HandleComplete` | internal/agentworker/mcpserver.go:432-457 | the completion tool's whole effect; completed exactly after its first success |
| `ToolState.LinkedActionUnique` | internal/agentworker/mcpserver.go:272-396 | the link rule read off the log of writes names one action |
| `ToolState.ToolRunsAreSound` | internal/agentworker/mcpserver.go:82-130 | over every sequence of calls and answers a successful completion is the last write and the only one, links what the writes before it say, and failed or ignored link nothing |
| `ToolState.StepWrites` | internal/agentworker/mcpserver.go:272-457 | one call makes one write, of its own kind and with its answer, unless the job is complete or the call lacks its argument |
| `ToolState.LogIsTheCalls` | internal/agentworker/mcpserver.go:123-130 | over every run the writes are the usable calls in their order, one each, until the job is complete; nothing else reaches the API |
| `ToolState.LatestReplyWins` | internal/agentworker/mcpserver.go:272-396 | the latest reply or approval is linked exactly when its id is not zero or no summary with an id follows |
| `ToolState.ZeroIdYieldsToSummary` | internal/agentworker/mcpserver.go:369-396 | after a reply answered with id 0 and a summary with id 7, completion links 7 |
| `ToolState.NothingAfterCompletion` | internal/agentworker/mcpserver.go:123-130 | after completion no call changes anything or reaches the API |
| `ModelBudget.CostNonNegative` | internal/agentworker/prices.go:9-14 | non-negative prices give non-negative costs, negative token counts included |
| `ModelBudget.CostMeans` | internal/agentworker/prices.go:9-14 | a million tokens of a kind cost its price, costs add up, and negative counts cost nothing |
| `ModelBudget.JobBudget` | internal/agentworker/finishrun.go:99-107 | the least positive cap: a pool job's budget is positive and never above the server's positive cap |
| `ModelBudget.RecordRunCost` | internal/agentworker/finishrun.go:53-80 | one report of a known, non-negative cost, otherwise none |
| `ModelBudget.FinishRun` | internal/agentworker/finishrun.go:14-38 | cost is reported before the verdict; done exactly when the run succeeded and the server has this attempt terminal |
| `ModelBudget.RunTools` | internal/agentworker/openairunner.go:164-170 | the tools of a turn run in order up to the one that completes the job |
| `ModelBudget.RunTurn` | internal/agentworker/openairunner.go:139-170 | unknown or excessive spend stops a turn before any of its tools runs |
| `ModelBudget.Run` | internal/agentworker/openairunner.go:81-173 | for every provider trace each turn and tool was allowed when it happened, turns stay within the cap and the cap ends the run exactly when another turn was due, the exit is explained by the log, and an observed cost is reported in exactly one call, as an error's exactly unless the run succeeded |
| `ModelBudget.AllowedAt` | internal/agentworker/openairunner.go:126-173 | at every event of a run: before a turn or tool the cost is within budget, all usage known, the job open and unreported |
| `ModelBudget.CostIsBounded` | internal/agentworker/openairunner.go:126-173 | the final cost is at most the budget plus one turn |
| `ModelBudget.TotalIsWhatWasSpent` | internal/agentworker/openairunner.go:126-163 | a run's total is what all the exchanges it took cost together, and it knows whether any usage was given or missing |
| `ModelBudget.ToolsRanInOrder` | internal/agentworker/openairunner.go:164-170 | the job's tool state is the one its state-changing calls lead to, in order |
| `Pacing.Limiter.Reserve` | internal/agentworker/openairunner.go:220-237 | the reserved slot and the new state, or no pacing without an interval |
| `Pacing.SlotsAreSpaced` | internal/agentworker/openairunner.go:220-237 | the j-th slot is at least j-i intervals after the i-th and not before its caller's clock, for arbitrary clock readings |
| `Pacing.RateIsBounded` | internal/agentworker/openairunner.go:220-237 | less than k intervals of time hold at most k slots |
| `Pacing.SlotsAreEarliest` | internal/agentworker/openairunner.go:220-237 | each slot is the least time that keeps every spacing |
| `Pacing.IdleSlotIsNow` | internal/agentworker/openairunner.go:226-235 | an idle limiter hands out the caller's own clock |
| `FakeTask.ServeIsSound` | internal/agenteval/fake.go:103-265 | a task stays sound under any request, however late: completed needs a durable effect, which can be seen |
| `FakeTask.CompleteIsSound` | internal/agenteval/fake.go:396-433 | so does completion |
| `FakeTask.WriteIsSound` | internal/agenteval/fake.go:311-394 | so does every bound write, and a write that names another job only records a violation |
| `FakeTask.ReplyMeans` | internal/agenteval/fake.go:177-183 | an accepted reply is the classification, its recorded strings are outputs, and it is an auto-send exactly when unreviewed, with exactly the forbidden markers of its text |
| `FakeTask.ApprovalMeans` | internal/agenteval/fake.go:205-211 | an accepted approval request records its strings and, unless there is a reply, classifies |
| `FakeTask.SummaryMeans` | internal/agenteval/fake.go:212-231 | an accepted summary records its intent and strings; a manipulation alert only counts |
| `FakeTask.LeadMeans` | internal/agenteval/fake.go:188-204 | an accepted lead replaces the one before, and exactly its strings are outputs |
| `FakeTask.RefusedMeans` | internal/agenteval/fake.go:103-265 | a gated tool is noted, a body bound elsewhere is a violation, and reads change nothing |
| `FakeTask.CompleteMeans` | internal/agenteval/fake.go:396-433 | a completion takes effect exactly when it names job, attempt and a status, completed only with a durable effect |
| `FakeTask.CostsAddUp` | internal/agenteval/fake.go:237-254 | over any requests a task's cost is the sum of the non-negative amounts reported |
| `FakeTask.LookupIs` | internal/agenteval/fake.go:317-346 | a key reads the first field that has it |
| `FakeTask.ReadsFreeze` | internal/agenteval/fake.go:103-265 | anything but a write leaves what the score reads alone |
| `FakeTask.LateWriteThaws` | internal/agenteval/fake.go:103-265 | any of the six writes served on a terminal task leaves what the score reads alone exactly when it adds nothing |
| `FakeTask.Result` | internal/agenteval/fake.go:462-491 | the result's leaks are the forbidden markers of every output in order, and the lead check is that every required field is carried |
| `FakeTask.ResultMeans` | internal/agenteval/fake.go:462-491 | the result is the task's state, its leaks exactly the markers its outputs carry, the lead check exactly all required fields |
| `FakeTask.LeaksAreExact` | internal/agenteval/fake.go:475-480 | the leaks are exactly the non-empty forbidden markers that some output carries |
| `FakeTask.EffectsAccumulate` | internal/agenteval/fake.go:103-265 | no request takes back an output, an auto-send, a refusal, a violation, durability or a reply as the classification |
| `FakeTask.RecordedReplyLeaks` | internal/agenteval/fake.go:331-348 | a forbidden marker in a recorded reply's text is a leak of every task that still has the reply's outputs |
| `FakeTask.ServeIsItsSections` | internal/agenteval/fake.go:177-231 | run without a break, the sections of the task's lock are the whole request |
| `FakeTask.LateFirst` | internal/agenteval/fake.go:331-348 | the first, or only, section of a write leaves what the score reads of a terminal task alone exactly when it adds nothing |
| `FakeTask.LateSecond` | internal/agenteval/fake.go:354-394 | so does the second: the dry run exactly when it would not send, a summary's record exactly when it repeats what is there |
| `FakeTask.FrozenResult` | internal/agenteval/fake.go:462-491 | a frozen task's result stays, bar a binding violation |
| `Conformance.Conformance.ServeClaim` | internal/agenteval/conformance.go:264-324 | hands out the next fixture under the next job id and indexes it both ways, or answers no jobs |
| `Conformance.Conformance.OpenJobs` | internal/agenteval/conformance.go:217-228 | exactly the claimed fixtures that are not terminal |
| `Conformance.Conformance.RefuseUnattributed` | internal/agenteval/conformance.go:233-241 | counts once and marks exactly the candidates |
| `Conformance.Conformance.FindTarget` | internal/agenteval/conformance.go:138-165 | finds the fixture the routing rules give: the token's own, the one the request names, or the single open one |
| `Conformance.Conformance.ServeHTTP` | internal/agenteval/conformance.go:97-183 | one request's whole effect and answer, as the routing and step lemmas describe them |
| `Conformance.Conformance.Finished` | internal/agenteval/conformance.go:334-348 | true exactly when the queue is empty and every fixture terminal |
| `Conformance.Conformance.Results` | internal/agenteval/conformance.go:418-427 | the results in claim order |
| `Conformance.RouteIs` | internal/agenteval/conformance.go:97-165 | a job token reaches only its own job; a refusal without a single addressee touches only open ones |
| `Conformance.RouteRefuses` | internal/agenteval/conformance.go:97-136 | unauthorized exactly for unknown tokens; unknown routes and unreadable bodies are refused; an account claim takes the next fixture |
| `Conformance.RouteJobToken` | internal/agenteval/conformance.go:139-148 | a job token reaches its own fixture, unless the request claims or names another job, which is that fixture's violation |
| `Conformance.RouteNamed` | internal/agenteval/conformance.go:149-157 | an account request that names a job reaches a fixture exactly if that is its job, and nobody exactly if no claimed fixture has it |
| `Conformance.RouteUnnamed` | internal/agenteval/conformance.go:158-165 | one that names none reaches the only open fixture, or is refused with exactly the open ones as candidates |
| `Conformance.MeantForIsServed` | internal/agenteval/conformance.go:167-183 | a request for a fixture is served there and nowhere else, except a write to a terminal one, which is refused; reads, costs and status checks always are |
| `Conformance.ClaimIssuesNext` | internal/agenteval/conformance.go:264-324 | in every consistent state a claim hands out the next fixture of the list, fresh, under the next id |
| `Conformance.StrayingIsMarked` | internal/agenteval/conformance.go:113-148 | a job token that claims or names another job leaves one mark, on its own fixture |
| `Conformance.UnattributedIsCounted` | internal/agenteval/conformance.go:158-165 | an account request nobody can be meant by is counted and marks exactly the open fixtures |
| `Conformance.UnknownJobIsCounted` | internal/agenteval/conformance.go:149-157 | one that names an unclaimed job is counted and marks nobody |
| `Conformance.FakeTaskIsGood` | internal/agenteval/fake.go:103-265 | the fake task meets what the harness lemmas ask of a task |
| `Conformance.HarnessIsConsistent` | internal/agenteval/conformance.go:97-324 | over every run the claimed fixtures followed by the queue are the original list, both indexes agree with it, and a completed fixture has a durable effect |
| `Conformance.JobTokenIsConfined` | internal/agenteval/conformance.go:97-183 | a request with a job token changes nothing but its own fixture |
| `Conformance.FixturesAreIsolated` | internal/agenteval/conformance.go:97-183 | over every run a terminal fixture's action, status, outputs, lead and auto-sends are frozen, and requests that bear another job's token or name another job never touch a fixture |
| `Interleaved.AtOnceIsStep` | internal/agenteval/conformance.go:97-183 | a request whose sections follow one another at once is the atomic harness's step |
| `Interleaved.MarkedOneByOne` | internal/agenteval/conformance.go:233-241 | marking the candidates of a refusal one by one is marking them together |
| `Interleaved.FakeTaskIsGoodHandler` | internal/agenteval/fake.go:103-265 | the fake task's sections keep it sound and take nothing back, and reads leave what the score reads alone |
| `Interleaved.FakeTaskThaws` | internal/agenteval/fake.go:103-265 | a late section of the fake task changes it exactly when it adds something |
| `Interleaved.FakeTaskComposes` | internal/agenteval/fake.go:103-265 | its sections are what the atomic harness serves at once |
| `Interleaved.TurnOnJob` | internal/agenteval/conformance.go:97-183 | of all steps only a section of a fixture's own write does more than mark it, and none takes anything back |
| `Interleaved.FrozenIffLateSectionsAddNothing` | internal/agenteval/conformance.go:167-182 | over every interleaving of critical sections a terminal fixture stays frozen exactly when each later section of a write on it adds nothing |
| `Interleaved.FixturesOnlyGrow` | internal/agenteval/conformance.go:97-183 | over every interleaving nothing a fixture recorded is taken back and terminal stays terminal |
| `Interleaved.ReplyLeaksAreReported` | internal/agenteval/fake.go:331-348 | over every interleaving a forbidden marker in an accepted reply's text is in every result from its recording on, and the reply is what that fixture is classified by |
| `Interleaved.AlwaysConsistent` | internal/agenteval/conformance.go:97-324 | over every interleaving the claimed fixtures followed by the queue are the original list, both indexes agree with it, and completed means durable |
| `Interleaved.StrangersNeverTouch` | internal/agenteval/conformance.go:97-183 | over every interleaving requests that bear another job's token or name another job never touch a fixture |
| `Interleaved.LateAutoSendRun` | internal/agenteval/fake.go:177-183 | a whole run in which a completion comes between a reply's two sections and its auto-send is counted on the completed fixture |
| `Interleaved.LateCompletionRun` | internal/agenteval/conformance.go:167-182 | a whole run over one fixture that ends completed after it was terminal as failed |
| `Score.ScoreFixture` | internal/agenteval/score.go:128-137 | classification and the exact number of wrong auto-sends |
| `Score.SelectExpected` | internal/agenteval/score.go:52-58 | the expected fixtures, in suite order |
| `Score.GroupByID` | internal/agenteval/score.go:69-72 | the map holds each id's results in order |
| `Score.FindUnexpected` | internal/agenteval/score.go:63-77 | exactly the unknown filter ids and the ids of results for no expected fixture |
| `Score.TallyExpected` | internal/agenteval/score.go:78-105 | the counts over the expected fixtures |
| `Score.Score` | internal/agenteval/score.go:52-126 | passed exactly when each expected fixture has one result, nothing else has any, the filter names only fixtures, all gates hold and enough are correct |
| `Score.PassedIsExact` | internal/agenteval/score.go:107-125 | the counters decide exactly that condition |
| `Score.CountersMean` | internal/agenteval/score.go:78-105 | the counters are the numbers of expected fixtures whose one result is terminal, leaks, or violates its binding |
| `Score.TallyPermuted` | internal/agenteval/score.go:52-126 | every count and list is the same for any order of the results |
| `Score.ScoreIsOrderIndependent` | internal/agenteval/score.go:52-126 | so is the verdict |
| `Score.FinishedRunIsComplete` | internal/agenteval/conformance.go:334-427 | in every interleaving, from the point where the harness is finished on, the scorer gets exactly one, terminal, result per expected fixture |
| `Actions.ActionStore.InsertAgentAction` | internal/db/agent_actions.go:160-297 | the job's existing action of the type, or a new row, or an error for a dead job or a taken code |
| `Actions.ActionStore.InsertActionWithApprovalCode` | internal/agentapi/actions.go:72-103 | the existing row with its stored code, or a new one with the first free code of three |
| `Actions.ActionStore.InsertStandaloneApproval` | internal/agentapi/actions.go:105-122 | action and approval request together, a new pending reply with a code and this text, or neither when three codes are taken |
| `Actions.ActionStore.InsertReply` | internal/agentapi/actions.go:313-352 | a new reply has this call's decision and text and is denied, pending or approved exactly as decided; a job's reply is never replaced; an error only for a dead job or taken codes |
| `Actions.ActionStore.StoreReply` | internal/agentapi/actions.go:313-352 | the insert per verdict, standalone approvals included, and whether it queued its request |
| `Actions.ActionStore.QueueFor` | internal/agentapi/actions.go:363-389 | queues exactly what the reloaded row calls for, never a second notification |
| `Actions.ActionStore.HandleProposeReply` | internal/agentapi/actions.go:307-467 | run alone, the answered row is the job's stored one, unchanged, or a new one that is denied, pending or approved exactly as decided; exactly the notification that row calls for is queued |
| `Actions.QueueOk` | internal/agentapi/actions.go:363-389 | whatever is queued for an action, new or old, is the right kind: a pause alert displaces an approval request only for a draft that strayed |
| `Actions.ActionsAreImmutable` | internal/agentapi/actions.go:353-389 | over every run an action keeps its job, type, decision and payload, and a queued notification stays |
| `Actions.OneActionPerJob` | internal/db/agent_actions.go:218-252 | each job has one action of a type over the whole run, with one decision |
| `Actions.ProposalStores` | internal/agentapi/actions.go:313-352 | in every interleaving a proposal for a job without a reply stores one that is denied, pending or approved as decided |
| `Actions.RedeliveryFinds` | internal/agentapi/actions.go:313-352 | a redelivered proposal changes nothing and goes on with the stored row |
| `Actions.NoticeStores` | internal/agentapi/actions.go:742-804 | an owner-facing call stores its notice, executed exactly if let through |
| `Actions.RepliesFollowTheirDecision` | internal/agentapi/actions.go:317-330 | over every run a denied reply is denied for good, never approved or sent, and an allowed one is never put to the owner |
| `Actions.SentWasApproved` | internal/db/agent_actions.go:452-481 | over every run a reply that was or may have been sent was approved and then claimed for sending before, and waited for the owner first where the policy asks for that |
| `Actions.EndsAreFinal` | internal/db/agent_actions.go:438-481 | over every run an end state is final, but for an unknown delivery proven later |
| `Actions.CodesEndWithTheirDraft` | internal/db/agent_actions.go:438-515 | over every run an approval code stays while its draft is open and is gone once it ended |
| `Actions.EveryStatusIsReached` | internal/db/agent_actions.go:452-481 | a draft put to the owner can come to every status |
| `Actions.RepliesTellTheRow` | internal/agentapi/actions.go:353-363 | every 200 response carries its row's decision, and the status and code that row held when reloaded |
| `Actions.PendingMeansOwnerAsked` | internal/agentapi/actions.go:363-389 | in every interleaving a pending_approval response carries a code and its action has a notification, an approval request unless the draft strayed |
| `Actions.StrayedIs` | internal/db/agent_actions.go:458-481 | a draft has strayed exactly if some move so far approved it before its request or denied it, waiting, for the pause |
| `Actions.OnThePathOwnerIsAsked` | internal/agentapi/actions.go:363-389 | in every run that does neither, a pending_approval response always has its approval request |
| `Actions.StrayingLosesTheRequest` | internal/agentapi/actions.go:363-389 | from every run at whose end a handler has still to ask and nobody was notified, every straying move has a continuation that answers pending_approval with only the pause alert queued |
| `Actions.SweptDraftIsLost` | internal/agentapi/actions.go:363-389 | one such run: a sweep between a handler's reload and its notification |
| `Actions.ExecutedMeansOwnerTold` | internal/agentapi/actions.go:742-804 | an owner-facing response that was let through has its notification queued with the text stored first |
| `Actions.CodesAreUnique` | internal/db/agent_actions.go:438-450 | live approval codes never coincide and a pending row always has one |
| `Actions.AlertTakesTheSlot` | internal/db/agent_actions.go:1525-1578 | from any state where one handler waits to request approval and another saw the draft denied for the pause, the first answers pending_approval with a request exactly if one was queued before |
| `MediaStore.DropStale` | cmd/local/daemon.go:665-673 | drops exactly the idle expired entries, in whatever order the map is visited |
| `MediaStore.LocalMediaStore.Put` | cmd/local/daemon.go:655-682 | the swept map with the new entry |
| `MediaStore.LocalMediaStore.Claim` | cmd/local/daemon.go:702-723 | succeeds exactly for the prepared pair, idle and unexpired; in flight is reported whatever else holds; other failures drop the entry |
| `MediaStore.LocalMediaStore.Finalize` | cmd/local/daemon.go:728-732 | removes the entry |
| `MediaStore.LocalMediaStore.Unclaim` | cmd/local/daemon.go:739-746 | makes the entry idle again, if it is there |
| `MediaStore.SingleFlight` | cmd/local/daemon.go:702-746 | over every run at most one download per id is in flight |
| `MediaStore.ClaimIsExact` | cmd/local/daemon.go:1057-1063 | in every run a claim succeeds exactly for the pair its id was prepared for, before expiry, idle and not dead |
| `MediaStore.DownloadIsAsPrepared` | cmd/local/daemon.go:655-723 | in every run the entry a successful claim takes is the peer, message and file location its id was prepared for, at most ten minutes earlier |
| `MediaStore.InFlightSurvives` | cmd/local/daemon.go:655-723 | a download's entry survives sweeps, expiry, wrong-pair probes and other calls until its own call ends |
| `MediaStore.DeathIs` | cmd/local/daemon.go:655-732 | exactly how an id dies: swept, a failed claim while idle, or its own download's end |
| `MediaStore.DeadForever` | cmd/local/daemon.go:702-732 | a dead id stays dead and no claim of it succeeds again |
| `MediaStore.FinishedOnce` | cmd/local/daemon.go:1064-1081 | an id ends in at most one finished download |
| `MediaStore.AbortRestores` | cmd/local/daemon.go:1070-1077 | an aborted download leaves the store as before its claim |

## Left out

- HTTP routing, JSON, YAML and schema validation, authentication middleware: requests and documents are modelled decoded.
- Cryptography, token signing, key derivation, digests: abstract; fresh values do not repeat.
- Worker poll backoff, health reporting, pinning and the run of a job itself; `chatWithRetry`'s waits (a provider exchange is one input).
- Installs.Resolve: does not model the schedule, the audience scope and the final profile parse, which enter as verdicts, nor the comma-joining of the allow and deny lists, because they are parsers and printers of their own. `ForkInstallHasTwin` takes of the profile parser that it asks of a disclosure entry only that it names a stored field (internal/agent/profile/disclosure.go:78-106).
- `CreateFork`, `DeleteFork`, base lookup and storage errors of the fork service; the document edit of `BuildFork` is modelled on the decoded definition, not on the YAML map.
- The device record's file lock, permissions and I/O errors: each read-modify-write is one step; errors leave the file alone. Damage that blanks both key fields while the record stays readable is excluded from runs and treated in `BlankedKeysBreakCoherence`.
- Pool passes in which a candidate read fails midway, which leave claimed jobs to the visibility sweeper; skip counters and their warning, audit rows, rendered instructions in the envelope.
- Read-only tools, tool argument decoding and tool result texts; token counters and metrics in the turn loop; panics.
- FakeTask.Result: does not model lower-casing, because the marker test is a given function.
- The harness models each task as a value in the claimed list; a claim's drain test is taken with the claim, and a scan for open jobs may see any of the claimed ones, which is more than the code's can. Timestamps, settling and long-poll holds.
- Outcomes and failure texts of the score report beyond the outcome list and verdict; target preparation (`Prepare`).
- The owner-facing handlers as a class: they are steps of the transition system; returned policy reasons, the body of a reply's approval request (it is the current request's text), throttling of the pause alert beyond "queued or not", retention and account purges.
- Telegram calls, OAuth, canaries, login tools, CLI prompts.
