# routery: a verified model

`routery` is a Go library for routing requests and for surviving failures while doing so. This project models the
parts of it that keep state across concurrent callers, and proves what they promise over every run.

| Files | What they model |
|---|---|
| `Attempt`, `Schedule` | lifecycle facts of physical attempts, the replay decision, the Coordinator, start windows |
| `Receipt` | settlement of one attempt, interleaved step by step between any number of goroutines |
| `Sequence`, `Budget` | one dispatch (Boundary), the retry owner (Sequence), all users of one budget together |
| `Race`, `FirstPayload` | attempts racing each other; the first payload of parallel handlers |
| `Quota` | reservations settled against a backend over an unreliable network |
| `Lifetime`, `Bulkhead`, `Circuit` | ownership with hooks, permits, the circuit breaker |
| `Order`, `Compile`, `Dispatch`, `Conduct`, `Router`, `Inlining` | compiling mount graphs, dispatching through the tree, what every event and outcome is due to, the decision cache, mounts as one list |
| `Fingerprint`, `Topology` | the topology fingerprint of a compiled router as a canonical form |
| `Wrappers` | optional values, results and two facts about collections |

`dafny verify dfyconfig.toml` checks everything.

How concurrency appears. Code that runs in critical sections is given as functions on a state value; a run is an
arbitrary sequence of such steps, so a lemma about a run is a lemma about every interleaving. Where the source updates
an object, a class with the same fields is proved to take exactly those steps (`Coordinator`, `RaceControl`,
`SessionObject`, `CircuitBreaker`, `LifetimeObject`, `Compiler`, `RouteCall`). Boundary and Sequence are imperative
methods of a class `World`: every callback, clock reading, cancellation and every write by another goroutine is read
from a `Script` at a tick that advances with each question. The script is arbitrary, so a postcondition holds for
every host and every interleaving. What such a method must do, rather than what it may do, is stated for calm runs:
scripts in which nobody interferes, every callback succeeds and the clock stays within every deadline
(`Sequence.CooperativeRunsAreCalm` shows that there are some).

Conventions. An error value is a set of causes, the empty set being nil. Time is an integer, zero meaning "absent".
Phases, outcomes and admissions are machine bytes, so undeclared codes exist and are rejected as in the source.

What the proofs found out about the code.

- The authorization loop of a Sequence takes at most three passes, but not because the previous attempt is Terminal: the
  write that closes it may be refused by late facts. What holds is that an attempt to close leaves the facts Terminal
  or committed, and from either they can change at most twice more. `Sequence.World.Authorize` has the bound and
  `Sequence.ThreePassesHappen` shows that it is reached.
- A settled, error-free Receipt has delivered the current facts only if nobody updates the Coordinator behind its back.
  `Receipt.QuiescentReceiptIsSettled` has that condition and `Receipt.BypassLosesFacts` shows the loss without it.
- `earliestDeadline` takes a context deadline equal to the zero instant as the earliest and so erases every other
  deadline: `Schedule.ZeroContextDeadlineErases`. Deadlines provably tighten whenever no context reports that instant.
- A mounted table without a matching route returns a fresh "no route" result that replaces an earlier non-terminal
  result of its parent. So a list with the mounts plainly inlined does not always give the code's result:
  `Inlining.ListsCanDisagree` has the request, and `Inlining.PlainListAgreesExactly` says exactly when it does.

## Model

| member | source | states |
|---|---|---|
| `Attempt.HeadroomDecreases` | policy/attempt/coordinator.go:94-109 | facts that changed and are now Terminal have strictly less room to change again - at most two changes from a Terminal or committed event - which is the termination measure of authorization |
| `Attempt.ValidExactly` | policy/attempt/coordinator.go:157-168 | output is visible only after dispatch and never of an unexecuted attempt, and an outcome is known only at the end |
| `Attempt.DecideGrantsExactlySafeRepeats` | policy/attempt/decision.go:66-105 | a repeat is decided if and only if the event is valid and named, budget remains and the evidence makes a duplicate harmless |
| `Attempt.DecideGivesFirstObjection` | policy/attempt/decision.go:66-105 | every decision's reason is the first of five objections in their order, an unknown outcome is reconciled where possible and everything else stops; an error means an invalid or unnamed event |
| `Attempt.BeginExact` | policy/attempt/coordinator.go:76-91 | when an identity is allocated, when the budget refuses it without an error, and what the ledger then holds |
| `Attempt.UpdateExact` | policy/attempt/coordinator.go:94-109 | an update is accepted if and only if it is valid and extends the stored facts of the same attempt |
| `Attempt.AuthorizeExact` | policy/attempt/coordinator.go:127-155 | exactly when a repeat is granted; a denial leaves the ledger untouched, a grant changes only the next identity's phase, budget is never the reason |
| `Attempt.AuthorizeFailsExactly` | policy/attempt/coordinator.go:127-155 | which error a failed authorization gives: cancellation, an inadmissible pair of attempts, or changed facts, each exactly then |
| `Attempt.RunSafe` | policy/attempt/coordinator.go:60-155 | over any sequence of operations the limit holds, identities are never recycled, events stay valid and every attempt's facts form a chain |
| `Attempt.NotExecutedForever` | policy/attempt/coordinator.go:94-109 | a proof of non-execution survives whatever anyone does later, uncommitted |
| `Attempt.NewCoordinator` | policy/attempt/coordinator.go:68-73 | a named operation with a positive limit yields an empty valid coordinator, anything else an error |
| `Attempt.Coordinator.Begin` | policy/attempt/coordinator.go:76-91 | the object takes exactly the step whose whole-run properties are proved |
| `Attempt.Coordinator.Update` | policy/attempt/coordinator.go:94-109 | likewise for updates |
| `Attempt.Coordinator.Snapshot` | policy/attempt/coordinator.go:112-120 | reads one attempt's facts and the remaining budget, changing nothing |
| `Attempt.Coordinator.AuthorizeRepeat` | policy/attempt/coordinator.go:127-155 | likewise for the compare-and-swap |
| `Schedule.ScheduleIsLeastWindow` | policy/attempt/schedule.go:42-83 | a scheduled start is the least instant respecting backoff, usable hint and cooldown; it is deferred exactly when that is not before the deadline; the reason names the deadline, an ignored hint, or stays |
| `Schedule.ScheduleFailsExactly` | policy/attempt/schedule.go:42-83 | scheduling fails exactly on unusable input, on a backoff that leaves the calendar and on a rejected hint, and then, or for a decision that is no repeat, changes nothing |
| `Schedule.HintOnlyDelays` | policy/attempt/schedule.go:55-65 | a hint never moves a start earlier |
| `Schedule.EarliestIsConjunction` | policy/execution/sequence.go:388-396 | being before the combined deadline is being before each present one, except exactly when the context erases them |
| `Schedule.ZeroContextDeadlineErases` | policy/execution/sequence.go:388-396 | a context deadline at the zero instant removes all deadlines |
| `Receipt.EveryInterleavingSettlesSerially` | policy/execution/boundary.go:63-166 | Finish is never called before close nor concurrently with itself or an authorization, and receives a growing chain of Terminal facts; every grant met all its rules when granted |
| `Receipt.ExecKeepsProtocol` | policy/execution/boundary.go:63-166 | the protocol invariant behind it is kept by every run |
| `Receipt.DenialChangesNothing` | policy/execution/boundary.go:278-304 | the ledger changes exactly when a grant is logged, and never in its budget |
| `Receipt.RecordAlone` | policy/execution/boundary.go:76-93 | undisturbed, Record stores exactly the facts that extend the stored ones, and settles them at once if the receipt is closed and they changed |
| `Receipt.ReconcileAlone` | policy/execution/boundary.go:105-146 | undisturbed, Reconcile of a closed receipt calls Finish again with the current facts, whatever the last settlement answered, and its answer becomes the settlement error |
| `Receipt.CloseAlone` | policy/execution/boundary.go:147-166 | undisturbed, close ends the attempt, as not executed if asked, and settles it, unless it is closed or its facts contradict that |
| `Receipt.AuthorizeAlone` | policy/execution/boundary.go:278-304 | undisturbed, an authorization is refused by an outstanding settlement error or the clock, and otherwise takes the compare-and-swap |
| `Receipt.QuiescentReceiptIsSettled` | policy/execution/boundary.go:75-166 | if no update goes around the receipt, a quiet closed receipt without error has delivered exactly the current facts; the attempt may have been started by any authorization, as every repeat is |
| `Receipt.BypassLosesFacts` | policy/execution/boundary.go:76-93 | a concrete run in which an update around the receipt is never delivered |
| `Sequence.World.CheckStart` | policy/execution/sequence.go:365-386 | which error the start window gives: cancellation, an unusable clock or deadline or an early start, an expired deadline, or none |
| `Sequence.World.CloseReceipt` | policy/execution/boundary.go:147-166 | after a settled close the attempt is Terminal, and NotExecuted if claimed; when the close must succeed; and even a refused one leaves the facts Terminal or committed |
| `Sequence.World.Swap` | policy/execution/boundary.go:278-304 | a granted repeat was sound at its instant and the last clock reading before it was before the deadline; cancellation and an outstanding settlement error come back as they are, in this order |
| `Sequence.World.AnswerSwap` | policy/execution/sequence.go:346-362 | changed facts lead to another pass, a cancelled authorization to the context's own error, every other refusal is passed on |
| `Sequence.World.Authorize` | policy/execution/sequence.go:320-363 | the result is fresh, of the scheduled action and safe, after at most three passes and at most one more than the facts first read can still change |
| `Sequence.ThreePassesHappen` | policy/execution/sequence.go:324-362 | an attempt overtaken twice before a third, granted pass: the bound is tight |
| `Sequence.RefusedCloseIsTried` | policy/execution/boundary.go:153-163 | facts that refuse the closing write are Terminal or committed already |
| `Sequence.World.CloseLifetime` | policy/execution/sequence.go:214-220 | when the previous result's Lifetime is closed, closing its receipt has been tried, by this or another goroutine; a cleanup error stops the sequence, and else a settlement error does |
| `Sequence.World.StartFirst` | policy/execution/boundary.go:266-276 | a first dispatch starts only after its facts were recorded |
| `Sequence.World.Prepare` | policy/execution/boundary.go:213-234 | an admission counts only after freshness and cancellation were checked, and an incoherent one is an error |
| `Sequence.World.CallHost` | policy/execution/boundary.go:256-257 | Dispatch is called once, and the facts it records on its receipt, and no others, are written |
| `Sequence.World.CallDispatch` | policy/execution/boundary.go:249-264 | the error includes what Dispatch returned, and in a calm run is just that; an owned result leaves the close to one hook, any other is closed now |
| `Sequence.World.Invoke` | policy/execution/boundary.go:236-264 | Dispatch runs once exactly when started, freshly checked and soundly authorized; otherwise the cause is in the result and a settled attempt is recorded as not executed; the reservation is settled or owed by one hook |
| `Sequence.World.RunBoundary` | policy/execution/boundary.go:176-211 | one fresh identity and at most one Dispatch, after every check passed twice and the admission allowed it; settlement accounted for; NotExecuted claimed, and then recorded, only if Dispatch was never invoked; which error an unusable boundary, a cancelled context and a refused identity give; and in a calm run an available identity is dispatched |
| `Sequence.World.DecideRepeat` | policy/execution/sequence.go:168-199 | a decided repeat was classified and has the action of its evidence and a window made of the backoff, hint, cooldown and deadline that this very call asked for, counted from the clock reading it took, and of all known deadlines; any other decision is the evidence's own or a deferral; and in a calm run facts that permit a repeat get one |
| `Sequence.CalmSchedule` | policy/execution/sequence.go:191-198 | in a calm run every repeat is given a window, which opens in time |
| `Sequence.World.Advance` | policy/execution/sequence.go:201-250 | a repeat that goes on keeps its window and action, stays in the operation, was waited for without error, the clock has reached its start, and the previous attempt was released; one that does not was declined on the facts known after the wait |
| `Sequence.World.ChooseNext` | policy/execution/sequence.go:231-249 | the facts are decided on again, and the next step is the host's choice or the error it gives, a foreign operation being one |
| `Sequence.World.BoundedContext` | policy/execution/sequence.go:252-277 | the derived context has a deadline no later than every known one, or, when none is known, the caller's own; and exactly when deriving it fails |
| `Sequence.World.RunStep` | policy/execution/sequence.go:279-318 | a repeat's own limit tightens the sequence deadline; an unusable derived context fails the step before anything runs |
| `Sequence.World.CompletedDecision` | policy/execution/sequence.go:126-166 | why a sequence ends with an attempt's own result, by error, budget, admission or plain return |
| `Sequence.World.AfterAttempt` | policy/execution/sequence.go:85-113 | a refused, successful or contract-breaking attempt ends the sequence with its own error; in a calm run a failed one that may be repeated does not end it |
| `Sequence.World.RunSequence` | policy/execution/sequence.go:63-115 | at most remaining budget + 1 iterations; the trace is exactly the attempts made, all but the last failed; every repeat is authorized against the attempt before it in at most three passes, classified, evidenced and waited for; its start respects the schedule asked for between the two dispatches; deadlines only tighten and stay within the caller's, the context's and the schedule's; without a licence to duplicate every earlier attempt is proven not executed. The returned error is the last attempt's own if it was refused, succeeded or broke the contract, none if the evidence declined a repeat of it, and else the one that stopped the sequence. A calm run makes its first attempt and does not end with a failure while all facts permit a repeat and budget is left |
| `Sequence.FailuresAreRepeated` | policy/execution/sequence.go:94-113 | in a calm run a failed attempt whose facts, like those before it, permit a repeat is followed by another one whenever the budget allows |
| `Sequence.CooperativeRunsAreCalm` | policy/execution/sequence.go:48-61 | such runs exist, also without any licence to duplicate |
| `Sequence.AtMostOneAttemptEverExecutes` | policy/execution/sequence.go:63-115 | that proof outlives the run: no later operation of anyone makes an earlier attempt executed or committed |
| `Sequence.RepeatsStartInsideTheirWindow` | policy/execution/sequence.go:195-229 | with a nondecreasing clock, the last reading before an authorized repeat is at or after now + backoff, hint plus uncertainty and cooldown of its own schedule, and before every deadline |
| `Sequence.LogExtended` | policy/attempt/decision.go:66-105 | a granted repeat without SafeDuplicate evidence extends that guarantee to the attempt before it |
| `Budget.RunBoundary` | policy/execution/boundary.go:176-264 | a call of Boundary.run dispatches nothing but its own identity, once, and only if its Begin gave it a slot at some instant of the call |
| `Budget.DispatchesFitBudget` | policy/execution/boundary.go:184-276 | any number of such calls, overlapping in any way, dispatch each identity at most once and at most limit times in total |
| `Race.Validate` | policy/execution/race.go:224-243 | accepted plans are exactly those of one named operation, distinct and not yet allocated; which error the others give |
| `Race.AcceptsExactly` | policy/execution/race.go:291-331 | the acceptance conditions, free of their order |
| `Race.RejectsWithFirstBadAnswer` | policy/execution/race.go:291-331 | an attempt is rejected exactly with the error of the first of nine questions that has a bad answer, which may be no error |
| `Race.AcceptedIsPresentable` | policy/execution/race.go:291-331 | what was checked before the host's verdict still holds after it, because facts only grow |
| `Race.RaceControl.Next` | policy/execution/race.go:159-174 | the object takes the step whose linearization is proved |
| `Race.RaceControl.Observe` | policy/execution/race.go:176-183 | likewise |
| `Race.RaceControl.Finalize` | policy/execution/race.go:193-201 | likewise |
| `Race.RaceIsLinear` | policy/execution/race.go:99-201 | plans leave in order, each at most once, none after a fatal error or the finalization; accepted exactly when finalized with no fatal error before; no contract error in the journal was missed |
| `Race.ControlErrorEndsTheRace` | policy/execution/race.go:159-201 | once a worker has passed on a contract error for which it rejected its attempt, its run's own included, or which closing reported, no plan is handed out any more and a race not yet finalized never is |
| `Race.AskingWorker` | policy/execution/race.go:253-288 | when a worker gets the next plan, and with which errors it ends otherwise |
| `Race.ReturnedAttempt` | policy/execution/race.go:260-262 | an attempt is held as rejected with the first bad answer's error, or as approved with the facts read last |
| `Race.RejectedAttempt` | policy/execution/race.go:262-286 | a rejected attempt is closed and journalled with both errors; the worker goes on exactly if closing succeeded, the attempt was not refused before it started and no contract error is known, and otherwise ends with all of them |
| `Race.AcceptedAttempt` | policy/execution/race.go:263-270 | an accepted attempt is journalled and sent, and its worker ends |
| `Race.FirstWinner` | policy/execution/race.go:130-147 | the first winner is returned exactly if no contract error is known, the context is alive and its facts are readable and uncommitted; else it is closed and the first of those errors returned |
| `Race.EveryWorkerLost` | policy/execution/race.go:130-139 | when all workers lost, the caller learns of no winner, or gets all their errors and the control's |
| `Race.NoWinnerIsUnanimous` | policy/execution/race.go:130-139 | no winner is reported only after every worker ended and was heard, and a failure always carries an error |
| `Race.EveryAttemptIsAccountedFor` | policy/execution/race.go:245-289 | when everything has returned, each Lifetime was closed exactly once except an accepted winner's, and the journal lists each handed plan as often as it was handed out |
| `FirstPayload.AnswerIsUnique` | smart.go:110-155 | completion order and cancellation point determine one answer |
| `FirstPayload.DecidesExactly` | smart.go:134-150 | which completions win and which are rejected |
| `FirstPayload.Collect` | smart.go:110-155 | the collector gives that answer and closes every result it received but the winner's |
| `FirstPayload.FirstSuccessful` | smart.go:71-172 | once all branches returned, all Lifetimes but the winner's are closed and all contexts but an owned winner's are cancelled; that one's cancellation is a hook of its Lifetime, possibly already closing |
| `FirstPayload.WinnerContextEndsWithItsLifetime` | smart.go:146-150 | over any later run of that Lifetime the winner's context is cancelled exactly when the hook has run, never before cleanup ended, and certainly once the Lifetime is closed |
| `Quota.UnitsAreDeclared` | policy/quota/quota.go:186-190 | usage is compatible exactly if its units are among the estimated ones |
| `Quota.SessionObject.Settle` | policy/quota/quota.go:171-219 | the object takes the settle step, including lost acknowledgements and cancelled waiting |
| `Quota.SessionObject.Release` | policy/quota/quota.go:222-252 | likewise for release |
| `Quota.SettleExact` | policy/quota/quota.go:171-219 | what a Settle is refused for and how, and otherwise that exactly the reported usage is remembered and sent |
| `Quota.ReleaseExact` | policy/quota/quota.go:222-252 | likewise for Release |
| `Quota.EndExact` | policy/quota/quota.go:206-219 | only an acknowledged Commit or Release settles the session |
| `Quota.LedgerHoldsWhatWasReported` | policy/quota/quota.go:171-252 | over every run, a committed session's ledger entry is the usage of one of its own complete Settle calls, a released one's the proof of one of its own Release calls |
| `Quota.EverySessionIsDisciplined` | policy/quota/quota.go:171-252 | a session's calls are Pending calls, then only identical Commits or only identical Releases, none after an acknowledged one, all for one handle and settlement ID |
| `Quota.FinalStatesAreExclusive` | policy/quota/quota.go:90-99 | for any number of sessions on one contract-abiding backend, no handle ends committed and released, and a settled session's ledger entry is exactly its own |
| `Quota.LostAcknowledgementAgrees` | policy/quota/quota.go:90-93 | on a handle of its own, a finalized entry is what the session is bound to, however its acknowledgement was lost |
| `Quota.RepeatIsTheSameCall` | policy/quota/quota.go:169-252 | a bound session may always repeat its call, and after acknowledgement the repetition is silent |
| `Quota.BoundSessionsOnlyRepeat` | policy/quota/quota.go:183-245 | and can send nothing else |
| `Lifetime.StepConserves` | lifetime.go:26-62 | no step loses or duplicates a callback |
| `Lifetime.EveryHookRunsOnceAfterCleanup` | lifetime.go:26-62 | in every interleaving cleanup runs at most once, before all hooks, and finally every hook has run exactly as often as registered |
| `Lifetime.LifetimeObject.OnClose` | lifetime.go:26-38 | queues the callback, or tells its caller to run it after close |
| `Lifetime.LifetimeObject.Close` | lifetime.go:41-62 | a Close returns only when cleanup and the taken hooks, in registration order, are done, whoever runs them, and reports cleanup's error |
| `Lifetime.EveryCloseReportsTheCleanup` | lifetime.go:41-62 | in every interleaving every Close that returns reports the one cleanup's error, after the taken hooks ran |
| `Bulkhead.PermitsAreConserved` | bulkhead.go:24-58 | occupancy is calls in flight plus permits owed by hooks, never above the limit; each permit is released once and none is lost |
| `Bulkhead.PermitsMoveExactly` | bulkhead.go:24-58 | a new call takes a permit exactly if one is free; a plain return, or the hook of an owned one, gives it back |
| `Circuit.CircuitBreaker.BeforeRequest` | circuit_breaker.go:84-103 | the object takes the admission step |
| `Circuit.CircuitBreaker.AfterRequest` | circuit_breaker.go:105-136 | the object takes the completion step |
| `Circuit.CircuitBreaker.Trip` | circuit_breaker.go:138-144 | opening at an instant starts a new generation there, with no failures and no probe |
| `Circuit.CircuitBreaker.Abandon` | circuit_breaker.go:159-165 | a panicking probe gives its slot back |
| `Circuit.EveryRunIsGuarded` | circuit_breaker.go:58-165 | one probe at most and nothing admitted beside it; openedAt is the instant of the latest completion that opened the circuit, every arrival within reset of it is refused and the first one after it is the probe; exactly when an arrival is admitted; while closed the counter is the trailing run of counted failures of its generation, below the threshold |
| `Circuit.CountsExactly` | circuit_breaker.go:146-157 | nil, cancellation and expiry never count, any other error as the classifier says, and without one always |
| `Circuit.PanicOnlyFreesTheProbe` | circuit_breaker.go:159-165 | in every run a panic gives the probe's slot back and changes nothing else |
| `Circuit.StaleCallsStayIneffective` | circuit_breaker.go:105-110 | once its generation is over, a call ends without effect however long it lasts and whatever happens meanwhile |
| `Circuit.OpensExactlyAtThreshold` | circuit_breaker.go:105-136 | a closed circuit opens exactly when a completion makes that run reach the threshold; a probe alone decides a half-open one |
| `Order.CompareIsTotalPreorder` | route_table.go:198-218 | the comparison is a total preorder in both modes |
| `Order.StableSortIsUnique` | route_table.go:182-184 | exactly one order of the routes is ascending and keeps declaration order among equals |
| `Order.BeforeMeansOutranks` | route_table.go:438-439 | that order is the documented precedence |
| `Order.FirstMatchOutranks` | route_table.go:198-218 | the first matching route outranks every other matching one |
| `Compile.Compiler.BuildTable` | route_table.go:135-190 | build computes the specified result and leaves the ancestor set as it found it |
| `Compile.BuildSucceedsExactly` | route_table.go:135-190 | a table compiles if and only if every walk from it visits no table twice and ends in a well-configured one |
| `Compile.BuildFailsExactly` | route_table.go:135-190 | a failed build reports exactly the first fault in declaration order, depth first: a route's own, a table with nothing to dispatch to, or the mount path of a cycle |
| `Compile.MisconfiguredExactly` | route_table.go:672-687 | what is wrong with a route, a rejected matcher first |
| `Compile.CompiledIsTheUnfolding` | route_table.go:131-190 | a tree is the result if and only if compilation succeeds and the tree is the sorted unfolding of the graph |
| `Compile.UnfoldingIsUnique` | route_table.go:154-189 | there is only one such tree |
| `Compile.SharedTableCompilesAlike` | route_table.go:160-173 | a table mounted in several places yields the same subtree in each |
| `Dispatch.MatchersAnswerExactly` | route_table.go:318-622 | per matcher kind, when it matches and what it reports, and when it fails and how, from the extracted key or the classifier's verdict alone |
| `Dispatch.NestedDispatchEqualsFlat` | router.go:57-184 | recursive dispatch and one flat guarded list invoke the same handlers with the same matches, run the same cleanups, emit the same events and return the same result, also under cancellation and failing cleanups |
| `Dispatch.OnlyTheReturnedResultStaysOpen` | router.go:70-88 | whenever a handler starts all earlier Lifetimes are closed, and at the end only the returned one can be open |
| `Dispatch.MatchPathsAreTreePaths` | route_table.go:292-316 | every reported match is true: its path leads through mounts that all match to the invoked handler or failed matcher, at depth one less than its length, with that route's identity, kind, priority and data |
| `Dispatch.DispatchObeysTheContract` | router.go:130-184 | the result is Abort exactly with an error and never an undeclared action; every invocation is reported once with its own match |
| `Conduct.EveryDispatchConcludes` | router.go:57-184 | every event is justified by those before it - a handler is called only with nothing pending and the context alive, its reply is passed on as it is or aborts, a cleanup follows exactly a non-terminal result - and dispatch stops early only at cancellation, a terminal result, a failed matcher or a failed cleanup, or else makes all due calls and returns the last result |
| `Conduct.GatesAnswerExactly` | router.go:104-128 | a route behind mounts is open exactly if all their matchers apply, and fails exactly if one fails behind those that apply; what it then reports |
| `Router.RouteCall.DecisionForCall` | route_table.go:624-652 | the cached decision is the classifier's own, which runs only the first time |
| `Router.RouteCall.DispatchEntry` | router.go:104-128 | one entry, with the cache, does what the cache-free interpreter does |
| `Router.RouteCall.DispatchTable` | router.go:57-102 | the loop with its last result and the shared cache refines the cache-free interpreter |
| `Router.RunDispatch` | router.go:45-55 | one dispatch equals the flat reference, its events are justified, its matches true and its end accounted for, and each classifier ran at most once across all nested tables |
| `Router.FirstMatchAnswers` | router.go:70-88 | the handler of a table's first match in stable order is called, with that route's match, and a terminal reply is what dispatch returns |
| `Router.AnswerOutranks` | route_table.go:438-439 | the answering route: in longest-prefix mode a prefix beats every other kind and a longer one a shorter one, then priority; otherwise priority first; then declaration order |
| `Inlining.PlainListAgreesExactly` | router.go:57-128 | inlining mounts plainly never changes the trace or the error; it keeps the result exactly if dispatch ends terminally, the root has a fallback, or no mount is entered after the last route that applies |
| `Inlining.CompiledTablesInlineExactly` | router.go:57-128 | the same for every table that compiles |
| `Inlining.ListsCanDisagree` | router.go:97-101 | a request for which the nested result is "no route" and the plain one is not |
| `Fingerprint.FrameInjective` | snapshot.go:28-38 | the length framing of a list of parts is injective |
| `Fingerprint.UnframeReadsFrame` | snapshot.go:28-38 | a reader of eight-byte big-endian lengths recovers the parts |
| `Fingerprint.ItoaReads` | route_table.go:233-258 | numbers are written in decimal |
| `Fingerprint.TableDocument` | route_table.go:230-262 | what is hashed for a table: the version text, both flags, the number of routes, one digest per route |
| `Fingerprint.EntryDocument` | route_table.go:236-260 | what is hashed for a route: id, priority, kind, static key, group number, and the mounted table's fingerprint or the leaf text |
| `Fingerprint.DigestsInOrder` | route_table.go:236-261 | digests come in route order, groups numbered after those before |
| `Fingerprint.FingerprintSHA256` | snapshot.go:28-38 | the loop hashes exactly the framing |
| `Fingerprint.ComputeFingerprint` | route_table.go:226-263 | the loop with its mutable numbering computes the specified fingerprint and numbering |
| `Fingerprint.SameTopologySameFingerprint` | route_table.go:226-263 | trees that agree up to a one-to-one renaming of memoization groups get equal fingerprints |
| `Fingerprint.EqualFingerprintsAgreeOrCollide` | route_table.go:226-263 | equal fingerprints mean such an agreement, or two distinct hashed byte strings with one digest |
| `Topology.CompiledFingerprintIsCanonical` | route_table.go:186-189 | both directions for the routers that two mount graphs compile to, with agreement stated on their trees |

## Left out

- The adapters in `ext/`, `observability/`, projections and sinks beyond the fact and order of their events: they wrap clients that are not part of the core.
- `topology_key.go`, SHA-256 and hex encoding: static keys are opaque byte strings and the digest is an arbitrary function with a fixed-size result.
- `registry.go`, `policy/selection.go`, `policy/affinity.go`, `policy/model`, `routers.go`, `chain.go`, `PredicateFallback`: they would only add easy members.
- Real timers, fairness, `Wait` and blocking: cancellation, waiting and clock readings are inputs; nothing is proved about eventual progress of the host, and a calm run of a Sequence is one in which every answer needed comes.
- Panics, except the circuit breaker's abandoned probe: deferred cleanup on panic is not modelled.
- `Cooldowns` and its pruning.
- `Admit` of quota sessions: a session starts admitted; the fail-open classification of a failed reservation is not modelled.
- `DecisionTable.Decide` and classifier internals: a classifier is a deterministic function of the request.
- Inlining.PlainListAgreesExactly: speaks of trees in which every table has a route or a fallback, as every compiled one does.
- Receipt is a state machine on values rather than a class, because its steps interleave inside its methods; its reading method `Snapshot` is not a step of that machine, it is in `Sequence.World.ReadReceipt`.
- Sequence.World.RunSequence: the Class, Failure and Route payload of results are not represented, only what authorization, scheduling and settlement depend on; its deadline clauses are for contexts that do not report the zero instant as their deadline, because such a context provably erases deadlines. That it repeats is stated for calm runs, in which all derived contexts end at one instant.
- Circuit.EveryRunIsGuarded: generations are unbounded naturals; the wrap-around of a 64-bit counter is not modelled.
- Fingerprint.EqualFingerprintsAgreeOrCollide and Topology.CompiledFingerprintIsCanonical: assume every hashed part is shorter than 2^64 bytes, as the source's length conversion does; texts become bytes injectively.
- FirstPayload.FirstSuccessful: assumes that no two results share a Lifetime; the Match of a failed selection is not modelled.
- Race: `Run` before its workers start (the context check and the duplication permissions) is not modelled.
- Race.FirstWinner: the error of closing a refused winner is not joined to the returned one.
- Race.EveryAttemptIsAccountedFor: assumes distinct Lifetimes; the worker's error list is kept as a set of causes.
- Dispatch.NestedDispatchEqualsFlat: matchers are functions of the request, so a matcher with side effects is outside the model; kind, reason and payload are one opaque value.
