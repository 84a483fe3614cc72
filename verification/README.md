# The goakt-mcp control plane, modelled and proved in Dafny

goakt-mcp is a gateway for the Model Context Protocol built from actors. Its transports are
plumbing over libraries; what it guarantees to its users comes from a set of small state
machines, and those guarantees hold over whole sequences of messages, clocks and
interleavings. This project models these machines and proves the guarantees.

Each actor or object of the source is a class whose methods update its fields in place. Each
method is proved equal to a step function on the object's abstract value, and the
run-level theorems are lemmas about that step function over every sequence of inputs. Clock
readings, provider answers, factory results, reflection replies, map iteration order and
goroutine scheduling are inputs of the steps, so each theorem holds for every choice of them.
`dafny verify dfyconfig.toml` checks the whole project.

| file | what it models |
|---|---|
| `Basics.dfy` | options, sequence ends and Go's truncating division |
| `Circuit.dfy` | the per-tool circuit breaker |
| `Tools.dfy` | tool definitions and their validation |
| `Supervisor.dfy` | the tool supervisor actor |
| `Admission.dfy`, `AdmissionExact.dfy` | k routers, one supervisor mailbox and grain activations: the session bound, runs that attain it, and when the cap holds |
| `Session.dfy` | the session grain: executor ownership, the single recovery, outcome reports |
| `Streams.dfy` | the stream forwarder: its body, and the machine that interleaves with executor and caller |
| `SessionRuns.dfy` | grain, forwarders and deactivation in every interleaving |
| `Policy.dfy` | the per-tenant rate limiter and the policy evaluator |
| `Credentials.dfy` | the credential cache with TTL and least-recently-used eviction |
| `NameCache.dfy` | the gRPC tool-name cache and the scan it replaces |
| `JsonSchema.dfy` | JSON Schema derivation over possibly cyclic message graphs |
| `Descriptors.dfy` | import closure over gRPC server reflection |
| `Registrar.dfy` | registrar, catalog and ToolConfigExtension |
| `DisabledTools.dfy` | registrar and supervisors together: a disabled tool stays off |
| `Resources.dfy` | resource results out to a map and back |

## Where the code and its documentation differ

The model follows the code in each case.

- `MaxSessionsPerTool` is not a hard cap. Sessions can reach cap - 1 plus the number of
  admitted routes in flight at once, exactly: with k routers and n routes that a router gave
  up on while they were still to register a session, that is cap - 1 + k + n. The cap holds in
  every run if and only if k + n is 1 (`CapHoldsExactly`). Giving up on an availability check
  is harmless.
- executeOnce promises a non-nil result. It returns nil exactly when the last attempt returned
  a nil result and no error (`InvokeAnswers`, `NilAnswerIsPassedOn`). When the factory
  answers (nil, nil) during recovery and the call is not a resource read, the handler
  dereferences nil and neither replies nor reports (`InvokeDoesOnce`, `NilFactoryCrashes`).
- The comment on the WaitGroup says the executor is never closed under a stream. Deactivation
  keeps that promise; recovery does not, and `ClosedUnderStreamExactlyWhen` says exactly when.
- forwardStream's comment asks for Done before cancel. Deferred calls run last to first, so
  cancel comes first; the forwarder machine has that order.
- The final channel of a stream promises exactly one result. The forwarder hands over one if
  and only if its single read of the source's final channel yields a non-nil result, and none
  otherwise (`OneFinalExactlyWhen`). A caller that left is still handed a result that was there
  in time, while the supervisor is told of a failure; `FinalsBothWays` has runs of each kind.
- UpdateTool is documented to preserve the transport configuration. It takes the gRPC part
  from the message (`UpdateKeepsTransportIff`, `UpdateReplacesGRPC`).
- The tool-name index lets a later tool win where the scan it replaces lets the first one win;
  they agree exactly on the names that at most one tool owns (`IndexAgreesWithScan`,
  `SharedNameDiffers`).
- The credential cache hands a tenant the credentials of another one that it extends by a
  colon, for the right tools and within TTL (`ExtendedTenantGetsAnothers`). A set of tenants is
  never confused if and only if none of them is another one followed by a colon and any text
  (`NeverConfusedExactly`); colons as such do no harm.
- A resource result without entries does not survive the round trip: it comes back as one
  entry whose text is the marshalled empty map (`ResultRoundTrip`).
- A disabled tool comes back without an enable if an update or a registration of it is
  published while the catalog, after a health update, does not say Disabled. `StaysOffExactly`
  lists the commands that bring a tool back and proves that no others do;
  `HealthThenUpdateRevives` is a run for every valid tool.
- A resource blob does not survive JSON: decoded as base64 text, it is dropped by the reader
  (`JsonRoundTripExactly`).

## Model

| member | source | states |
|---|---|---|
| `Circuit.Sanitize` | mcp/circuit.go:289-300 | every configuration becomes positive in all fields: positive fields are kept and others become 5 failures, 30 seconds and 1 request |
| `Circuit.StepKeepsWf` | mcp/circuit.go:175-286 | every call keeps the breaker's invariant; it returns a transition exactly when the state moved, that transition is an edge of the state diagram, and it carries a failure count equal to the threshold |
| `Circuit.Reachable` | mcp/circuit.go:142-286 | after any history of calls, for any configuration, the breaker satisfies the invariant |
| `Circuit.FailureCountIsHistory` | mcp/circuit.go:188-300 | the failure counter is a function of the history: in Closed the number of failures since the last success or reset, below the threshold; in Open and HalfOpen exactly the threshold |
| `Circuit.OpensExactlyAtThreshold` | mcp/circuit.go:222-233 | a closed breaker leaves Closed if and only if the call is the failure that completes a run of threshold failures |
| `Circuit.StaysOpen` | mcp/circuit.go:251-259 | from an opening until its deadline, without a reset, no call moves the breaker |
| `Circuit.AcceptsExactlyFromDeadline` | mcp/circuit.go:188-203 | the first Acquire that can find the deadline passed is accepted if and only if it has passed |
| `Circuit.FailsFastWhileOpen` | mcp/circuit.go:188-259 | under a clock that never runs backwards, no Acquire is accepted before OpenDuration after an opening unless a reset intervened |
| `Circuit.ProbeSlotsAreAcceptedCalls` | mcp/circuit.go:188-203 | in each half-open episode the slot counter equals the number of accepted calls, which never exceeds HalfOpenMaxRequests |
| `Circuit.AcceptsExactlyWhileSlotFree` | mcp/circuit.go:188-203 | within an episode an Acquire is accepted if and only if a slot is free |
| `Circuit.EpisodeEndsByReportOrReset` | mcp/circuit.go:208-246 | a half-open episode ends if and only if an outcome is reported or the breaker reset |
| `Circuit.ClosesExactlyBy` | mcp/circuit.go:208-246 | after any history a tripped breaker closes if and only if it is reset, or a success is reported while it is half-open |
| `Circuit.ReopensExactlyBy` | mcp/circuit.go:222-233 | a half-open breaker opens again if and only if a failure is reported, and its open period starts over |
| `Circuit.HalfOpensExactlyBy` | mcp/circuit.go:251-259 | an open breaker turns half-open if and only if an Acquire or Peek finds OpenDuration elapsed |
| `Circuit.ReasonExactly` | mcp/circuit.go:264-286 | the reason of each transition is fixed by the call that causes it and the state it leaves |
| `Circuit.OutcomeExactly` | mcp/circuit.go:188-203 | an Acquire is rejected as open, or for the half-open limit, exactly when that is why, and accepted otherwise |
| `Circuit.CircuitBreaker.constructor` | mcp/circuit.go:149-158 | a new breaker is closed with a sanitized configuration |
| `Circuit.CircuitBreaker.DoPeek` | mcp/circuit.go:175-178 | the in-place method performs the Peek step |
| `Circuit.CircuitBreaker.DoAcquire` | mcp/circuit.go:188-203 | the in-place method performs the Acquire step and returns its outcome |
| `Circuit.CircuitBreaker.DoOnSuccess` | mcp/circuit.go:208-216 | the in-place method performs the OnSuccess step |
| `Circuit.CircuitBreaker.DoOnFailure` | mcp/circuit.go:222-233 | the in-place method performs the OnFailure step |
| `Circuit.CircuitBreaker.DoReset` | mcp/circuit.go:239-246 | the in-place method performs the Reset step |
| `Circuit.CircuitBreaker.DoMaybeHalfOpen` | mcp/circuit.go:251-259 | the lazy move from Open to HalfOpen happens exactly once OpenDuration has elapsed |
| `Circuit.CircuitBreaker.TransitionTo` | mcp/circuit.go:264-286 | the transition describes the old state and count, and the fields are reset as the target demands |
| `Tools.Validate` | mcp/tool_validation.go:35-79 | no error is returned if and only if the definition has an ID and exactly what its transport needs |
| `Tools.ValidateNamesFirstBroken` | mcp/tool_validation.go:35-79 | each error is returned if and only if its rule is the first one broken |
| `Supervisor.HandleKeepsWf` | internal/runtime/actor/tool_supervisor.go:210-420 | every message keeps the breaker's invariant and emits at most one transition, present exactly when the breaker moved |
| `Supervisor.EmittedTransitionsReplay` | internal/runtime/actor/tool_supervisor.go:228-456 | over any run the emitted transitions form a connected legal path from Closed without self-loops, replaying them gives the current breaker state, and each carries the threshold as failure count |
| `Supervisor.AcceptedExactlyWhen` | internal/runtime/actor/tool_supervisor.go:210-246 | work is accepted if and only if the tool matches, is neither disabled nor draining, the breaker grants the call and the session count is below the cap |
| `Supervisor.ToolIsHistory` | internal/runtime/actor/tool_supervisor.go:357-420 | over any run the tool copy is the last one refreshed, and the drain flag says whether a drain has come since the last refresh that found the tool enabled |
| `Supervisor.SessionsAreHistory` | internal/runtime/actor/tool_supervisor.go:321-339 | over any run a session is registered, and to whom, exactly if its last activation was not followed by a deactivation |
| `Supervisor.FailureCountIsReports` | internal/runtime/actor/tool_supervisor.go:296-316 | while the circuit is closed its failure count is the number of ReportFailure messages for the tool since the last ReportSuccess or ResetCircuit for it |
| `Supervisor.OpensExactlyOnReport` | internal/runtime/actor/tool_supervisor.go:296-304 | a closed circuit opens if and only if the message is the ReportFailure that completes the threshold |
| `Supervisor.ClosesExactlyOnReport` | internal/runtime/actor/tool_supervisor.go:296-408 | a tripped circuit closes if and only if it is reset or a success is reported half-open, and a half-open one opens if and only if a failure is |
| `Supervisor.HalfOpensExactlyOn` | internal/runtime/actor/tool_supervisor.go:210-393 | an open circuit turns half-open if and only if a status request, or a check of a tool neither disabled nor draining, finds OpenDuration elapsed |
| `Supervisor.ThresholdsInForce` | internal/runtime/actor/tool_supervisor.go:122-189 | over any run the thresholds are the override's, or the defaults where it has none |
| `Supervisor.RefusedExactly` | internal/runtime/actor/tool_supervisor.go:210-246 | each reason of refusal is given if and only if its guard is the first to fail |
| `Supervisor.DrainRefusesExactly` | internal/runtime/actor/tool_supervisor.go:412-420 | over any run a check is refused as draining if and only if the tool is not disabled and a drain has not been undone |
| `Supervisor.StatusIsHistory` | internal/runtime/actor/tool_supervisor.go:377-393 | a status tells tool, drain flag, sessions and the circuit as of that instant, and only for the supervisor's own tool |
| `Supervisor.RepliesExactly` | internal/runtime/actor/tool_supervisor.go:397-420 | drains and resets are answered for the own tool and refused for another; notifications are not answered |
| `Supervisor.SessionNamesDistinct` | internal/naming/naming.go:60-62 | session names tell sessions apart if no tenant or client ID contains a hyphen |
| `Supervisor.ToolSupervisor.constructor` | internal/runtime/actor/tool_supervisor.go:122-189 | a started supervisor has no sessions, is not draining and has a fresh closed breaker |
| `Supervisor.ToolSupervisor.Receive` | internal/runtime/actor/tool_supervisor.go:122-420 | dispatching a message in place performs exactly the step: new fields, reply and emitted transitions |
| `Supervisor.ToolSupervisor.ReceiveCanAcceptWork` | internal/runtime/actor/tool_supervisor.go:210-246 | the accept check in place, including the half-open slot it takes before the cap check |
| `Admission.StepKeepsInv` | internal/runtime/actor/router_pipeline.go:149-176 | every step of a router, a grain, a timeout or the mailbox keeps the queue discipline and the bound on held session names |
| `Admission.RunKeepsInv` | internal/runtime/actor/router_pipeline.go:149-176 | the same over every run that never has more than n admitted routes in flight |
| `Admission.SessionBound` | internal/runtime/actor/tool_supervisor.go:210-339 | however everything interleaves, in a run that never has more than n admitted routes in flight, registered sessions together with names still on their way never exceed cap - 1 + n |
| `Admission.StepKeepsRouters` | internal/runtime/actor/router.go:463-516 | a router is never lost or gained, and a route outlives its router's interest only if given up on after admission |
| `Admission.RouterBound` | internal/runtime/actor/router_pipeline.go:149-176 | with k routers and never more than n routes given up on and still in flight the bound is cap - 1 + k + n; checks given up on do not count |
| `Admission.SingleRouterKeepsCap` | internal/runtime/actor/tool_supervisor.go:210-339 | one router that waits for its sessions and invocations never passes the cap |
| `AdmissionExact.BoundAttained` | internal/runtime/actor/router_pipeline.go:149-176 | for every cap, every k and every n the bound cap - 1 + k + n is reached |
| `AdmissionExact.CapHoldsExactly` | internal/runtime/actor/router_pipeline.go:149-176 | every run of k routers with at most n strays in flight stays within the cap if and only if k + n is at most 1 |
| `Session.LegalMeansOnce` | internal/runtime/actor/session_grain.go:136-245 | in a legal log each executor is opened once, and closed exactly once unless it is still open |
| `Session.RecoveryKeepsOwns` | internal/runtime/actor/session_grain.go:536-562 | recovery opens at most the new executor, closes exactly the old one and leaves the grain owning the only open one |
| `Session.ActivationKeepsOwns` | internal/runtime/actor/session_grain.go:136-195 | activation installs what it opens |
| `Session.DeactivationKeepsOwns` | internal/runtime/actor/session_grain.go:222-245 | after deactivation no executor is open |
| `Session.InvokeDoesOnce` | internal/runtime/actor/session_grain.go:251-333 | a valid SessionInvoke makes at most two calls, opens at most one executor, replaces the installed one if and only if recovery applies, and reports exactly one outcome, which says whether the reply is a success; it panics instead if and only if recovery yielded a nil executor for a call other than a resource read |
| `Session.ReplacedExactlyWhen` | internal/runtime/actor/session_grain.go:297-313 | the executor is replaced if and only if the call reaches one, comes back with an error or a transport failure, and the factory has a replacement |
| `Session.HealthyCallIsMadeOnce` | internal/runtime/actor/session_grain.go:294-332 | a call that comes back with neither is made once, keeps the executor, and its result is the reply |
| `Session.FailedCallWithoutReplacement` | internal/runtime/actor/session_grain.go:297-324 | without a replacement a failed call is not repeated, and its failure is the reply |
| `Session.FailedCallIsRepeatedOnNew` | internal/runtime/actor/session_grain.go:304-332 | with one, the new executor is opened, the old one closed, the call repeated on the new one, and its answer is the reply |
| `Session.FailedReadOnLesserReplacement` | internal/runtime/actor/session_grain.go:348-358 | a failed resource read whose replacement has no resources is refused without a second call |
| `Session.UnsupportedReadIsRefused` | internal/runtime/actor/session_grain.go:348-358 | a resource read on an executor without resources is refused without a call |
| `Session.StubAnswers` | internal/runtime/actor/session_grain.go:264-276 | without an executor both kinds of invocation succeed with an empty output |
| `Session.ReportsSuccessExactly` | internal/runtime/actor/session_grain.go:568-580 | a success is reported if and only if the result says so and carries no error |
| `Session.RejectedExactly` | internal/runtime/actor/session_grain.go:251-259 | a message is rejected, without effect, if and only if its invocation is missing or for another tool |
| `Session.InvokeAnswers` | internal/runtime/actor/session_grain.go:286-333 | the reply is that of the last attempt: nil exactly for a nil result without error, a failure for an error, and otherwise its result with the duration filled in only if absent |
| `Session.StreamDoesOnce` | internal/runtime/actor/session_grain.go:365-456 | a valid SessionInvokeStream calls the executor at most once and either reports one outcome or starts one stream on the open executor, never both |
| `Session.StreamAnswers` | internal/runtime/actor/session_grain.go:375-456 | the fallback's reply is the answer of its one call, and an error starting a stream is a failure |
| `Session.HandleKeepsOwns` | internal/runtime/actor/session_grain.go:200-215 | every message keeps the grain the owner of the only open executor and counts a stream exactly when it starts one |
| `Session.HandleGrows` | internal/runtime/actor/session_grain.go:200-215 | a valid invocation makes at most two calls, and reports once unless it starts a stream or crashes |
| `Session.NilAnswerIsPassedOn` | internal/runtime/actor/session_grain.go:286-333 | for every grain and executor a (nil, nil) answer becomes a nil reply, reported as a failure |
| `Session.NilFactoryCrashes` | internal/runtime/actor/session_grain.go:304-312 | for every grain and executor a transport failure and a (nil, nil) factory leave no reply, no report and a closed executor |
| `Session.SessionGrain.OnActivate` | internal/runtime/actor/session_grain.go:136-195 | activation succeeds exactly with a tool ID and no factory error, and a failed one leaves nothing open |
| `Session.SessionGrain.TryRecoverExecutor` | internal/runtime/actor/session_grain.go:536-562 | the in-place recovery, with the close proved to meet an open executor |
| `Session.SessionGrain.Dispatch` | internal/runtime/actor/session_grain.go:338-358 | an open executor is called, a resource read on an executor without resources fails without a call, and only Execute on nil panics |
| `Session.SessionGrain.ExecuteOnce` | internal/runtime/actor/session_grain.go:286-333 | the in-place round with its single retry computes the outcome the step prescribes |
| `Session.SessionGrain.HandleSessionInvoke` | internal/runtime/actor/session_grain.go:251-281 | the in-place handler performs the step, rejections and stub mode included |
| `Session.SessionGrain.HandleSessionInvokeStream` | internal/runtime/actor/session_grain.go:365-416 | the in-place streaming handler performs the step and counts the stream before it starts |
| `Session.SessionGrain.HandleFallback` | internal/runtime/actor/session_grain.go:422-456 | the synchronous fallback performs the step |
| `Session.SessionGrain.OnDeactivate` | internal/runtime/actor/session_grain.go:222-245 | past its wait, deactivation closes the installed executor and leaves none open |
| `Streams.ForwardProgress` | internal/runtime/actor/session_grain.go:517-530 | the loop returns true exactly when the caller took every event; what it sent is the source, or the prefix the caller took |
| `Streams.ForwardStream` | internal/runtime/actor/session_grain.go:468-512 | the body never sends on a closed or full channel, closes each channel once, and delivers and reports as specified |
| `Streams.ActKeepsSound` | internal/runtime/actor/session_grain.go:468-530 | every step of executor, caller or goroutine keeps: delivered is a prefix of produced, and each close, hand-over, report and cancel has happened exactly once if and only if the goroutine is past it |
| `Streams.SendsAreSafe` | internal/runtime/actor/session_grain.go:468-530 | no event is offered after the progress channel closed, and the final channel has room when it is used |
| `Streams.FinishedMatchesBody` | internal/runtime/actor/session_grain.go:468-530 | under every interleaving a finished forwarder has done what its sequential body does |
| `Streams.GoroutineEnds` | internal/runtime/actor/session_grain.go:468-530 | once the source's channels are closed the goroutine never blocks and each step brings it closer to its end |
| `SessionRuns.RunKeepsInv` | internal/runtime/actor/session_grain.go:136-562 | in every reachable state the grain owns the only open executor, none is open while it is inactive, and the WaitGroup counts exactly the running forwarders |
| `SessionRuns.ExecutorsAreConserved` | internal/runtime/actor/session_grain.go:136-562 | over any run each created executor is the installed one or was closed exactly once, none stays open after deactivation, and calls and closes only ever met open executors |
| `SessionRuns.ReportsAreConserved` | internal/runtime/actor/session_grain.go:251-580 | over any run reports made, reports still owed by running forwarders and nil-executor crashes add up to the valid invocations served |
| `SessionRuns.AllReportedWhenIdle` | internal/runtime/actor/session_grain.go:222-580 | with a factory that never returns a nil executor without error, a deactivated grain has reported each invocation it served exactly once |
| `SessionRuns.CallsAreBounded` | internal/runtime/actor/session_grain.go:251-456 | over any run executors are called at most twice per invocation served |
| `SessionRuns.DeactivationWaitsForStreams` | internal/runtime/actor/session_grain.go:222-245 | deactivation gets past its wait if and only if every stream ever started has delivered, closed both channels, reported and cancelled |
| `SessionRuns.StreamsAreSafe` | internal/runtime/actor/session_grain.go:407-530 | at every moment of every run each caller holds an in-order prefix and at most one final result, nothing is closed or reported twice, and a finished stream has delivered what its read of the final channel yielded |
| `SessionRuns.OneFinalExactlyWhen` | internal/runtime/actor/session_grain.go:483-507 | a finished stream handed over exactly one result if and only if the final channel held a non-nil one when it was read |
| `SessionRuns.FinalsBothWays` | internal/runtime/actor/session_grain.go:483-507 | for every result there are runs in which a caller that left, and one that stayed, is handed it, and runs in which it is handed nothing |
| `SessionRuns.StreamReportsItsOutcome` | internal/runtime/actor/session_grain.go:498-511 | what a forwarder reports is a success if and only if the caller stayed and the source's first final result says so |
| `SessionRuns.ActivatesExactlyWhen` | internal/runtime/actor/session_grain.go:136-170 | a grain becomes active if and only if it has a tool ID and the factory no error, and owns an executor if and only if the factory made one |
| `SessionRuns.ClosedUnderStreamExactlyWhen` | internal/runtime/actor/session_grain.go:536-562 | a step closes the executor of a running stream if and only if it is an invocation whose recovery replaces it |
| `SessionRuns.RecoveryClosesUnderStream` | internal/runtime/actor/session_grain.go:536-562 | such a run exists |
| `SessionRuns.WaitingMakesProgress` | internal/runtime/actor/session_grain.go:222-245 | while deactivation waits and the sources are closed, every step of a running forwarder lowers a measure |
| `SessionRuns.WaitingCanEnd` | internal/runtime/actor/session_grain.go:222-245 | every such reachable state has a continuation that deactivates the grain |
| `Policy.CountsAreTrailing` | internal/runtime/actor/policy.go:106-163 | under any clock each tenant's counter is the number of its requests since anyone's last request in another minute |
| `Policy.SeesOwnRequests` | internal/runtime/actor/policy.go:106-163 | under a clock that never runs backwards a request is judged by exactly its own tenant's earlier requests of that minute |
| `Policy.TenantsDoNotInterfere` | internal/runtime/actor/policy.go:106-163 | for every interleaving a tenant's verdicts, its own evaluator's included, are those of a run of its own requests alone |
| `Policy.AllowedExactlyWhen` | internal/runtime/policy/evaluator.go:47-120 | a request is allowed if and only if it is well formed, permitted, within both quotas and not refused by the tenant's own evaluator |
| `Policy.VerdictExactly` | internal/runtime/policy/evaluator.go:47-120 | each verdict is given if and only if its check is the first to fail, with the custom evaluator told the tenant's own count |
| `Policy.MissingInputCountsForNobody` | internal/runtime/actor/policy.go:106-118 | a request without input is told so and changes no counter |
| `Policy.FindIsFirst` | internal/runtime/actor/policy.go:167-175 | the configuration in force is the first with the tenant's ID |
| `Policy.MinuteIsSixtySeconds` | internal/runtime/actor/policy.go:120-125 | the windows are the calendar minutes |
| `Policy.MinuteBound` | internal/runtime/policy/evaluator.go:95-120 | at most RequestsPerMinute requests of a tenant are allowed per calendar minute |
| `Policy.WindowBound` | internal/runtime/actor/policy.go:106-163 | at most twice RequestsPerMinute are allowed in any 60 seconds |
| `Policy.WindowBoundAttained` | internal/runtime/actor/policy.go:106-163 | for every limit, whatever the other quotas, a burst over a minute change gets twice its quota, so the bound is exact |
| `Policy.PolicyMaker.HandleEvaluate` | internal/runtime/actor/policy.go:106-163 | the in-place handler performs the step: window roll, count, verdict |
| `Policy.PolicyMaker.LookupTenantConfig` | internal/runtime/actor/policy.go:167-175 | the first configuration of the tenant is found, or none exists |
| `Credentials.Bounded` | internal/runtime/actor/credential_broker.go:160-209 | in every reachable state the cache holds at most maxEntries entries |
| `Credentials.LastAccessIsLastUse` | internal/runtime/actor/credential_broker.go:122-177 | an entry's lastAccess is the instant of the last request that used or stored it |
| `Credentials.EvictsLeastRecentlyUsed` | internal/runtime/actor/credential_broker.go:182-209 | an unexpired entry is dropped only when dropping expired ones left the cache full, and then only if no surviving entry was last used before it |
| `Credentials.MissAnswersFirstProvider` | internal/runtime/actor/credential_broker.go:139-158 | on a miss the answer is that of the first provider with any credentials, and a failure if and only if none has any |
| `Credentials.HitAnswersFromCache` | internal/runtime/actor/credential_broker.go:126-134 | an unexpired entry is the answer whatever the providers would say, and only its lastAccess changes |
| `Credentials.MissStoresItsAnswer` | internal/runtime/actor/credential_broker.go:160-168 | a miss stores its answer for TTL exactly if caching is on and there is one, and otherwise changes nothing |
| `Credentials.OtherEntriesAfterStore` | internal/runtime/actor/credential_broker.go:182-209 | a store leaves other entries alone unless the cache is full, and then drops every expired one |
| `Credentials.KeysMeetExactlyWhen` | internal/runtime/actor/credential_broker.go:122-126 | requests of a shorter and a longer tenant share a key if and only if the longer extends the shorter by a colon and the tool makes up for the difference |
| `Credentials.KeyInjective` | internal/runtime/actor/credential_broker.go:122-126 | keys tell requests apart when neither tenant extends the other |
| `Credentials.ExtendedTenantGetsAnothers` | internal/runtime/actor/credential_broker.go:122-177 | for all such tenants and all credentials, a request within TTL of the other tenant's is answered with that tenant's credentials |
| `Credentials.NeverConfusedExactly` | internal/runtime/actor/credential_broker.go:122-177 | with a cache, a set of tenants is answered with its own in every history if and only if no tenant extends another |
| `Credentials.EntryProvenance` | internal/runtime/actor/credential_broker.go:122-177 | every entry was stored by an earlier provider round for its own key |
| `Credentials.AnswerProvenance` | internal/runtime/actor/credential_broker.go:122-177 | if no tenant of the history extends another, every answer is the first non-empty provider result for the same tenant and tool, from this request's round or one stored less than TTL ago; failures are this round's own |
| `Credentials.CacheIsTransparent` | internal/runtime/actor/credential_broker.go:122-177 | with time-invariant providers the cached broker answers every request sequence as an uncached one |
| `Credentials.CredentialBroker.HandleResolve` | internal/runtime/actor/credential_broker.go:122-177 | the in-place handler performs the step for some least recently used victim |
| `Credentials.CredentialBroker.AskProviders` | internal/runtime/actor/credential_broker.go:139-151 | the loop returns what the first provider with any credentials gave, and nothing if and only if none has any |
| `Credentials.CredentialBroker.EvictIfNeeded` | internal/runtime/actor/credential_broker.go:182-209 | expired entries go first, then one with minimal lastAccess if the cache is still full |
| `Credentials.CredentialBroker.DropExpired` | internal/runtime/actor/credential_broker.go:187-192 | exactly the expired entries are dropped |
| `Credentials.CredentialBroker.FindOldest` | internal/runtime/actor/credential_broker.go:198-208 | the scan ends at an entry with minimal lastAccess |
| `NameCache.ResolveToolID` | internal/ingress/grpc/resolve.go:41-61 | the nested search returns the first tool that owns the name |
| `NameCache.BuildToolNameMap` | internal/ingress/grpc/cache.go:109-120 | the index maps every name to its last owner and no other name |
| `NameCache.IndexAgreesWithScan` | internal/ingress/grpc/cache.go:109-120 | not-found always agrees with the scan; found agrees if and only if no two tools own the name |
| `NameCache.SharedNameDiffers` | internal/ingress/grpc/cache.go:109-120 | any two tools with a common schema name make the two differ |
| `NameCache.CacheIsLastRebuild` | internal/ingress/grpc/cache.go:61-104 | under any number of concurrent callers the cache is the index of the last successful listing |
| `NameCache.AnswerIsScanOfRecentListing` | internal/ingress/grpc/cache.go:61-104 | every answer is the scan of the last listing, this caller's own or one completed less than TTL ago |
| `NameCache.UnansweredExactly` | internal/ingress/grpc/cache.go:61-104 | a read is stale, and a refresh with a failed listing fails, exactly once the last rebuild is TTL or more ago |
| `NameCache.RebuildsAreSpaced` | internal/ingress/grpc/cache.go:80-104 | successful refreshes complete at least TTL apart |
| `NameCache.ToolNameCache.Resolve` | internal/ingress/grpc/cache.go:61-75 | the read-locked section answers from a fresh cache and changes nothing |
| `NameCache.ToolNameCache.RefreshAndResolve` | internal/ingress/grpc/cache.go:80-104 | the write-locked section performs the step, checking freshness again first |
| `JsonSchema.MessageToJSONSchema` | internal/egress/grpc/schema.go:156-159 | the derivation starts with nothing visited and terminates on every finite graph |
| `JsonSchema.MessageToJSONSchemaWithVisited` | internal/egress/grpc/schema.go:164-184 | the recursion terminates, computes the specified schema and leaves the shared visited set as it found it |
| `JsonSchema.FieldToSchemaProperty` | internal/egress/grpc/schema.go:188-204 | lists become arrays, maps become dictionaries of their value schema, and the visited set is restored |
| `JsonSchema.ScalarOrMessageSchema` | internal/egress/grpc/schema.go:209-214 | messages and groups recurse, other kinds become their JSON type |
| `JsonSchema.SchemaAcceptsExactly` | internal/egress/grpc/schema.go:156-238 | for every graph the derived schema accepts a value if and only if it has the JSON types the message prescribes, down to the first repeated ancestor |
| `JsonSchema.ScalarsAcceptExactly` | internal/egress/grpc/schema.go:217-238 | the JSON type of every scalar kind: 32-bit integers are integers, 64-bit ones, bytes and enums strings |
| `JsonSchema.SchemaIsSound` | internal/egress/grpc/schema.go:156-238 | every ProtoJSON value of a message, recursive ones included and to any depth, conforms to the derived schema |
| `JsonSchema.SchemaAlongPath` | internal/egress/grpc/schema.go:164-214 | the schema found along a path of fields is that of the last message below all earlier ones |
| `JsonSchema.TruncatesExactlyAtAncestors` | internal/egress/grpc/schema.go:164-184 | the schema is cut to a bare object if and only if the message is its own ancestor on the path |
| `JsonSchema.AcyclicIsUnfolding` | internal/egress/grpc/schema.go:164-214 | on acyclic graphs the schema is the full unfolding |
| `Descriptors.FileSet.CollectMissing` | internal/egress/grpc/descriptor.go:113-172 | exactly the imports not yet known are collected |
| `Descriptors.FileSet.Absorb` | internal/egress/grpc/descriptor.go:157-167 | of one reply the files with new names, and only those, are appended in order |
| `Descriptors.NewFilesAreAppended` | internal/egress/grpc/descriptor.go:157-167 | a reply of new files is appended as it is |
| `Descriptors.FileSet.AskAll` | internal/egress/grpc/descriptor.go:132-169 | one request per missing name; success means every reply was readable, and failure that the stream failed there |
| `Descriptors.FileSet.Resolve` | internal/egress/grpc/descriptor.go:113-172 | the set is the initial one with the replies' new files appended in order; on success it is closed under imports and no reply was unreadable; and a server that sends what it is asked for ends the rounds within the number of missing names |
| `Descriptors.FileSet.FetchDependencies` | internal/egress/grpc/descriptor.go:113-172 | besides, the initial files stay a prefix, the others are as a reply sent them, no known name is added, none that was sent is missing, and nothing outside the scope is added |
| `Registrar.MapsStayAligned` | internal/runtime/actor/registrar.go:140-391 | after every sequence of commands catalog keys are IDs of valid tools, supervisors belong to catalogued tools, the extension has the same tools, and the copies differ in State at most |
| `Registrar.HandleKeepsAligned` | internal/runtime/actor/registrar.go:140-280 | each single command keeps the three maps aligned |
| `Registrar.CatalogStateIsLastHealth` | internal/runtime/actor/registrar.go:140-280 | over any commands the catalog's State is that of the last health update since the tool was published, and the published one if there was none |
| `Registrar.CopiesAgreeExactly` | internal/runtime/actor/registrar.go:140-280 | the copies agree, State included, if and only if there was no such health update or the last one wrote the published State |
| `Registrar.BootstrapPublishesLast` | internal/runtime/actor/registrar.go:259-280 | bootstrapping publishes the last valid offer for a tool in both copies and leaves tools without one alone |
| `Registrar.ResultExactly` | internal/runtime/actor/registrar.go:140-280 | a command fails if and only if its tool is invalid or unknown, and a failed command changes and announces nothing |
| `Registrar.NotifiedExactly` | internal/runtime/actor/registrar.go:171-213 | a supervisor is sent a refresh if and only if its tool was successfully disabled, enabled or updated |
| `Registrar.PublishesExactly` | internal/runtime/actor/registrar.go:140-384 | which tool each command publishes in both copies |
| `Registrar.InstalledIsHistory` | internal/runtime/actor/registrar.go:140-353 | over any commands a tool is catalogued exactly if installed and not removed since, with the metadata and the supervisor of that installation and no leftovers |
| `Registrar.UpdateKeepsTransportIff` | internal/runtime/actor/registrar.go:171-195 | the transport configuration survives if and only if the message repeats the gRPC part |
| `Registrar.UpdateReplacesGRPC` | internal/runtime/actor/registrar.go:171-195 | every gRPC tool updated with another valid gRPC part loses its own |
| `Registrar.RegistrarActor.Receive` | internal/runtime/actor/registrar.go:90-129 | the in-place dispatch performs the step on all three maps, with its result and notification |
| `Registrar.RegistrarActor.HandleRegisterTool` | internal/runtime/actor/registrar.go:140-166 | a valid tool is installed, and a disabled one stays disabled |
| `Registrar.RegistrarActor.HandleUpdateTool` | internal/runtime/actor/registrar.go:171-195 | the in-place update performs the step |
| `Registrar.RegistrarActor.HandleSetState` | internal/runtime/actor/registrar.go:200-254 | disable and enable write both copies, a health update the catalog only |
| `Registrar.RegistrarActor.HandleRemoveTool` | internal/runtime/actor/registrar.go:217-228 | the tool leaves all three maps |
| `Registrar.RegistrarActor.HandleBootstrapTools` | internal/runtime/actor/registrar.go:259-280 | valid tools are installed in order, invalid ones skipped |
| `Registrar.RegistrarActor.StopSupervisorIfExists` | internal/runtime/actor/registrar.go:358-366 | the supervisor and the extension copy of the tool are dropped |
| `DisabledTools.StaysOffExactly` | internal/runtime/actor/registrar.go:140-280 | a command leaves the copy that supervisors read Disabled if and only if it is not an enable or removal of the tool, an update or registration published while the catalog does not say Disabled, or a bootstrap whose last valid offer is not Disabled |
| `DisabledTools.RefreshTellsExactly` | internal/runtime/actor/tool_supervisor.go:357-371 | a refreshed supervisor refuses the tool as disabled if and only if that copy says so |
| `DisabledTools.StartReadsExactly` | internal/runtime/actor/tool_supervisor.go:122-189 | a started supervisor has the extension's copy of its tool, a fresh circuit with the override's thresholds and no sessions |
| `DisabledTools.RunKeepsSilent` | internal/runtime/actor/tool_supervisor.go:357-371 | across any interleaving of commands, deliveries, respawns and crashes the tool's supervisor refuses or has a refresh still to come |
| `DisabledTools.DisabledToolRefuses` | internal/runtime/actor/tool_supervisor.go:210-226 | once the supervisor has worked off the mailbox it had at DisableTool, every CanAcceptWork for the tool is refused, health updates included, until one of those commands |
| `DisabledTools.DisabledToolRefusesInEveryRun` | internal/runtime/actor/tool_supervisor.go:210-226 | the same for every system that came about from an empty one by any history of commands and messages |
| `DisabledTools.EnabledToolServesInEveryRun` | internal/runtime/actor/registrar.go:371-399 | after any history from an empty system and an EnableTool, once the supervisor has worked off its mailbox and nothing disturbed or drained the tool, its copy says Enabled, it is not draining, and a check is refused by the circuit or the cap alone |
| `DisabledTools.HealthThenUpdateRevives` | internal/runtime/actor/registrar.go:171-254 | from an empty system every valid tool can be registered and disabled, with its supervisor refusing, and accept again after a health update and an update |
| `Resources.PrintItem` | internal/egress/mcpconv/mcpconv.go:112-123 | the object holds the URI, the other fields exactly where non-empty, and nothing else |
| `Resources.ReadResourceResultToOutput` | internal/egress/mcpconv/mcpconv.go:99-128 | nil prints as nil, no entries as an empty map, and otherwise one object per non-nil entry in order |
| `Resources.OutputToReadResourceResult` | internal/ingress/pkg/dispatch.go:293-347 | the loops compute the specified reading, for both slice types, missing contents and mistyped fields |
| `Resources.CollectObjects` | internal/ingress/pkg/dispatch.go:316-322 | exactly the objects of a mixed slice are kept, in order |
| `Resources.ItemRoundTrip` | internal/ingress/pkg/dispatch.go:325-344 | reading an entry's object gives back its URI, MIME type, text and blob |
| `Resources.ResultRoundTrip` | internal/ingress/pkg/dispatch.go:293-347 | reading back what a result prints gives exactly its non-nil entries in order, if and only if it has at least one entry |
| `Resources.RoundTripInOrder` | internal/egress/mcpconv/mcpconv.go:99-128 | a result without nil entries comes back entry for entry |
| `Resources.NonNilInOrder` | internal/egress/mcpconv/mcpconv.go:107-110 | nil entries are dropped and the others keep their order |
| `Resources.NilRoundTrip` | internal/egress/mcpconv/mcpconv.go:99-102 | a nil result reads back as an empty one |
| `Resources.ListReadsAsObjects` | internal/ingress/pkg/dispatch.go:312-323 | a slice of any reads as the slice of the objects in it |
| `Resources.ObjectsInOrder` | internal/ingress/pkg/dispatch.go:316-322 | of a mixed slice exactly the objects are kept, in their order |
| `Resources.OtherOutputsRead` | internal/ingress/pkg/dispatch.go:298-323 | an output without contents reads as one entry of its JSON text, and contents that are no slice as no entry |
| `Resources.FieldReadsEmptyExactly` | internal/ingress/pkg/dispatch.go:328-340 | a field reads as empty exactly if it is missing, mistyped or empty |
| `Resources.JsonRoundTripExactly` | internal/ingress/pkg/dispatch.go:325-344 | an entry that has been through JSON reads back unchanged if and only if it has no blob |
| `Resources.ReadIsStable` | internal/ingress/pkg/dispatch.go:293-347 | what the reader makes of any output survives another round trip unless it is empty |

## Left out

- HTTP, SSE, WebSocket, stdio and gRPC transports, TLS and SDK sessions: I/O over libraries.
- OAuth, token exchange and bearer handling: thin wrappers over the MCP SDK.
- Telemetry, tracing, logging and audit sinks: side effects only; the transitions the supervisor emits are a recorded sequence.
- GoAkt's mailboxes, grain engine, cluster singleton and remoting: first-in first-out delivery of one message at a time and grain activation are steps of the model.
- Delivery of outcome reports: a report is the call that sends it; a supervisor that cannot be resolved loses it.
- Go's panic recovery: after a nil dereference the grain goes on with the fields it had at that point.
- Health probe state mapping: branching on reason texts.
- Gateway API, configuration defaults, router bookkeeping, journal and generated code: relays and data.
- Per-tenant session counts and the session and tool listings: single filters over maps modelled here.
- Liveness of half-open recovery: the code does not guarantee it, because health probes take slots and the slot is taken before the cap check.
- Invocation correlation metadata and the tenant and tool IDs that a cached credential answer omits: carried, never inspected.
- Saturation of Go durations and 64-bit wrap-around: instants and durations are unbounded integers.
- Session names whose parts contain hyphens: the session bound counts names as the supervisor does, so sessions whose names collide count once.
- Resource entry metadata and the difference between a nil and an empty blob: neither is part of the converted fields.
- JsonSchema.SchemaIsSound: well-known types, non-finite floats and unnamed enum values are outside its notion of ProtoJSON; the derivation does not treat them specially.
- Session.StreamDoesOnce: a streaming executor that returns neither a stream nor an error is not modelled; its forwarder dereferences nil and takes the process down.
- The order in which a GoAkt mailbox takes messages of different senders: an activation that a grain sends before it answers is queued ahead of what its router sends after the answer.
- Descriptors.FileSet.FetchDependencies: a server that never sends the file it is asked for is asked until its stream ends; the bound on rounds assumes it does send it.
