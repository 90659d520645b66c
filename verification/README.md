# Verified models of the agent-runtime core

A Dafny 4.11 model of the parts of the proxy whose correctness depends on interleavings, on
chunked input or on whole runs, with proofs of what those parts promise. `dafny verify
dfyconfig.toml` checks everything.

**The ACP runtime pool** (`Pool*.dfy`). `RuntimePool` owns agent subprocesses, one slot per
key, shared by turns, an idle reaper, a capacity evictor, stale-kill timers, asynchronous
retirements and construction flights. `PoolState` is the state, `PoolSteps` the protocol with one
step per critical section: a thread that resolved a slot may act on it at any later step, every
count reads slots one at a time, and deadlines, cancellations, clocks and the outcome of OS calls
are free choices of the step. `PoolInv` is the inductive invariant, stated per slot, turn, child,
key and timer. `PoolLocal` reduces the invariant of the whole pool to one slot, its holder and
one child; `PoolHeld`, `PoolEnv`, `PoolTimers`, `PoolClaims`, `PoolSafety` and `PoolCapacity`
show that every step keeps it. `PoolRuns`, `PoolOwnership`, `PoolReleases`, `PoolQuarantine`,
`PoolCleanup`, `PoolContinuity` and `PoolReset` state what holds over every run, and `PoolGuards` exactly
when, in a reachable state, each step that takes a slot or a process may be taken. `PoolRuntime` and `PoolObjects` are
the same slots and maps as objects changed in place; the guards and effects in their contracts are
the functions the protocol's steps are made of.

**Transcript continuity** (`Transcript*.dfy`, `PoolContinuity.dfy`, `PoolReset.dfy`,
`PoolTransportFailure.dfy`). The history coordinator decides between full replay, tail and reset.
`TranscriptContent` says what a serialized transcript contains, part by part, and `TranscriptDigest`
which edits change a digest. A digest is represented by the
exact bytes fed to SHA-256, so that equal digests mean equal digest inputs. Joined with the pool and
the turn protocol: for every shipped process and in every run, the first prompt of every incarnation
and rotated session is the whole conversation, and every later one continues what that session was
sent. `ContinuityIsExact` gives the exact condition on the spawned processes: their `Wait` never reports an incomplete cleanup,
as that of the default `osProcess` (`connector-support/acp/transport_stdio_os.go:111-113`), or they
offer `WaitCleanup`, as the supervised process of claudeagentacp does. A pool of the first kind never
quarantines a slot. In one of the second, a transport that reported a cleanup failure reports it again
when its retirement closes it (`connector-support/acp/transport_stdio.go:459-516`), and so does
`WaitCleanup`; the retirement fails, the slot is quarantined and the turn that planned an incremental
prompt sends none. A process that reports incomplete cleanups and offers no `WaitCleanup` is allowed by
the pool's interface but not among the shipped ones: a recycled PID then makes `retireDetached` return
nil without asking (`connector-support/acp/runtime_pool.go:771-796`), and a run of the pool sends an
incremental prompt to a new process.

**The compaction-facts matcher** (`Utf8`, `Markers`, `TextMatching`, `StartRules`, `RequestFacts`,
`FactsBuilder`). UTF-8 is
decoded byte by byte as section 4 of RFC 3629 and Go's one-byte error steps say; the streaming
matcher with its 64-byte overlap and 3-byte carry refines a search of the whole decoded text, and
the incremental builder agrees with the batch extraction for every chunking. `RequestFacts` says what
the facts report of a call: its counts and fingerprints, and the first rule of the start-rule table
whose markers its texts contain.

**Smaller protocols**: the lock-free session-option store (`SessionOptions`), the line channel
reader (`LineReader`), the event framer and its queue (`EventFraming`), the chat tool tracker
(`ChatSpec`, `ChatTracker`, `ChatEvents`, `ChatDecoding`), the OAuth quarantine latch with the error
classification of section 5.2 of RFC 6749 (`OAuthSession`), the reflect taint fixpoint
(`ReflectTaint`) and the cache-retention planner (`CacheRetention`).

## Model

| member | source | states |
|---|---|---|
| `PoolRuns.StepKeepsInv` | connector-support/acp/runtime_pool.go:517-1092 | every critical section, by any thread at any time, keeps the pool invariant |
| `PoolRuns.RunsKeepInv` | connector-support/acp/runtime_pool.go:517-1092 | every run keeps the invariant, whatever the interleaving |
| `PoolRuns.CapacityBound` | connector-support/acp/runtime_pool.go:978-1092 | with MaxRuntimes > 0, never more than MaxRuntimes children are alive: started but unregistered, live, retiring or never confirmed extinct |
| `PoolCapacity.CountCapacity` | connector-support/acp/runtime_pool.go:978-999 | under the spawn gate the slot-by-slot count bounds the live slots from above, although slots change while it runs |
| `PoolCapacity.SnapshotCovers` | connector-support/acp/runtime_pool.go:978-987 | the slots the count will read include every slot that may hold a process |
| `PoolCapacity.RegisterCapacity` | connector-support/acp/runtime_pool_ensure.go:143-170 | the permit taken before Spawn pays for the slot the child is registered in |
| `PoolOwnership.SpawnedIsAccountedFor` | connector-support/acp/runtime_pool.go:335-400 | from its spawn through every further run a child is kept by its flight leader, a slot, a retirement or failed-retirement evidence, until exactly the step that confirms the retirement that owns it |
| `PoolOwnership.GoneIsConfirmed` | connector-support/acp/runtime_pool.go:708-733 | no step drops a child, and one becomes gone exactly when its own retirement is confirmed |
| `PoolRuns.OwnershipIsExact` | connector-support/acp/runtime_pool.go:335-400 | in every reachable state a holder keeps a child if and only if that is the child's one recorded place |
| `PoolRuns.RegistrationOverwritesNothing` | connector-support/acp/runtime_pool.go:335-386 | a flight leader publishes into the slot its turn claimed, which holds no process |
| `PoolRuns.TurnsAreExclusive` | connector-support/acp/runtime_pool.go:517-579 | at most one turn holds a slot, a held slot is canonical for its key, and a slot is in use exactly while a turn holds it |
| `PoolRuns.HeldProcessIsSafe` | connector-support/acp/runtime_pool.go:274-309 | no reaper, evictor, retirement or timer step takes the process of a held slot |
| `PoolRuns.WithdrawnNeverServes` | connector-support/acp/subprocess_spec.go:547-582 | a withdrawn incarnation is never prompted again and is live only while the turn that withdrew it is about to detach it |
| `PoolRuns.StaleTimerIsSafe` | connector-support/acp/runtime_pool.go:1342-1404 | a timer callback detaches only the runtime and the very child it was armed for, and only if no claim began since |
| `PoolRuns.NoTimerIsLost` | connector-support/acp/runtime_pool.go:870-897 | with stale kills enabled, an idle runtime with a live process has a pending release of its epoch, an armed timer of its epoch, or that timer's callback in flight |
| `PoolReleases.CurrentTimerSurvivesReleases` | connector-support/acp/runtime_pool.go:1286-1328 | in every reachable state, whichever release runs its scheduling, the timer of a canonical slot's current generation stays armed and current |
| `PoolReleases.StepKeepsReleases` | connector-support/acp/runtime_pool.go:870-897 | while a release still owns its slot's generation, no timer of that generation is armed |
| `PoolQuarantine.QuarantineIsPermanent` | connector-support/acp/runtime_pool.go:708-757 | after a failed retirement, in every later state the slot keeps its child and error, stays in the pool, has no process, and refuses every claim and every registration |
| `PoolGuards.ClaimIsExact` | connector-support/acp/runtime_pool.go:517-579 | in every reachable state tryClaimForTurn takes the slot it looked up if and only if no turn holds it, it is not deleted, no retirement of its child is in flight and no cleanup failed; only a failed cleanup refuses for good; the process is used as it is unless it was started for another configuration |
| `PoolGuards.ClaimedSlotIsSound` | connector-support/acp/runtime_pool.go:527-556 | whatever the step, a turn newly holds a slot only by claiming it, and then the slot was canonical, held by none, and nothing of it was being retired or had failed; its timer is cancelled |
| `PoolGuards.EvictionIsExact` | connector-support/acp/runtime_pool.go:936-973 | in a bounded pool a slot may be evicted if and only if it has a process and no turn holds it |
| `PoolGuards.ReapIsExact` | connector-support/acp/runtime_pool.go:274-299 | a process may be reaped if and only if no turn holds its slot and its transport reported no failed cleanup |
| `PoolGuards.ReservationIsExact` | connector-support/acp/runtime_pool.go:1376-1404 | a timer callback takes a process if and only if there is one and its epoch is the slot's, and then no turn holds the slot |
| `PoolGuards.ArmingIsExact` | connector-support/acp/runtime_pool.go:1286-1328 | a release arms a timer, of the next generation and the current child, if and only if its slot has a process and its generation is unspent |
| `PoolGuards.RemovalIsExact` | connector-support/acp/runtime_pool.go:743-757 | a slot of a bounded pool may be removed if and only if no turn holds it and no child is live, retiring or unconfirmed in it |
| `PoolGuards.KillIsExact` | connector-support/acp/runtime_pool.go:1124-1154 | a kill retires the process of the held slot and waits for the retirement in flight; without one it succeeds if and only if none failed |
| `PoolGuards.KillWaitIsExact` | connector-support/acp/runtime_pool.go:1157-1167 | a wait for a retirement succeeds if and only if it was not cancelled and none failed, and only after a successful kill does a flight leader build |
| `PoolGuards.RegistrationIsExact` | connector-support/acp/runtime_pool.go:335-386 | a started child is registered if and only if the slot its turn holds has no retirement in flight and no failed one |
| `PoolGuards.HandoverIsExact` | connector-support/acp/runtime_pool_ensure.go:236-251 | EnsureProcess hands over without building if and only if the slot's process is initialized, was started for the wanted configuration and reported no failure |
| `PoolGuards.CommitMarksTheConversation` | connector-support/acp/history_transcript.go:256-261 | a commit leaves a marker from which the conversation and all its extensions continue, and no conversation with an edited message of it does |
| `PoolGuards.WithdrawalIsExact` | connector-support/acp/runtime_pool.go:848-866 | a turn cut short records the withdrawal on its child, drops the marker and gives the child up before the slot |
| `PoolSafety.HolderStepIsLocal` | connector-support/acp/subprocess_spec.go:384-491 | a step of a turn that keeps its claim changes only its slot, its turn and one child |
| `PoolContinuity.MarkerHasItsProcess` | connector-support/acp/runtime_pool.go:647-662 | a non-empty history marker implies an initialized live process whose session was sent the marked conversation |
| `PoolContinuity.PromptContinuesExactly` | connector-support/acp/subprocess_spec.go:384-491 | in every run of any pool, a prompt keeps its session continuous if and only if it is the whole conversation or the session was prompted before |
| `PoolContinuity.ReuseIsExact` | connector-support/acp/runtime_pool_ensure.go:236-251 | while the process whose marker was read is in the slot, EnsureProcess reuses it if and only if its transport reported no cleanup failure |
| `PoolContinuity.LaterPromptsAreContinuous` | connector-support/acp/subprocess_spec.go:384-491 | in every run of any pool everything after a session's first prompt is continuous, and the first prompt too where no retirement overlooks an incomplete cleanup |
| `PoolContinuity.SessionsAreContinuous` | connector-support/acp/subprocess_spec.go:384-491 | in every run of a pool whose processes never report an incomplete cleanup, or offer WaitCleanup, every session of every child is continuous from its first prompt |
| `PoolReset.DivergedStartsAfresh` | connector-support/acp/subprocess_spec.go:384-491 | in every run, a prompt whose conversation diverged from the marker its turn read is the first of its session and the whole conversation |
| `PoolTransportFailure.ContinuityIsExact` | connector-support/acp/runtime_pool.go:761-800 | continuity holds in every run if and only if the processes never report an incomplete cleanup, or offer WaitCleanup |
| `PoolCleanup.NothingIsQuarantined` | connector-support/acp/transport_stdio_os.go:111-113 | a pool whose processes' Wait never reports an incomplete cleanup never has a failed transport, a failed retirement or a quarantined slot, in any run |
| `PoolTransportFailure.ContinuityFailsAfterTransportFailure` | connector-support/acp/runtime_pool.go:771-796 | with processes that report incomplete cleanups and offer no WaitCleanup, for any capacity and stale-kill setting: a run in which a recycled PID ends a failed retirement and the next process's first prompt is incremental |
| `PoolRuntime.SubprocessRuntime.TryClaim` | connector-support/acp/runtime_pool.go:527-556 | the claim succeeds exactly on a claimable slot, which is neither in use, retiring, deleted nor failed; it advances the epoch and keeps the process, and otherwise changes nothing |
| `PoolRuntime.SubprocessRuntime.TryReap` | connector-support/acp/runtime_pool.go:274-299 | an expired idle slot loses its process; every other slot is unchanged |
| `PoolRuntime.SubprocessRuntime.TryEvict` | connector-support/acp/runtime_pool.go:960-971 | the eviction check and the detachment are one step |
| `PoolRuntime.SubprocessRuntime.TryReserve` | connector-support/acp/runtime_pool.go:1376-1404 | a timer's epoch check, eligibility checks and detachment are one step |
| `PoolRuntime.SubprocessRuntime.TryPublish` | connector-support/acp/runtime_pool.go:353-383 | registration succeeds exactly on a slot that is not retiring, deleted, quarantined or failed |
| `PoolObjects.RuntimePool.Resolve` | connector-support/acp/runtime_pool.go:519-525 | an existing slot is returned unchanged, a missing one is created empty |
| `PoolObjects.RuntimePool.RetireUnpublished` | connector-support/acp/runtime_pool.go:390-400 | a refused child gets an owner of its own among the retirements |
| `PoolObjects.RuntimePool.TryClaimForTurn` | connector-support/acp/runtime_pool.go:527-556 | a claim cancels the key's timer with the epoch change; a refused claim touches nothing |
| `PoolObjects.RuntimePool.ScheduleStaleKill` | connector-support/acp/runtime_pool.go:1286-1328 | a timer is armed exactly if the owner is canonical, its generation is the token and it can be retired; the timer carries the new generation |
| `PoolObjects.RuntimePool.DisarmStaleKill` | connector-support/acp/runtime_pool.go:1419-1426 | only the timer of this epoch and runtime is removed |
| `PoolObjects.RuntimePool.RetireStaleRuntime` | connector-support/acp/runtime_pool.go:1342-1363 | the callback retires exactly a canonical runtime of its epoch, leaves its own timer disarmed and every other timer armed |
| `PoolObjects.RuntimePool.RemoveRetiredSlot` | connector-support/acp/runtime_pool.go:743-757 | a slot leaves exactly if it is unclaimed, empty and clean, and only its own map entry goes |
| `PoolObjects.RuntimePool.Release` | connector-support/acp/runtime_pool.go:870-897 | the claim ends, an empty slot of a bounded pool leaves, a slot that keeps its process gets a timer of its new generation, and nothing else changes |
| `PoolObjects.RuntimePool.TryReapIdle` | connector-support/acp/runtime_pool.go:274-309 | the timer of a reaped runtime is cancelled |
| `PoolObjects.RuntimePool.LiveProcessCount` | connector-support/acp/runtime_pool.go:978-999 | the count is the number of canonical slots plus retirement owners that may hold a process |
| `PoolObjects.RuntimePool.ReserveIdleVictim` | connector-support/acp/runtime_pool.go:936-973 | the least recently used evictable slot other than the kept key loses its process; with none, no slot changes |
| `Transcript.HashMessagesPrefix` | connector-support/acp/history_transcript.go:232-253 | the hashed bytes are the digest input of the effective prefix |
| `Transcript.SerializeTranscriptLoop` | connector-support/acp/history_transcript.go:119-157 | the loops produce the transcript split at the last user message |
| `TranscriptContent.ReplayCarriesEverything` | connector-support/acp/history_transcript.go:119-157 | every part of every message with something to show occurs in the replay under its speaker, in message and part order, everything before the last user message before the separator and the rest after it |
| `TranscriptContent.TailCarriesTheRest` | connector-support/acp/history_transcript.go:162-175 | the same of the tail, for the messages from its start |
| `TranscriptContent.LastUserMessageIsWhole` | connector-support/acp/history_transcript.go:215-229 | every part of the last user message that has something to show occurs in the prompt made of it, in order |
| `TranscriptDigest.EditChangesDigest` | connector-support/acp/history_transcript.go:232-253 | a single edit of a role, a text, a reference or a name changes the bytes that are hashed |
| `TranscriptDigest.EditedMessageResets` | connector-support/acp/history_transcript.go:49-93 | such an edit of a committed message resets the next call, whatever it appends, and replays the whole conversation |
| `TranscriptDigest.CommittedConversationContinues` | connector-support/acp/history_transcript.go:49-93 | a committed conversation, however continued, goes on from its marker |
| `Transcript.ContinuesExactly` | connector-support/acp/history_transcript.go:49-93 | messages are left out if and only if the marker is a non-empty prefix of the conversation by digest input |
| `Transcript.EditIsDetected` | connector-support/acp/history_transcript.go:49-93 | after a committed conversation, the next call resets exactly if it is shorter or its beginning was edited, is then replayed whole, and always commits what it describes |
| `Transcript.CommittedMarkerDescribesCall` | connector-support/acp/history_transcript.go:256-261 | on every branch the committed marker describes exactly the conversation of the call |
| `Transcript.AppendOnlySendsTheRest` | connector-support/acp/history_transcript.go:162-175 | an appended conversation never resets, and sends exactly the serialization of what was appended |
| `Utf8.EncodeDecode` | internal/compactionfacts/builder.go:156-166 | decoding undoes encoding for every Unicode scalar value, whatever follows |
| `Utf8.DecodeEncode` | internal/compactionfacts/builder.go:156-166 | a well-formed sequence denotes a scalar value and is its only encoding |
| `Utf8.DecodeIsExact` | internal/compactionfacts/builder.go:156-166 | decoding reads the scalar whose encoding begins the slice, and when none does the replacement character from one byte |
| `Utf8.EncodedText` | internal/compactionfacts/builder.go:156-166 | the text of n scalars counts n runes and is folded rune by rune |
| `Utf8.FoldedCut` | internal/compactionfacts/builder.go:88-110 | decoding a text cut cleanly is decoding its two parts, in bytes and in rune count |
| `Utf8.SuffixCut` | internal/compactionfacts/builder.go:88-141 | what incompleteUTF8SuffixLen holds back always leaves a clean cut, also across earlier chunks |
| `Markers.SearchByPieces` | internal/compactionfacts/builder.go:169-183 | searching the 64-byte overlap and the new text finds exactly what the whole text adds |
| `Markers.KnownMarkersFit` | internal/compactionfacts/builder.go:13-45 | every known marker is non-empty, at most 64 bytes long and without newline |
| `TextMatching.AppendFolded` | internal/compactionfacts/builder.go:153-166 | the decoding loop appends the folded text and counts its runes |
| `TextMatching.TextMatcher.Feed` | internal/compactionfacts/builder.go:116-186 | after any chunk the found markers and the overlap are those of the whole decoded text, and the count is of the runes decoded by it |
| `TextMatching.TextMatcher.FlushPending` | internal/compactionfacts/builder.go:204-247 | the bytes held back complete the decoding of the field |
| `TextMatching.TextMatcher.EndField` | internal/compactionfacts/builder.go:253-278 | the field joins the ended ones with a newline, and its rune counts sum to its rune count |
| `TextMatching.TextMatcher.FeedField` | internal/compactionfacts/builder.go:281-288 | a whole field, or nothing for an empty one |
| `TextMatching.TextMatcher.FeedFieldInChunks` | internal/compactionfacts/builder.go:116-278 | for every chunking, found markers and rune count are those of the undivided field |
| `TextMatching.AnswersExactly` | internal/compactionfacts/builder.go:296-308 | HasText of a known marker holds if and only if the whole text contains it |
| `TextMatching.FoundInOneField` | internal/compactionfacts/builder.go:253-278 | a marker is found if and only if a single field contains it |
| `StartRules.MatchStartRule` | internal/compactionfacts/rules.go:123-133 | the loop returns the first matching rule of the table |
| `StartRules.RulesAskForKnownMarkers` | internal/compactionfacts/rules.go:19-120 | every marker a rule of the table asks for is one the matcher looks for, written as it is folded |
| `RequestFacts.ProgramIsSound` | internal/compactionfacts/builder.go:13-45 | the program's markers and rules meet what the facts require |
| `RequestFacts.FactsDescribeCall` | internal/compactionfacts/builder.go:513-564 | the facts report the operation, the tools and tool-call items, a quarter of the runes of all texts, every item hash, the last two, the digest of the first eight, and the first rule whose markers are all contained in some text of the call |
| `FactsBuilder.ExtractFactsFromCall` | internal/compactionfacts/builder.go:513-564 | the batch facts are those of the call's non-empty texts, hashes and tools, and describe the call: counts, fingerprints and the first start rule its texts meet |
| `FactsBuilder.StreamCall` | internal/compactionfacts/builder.go:349-508 | a builder fed any chunking of the call succeeds if and only if the items fit the budget, and then has the batch facts, which describe the call |
| `FactsBuilder.Builder.AddItemHash` | internal/compactionfacts/builder.go:397-408 | the error is set exactly when more items were offered than the budget, and sticks |
| `FactsBuilder.Builder.FeedTextChunk` | internal/compactionfacts/builder.go:358-364 | the chunk extends the current field and its runes are accounted for; after an error nothing changes |
| `FactsBuilder.Builder.EndField` | internal/compactionfacts/builder.go:378-384 | the field is ended and its runes are accounted for |
| `FactsBuilder.Builder.Build` | internal/compactionfacts/builder.go:470-508 | success exactly within the budget; the facts depend on the texts, not on their chunks |
| `SessionOptions.CloseWithdraws` | connector-support/acp/session_options.go:26-45 | once a close and all publishes in flight returned no snapshot is left; before, one is visible only while a publish has still to recheck |
| `SessionOptions.WonPublishSwapped` | connector-support/acp/session_options.go:31-40 | a publish that returned true swapped at a step where the store held the snapshot it expected |
| `SessionOptions.LonePublishIsExact` | connector-support/acp/session_options.go:31-40 | a publish that runs alone wins exactly if the store has not ended and holds the snapshot it expects |
| `SessionOptions.LatePublishFails` | connector-support/acp/session_options.go:31-40 | no publish that begins after the store ended returns true |
| `LineReader.ReturnedIsPrefix` | connector-support/acp/transport_stdio.go:545-611 | for every schedule and buffer size the bytes returned are a prefix of the sent lines, in order |
| `LineReader.NoLineLostBeforeEof` | connector-support/acp/transport_stdio.go:562-604 | every EOF comes after the whole of every line sent before the done signal, whichever ready case a select takes |
| `LineReader.LineChannelReader.Enqueue` | connector-support/acp/transport_stdio.go:545-550 | a line is queued with its newline or, after done, may be dropped |
| `LineReader.LineChannelReader.Read` | connector-support/acp/transport_stdio.go:562-611 | the next bytes owed are served; EOF means nothing is owed |
| `EventFraming.ReceiveMany` | connector-support/acp/ndjson_stream.go:208-302 | for every line sequence and cap: one start each, deltas after both, finish once and last; recoverable errors only before output, and every decode or scan error before it; a required terminal response is never synthesized; without a refused push the mapped events arrive in order, and all of them before the end of the file; a call fails only for a refused push, a failing line or how the stream ended |
| `EventFraming.NDJSONStream.EnqueueEvents` | connector-support/acp/ndjson_stream.go:166-190 | without a refused push the framer adds only starts to the mapped events, in order |
| `EventFraming.NDJSONStream.Recv` | connector-support/acp/ndjson_stream.go:208-302 | one Recv keeps the framing, delivers the queue in order, and ends only when it is empty; an error before output is recoverable unless a push was refused or the mapper or a server request failed |
| `EventFraming.PendingEventQueue.Push` | pkg/streampump/pending.go:38-45 | an event is appended or, at the cap, refused; compaction is invisible |
| `EventFraming.PendingEventQueue.PopFront` | pkg/streampump/pending.go:48-58 | events leave in order; compaction is invisible |
| `ChatTracker.ToolArgumentsConserved` | connector-support/openaicompat/stream.go:199-263 | over every stream, between tool_calls terminals, the fragments of every index that received an id are emitted once, in order and under the id that index was last started with, others not at all; every argument or finish event follows its start |
| `ChatTracker.FinishKeeps` | connector-support/openaicompat/stream.go:250-261 | a tool_calls terminal finishes every started index once under its id, in first-id order, with no finish before it, and clears the tracker |
| `ChatSpec.FirstSeenIsExact` | connector-support/openaicompat/stream.go:206-213 | an index is listed once, exactly if it received an id |
| `ChatEvents.StreamEmits` | connector-support/openaicompat/stream.go:158-276 | apart from the two starts the tracker yields exactly the events the chunks call for: reasoning, tool calls, content and terminal of each choice, then the usage |
| `ChatEvents.TextsAreContents` | connector-support/openaicompat/stream.go:199-275 | those events carry every non-empty content and reasoning and every usage once, in order, each as what it is |
| `ChatEvents.StreamStarts` | connector-support/openaicompat/stream.go:187-198 | the message starts exactly if a choice speaks, the response exactly if it does or a usage is reported |
| `ChatDecoding.DecodeStream` | connector-support/openaicompat/stream.go:158-276 | the decoder run over any chunks emits, apart from single starts, exactly the events the chunks call for, every content, reasoning and usage once and as what it is; tool calls are conserved segment by segment |
| `ChatDecoding.ChatDecoder.Decode` | connector-support/openaicompat/stream.go:158-276 | one chunk applies its operations in source order and returns the events it adds |
| `ChatDecoding.ChatTerminal.Observe` | connector-support/openaicompat/stream.go:110-120 | length wins over content_filter in any order |
| `ChatDecoding.ChatTerminal.TerminalEvent` | connector-support/openaicompat/stream.go:97-107 | the terminal names exactly the winning reason observed |
| `OAuthSession.NoReplay` | connector-support/oauthcred/session.go:154-262 | in every run of calls, between a call with a terminal outcome and a later call of the refresher there was a successful Delete or Save of a non-quarantined record |
| `OAuthSession.TokensArePersisted` | connector-support/oauthcred/session.go:219-233 | a token the refresher gave was persisted before it is returned, and any session on that store returns it while it is fresh |
| `OAuthSession.RestartKeepsQuarantine` | connector-support/oauthcred/session.go:170-174 | a written quarantine latches another session on the same store before it calls the refresher |
| `OAuthSession.TokenIsCurrent` | connector-support/oauthcred/session.go:176-233 | a returned token is the stored one, outliving the lead, or the one the refresher just gave, kept with its expiry and refresh token |
| `OAuthSession.TokenIsServed` | connector-support/oauthcred/session.go:176-233 | a session that is not latched returns a stored token that outlives the lead without a refresh, and otherwise asks the refresher whenever it can |
| `OAuthSession.SavedTokenIsServed` | connector-support/oauthcred/session.go:241-250 | a saved fresh token is returned by the next call, whatever the session was before |
| `OAuthSession.NoTokenAfterDelete` | connector-support/oauthcred/session.go:253-262 | after a deletion no token is returned and no refresh attempted until something is saved |
| `OAuthSession.TerminalTextIsNotRetried` | connector-support/oauthcred/session.go:92-107 | an error text with a code of section 5.2 of RFC 6749 that ends a grant is terminal whatever its status |
| `OAuthSession.RunCalls` | connector-support/oauthcred/session.go:154-262 | the session object returns the tokens and does exactly what the run of calls says |
| `OAuthSession.Session.Token` | connector-support/oauthcred/session.go:154-233 | the loads, refreshes, saves, latch and token of one call on every path |
| `OAuthSession.Session.Save` | connector-support/oauthcred/session.go:241-250 | only a successful save sets or clears the latch |
| `OAuthSession.Session.Delete` | connector-support/oauthcred/session.go:253-262 | only a successful delete clears the latch, whether or not a failed one removed the record |
| `OAuthSession.TokenErrorIsNotRetried` | connector-support/oauthcred/session.go:54-107 | a refresh refused with an error of section 5.2 of RFC 6749 is not tried again until the latch is cleared |
| `OAuthSession.TransientFailureIsRetried` | connector-support/oauthcred/session.go:85-107 | a timeout, throttling or server failure that names no terminal error leaves the session unchanged, and the next call reaches the refresher |
| `ReflectTaint.CollectValueVars` | internal/archtest/closure_reflect_scan.go:68-121 | the fixpoint loop terminates with exactly the names a chain of copies reaches from reflect.ValueOf |
| `ReflectTaint.TaintIsLeast` | internal/archtest/closure_reflect_scan.go:68-121 | those names lie in every set that has the seeds and is closed under copies |
| `ReflectTaint.CopiesValueVar` | internal/archtest/closure_reflect_scan.go:129-147 | a binding copies a tainted name exactly if one of its right-hand sides is one, parentheses aside |
| `CacheRetention.EveryOpenRefKeepsOne` | scripts/prune-go-caches.py:51-132 | before the budget, every ref that is no closed pull request and owned a snapshot keeps one |
| `CacheRetention.OlderOnes` | scripts/prune-go-caches.py:109-140 | grouping and newest-first selection give up exactly the caches with a newer one in their group |
| `CacheRetention.RetiredOnes` | scripts/prune-go-caches.py:66-133 | the replacement lanes collected in the loops retire exactly what a producer on the same ref replaced |
| `CacheRetention.EvictToBudget` | scripts/prune-go-caches.py:153-157 | the shortest prefix whose removal brings the total within the budget, or everything |
| `CacheRetention.SupersessionIsExact` | scripts/prune-go-caches.py:66-133 | before the budget a cache of the planner's own goes exactly if its pull request is closed, a newer one of its group exists, or another cache of its ref supplants it |
| `CacheRetention.StrangersStay` | scripts/prune-go-caches.py:66-140 | unknown caches and the last linter cache of a version stay |
| `CacheRetention.ObsoleteSnapshots` | scripts/prune-go-caches.py:51-158 | the plan is the superseded snapshots and that prefix of the survivors in tier order: main yields last, there Linux and portable caches do, and among equals the least recently used goes first; no older copy on the same ref is kept |

## Left out

- Operating system processes, pipes, PID identity and `/proc`: a retirement ends "confirmed" or "incomplete" by free choice, except that no cleanup fails for a process whose Wait reports none, and a transport which already reported a failure is never confirmed when the process offers WaitCleanup.
- `RuntimePool.Close`, `MarkInUse`, direct `SetProcess` and `Acquire` as concurrent actors: the program makes draining and slot ownership the duty of their caller.
- Waiting signals (claimReleased, retirement channels, capacityChanged, flight.done) and wall-clock time: a waiter may resume or give up at any step that its condition allows, so nothing is said about liveness.
- The eviction and reaping loops of the protocol choose any eligible slot; the order by last activity is only in `ReserveIdleVictim`.
- Session instructions, session ids, the turn's stream events and cancellation of a running prompt beyond the withdrawal it causes.
- A claim holder's step that resolves its key and then locks the slot is one step: the held slot is canonical for its key in every reachable state, so nothing can come between.
- Injectivity of the message encoding: separators are not escaped and some part kinds are skipped, so continuity is stated over digest inputs; TranscriptDigest.EditChangesDigest covers edits of one field.
- SHA-256 is an arbitrary function, and Unicode lower-casing one that leaves ASCII alone but for its capitals; `Builder.AddItem`, item hashing and the order in which a call's texts are walked are inputs.
- PoolObjects.RuntimePool.LiveProcessCount: counts without interference between its reads; PoolCapacity.CountCapacity is the statement under interference.
- PoolObjects.RuntimePool.Release: its three critical sections run without interference; the protocol's steps separate them.
- PoolObjects.RuntimePool.ReserveIdleVictim: activity times are read and slots are tried without interference.
- LineReader.LineChannelReader.Read: its selects run without interference; the schedules of LineReader.NoLineLostBeforeEof interleave them.
- EventFraming.ReceiveMany: the mapper is assumed to emit no start and to put a finish last in its batch; tool and usage events and those injected from outside are not ordered by the framer.
- EventFraming.NDJSONStream.Recv: errors of the mapper and of server-request handlers count as not recoverable; the call's own context is not modelled.
- JSON decoding, the Responses flavour of the chat decoder, and the choice between the two vendor reasoning fields.
- ChatTracker.ToolArgumentsConserved: the index of an emitted event is recorded beside it; two indices that a vendor gives the same id stay distinct only there.
- Error texts, redaction and logging of the OAuth session, and a store shared by several processes.
- The syntax walks of the architecture tests, which collect the bindings, and the violations they report.
- The textual patterns of cache keys and the JSON report.
