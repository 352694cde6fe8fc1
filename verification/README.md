# Delivery and recovery of reactive-commons-go, verified

A Dafny model of the parts of the messaging library where interleavings, ordering and arithmetic decide whether a
message is delivered, confirmed, retried or lost:

| file | what it models |
|---|---|
| `Matcher.dfy` | topic matching, the specificity comparator and handler-name resolution |
| `Registry.dfy` | handler registration and lookup: the cached rabbit registry and the plain kafka registry |
| `Sender.dfy`, `SenderRuns.dfy`, `SenderLaws.dfy` | the publisher-confirm sender: the object, every interleaving around it, and what each step may do |
| `Consumer.dfy` | the supervised consumer: hand-over between supervisor generations, self-heal, health |
| `Connection.dfy` | dial, cancelled dial, close, close watcher and reconnect loop on one connection object |
| `Shutdown.dfy` | the two-WaitGroup shutdown of the rabbit application |
| `Kafka.dfy` | retry backoff, retry loop, dead-lettering and offset commits of the kafka listeners |
| `Replies.dfy` | correlation of query replies to the calls that wait for them |
| `DeadLetter.dfy` | the queue/DLQ retry cycle: topology, settlement of a delivery, conservation of a message |

## How the protocols are modelled

Each object that the code updates under a lock is a class with those fields. Every lock-protected section is a
function on a snapshot of the fields (`SenderCore.Registered`, `ConsumerCore.Superseded`, ...), and the class method for
that section is proved to do exactly what the function says. The state machines (`SenderRuns`, `ConsumerRuns`,
`ConnectionRuns`, `Shutdown`, `Replies`, `Registry`) are built from the same functions: one event is one lock-protected
section or one step of the environment, and a goroutine's purely local steps are folded into its next shared one. A
`Run` is a sequence of states from the initial one, each obtained by some enabled event. Every main result holds in
every state of every run. Timers and contexts are events that may happen whenever the code looks for them.

Besides what never happens, the models state what can happen: `Leads(s, t)` says that some continuation of `s` arrives at
`t`, and results such as `ConsumerRuns.ConsumesIff`, `ConnectionRuns.LostConnectionIsReplaceable` or
`SenderRuns.StrandedIffUnanswerable` say exactly from which states a recovery is still possible.

Assumptions about the environment:

- AMQP channels: a publish on a dead channel fails, a failed publish consumes no broker tag, the broker confirms each
  published tag at most once and confirms no other tag, and confirms reach the listener of a channel only while the
  channel is alive. Nothing else is assumed of the sender's surroundings; in particular channels die at any time,
  `rebuild` is called at any time with any expected generation, and `Reconnect` may drain a channel that is still alive.
- Connections: a new `Dial` starts only when no goroutine is dialling, watching or redialling (an application dials its
  connection object once), and closing a connection leaves it closed. `Close` and cancelled dials may come in any number.
- Correlation identifiers of queries are never used twice.
- RabbitMQ: a message rejected without requeue, or one that outlives its TTL, is published once to the dead-letter
  exchange of its queue under its old routing key.
- Kafka: offsets of the one modelled partition are contiguous; a restarted reader resumes at the committed offset.

## What the proofs found

- **Confirms can be attributed to the wrong message.** `SendNoConfirm` publishes on the confirm channel without taking a
  tag, so the broker's sequence runs ahead of `nextTag`; `SenderRuns.NotificationSkewsConfirms` is a run in which a send
  returns success although the broker nacked its message, or a nack although the broker acked it. The same happens when
  `Reconnect` resets the counter of a live channel (`LiveDrainSkewsConfirms`). That run is given in full: the connection
  drops and returns, the background rebuild of the old watcher installs a channel on it, a send goes out, and only then
  does the reconnect hook drain. `ConfirmSoundness` gives the exact condition, and `TagsAreConserved` the balance behind
  it, with no such assumption.
- **A confirm can be lost to its waiter.** If the confirm of the notification is dispatched first, the next send waits
  under a tag that the broker has used up: on a live channel, with its message acked, it is released only by its context
  or by the end of the channel (`NotificationStrandsNextSend`, and `LiveDrainStrandsNextSend` for the drained channel).
  `StrandedIffUnanswerable` says exactly when: a waiting send can still be answered by the broker iff the confirm of its
  tag had not been consumed when it registered, and its channel is alive or has already delivered that confirm.
- **A failed `start` forces its successor to time out**, because its `done` is never closed
  (`ConsumerRuns.FailedStartForcesTimeout`). The overlap bound of one plus the timeouts holds nevertheless, and is exact.
- **The comparator is not an order in general.** Two different literals beat each other (`Matcher.ClashingPair`); even
  without such a pair three patterns can beat each other in a circle (`BeatingCycle`). Order independence holds exactly
  when one candidate beats all others. "Fewer wildcards beats more" in the comment of `MostSpecific` is not what the code
  does (`FewerWildcardsCanLose`): the first segment that decides wins.
- **Specificity disagrees with inclusion of key sets in exactly two cases**: `p` against `p.#`, and `#` against `*.#`.
- **The kafka loop can commit past a message it did not settle**: after a failed DLQ publish it fetches on, and the next
  commit moves the watermark (`Kafka.FetchingOnLosesOffsetZero`). `SessionSafety` and `WatermarkSafety` say exactly when.
- **Application names and settings can break the declarations.** On one broker every queue has one way out iff no
  application that serves commands is named like the events queue or a DLQ of another one
  (`DeadLetter.OneWayIffNamesSeparate`). The broker accepts all declarations iff, besides, applications that share a
  queue (replicas, or one named like the other's queries queue) have the same retry delay and queue type
  (`ConsistentIff`).

## Model

| member | source | states |
|---|---|---|
| Matcher.JoinOfSplit | internal/matcher/keymatcher.go:36 | splitting at dots loses nothing: joining the segments gives the name back |
| Matcher.SplitOfJoin | internal/matcher/keymatcher.go:103-104 | any non-empty list of dot-free segments is the split of its join |
| Matcher.MatchGivesCut | internal/matcher/keymatcher.go:42-67 | a match yields a cut of the key into consecutive blocks aligned with the pattern |
| Matcher.CutGivesMatch | internal/matcher/keymatcher.go:42-67 | any such cut makes the pattern match, whatever the backtracking order |
| Matcher.MatchSegments | internal/matcher/keymatcher.go:42-67 | the split loop answers true iff the key can be cut into blocks: one equal segment for a literal, one for `*`, any number for `#` (section 3.1.3.3 of AMQP 0-9-1) |
| Matcher.MatchesExactly | internal/matcher/keymatcher.go:25-37 | for every key and pattern: with a wildcard segment the pattern matches the keys that can be cut along it, with wildcard characters only inside longer segments it matches itself, and with neither character it matches nothing |
| Matcher.CompareBasics | internal/matcher/keymatcher.go:99-129 | only equal names tie; losing one way means winning the other way |
| Matcher.AntisymmetricIffNoClash | internal/matcher/keymatcher.go:109-129 | the comparator is antisymmetric on a pair iff no two different literals face each other before a literal faces a wildcard; otherwise both directions give -1 |
| Matcher.CompareDecides | internal/matcher/keymatcher.go:102-129 | what the comparator computes for any two names: the first position where a literal faces something else decides for the literal, failing that the last position where `*` faces `#`, failing that the length |
| Matcher.SomethingDecides | internal/matcher/keymatcher.go:109-129 | one of these three cases always applies |
| Matcher.CompareIsRankOrder | internal/matcher/keymatcher.go:109-129 | on `#`-last patterns that match one key the comparator agrees with an independently defined lexicographic rank order |
| Matcher.StrictTotalOrder | internal/matcher/keymatcher.go:99-129 | on those candidates it is irreflexive, transitive and total |
| Matcher.MostSpecific | internal/matcher/keymatcher.go:86-97 | the loop is the left-to-right knock-out, and its winner is one of the candidates, or empty when there are none |
| Matcher.OrderFreeIffDominated | internal/matcher/keymatcher.go:86-97 | for any candidates at all, the winner is the same for every permutation iff some candidate strictly beats all others |
| Matcher.CandidatesHaveDominant | internal/matcher/keymatcher.go:86-129 | among `#`-last candidates for one name the winner beats all others |
| Matcher.Resolve | internal/matcher/keymatcher.go:72-80 | empty iff no key matches, and then no key with a wildcard segment can be cut to fit; otherwise a key along which the name can be cut |
| Matcher.ResolutionIsOrderFree | internal/rabbit/registry.go:223-239 | with `#` last in the matching keys, any two listings of the same keys resolve a name alike |
| Matcher.ClashingPair | internal/matcher/keymatcher.go:116-118 | `#.a.b` and `#.b` both match `a.b`, beat each other, and the first listed loses |
| Matcher.BeatingCycle | internal/matcher/keymatcher.go:109-129 | `*.#`, `*` and `#.*` all match `a` and beat each other in a circle, so the answer depends on the order |
| Matcher.FewerWildcardsCanLose | internal/matcher/keymatcher.go:82-97 | `a.*.*` ranks before `*.b.c`, against the comment |
| Matcher.SpecificityRespectsMeaning | internal/matcher/keymatcher.go:29-129 | if every key matched by one `#`-last pattern is matched by another, the first ranks before it, iff the pair is not `p`, `p.#` and not `#`, `*.#` |
| Registry.KeysOf | internal/rabbit/registry.go:233-239 | lists every key of the map once |
| Registry.PossibleIsUnique | internal/rabbit/registry.go:223-239 | with `#` last in the matching keys a lookup has one possible answer |
| Registry.PossibleMeans | internal/rabbit/registry.go:92-129 | the exact handler if there is one; otherwise the handler of a matching key that no other matching key beats, and none iff no key matches |
| Registry.PeekIsPossible | internal/rabbit/registry.go:92-106 | a hit under the read lock is an answer a plain lookup could give on the present handlers |
| Registry.FillKeeps | internal/rabbit/registry.go:108-129 | filling the cache under the write lock keeps it consistent with the handlers and answers like a plain lookup |
| Registry.RabbitRegistry.Listen | internal/rabbit/registry.go:43-52 | a duplicate changes nothing; a new name is added and the cache dropped, so the cache stays consistent |
| Registry.RabbitRegistry.Probe | internal/rabbit/registry.go:92-106 | hit or miss under the read lock, and a hit is a possible plain answer |
| Registry.RabbitRegistry.Resolve | internal/rabbit/registry.go:108-129 | re-checks, resolves and caches under the write lock; handlers untouched, cache consistent, answer possible |
| Registry.KafkaRegistry.MarkStarted | internal/kafka/registry.go:41-45 | closes registration, keeps the handlers |
| Registry.KafkaRegistry.ListenCommand | internal/kafka/registry.go:73-84 | refuses after start, then refuses duplicates, otherwise adds exactly this handler |
| Registry.KafkaRegistry.CommandHandler | internal/kafka/registry.go:105-116 | a possible plain answer; none iff there is no exact key and no matching pattern |
| Registry.RunKeeps | internal/rabbit/registry.go:43-170 | over every interleaving of registrations and two-phase lookups the cache stays consistent and every answer possible |
| Registry.CacheRefinesPlainLookup | internal/rabbit/registry.go:92-170 | a cached lookup answers what a plain lookup answers on the handlers of its last lock: for some key order always, for every key order when matching keys are `#`-last |
| Registry.CacheFreezesAnswers | internal/rabbit/registry.go:92-170 | whatever the patterns, two lookups of one name whose last locks saw the same handlers answer alike in every run |
| Registry.LookupIsAnswered | internal/rabbit/registry.go:92-129 | a lookup is answered at once on a hit and after the second lock otherwise, and the next lookup of that name is a hit |
| Registry.AmbiguousLookup | internal/rabbit/registry.go:223-231 | outside that class the first lookup of a name may get either of two handlers |
| SenderCore.Sender.Register | internal/rabbit/sender.go:336-342 | takes the next tag and enters the waiter under it |
| SenderCore.Sender.RollbackTag | internal/rabbit/sender.go:445-454 | gives the tag back only if the entry is still this waiter's |
| SenderCore.Sender.Forget | internal/rabbit/sender.go:383-387 | removes the entry only if it is still this waiter's; the counter stays |
| SenderCore.Sender.DispatchConfirm | internal/rabbit/sender.go:252-265 | claims the waiter of the tag for the current generation only, and removes that entry alone |
| SenderCore.Sender.FailPending | internal/rabbit/sender.go:210-219 | every pending waiter whose channel is empty gets the closed error, none is overwritten, the map is emptied and the counter reset |
| SenderCore.Sender.Install | internal/rabbit/sender.go:188-199 | swaps channel and generation and drains, or changes nothing when stale or the connection is required and down |
| SenderRuns.StepKeeps | internal/rabbit/sender.go:138-454 | every step of every goroutine and of the broker keeps all fifteen invariants of the sender; what each step may change is stated by the laws below |
| SenderRuns.RunKeeps | internal/rabbit/sender.go:138-454 | they hold in every state of every run |
| SenderRuns.TagsAreConserved | internal/rabbit/sender.go:333-377 | on the current channel, broker positions plus lost rollbacks plus the unpublished tag equal the counter plus notifications plus drained tags; on a live channel without the last two, the counter is the broker's sequence, or one ahead exactly while the slot holder has registered and not published |
| SenderRuns.ConfirmSoundness | internal/rabbit/sender.go:252-271 | a send that returned success or a nack got the broker's answer to its local tag, and that answer is for its own message iff the channel was aligned when it registered, as it is on every channel with no notification and no drain while alive |
| SenderRuns.NoStrandedWaiter | internal/rabbit/sender.go:208-292 | a waiting send has its result, or a watcher is handing it over, or it is pending on the current channel with a watcher; a pending send's confirm is unconsumed iff it was so when the send registered, and a consumed one takes a channel with a notification or a drain while alive |
| SenderRuns.StaleIsNeverAnswered | internal/rabbit/sender.go:252-271 | in no continuation of any run does the broker answer a send whose tag was spent when it registered |
| SenderRuns.SealedIsNeverAnswered | internal/rabbit/sender.go:228-243 | nor does the broker ever answer a send whose channel died before it delivered the confirm |
| SenderRuns.StrandedIffUnanswerable | internal/rabbit/sender.go:225-271 | a waiting send with nothing under way is answered by the broker in some continuation iff its tag was not spent when it registered and its channel is alive or has delivered the confirm |
| SenderRuns.AnsweredAtMostOnce | internal/rabbit/sender.go:210-271 | no result channel gets two values, so the unguarded sends of a confirm dispatch never block |
| SenderRuns.ChannelAccounting | internal/rabbit/sender.go:165-206 | outside a rebuild only the current channel can be open; each generation has a channel of its own; the generation cannot move between a rebuild's two checks |
| SenderRuns.BackgroundRebuild | internal/rabbit/sender.go:276-316 | a run in which a lost channel is replaced by the background rebuild after the connection returned, with no reconnect hook |
| SenderRuns.NotificationSkewsConfirms | internal/rabbit/sender.go:397-426 | a run with one notification in which a send returns success for a nacked message, and one in which it returns a nack for an acked one |
| SenderRuns.LiveDrainSkewsConfirms | internal/rabbit/sender.go:138-152 | the same two runs with a `Reconnect` that drains the live channel of a background rebuild |
| SenderRuns.NotificationStrandsNextSend | internal/rabbit/sender.go:397-426 | a run with one notification after which a send on a live channel, its message acked, is never answered |
| SenderRuns.LiveDrainStrandsNextSend | internal/rabbit/sender.go:138-152 | the same with a `Reconnect` that drains the live channel of a background rebuild |
| SenderRuns.DeathBeforeConfirm | internal/rabbit/sender.go:276-283 | a run in which a channel dies before its confirm, so that only the drain or the context releases the send |
| SenderLaws.OnlyTwoCausesOfSkew | internal/rabbit/sender.go:138-426 | no step but a drain by `Reconnect` books a live drain and none but a notification a publish without a tag; superseded watchers in particular leave the live channel alone |
| SenderLaws.CleanRunsAreSound | internal/rabbit/sender.go:225-390 | in every run without these two events a send that got an answer got the answer to its own message, and a waiting send on a live channel can still be answered |
| SenderLaws.PendingLeavesOnlyBy | internal/rabbit/sender.go:208-292 | an entry leaves the pending map of a live channel only by its own rollback or expiry, by the dispatch of its tag, by `Reconnect` or by the next installation |
| SenderLaws.PendingIsExact | internal/rabbit/sender.go:336-390 | the pending map holds exactly the open sends without an answer, each under its own tag |
| SenderLaws.OutcomeTells | internal/rabbit/sender.go:320-390 | a refused send was never published and any other outcome means it was; the context error is returned iff the own context ended |
| SenderLaws.RebuildDecides | internal/rabbit/sender.go:165-206 | a rebuild opens iff its generation is current and the connection, if required, is up, goes on iff the fresh channel is alive, and installs iff the connection, if required, is still up |
| SenderLaws.EverySendCanReturn | internal/rabbit/sender.go:320-426 | every send and notification can return, from wherever it stands, without the broker |
| SenderLaws.EveryRebuildCanEnd | internal/rabbit/sender.go:165-206 | every rebuild can end |
| ConsumerCore.SupervisedConsumer.Supersede | internal/rabbit/consumer.go:123-142 | closes the previous stop, swaps in new channels, takes a generation and reports rebuilding; hands back the previous done |
| ConsumerCore.SupervisedConsumer.SetHealthForGen | internal/rabbit/consumer.go:334-341 | writes health only for the newest generation |
| ConsumerCore.SupervisedConsumer.MarkStopped | internal/rabbit/consumer.go:365-369 | forces stopped whatever the generation |
| ConsumerRuns.PassKeeps | internal/rabbit/consumer.go:150-163 | ending the supersede wait, by done or by the timer, keeps the invariants |
| ConsumerRuns.StepKeeps | internal/rabbit/consumer.go:122-369 | every step of starts, supervisors, heals and the broker keeps the invariants |
| ConsumerRuns.RunKeeps | internal/rabbit/consumer.go:122-369 | they hold in every state of every run |
| ConsumerRuns.SeparatedBound | internal/rabbit/consumer.go:150-163 | if between any two holders there was a timeout, there is at most one holder more than timeouts |
| ConsumerRuns.BoundedOverlap | internal/rabbit/consumer.go:122-194 | the open consumer channels of a listener number at most one plus the supersede waits that timed out; with no timeout two never coexist |
| ConsumerRuns.OverlapBoundIsTight | internal/rabbit/consumer.go:159-165 | for every number of timeouts a run reaches that bound |
| ConsumerRuns.FailedStartForcesTimeout | internal/rabbit/consumer.go:165-181 | a start that failed after taking over never closes its done, so its successor passes only by the timer |
| ConsumerRuns.DoneClosesIff | internal/rabbit/consumer.go:122-216 | the done of a generation can still be closed iff its start has not failed and was not superseded before it launched |
| ConsumerRuns.ConsumesIff | internal/rabbit/consumer.go:122-330 | a generation can consume, now or later without a new start, iff it has not failed, is not leaving, and was not superseded before it launched or while it mends its channel |
| ConsumerRuns.OnlyTheseGiveUp | internal/rabbit/consumer.go:150-330 | what puts a generation out for good; a lost channel alone or a failed attempt to reopen it does not |
| ConsumerRuns.HealsIffConnectionOpen | internal/rabbit/consumer.go:266-330 | after it lost its channel a supervisor can consume again iff the connection is open and it has not been superseded |
| ConsumerRuns.FailuresLeaveClean | internal/rabbit/consumer.go:155-182 | a failed or aborted start leaves no channel and shows as stopped, and a lost channel is closed first |
| ConsumerRuns.HealthIsAccurate | internal/rabbit/consumer.go:188-216 | health tells the phase of the newest generation unless the shutdown wrote last |
| ConsumerRuns.GenerationOwnership | internal/rabbit/consumer.go:123-216 | all older stop channels are closed and the newest is open, none is closed twice, health was last written by the newest generation or by shutdown, and running means the newest generation supervises |
| ConsumerRuns.ChannelOwnership | internal/rabbit/consumer.go:202-330 | every open channel is the one channel of a generation that is past its wait and not done |
| ConnectionCore.Connection.SetHealth | internal/rabbit/connection.go:373-389 | stopped is terminal |
| ConnectionCore.Connection.StoreUnlessStopped | internal/rabbit/connection.go:170-180 | stores the fresh connection unless stopped |
| ConnectionCore.Connection.Store | internal/rabbit/connection.go:315-317 | the reconnect loop stores without looking |
| ConnectionCore.Connection.TakeConn | internal/rabbit/connection.go:359-362 | takes the stored connection and leaves none |
| ConnectionCore.Connection.Stop | internal/rabbit/connection.go:225 | sets the stop flag and nothing else |
| ConnectionRuns.StepKeeps | internal/rabbit/connection.go:153-389 | every step of dials, cancels, closes, watchers and reconnect loops keeps the invariants |
| ConnectionRuns.RunKeeps | internal/rabbit/connection.go:153-389 | they hold in every state of every run |
| ConnectionRuns.NoConnectionOutlivesStop | internal/rabbit/connection.go:224-369 | after stop every open connection is in the hands of a goroutine or will still be read and closed by one; when those steps are over, none is open and health is stopped |
| ConnectionRuns.StoppedIsFinal | internal/rabbit/connection.go:371-389 | no step leaves the stopped health or clears the flag, and stopped is never reported for an object that was not stopped |
| ConnectionRuns.SingleWatcher | internal/rabbit/connection.go:246-331 | at most one goroutine dials, watches or redials, and a watcher watches the connection it was spawned for, or finds none |
| ConnectionRuns.RedialOnlyAfterLoss | internal/rabbit/connection.go:287-317 | a connection that a reconnect loop overwrites is already closed |
| ConnectionRuns.HealthIsAccurate | internal/rabbit/connection.go:153-342 | while not stopped, health is what the one active goroutine implies, and once a connection has been stored somebody watches it or redials |
| ConnectionRuns.LostConnectionIsReplaceable | internal/rabbit/connection.go:254-342 | from any state that is not stopped and had a connection, some continuation ends with an open stored connection, watched, and health connected |
| ConnectionRuns.CanConnect | internal/rabbit/connection.go:153-185 | so does one from any state that is neither stopped nor dialled |
| ConnectionRuns.LossIsNoticed | internal/rabbit/connection.go:261-276 | the death of a watched connection can show as reconnecting |
| ConnectionRuns.NoDialAfterStop | internal/rabbit/connection.go:287-301 | after stop no dial begins |
| ConnectionRuns.CanAlwaysStop | internal/rabbit/connection.go:224-369 | from any state a `Close` or a cancelled dial can be carried through until all connections are closed and health is stopped |
| ConnectionRuns.FailuresLeaveClean | internal/rabbit/connection.go:165-168 | a failed dial leaves the object free, a failed redial goes round again, a cancelled dial leaves nothing stored |
| Shutdown.RabbitApp.ReconnectHook | internal/rabbit/application.go:159-178 | takes a restore generation and adds to the restore group only before shutdown |
| Shutdown.RabbitApp.BeginShutdown | internal/rabbit/application.go:187-189 | sets the flag and nothing else |
| Shutdown.StepKeeps | internal/rabbit/application.go:159-201 | every step of hooks, restores, supervisors and the waiting goroutine keeps the invariants |
| Shutdown.RunKeeps | internal/rabbit/application.go:159-201 | they hold in every state of every run |
| Shutdown.WaitGroupDiscipline | internal/rabbit/application.go:187-196 | neither group grows after its wait has begun, and each counter is the number of its unfinished members, so it is never negative |
| Shutdown.QuietAfterShutdown | internal/rabbit/application.go:191-196 | once the wait has returned no restore and no supervisor is counted or running, then or later; the only supervisors left are those already past the group's release, which at most report health and close done |
| Shutdown.WaitReturnsBeforeDone | internal/rabbit/consumer.go:203-210 | a run in which the wait returns while a supervisor has not yet closed its done |
| Shutdown.OnlyNewestRestores | internal/rabbit/application.go:292-315 | a hook starts a restore iff before shutdown, and only the restore of the newest generation can begin an attempt |
| Shutdown.ReconnectRestores | internal/rabbit/application.go:159-178 | a reconnect while the application serves can bring a new supervisor up |
| Shutdown.FailedAttemptIsRetried | internal/rabbit/application.go:295-315 | a failed attempt of the newest restore is made again |
| Shutdown.ShutdownCanComplete | internal/rabbit/application.go:184-201 | once shutdown has begun its wait can return from wherever restores and supervisors stand |
| Shutdown.FailedStartIsFinal | internal/rabbit/application.go:145-148 | a failed bring-up admits no restore, ever |
| Kafka.RetryBackoff | internal/kafka/eventlistener.go:18-36 | looped doubling with 64-bit wrap-around is exactly the smaller of initial times two to the attempt and the cap, for all inputs |
| Kafka.DelayLaw | internal/kafka/eventlistener.go:15-36 | the first delay is the smaller of the initial one and the cap, each further one twice the one before up to the cap |
| Kafka.Listener.CallWithRetries | internal/kafka/eventlistener.go:129-161 | at most max(1, configured) calls, each after all earlier ones failed and the waits before it ran out; the waits are the exact delays; exhaustion reports the number of calls made |
| Kafka.Listener.ProcessMessage | internal/kafka/commandlistener.go:77-143 | broken envelopes go to the DLQ with zero attempts, commands without a handler are committed, all else is retried; the offset is committed iff the message was settled and the commit worked |
| Kafka.Listener.Commit | internal/kafka/eventlistener.go:187-192 | the watermark moves only if the commit worked |
| Kafka.Listener.Run | internal/kafka/loop.go:25-44 | one report for each message fetched before the context ended, fetch errors skipped, offsets as the reports say |
| Kafka.ReportIsDetermined | internal/kafka/eventlistener.go:100-162 | the retry contract leaves no freedom: one outcome, call count and list of waits for each behaviour of the world |
| Kafka.SettlementMeans | internal/kafka/commandlistener.go:77-143 | a message is settled iff a call handled it, a command had no handler, or it reached the DLQ after a broken envelope or after all attempts; the DLQ is told the number of calls |
| Kafka.SafeIffNotOverrun | internal/kafka/eventlistener.go:152-161 | one step loses the safety of the watermark iff it commits past a message left unsettled |
| Kafka.WatermarkSafety | internal/kafka/loop.go:25-44 | a run with restarts is safe throughout iff no successful commit ever passes an unsettled message |
| Kafka.SessionOffsets | internal/kafka/loop.go:25-44 | which offsets a session of the loop settles and which it leaves, offset by offset |
| Kafka.SessionSafety | internal/kafka/loop.go:25-44 | a session of the loop that begins safe ends safe iff no commit worked after a message left open |
| Kafka.WatermarkFollowsCommits | internal/kafka/eventlistener.go:187-192 | after a session the watermark is right behind the last message whose commit worked |
| Kafka.WatermarkStays | internal/kafka/eventlistener.go:187-192 | and where it was if no commit worked |
| Kafka.NothingIsSkipped | internal/kafka/loop.go:25-44 | in a safe state every offset that was fetched and never settled is fetched again after a restart |
| Kafka.DisciplinedRunIsSafe | internal/kafka/loop.go:42 | safe when nothing is fetched after a failed DLQ publish or a cancellation until the reader restarts |
| Kafka.FetchingOnLosesOffsetZero | internal/kafka/loop.go:42 | for either listener and every configuration, two fetched messages whose only lawful reports end with the watermark past an unsettled offset |
| Replies.ReplyRouter.Register | internal/replyrouter/replyrouter.go:34-38 | stores a fresh empty channel under the identifier |
| Replies.ReplyRouter.Offer | internal/replyrouter/replyrouter.go:44-50 | fills an empty channel, drops the payload otherwise |
| Replies.ReplyRouter.Deregister | internal/replyrouter/replyrouter.go:58-60 | removes the identifier and touches no channel |
| Replies.StepKeeps | internal/replyrouter/replyrouter.go:34-85 | every step of calls and routings keeps the invariants |
| Replies.RunKeeps | internal/replyrouter/replyrouter.go:34-85 | they hold in every state of every run |
| Replies.ReplyIsolation | internal/rabbit/gateway.go:59-100 | a call returns only a payload routed under its own identifier, looked up after its own registration, and no payload is returned by two calls |
| Replies.RouterHoldsCallsInFlight | internal/rabbit/gateway.go:59-61 | the router's keys are exactly the identifiers of the calls in flight |
| Replies.RoutingFindsCall | internal/replyrouter/replyrouter.go:42-44 | a routing finds the channel of a call exactly while the call is in flight |
| Replies.FirstReplyWins | internal/replyrouter/replyrouter.go:34-52 | a waiting call has a value as soon as one was offered, the first one offered, and returns that one if it returns any |
| Replies.ReplyReaches | internal/rabbit/gateway.go:59-100 | a reply can reach a waiting call to which nothing was offered, and be returned |
| Replies.CallBegins | internal/rabbit/gateway.go:59-61 | a new call can be made in any state |
| Replies.CallCanGiveUp | internal/replyrouter/replyrouter.go:82-84 | a waiting call can give up and return without a payload |
| DeadLetter.Topology.DeclareEvents | internal/rabbit/application.go:391-411 | the declarations issued for events, with retry on: queues with dead-letter exchange, TTL and queue type, and bindings |
| DeadLetter.Topology.DeclareDirect | internal/rabbit/application.go:413-443 | the same for a command or query queue |
| DeadLetter.Topology.DeclareTopology | internal/rabbit/application.go:333-355 | all declarations of an application, none for what it does not serve |
| DeadLetter.EventsClose | internal/rabbit/topology.go:146-173 | for any number of applications on a broker, rejected events go to the DLQ of their own queue alone and expired ones back to that queue alone, and nothing expires in the queue itself |
| DeadLetter.DirectCloses | internal/rabbit/topology.go:184-204 | the same for commands and queries through the shared direct exchanges |
| DeadLetter.CyclesClose | internal/rabbit/topology.go:146-204 | every served queue has a closed cycle |
| DeadLetter.EventsRoute | internal/rabbit/application.go:405-409 | a published event goes to the events queues of the applications that listen to it, and nowhere else |
| DeadLetter.DirectRoute | internal/rabbit/application.go:413-443 | a command or query goes to the queue it is addressed to, iff an application serves it, and nowhere else |
| DeadLetter.OneWayIffNamesSeparate | internal/rabbit/topology.go:95-127 | every queue of any set of applications has one dead-letter exchange, and a TTL or none, iff no application with commands is named like an events queue, an events DLQ, a commands DLQ or a queries DLQ in use |
| DeadLetter.ConsistentIff | internal/rabbit/topology.go:78-204 | no queue is declared with different arguments iff, besides, applications that share a queue have the same retry delay and queue type |
| DeadLetter.DefaultExchangesDistinct | rabbit/config.go:83-88 | with the default exchange names no two exchanges coincide, whatever the applications are called |
| DeadLetter.NamesOnTheBroker | internal/rabbit/topology.go:55-127 | the queue and exchange names of an application, letter by letter |
| DeadLetter.CollidingNames | internal/rabbit/topology.go:107-115 | applications `a` and `a.DLQ` declare one queue with two dead-letter exchanges |
| DeadLetter.Delivery.RunEnvelopeHandler | internal/rabbit/dispatch.go:43-54 | settles once unless the handler panics, and then not at all |
| DeadLetter.Delivery.Dispatch | internal/rabbit/dispatch.go:18-37 | every delivery is settled exactly once; ack only for success or a missing handler, a broken envelope is never requeued, and a failure is requeued only without the DLQ cycle |
| DeadLetter.RepublishedOnce | internal/rabbit/topology.go:158-171 | dead-lettering out of a queue with one way out publishes one copy to the one target |
| DeadLetter.RunKeeps | internal/rabbit/topology.go:146-204 | in every run of deliveries, settlements, lost consumers and expiries a message exists as one copy, at home or in its DLQ, until acked |
| DeadLetter.AckedOnlyByAck | internal/rabbit/dispatch.go:43-54 | a message is gone iff an ack settled it |
| DeadLetter.Conservation | internal/rabbit/topology.go:143-204 | for every set of applications with separate names on a shared broker, a message leaves its cycle only by an ack and always returns as one copy to the queue it came from |
| DeadLetter.StepMovesCopy | internal/rabbit/topology.go:143-204 | where each delivery, settlement, lost consumer and expiry takes the one copy |
| DeadLetter.AlwaysRedeliverable | internal/rabbit/topology.go:143-204 | at any point of any run a message that is not acked can be handed to the consumer of its own queue again |
| DeadLetter.DefaultsConserve | internal/rabbit/topology.go:143-204 | with the default exchange names the application names are the only condition |

## Left out

- The amqp091 and kafka-go libraries, sockets, TLS and dialling: environment steps under the assumptions above.
- Real time and fairness: timers are steps that may fire, so eventual recovery and the lengths of the reconnect, rebuild
  and restore delays (`retryRebuild`, `restoreWithBackoff`, `reconnectLoop`) are not stated.
- Write deadlines of `internal/rabbit/socket.go`: wall-clock behaviour of a foreign connection.
- Priming of the kafka reply listener: depends on reader statistics.
- JSON encoding and decoding: decoding is an arbitrary success or failure.
- Configuration, validation, logging, metrics, tracing and the public wrapper packages.
- Command and notification lookups of the rabbit registry: the same code as the event lookup; query lookups are exact
  map reads.
- Query, reply and notification dispatch, and the temporary queues of replies and notifications.
- Error texts, `LastError` and `Since` of the health snapshots.
- Wrap-around of the 64-bit tag and generation counters.
- Errors in the middle of a topology declaration; a failed declaration is retried as a whole.
- The 30-second limit of the shutdown: after it the application closes the connection with the wait still pending.
- Kafka.Listener.Run: models one partition with contiguous offsets and a finite script of fetches; the endless loop is
  the family of all its finite scripts.
- Replies.ReplyIsolation: does not decode the payload (`AwaitReply` maps error and empty replies afterwards).
- DeadLetter.Conservation: with other than the default exchange names it also needs that no two exchange names coincide;
  an application whose declaration is refused does not take part.
- Truncation of the retry delay to a 32-bit number of milliseconds, and delays or TTLs the broker rejects.
