# Verified model of danube-py

danube-py is an asynchronous client for the Danube message broker. This project models the four parts of
it that carry guarantees, and proves them for every environment: the producer's recovery machine, the
consumer's receive loops with their health checks and close, the message router, and the backoff
arithmetic and channel cache under both.

## How the model is built

* **Environment as adversary.** `Wire.Reply` is one answer to one await: served, a gRPC failure, another
  exception, or cancellation of the awaiting task. A world (`Network.World`) holds a script of replies, the trace
  of everything asked and answered, and the channel cache. Each theorem is stated for all scripts. A failed
  or cancelled publish may or may not have reached the partition log (`applied`). Running off the end of a
  script counts as cancellation (`asyncio.CancelledError`, which no `except Exception` of the client
  catches), so every finite prefix of an endless run is covered and no bound is put on retry loops.
* **Specification functions and classes.** `Endpoint`, `Sending` and `ProducerModel` say what one call does to
  fields, trace and cache. The classes `ConnectionManager`, `MessageRouter`, `TopicProducer`, `TopicConsumer`
  and `Producer` update their fields in place with the program's loops; each method's contract equates its
  outcome and the new state with the specification function of the old state. The theorems are about those
  functions. `TopicProducer.create` and `TopicConsumer.subscribe` are the same retry loop, so one
  specification serves both.
* **Views.** `Network.Replay` folds a trace into what an outsider knows about one topic: its latest lookup
  answer, the channel last dialled, ids and request numbers handed out, the partition log, and
  counts of every kind of RPC and sleep. Endpoint fields, budgets, delivery and coherence are all stated
  against that view.
* **Consumer as a step system.** `ConsumerSystem.Next` is what one task does between two awaits; a run is any
  interleaving of receive loops, health-check loops, the user's gets and calls, and the broker.

## Results

* *At least once, in order*: in any sequential run every partition log grows by one block per call, in call
  order; a block holds copies of that call's body only, at least one if the call returned.
* *Per-key order*: what a run adds under key k is in partition FNV-1a(k) mod n and repeats the calls for k in
  order.
* *Conversation of a call*: which request or outcome each answer leads to is written down from the events alone
  (`Conversation.React`), status by status; every create, every subscribe and every call, alone or among others,
  is shown to hold exactly that conversation.
* *Budget, end and failure of a call*: exact bounds relative to the number e of successful recreations; a call
  that nobody cancels ends within (e+1)(7m+6) replies; a retryable error escapes only after m+1 retryable
  failures in a row and a failed lookup, or out of a recreation that used all its tries.
* *All or nothing*: however the creates of the partitions interleave, and whichever of them fail, `create`
  either leaves the producers as they were or installs one connected endpoint per partition.
* *Coherence*: routing is always one whole lookup answer, the latest. From creation on, for a sequential
  caller and without cancelled calls, every message goes over the cached channel of the broker it names. **This
  fails after a cancellation.** A `send` cancelled (for instance by `asyncio.wait_for`) between learning a new
  broker and dialling it leaves the old stub beside the new routing fields, and the next `send` publishes a
  message naming the new broker over the old broker's channel. `StaleChannel.StaleChannelAfterCancel` is such a
  run; `Coherence.CallFitsIff` and `ProducerLifetime.NextCallFitsIff` are the exact condition, on the endpoint's
  fields before the call. **It also fails among concurrent callers**, with no cancellation:
  `StaleNeighbour.StrayAmongConcurrentCalls`.
* *Concurrent callers*: order is lost, but every call still delivers its own body to its own partition, at least
  once if it returns, and nothing else gets there.
* *Schema stamps*: `Schemas.LabelOf` reads off the trace which answer of the registry settles a reference; every
  message bears exactly the latest such answer, and an honest registry makes it a schema that existed and
  satisfied the reference when it was resolved.
* *Consumer safety*: queue bound, conservation of messages per receive loop and stream session, bounded
  retries, at most one more message after a CLOSE, nothing read or queued after `close`.
* *Quiescence has a gap*: `close` silences exactly the health checks of the consumers in `_consumers`. If one
  partition fails to subscribe, or `subscribe` is called again, the others' health checks go on after `close`.
  `ConsumerSignals.OrphanPollsAfterClose` is such a run; `ConsumerSignals.CloseSilencesExactly` is the exact
  condition.
* *Producer health checks*: nothing clears a producer's stop event, so an endpoint once told to stop by the
  broker is never health-checked again, even after it has been recreated (`ProducerHealth.StoppedForGood`); and
  `Producer.close` does not reach endpoints of a create that failed or was repeated
  (`ProducerHealth.ProducerCloseSilencesExactly`).
* *Hashing*: each step of the 64-bit FNV-1a loop is a bijection, so keys of one length that differ in one byte
  never collide; masking after each step equals one reduction at the end.

## Files

`Wire` (values and replies), `Retry` (backoff, retryability, proxy header), `Bits` and `Fnv` (hash), `Router`,
`Connections` (channel cache), `Names` (partition names), `Network` (world, trace, views), `Endpoint` (create
and subscribe), `EndpointHistory`, `EndpointBudget`, `EndpointLedger` (what these keep, cost and consume),
`Sending` (the send loop), `Delivery`, `Failures`, `Coherence`, `StaleChannel`, `Schemas`, `Conversation`,
`SendConversation` (theorems about one call), `ProducerModel`, `ProducerRuns` (whole producers and runs),
`CreateTask`, `Gather`, `ProducerCreation` (interleaved creates), `ProducerLifetime` (from creation to the
last call), `ProducerHealth` (health checks of producers), `Backoffs` (ranges of all sleeps), `SendTask`,
`ConcurrentSends`, `ConcurrentConversations`, `StaleNeighbour` (concurrent callers), `Client`,
`TopicProducer`, `TopicConsumer`, `Producer` (classes), `ConsumerSystem`, `ConsumerSafety`, `ConsumerSignals`,
`ConsumerSteps` (consumer).

## Model

| member | source | states |
|---|---|---|
| Retry.Manager | danube/retry_manager.py:16-24 | whatever options are given, zero and negative included, the effective retry count, base and cap are all at least 1 |
| Retry.OptionsTaken | danube/retry_manager.py:7-24 | positive options are taken as given, the others replaced by 5 tries, 200 ms and 5000 ms |
| Retry.RetryableExactly | danube/retry_manager.py:26-34 | exactly UNAVAILABLE, DEADLINE_EXCEEDED and RESOURCE_EXHAUSTED are retryable |
| Retry.BackoffRange | danube/retry_manager.py:36-43 | for every attempt of every configuration the jitter range is non-empty and 1 <= low <= linear <= max_backoff |
| Retry.BackoffExactly | danube/retry_manager.py:36-43 | the range ends at the lesser of B(attempt + 1) and M and starts at half of that, rounded down, or at 1 |
| Retry.TotalBackoff | danube/retry_manager.py:36-43 | the longest total of n backoffs from a fresh counter is B n(n+1)/2 up to n = M div B and M more for each sleep beyond |
| Retry.ProxyHeaderExactly | danube/retry_manager.py:46-57 | the broker header occurs exactly in proxy mode, exactly once, and names the given broker |
| Retry.OtherMetadataSurvives | danube/retry_manager.py:46-57 | whatever metadata the caller has stays in front, unchanged; without proxy nothing is added |
| EndpointHistory.HeaderExactly | danube/topic_producer.py:93-94 | a request's metadata is the client's own, with the broker's URL behind it in proxy mode |
| Fnv.Fnv1aHash | danube/message_router.py:30-36 | the loop with xor, multiply and mask computes the specified hash of any byte string |
| Fnv.StepBijective | danube/message_router.py:33-35 | for each byte the loop body is a bijection on 64-bit states, with the stated inverse on both sides |
| Fnv.OneByteApart | danube/message_router.py:30-36 | two keys of equal length that differ in exactly one byte never share a hash |
| Fnv.SuffixCollision | danube/message_router.py:30-36 | appending a common suffix neither creates nor removes a collision |
| Fnv.MaskOnceAtTheEnd | danube/message_router.py:31-36 | masking after every multiplication equals the loop in unbounded integers reduced mod 2^64 once |
| Bits.AndMask | danube/message_router.py:35 | bitwise and with 2^k - 1 is reduction modulo 2^k |
| Router.MessageRouter.constructor | danube/message_router.py:9-12 | a new router stands just before partition 0 |
| Router.MessageRouter.RoundRobin | danube/message_router.py:14-18 | the pick is the successor of the previous one modulo the partition count and becomes the previous one |
| Router.MessageRouter.RouteKey | danube/message_router.py:20-27 | the partition is the key's FNV-1a hash, reduced modulo 2^64 once, modulo the partition count |
| Router.CountOfPicks | danube/message_router.py:14-18 | exactly how often each partition occurs in any window of picks |
| Router.RoundRobinFair | danube/message_router.py:14-18 | in any window no partition is picked more than once more often than another |
| Router.FullRound | danube/message_router.py:14-18 | any n consecutive picks name every partition exactly once |
| Router.WalksUpwards | danube/message_router.py:9-18 | after construction the picks are 0, 1, 2, ... |
| Connections.ConnectionManager.GetConnection | danube/connection_manager.py:57-69 | returns the cached channel of the pair, or creates and remembers one |
| Connections.ConnectionManager.CreateChannel | danube/connection_manager.py:71-77 | the connect URL is the dial target with https:// or http:// in front, or the target itself if it starts with neither |
| Connections.StripSchemeExactly | danube/connection_manager.py:71-77 | there is exactly one such target |
| Connections.HandlesStay | danube/connection_manager.py:57-69 | over any sequence of calls the handle given for a pair remains its handle and nothing is dropped |
| Connections.SameChannelIffSamePair | danube/connection_manager.py:57-69 | two calls get the same channel iff they name the same (broker_url, connect_url); the derived proxy flag neither splits nor merges pairs |
| Connections.OneChannelPerPair | danube/connection_manager.py:57-69 | from an empty cache the number of channels created is the number of distinct pairs asked for |
| Names.PartitionTopicInjective | danube/producer.py:73 | different partitions of a topic have different names |
| Names.DecimalIsNumeral | danube/producer.py:73-74 | a partition number is written in digits, without leading zeros, and read from left to right is that number |
| TopicProducer.TopicProducer.constructor | danube/topic_producer.py:25-52 | all fields of a new endpoint, routing to the client's URI without proxy |
| TopicProducer.TopicProducer.Create | danube/topic_producer.py:54-77 | the retry loop ends with the outcome, fields, trace and cache of the specified create, and its requests and answers are a conversation that obeys the rules below and ends with that outcome |
| TopicProducer.TopicProducer.TryCreate | danube/topic_producer.py:79-117 | connect, register, start the health check, resolve the schema: outcome and every field, also when it fails half-way; a registration that is not served is the only request and decides the outcome by its status |
| TopicProducer.TopicProducer.Send | danube/topic_producer.py:125-160 | one publish over the stub with the endpoint's current fields and the time of the attempt, or an unrecoverable error without a stub |
| TopicProducer.TopicProducer.LookupNewBroker | danube/topic_producer.py:166-173 | a successful lookup replaces all three routing fields, a failed one none |
| TopicProducer.TopicProducer.ResolveSchemaMetadata | danube/topic_producer.py:175-207 | which registry calls are made and which schema or error results |
| TopicProducer.TopicProducer.Stop | danube/topic_producer.py:119-123 | sets the stop event, cancels the known health task and forgets it |
| TopicProducer.TopicProducer.Resume | danube/topic_producer.py:54-117 | one turn of the coroutine `create`, from one await to the next, is the specified step of a task |
| TopicConsumer.TopicConsumer.Subscribe | danube/topic_consumer.py:58-81 | the retry loop ends with the outcome, fields, trace and cache of the specified subscribe, and holds the same conversation |
| TopicConsumer.TopicConsumer.TrySubscribe | danube/topic_consumer.py:83-116 | connect, subscribe, start the health check: outcome and every field; a subscription that is not served decides the outcome by its status |
| Producer.Producer.Create | danube/producer.py:53-93 | router, endpoints and outcome of the specified create, the creates of the partitions being resumed in the order of any schedule; the endpoints it installs are as configured, names written out |
| Producer.Producer.Send | danube/producer.py:95-128 | round-robin choice, range check and retry loop have the specified outcome and effect; every publish carries the given payload, the given attributes or none, and no key; on a created producer the call is a conversation that ends with its outcome |
| Producer.Producer.SendWithKey | danube/producer.py:145-190 | the same with the choice by key, every publish carrying the given key |
| Producer.Producer.Recreate | danube/producer.py:197-212 | create again after an unrecoverable error, otherwise look up, take over the routing and create, or raise the original error |
| Producer.Producer.Close | danube/producer.py:192-195 | every endpoint has its stop event set, the health task it knew of is cancelled, and it has none any more |
| EndpointHistory.CreateAdvances | danube/topic_producer.py:54-117 | however create ends: fields are what the trace says, the endpoint has registered as itself (role, name, schema reference), every request is addressed from its fields over the cached channel with the right header and the next request id, the cache only grows, other topics are untouched |
| EndpointBudget.CreateExact | danube/topic_producer.py:54-77 | unless cancelled, lookups = tries, sleeps = tries - 1 <= m, the time slept lies between the sums of the jitter bounds, channel and route agree, and a retryable error is raised only after m+1 tries |
| EndpointBudget.CreateBackoff | danube/topic_consumer.py:58-81 | the total backoff of a finished create or subscribe is within the closed form |
| EndpointLedger.CreateBalanced | danube/topic_producer.py:54-77 | create consumes one reply per request and can be cut short only by a cancellation or the end of the script |
| Failures.CreateConnects | danube/topic_consumer.py:83-116 | a create or subscribe that returns has a stub, and its health check watches the returned id over that same channel |
| Delivery.SendLoopAdvances | danube/producer.py:110-128 | however the retry loop ends, everything that create keeps is kept |
| Delivery.SendDelivers | danube/producer.py:110-128 | the partition log gains copies of this call's body only, at least one if the call returned; nothing goes out over a stale channel if none was stale at the start |
| Delivery.SendBudget | danube/producer.py:111-128 | with e successful recreations: at most (e+1)(m+1) publishes, (e+1)(m+1) registrations, (e+1)(m+2) lookups and (e+1)2m sleeps |
| Delivery.SendEnds | danube/producer.py:111-128 | a call that is not cancelled ends before consuming (e+1)(7m+6) replies, so only endlessly many successful recreations make it endless |
| Failures.WhySendFails | danube/producer.py:118-128 | an error leaves the loop only as an outright refusal, or after exactly m+1 retryable failures in a row (since the start or the last recreation, with backoffs 0..m-1) and a failed lookup, or from a create whose tries are accounted for |
| Failures.ExhaustionKeepsRoute | danube/producer.py:200-207 | in the exhausted case routing and channel are those from before the failures |
| Failures.SendReturns | danube/topic_producer.py:159-160 | a call that returns gives back the id with which the broker answered its last request, a publish of this call's body |
| Failures.TakenNameIsFinal | danube/topic_producer.py:96-99 | a registration refused because the name is taken ends `create` at once with an unrecoverable error |
| Failures.CreateRetriesOnlyRetryable | danube/topic_producer.py:62-77 | every backoff of a create follows a try that failed with a retryable error and one more lookup; nothing else is retried |
| Conversation.CreateConverses | danube/topic_producer.py:54-117 | every create and subscribe is a conversation in which each request is what the answer before calls for, told from the events alone: status by status, counter by counter, with the backoff ranges and schema queries, up to the outcome |
| SendConversation.SendConverses | danube/producer.py:110-128 | the same for every call, its recreations included |
| Conversation.FailedTry | danube/topic_producer.py:62-77 | a registration or registry query answered UNAVAILABLE, DEADLINE_EXCEEDED or RESOURCE_EXHAUSTED is followed by a lookup, a backoff and another registration up to m times, then its status is raised; any other status is raised at once, a taken name as unrecoverable |
| Conversation.FailedPublish | danube/producer.py:114-128 | a publish answered with one of the three is backed off from and repeated up to m times in a row, then the broker is looked up and the endpoint created again, or that status raised if the lookup fails; any other status is raised at once |
| SendConversation.SendCarries | danube/topic_producer.py:125-158 | whatever is retried and recreated, nothing but the given body is published, each attempt with its own time |
| Backoffs.RunInRange | danube/producer.py:108-127 | every sleep of a sequential run, in the send loop or in a recreation, is drawn from the range of `calculate_backoff(a)` for some 0 <= a < m |
| Backoffs.InterleaveInRange | danube/topic_producer.py:62-77 | the same for every sleep of interleaved creates |
| Coherence.RouteIsOneAnswer | danube/producer.py:209-211 | the routing triple is the initial one or the latest successful lookup answer as a whole |
| Coherence.ChannelFitsIff | danube/topic_producer.py:156-173 | a published message travels on the channel of the broker it names iff no lookup since the last registration has changed the address |
| Coherence.CallFitsIff | danube/producer.py:103-128 | exactly when a call puts a message on a wrong channel, read off the endpoint before the call: iff the stub is not the cached channel of the current broker address and connect URL |
| Coherence.CallStraysIff | danube/producer.py:103-128 | a call publishes over a channel dialled for another route iff channel and route disagree when it starts |
| Coherence.NoStrays | danube/topic_producer.py:156-164 | in a history without stray publishes every message goes over the cached channel of the current route, with that route's header and broker address |
| StaleChannel.StaleChannelAfterCancel | danube/producer.py:200-212 | a concrete run in which a cancelled send leaves the old channel beside the new route and the next send publishes over it |
| Schemas.ResolveHonestly | danube/topic_producer.py:175-207 | against a registry that is honest about the reference's subject, whatever it adds or deletes, the resolved schema exists and satisfies the reference at the moment of the last answer, newest unless pinned; a version error means no version registered at the first answer would do |
| Schemas.ResolveLabels | danube/topic_producer.py:175-207 | a resolution that succeeds returns exactly the answer that settles the reference, one that fails settles nothing |
| Schemas.LabelIsProper | danube/topic_producer.py:175-207 | against an honest registry whatever settles a reference is an answer that existed, satisfied it, and was the newest unless another is pinned, at the event at which it was given |
| Schemas.CreateStamps | danube/topic_producer.py:112-117 | however create ends, id and version are together exactly the registry's latest settling answer for the reference (both absent without one); a create that returns has stamped the endpoint |
| Schemas.SendStamps | danube/topic_producer.py:149-152 | every message of a call bears the producer's name and exactly the registry's latest settling answer before its publication, one wherever there is a reference |
| Schemas.MessagesAreProper | danube/topic_producer.py:149-152 | with an honest registry each such message's id and version are an earlier answer to this topic that existed then, satisfied the reference, and was the newest unless another is pinned |
| Schemas.MessagesMeet | danube/topic_producer.py:149-152 | for every such message's version to satisfy the reference it is enough that a request for version v is answered with version v |
| ProducerRuns.PartitionInRange | danube/producer.py:130-143 | after create, the partition of every call has an endpoint, so "partition ID out of range" cannot be raised |
| ProducerRuns.AtLeastOnceInOrder | danube/producer.py:95-190 | every partition log grows by one block per call that chose it, in call order, copies of that call's payload, attributes and key only, at least one if it returned |
| ProducerRuns.OtherTopicsUntouched | danube/producer.py:95-190 | a run leaves no trace outside the producer's own partitions |
| ProducerRuns.PerKeyOrder | danube/producer.py:135-190 | what a run adds under key k is in the partition (unmasked FNV-1a of k) mod 2^64 mod n only and is the calls for k in order, each repeated |
| ProducerRuns.RoundRobinUndisturbed | danube/producer.py:130-143 | keyed calls, retries and failures do not disturb the round robin of the calls without a key |
| ProducerRuns.NoStraysUnlessCancelled | danube/producer.py:95-212 | in a run without cancellations nothing is published over a channel of another route |
| ProducerRuns.AlwaysTracked | danube/producer.py:95-212 | in every run, cancellations included, all endpoint fields are functions of the trace, all requests are built from them, and the cache stays injective |
| ProducerRuns.CallAccount | danube/producer.py:103-128 | budget, end and reasons of failure for one call on a created producer |
| ProducerRuns.RunStamps | danube/topic_producer.py:149-152 | the same for every message of a run, across recreations, failed recreations and cancellations |
| CreateTask.AdvanceIsCreate | danube/topic_producer.py:54-117 | cutting `create` at its awaits is sound: no step of a task changes what the whole comes to |
| CreateTask.AloneIsCreate | danube/topic_producer.py:54-117 | a task that runs undisturbed ends within 5m + 6 steps with exactly the outcome, fields, trace and cache of `create` |
| CreateTask.AdvanceAccount | danube/topic_producer.py:54-117 | at every await inside `create` the lookups, registrations, sleeps, milliseconds slept and registry queries so far are those of the point reached, up to the account of a finished `create` |
| Gather.AlwaysOrderly | danube/producer.py:87-93 | in every interleaving of the creates, also after one has failed: each has made the requests of the point it has reached and touched its own topic only, its fields are what its history says, its stamp is the registry's settling answer; `gather` reports a failure iff one of them failed |
| Gather.FirstFailureIsRaised | danube/producer.py:92 | the first create to fail decides: what it raised is what `gather` raises, whatever becomes of the others |
| Gather.CreateEnds | danube/topic_producer.py:54-77 | however the others are scheduled, a create that has been answered 5m + 6 times has ended |
| ProducerCreation.CreateAllOrNothing | danube/producer.py:53-93 | in every interleaving: while a create is under way or once one has failed the producers are unchanged; otherwise entry i is bound to partition i, all connected, in step and stamped, nothing published, with the router before partition 0; a negative partition count gives no endpoints |
| ProducerCreation.CreatedAsConfigured | danube/producer.py:56-85 | after a successful create there is one endpoint per partition, number i having topic <topic>-part-<i> and name <name>-<i> in decimal (or the bare names without partitions), the configured dispatch strategy, schema reference and options |
| ProducerCreation.CreateIsDecided | danube/producer.py:87-93 | `create` fails iff one of its creates has failed, returns iff all have returned, and is over once each has been answered 5m + 6 times |
| ProducerCreation.SequentialIsInterleaved | danube/producer.py:92 | running the creates one after another, in any order, is one of the interleavings |
| ProducerLifetime.LogsAreTheCalls | danube/producer.py:53-190 | from an interleaved create on fresh topics through any sequential run: every partition log is the blocks of the calls that chose it, in order, and nothing else |
| ProducerLifetime.CallConverses | danube/producer.py:95-190 | one call on a created producer: every message bears its payload, attributes and key, and its requests and answers are one conversation that starts with a publish and ends with its outcome |
| ProducerLifetime.OutOfRangeExactly | danube/producer.py:97-101 | the partition of any call, written out; without an endpoint for it the call is refused without a request, the round robin having advanced |
| ProducerLifetime.MessagesAreCoherent | danube/producer.py:53-212 | from such a create through any run without cancelled calls: every message goes over the cached channel of the current route with that route's header and broker address |
| ProducerLifetime.NextCallFitsIff | danube/producer.py:103-128 | after any calls on a created producer, cancelled ones included, the next call puts a message on a wrong channel iff, before it, its partition's stub is not the cached channel of that partition's route |
| ProducerLifetime.MessagesAreStamped | danube/producer.py:53-212 | every message sent after an interleaved create bears its partition's producer name and exactly the schema due at that moment, whatever happened to the topics before |
| ProducerLifetime.SchemasAreProper | danube/topic_producer.py:175-207 | with an honest registry every message sent after a create has a schema id and version that existed at resolution, satisfied the reference, and were the newest unless pinned |
| ProducerHealth.StoppedForGood | danube/topic_producer.py:119-123 | once an endpoint is told to stop, by `close` or by the broker, none of its health checks asks again, including overwritten ones and those a later recreation starts |
| ProducerHealth.CloseAnswerStopsForGood | danube/health_check.py:52-54 | a CLOSE answer to a health check of an endpoint tells it to stop, for good |
| ProducerHealth.RegistrationWatches | danube/topic_producer.py:103-110 | each accepted registration starts one health check, which replaces the known one and leaves it running |
| ProducerHealth.ProducerCloseSilencesExactly | danube/producer.py:192-195 | a health check of a producer can ask again after close iff it is alive and not cancelled and its endpoint is not in `_producers` and has not been told to stop |
| ProducerHealth.OrphanAsksAfterClose | danube/producer.py:87-93 | a concrete run in which an endpoint whose create did not get it into `_producers` is still polled after close |
| SendTask.ResumeRest | danube/producer.py:110-128 | cutting a call at its awaits is sound: if no other call interferes, no turn changes what the whole call comes to |
| SendTask.AloneIsSend | danube/producer.py:110-128 | a call that nobody interferes with does exactly what the retry loop does |
| ConcurrentSends.ConcurrentDelivery | danube/producer.py:95-190 | for any interleaving of any number of calls on shared endpoints: a partition gains the bodies of calls that chose it and nothing else, one per publish of theirs that landed; a keyed call chose FNV-1a(key) mod n; a call that returned has the id of an acknowledged publish of its own body in its own partition; backoffs stay in range |
| ConcurrentSends.RoutesFollow | danube/producer.py:209-211 | concurrent calls never mix two lookup answers: each route is the latest answer of its topic as a whole, whichever call asked |
| ConcurrentSends.ConcurrentRoundRobin | danube/producer.py:130-133 | the calls without a key walk the partitions in the order in which they start, however they interleave |
| ConcurrentConversations.ConcurrentCallsConverse | danube/producer.py:110-128 | in every interleaving the requests and answers of each call by itself are a conversation under the same rules, and a call that has ended has ended as they say |
| StaleNeighbour.StrayAmongConcurrentCalls | danube/producer.py:209-212 | a concrete run of two calls, none of them cancelled, in which the second publishes over the old broker's channel a message that names the new broker, while the first recreates the endpoint |
| ConsumerSafety.AlwaysSafe | danube/consumer.py:90-200 | in every interleaving: at most 100 queued, taken plus waiting equals what each loop's sessions delivered but for a pending or dropped last message, bounded retries, clears followed by resubscription or the end |
| ConsumerSafety.NextSafe | danube/consumer.py:141-200 | each step of every task keeps all of that |
| ConsumerSignals.OnlyItsLoopClears | danube/consumer.py:192-196 | a stop event is cleared only by a receive loop of its consumer, which turns to resubscribing in the same step |
| ConsumerSignals.NoStreamBeforeResubscription | danube/consumer.py:192-200 | in every reachable state: after a clear a loop has opened another stream only if a resubscription succeeded right after the clear |
| ConsumerSignals.LossNeedsSignal | danube/consumer.py:179-184 | a read message is dropped only in a step that sees close, or a stop event that this step clears |
| ConsumerSignals.AtMostOneMoreMessage | danube/consumer.py:176-193 | once the stop event is set a loop queues at most the one message that was already waiting in put |
| ConsumerSignals.OneStepToTheEnd | danube/consumer.py:180-189 | after close the next step of a receive loop is its last and neither reads nor queues |
| ConsumerSignals.NothingAfterClose | danube/consumer.py:131-138 | after close, whatever follows: shutdown and stop events stay set, nothing is read or queued, and no health task of a closed consumer, forgotten ones included, sends another request |
| ConsumerSignals.CloseSilencesExactly | danube/health_check.py:40-66 | a health task can send again after close iff its consumer is not in `_consumers`, has no stop event, and the task is alive and not cancelled |
| ConsumerSignals.OrphanPollsAfterClose | danube/consumer.py:84-88 | a concrete run in which a consumer whose sibling failed to subscribe is still polled after close |
| ConsumerSteps.CloseIsNeverLost | danube/health_check.py:52-54 | in every reachable state a CLOSE answer sets the stop event of its consumer, and it stays set whatever happens until a receive loop of that consumer has cleared it and turned to resubscribing |
| ConsumerSteps.OnlyCloseStops | danube/health_check.py:49-60 | no other answer to a health check sets it |
| ConsumerSteps.EndsExactly | danube/consumer.py:147-200 | a receive loop ends iff it is cancelled, fails to open a stream for good, fails to resubscribe, or finds the consumer shut down |
| ConsumerSteps.ResubscribesExactly | danube/consumer.py:150-200 | a receive loop resubscribes iff it is not connected, has failed m + 1 times in a row to open a stream, or sees the stop event, which it clears in that case only |
| ConsumerSteps.BacksOffExactly | danube/consumer.py:158-171 | a receive loop backs off iff opening a stream failed retryably, at most m times in a row |
| ConsumerSteps.ReturnsExactly | danube/consumer.py:147-200 | a receive loop goes back to its head iff a backoff, a resubscription or an unsignalled stream is over, and opens a stream from there |
| ConsumerSteps.ReadsExactly | danube/consumer.py:178-179 | the message that arrives is the message that is read |
| ConsumerSteps.ReadsNothingElse | danube/consumer.py:174-179 | nothing else is read; a session begins empty when a stream is opened |
| ConsumerSteps.QueuesExactly | danube/consumer.py:179-184 | a read message is queued at once if fewer than 100 wait, else the loop waits with exactly that message; nothing else is queued |
| ConsumerSteps.WatchesExactly | danube/topic_consumer.py:107-114 | a successful resubscription starts one health check, which the consumer then knows of; no other step of a loop starts any |
| ConsumerSteps.AsksExactly | danube/health_check.py:40-66 | a health check asks iff it has rested, is not cancelled and finds no stop event |
| ConsumerSteps.ClosesExactly | danube/consumer.py:131-138 | `close` tells exactly the current consumers to stop, cancels exactly the health checks they know of and every receive loop |
| ConsumerSteps.ComesUpExactly | danube/topic_consumer.py:83-116 | a subscription that succeeds brings up a consumer not told to stop, with one health check that it knows of |
| ConsumerSteps.ReceivesExactly | danube/consumer.py:90-108 | `receive` makes one queue and starts one loop on it, at its head, for each consumer |
| ConsumerSteps.GetsExactly | danube/consumer.py:92-94 | the user gets the message that has waited longest |

## Left out

- Requests inside `Producer.create`: a request and its answer are one step, so two creates (of different endpoints) never have their requests in flight over each other; `send` or a second `create` while creates that nobody waits for still go on is not modelled.
- Late appends: a publish that fails or is cancelled lands at that moment or never; a broker that appends it after a later message is not modelled, and the order results do not hold of one.
- Concurrent `send` callers: the lock is released before the RPC (danube/producer.py:110), so order and channel coherence are claimed for a sequential caller only, and schema stamps too are proved only for one.
- Consumer.subscribe, Consumer.receive, Consumer.ack, Consumer.close and `_partition_receive_loop` are steps of a transition system on values instead of a class: their content is the interleaving, which a method cannot express. `ack` and `nack` only forward to an RPC and are not modelled.
- The inside of a resubscription during a receive loop is one step of `ConsumerSystem`; its retries are those of `TopicConsumer.TopicConsumer.Subscribe`.
- ProducerCreation.CreateAllOrNothing: that fields mirror the whole trace is claimed for the first create of a topic; after a repeated create the delivery and stamping results still apply.
- UTF-8 encoding of routing keys: a key is its byte string, and `str.encode` failing on a lone surrogate is not modelled.
- gRPC, TLS, protobuf, the broker and the schema registry themselves: their answers are the script.
- `AuthService` tokens: one fixed metadata list per client, token rotation is not modelled.
- Clocks, logging and real randomness: the clock shows what the script says, and a backoff is any number of milliseconds in its range.
- Cancellation while waiting for a lock: locks are held only across steps without awaits.
- Wake-up order of tasks blocked on the queue: any of them may proceed.
- `DanubeClient`, the builders, `SchemaType` and `CompatibilityMode`: field setters and finite tables.
