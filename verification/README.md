# Verification of django-event-bus

A Dafny model of the delivery protocols of django-event-bus and of the remote-data
cache built on them, with proofs. `dafny verify dfyconfig.toml` checks everything.

The library promises one thing for its three infrastructure backends: at-least-once
delivery with one consumer group per service. The backends keep their state in very
different places, so each has its own machine, whose steps are the atomic commands of the
server plus a crash of any worker at any point; all three are shown to be runs of one
abstract bus whose events are outstanding, done or dead.

| part | files |
|---|---|
| abstract bus, shared vocabulary | `AtLeastOnce`, `Common`, `Counters`, `Names` |
| Kafka | `KafkaMachine`, `KafkaConservation`, `KafkaRefinement`, `KafkaIsolation`, `KafkaBudget`, `KafkaQuiescence`, `KafkaLoop`; code: `KafkaBroker` |
| Redis Streams | `RedisMachine`, `RedisConservation`, `RedisBounds`, `RedisRounds`; code: `RedisServer`, `RedisBroker`, `RedisRecovery` |
| RabbitMQ | `RabbitMachine`, `RabbitConservation`, `RabbitFanout`; code: `RabbitChannel`, `RabbitBroker` |
| in-memory broker | `LocMem` |
| dispatcher, registry, worker command | `Registry`, `Worker` |
| remote cache and invalidation | `RemoteCache`, `Coherence`, `Staleness`, `BusCoherence` |
| rate limiter, shared instances | `RateLimit`, `Singletons` |

A machine is a state, a step type, `Can` (is the step possible) and `Do` (what it does);
runs are finite sequences of steps. The classes model the code that changes state. Where a
class stands for a server together with the code using it, ghost fields record the run of
the machine its calls amount to, and the class invariant says that the real fields and the
machine agree; `Elsewhere` is whatever everybody else does in between, and a worker can be
stopped and restarted at any point. So a theorem about all runs holds for whatever the code
did; `CodeConserves` says so for each broker in terms of the server's own data.

## Hypotheses

- Kafka: `flush` drained the producer queue, new groups start at the earliest offset, logs
  are not trimmed, and a rebalance is a crash of the worker that loses the partition. A
  readable message foreign to the library has no retry count, or a malformed one. The
  budgets and quiescence suppose that no service reads its own dead letters
  (`Cfg.LoopFree`); conservation, refinement and isolation do not.
- Redis: `MAXLEN` is unset and groups survive, except where recovery is the subject.
- RabbitMQ: a publish that returned took effect, and a service only counts from the moment
  its queues are declared.
- Serialising an envelope and reading it back gives the same envelope; other bytes may be
  unreadable.
- Coherence over a broker: only events with a receiver besides the invalidators are ever
  failed, since cache deletes succeed.
- Coherence: every change of a watched item publishes a listed event with the primary key
  in `payload["id"]`, and cache deletes succeed; a null id counts as none. Service and
  resource names have no colon.
- Rate limiter: add and incr are atomic and keep expiry, nothing is evicted, and the cache
  operations of a call happen within one window of its clock reading.

## Where the code differs from its documentation

- Retries are not private to a service. Kafka republishes on the topic all groups read
  (`KafkaIsolation.RetryIgnoredIff`, `KafkaIsolation.IsolatedIff`); the RabbitMQ retry
  and dead-letter exchanges route by event type alone and so reach the queues of every
  service (`RabbitFanout.FanOut`, `RabbitFanout.IsolatedIffAlone`). Conservation survives
  both, the isolation that "one consumer group per service" suggests does not. The retry
  trees stay finite (`RabbitFanout.CopiesBounded`, `KafkaBudget.SharedTopicDispatches`,
  `KafkaQuiescence.Quiesces`), unless a Kafka service subscribes to some type u and to
  u + ".dlq" as well: it reads its own dead letters, and while it fails them it produces
  new ones without end (`KafkaLoop.QuiescesIff`).
- A readable Kafka message whose retry header is no number is not dead-lettered: `fail()`
  raises, and the next worker finds the message at the same offset
  (`KafkaBroker.Blocked`).
- The transaction in the Redis `fail()` keeps one worker from writing a dead letter twice;
  two workers holding the same reclaimed entry still can, whatever the limit is
  (`RedisBounds.BuriedTwiceIff`).
- RabbitMQ: when the dead-letter publish of `fail()`, or a publish of a receiver before it,
  needs a reconnect, the channel of the original message is gone; acknowledging or
  rejecting it raises, and at the limit a dead letter is written for a message that is
  back in its queue (`RabbitBroker.Broker.Fail`, steps `LateDispatch` and `LateBury`).
- Names can collide: an event type ending in ".dlq" or ":dlq", a dot in a RabbitMQ service
  name, a colon in a remote service name, a remote service called "ratelimit". `Names`
  says of each exactly when.
- `get_broker` and `load_transport` read the shared table a second time to return; a
  reset between the two reads makes the second one fail
  (`Singletons.GetterFindsNothingIff`). The gRPC channel getter returns what it saw and
  has no such gap (`Singletons.ChannelNeverNull`).

## Model

| member | source | states |
|---|---|---|
| `AtLeastOnce.NeverLost` | README.md:79-82 | in every run of the abstract bus, whatever was published is still outstanding unless a successful dispatch or a dead-letter write of it took place |
| `AtLeastOnce.NothingButPublished` | README.md:184-189 | published is exactly outstanding plus done plus dead at every moment: nothing vanishes, nothing is acted on that was not sent |
| `AtLeastOnce.SettledMeansMove` | README.md:184-189 | done and dead record exactly the successful dispatches and the dead-letter writes of the run |
| `AtLeastOnce.BuriedOnlyAfterFailing` | src/django_event_bus/dispatcher.py:28-50 | before every dead-letter write of an event its receivers were run and one of them raised |
| `KafkaMachine.DlqTopicIsMainTopicIff` | src/django_event_bus/brokers/kafka.py:175-187 | a dead-letter topic is the topic of an event type exactly when that type is spelled u + ".dlq"; otherwise topic names determine types |
| `KafkaConservation.StepKeepsInv` | src/django_event_bus/brokers/kafka.py:299-395 | every poll, dispatch, produce, commit, start or stop of a worker keeps the invariant: offsets trail the message in hand by one, and each subscribed published event is settled or has a copy at or above the committed offset |
| `KafkaConservation.CommitIsCovered` | src/django_event_bus/brokers/kafka.py:347-356 | a commit is only ever issued for the one message in hand, and then that message is unreadable, settled by the group, or outlived by a copy with a higher retry count |
| `KafkaConservation.ProduceCovers` | src/django_event_bus/brokers/kafka.py:379-382 | after the republish or the dead-letter write of fail() and before its commit, the message in hand may be committed past |
| `KafkaRefinement.Conservation` | src/django_event_bus/brokers/kafka.py:347-395 | for any number of groups, partitions and crashes between any two commands: each confirmed publish is, for each subscribed group, handled, in the dead-letter topic, or present at or above the committed offset |
| `KafkaRefinement.CommittedTrailsPosition` | src/django_event_bus/brokers/kafka.py:277-297 | committed equals position when the worker is idle and position minus one when it has a message in hand, never anything else |
| `KafkaRefinement.StepRefines` | src/django_event_bus/brokers/kafka.py:299-395 | each step is one move of the abstract bus for each group, and an allowed one |
| `KafkaRefinement.RunRefines` | src/django_event_bus/brokers/kafka.py:299-395 | every Kafka run maps to a legal run of the abstract bus ending in the abstraction of its final state |
| `KafkaIsolation.RetryIgnoredIff` | src/django_event_bus/brokers/kafka.py:379-381 | a retry by one group leaves the bus of another one unchanged exactly when that one does not subscribe to the type or has a copy of the event ahead of it anyway |
| `KafkaIsolation.IsolatedIff` | src/django_event_bus/brokers/kafka.py:379-381 | in some run a group that is through with an event gets it again by the retry of another group, exactly when some service with MAX_RETRIES of at least 2 shares an event type with another one; the run is built |
| `KafkaBudget.RunKeepsRange` | src/django_event_bus/brokers/kafka.py:369-395 | each service with its own MAX_RETRIES: with M the largest max(1, max_retries), main-topic copies always carry a retry count in 0..M-1, and a dead letter a count of at most M and at least the limit of some group that gave the event up |
| `KafkaBudget.SameLimitSameCount` | src/django_event_bus/brokers/kafka.py:369-395 | where all limits are equal, every dead letter carries exactly that count |
| `KafkaBudget.AttemptBudget` | src/django_event_bus/brokers/kafka.py:358-395 | one group: P publishes of an event and k workers that stopped while settling it allow at most M * (P + k) dispatches and at most P + k dead letters |
| `KafkaBudget.SharedTopicGrowth` | src/django_event_bus/brokers/kafka.py:379-381 | n groups with any limits, workers stopping at any time: at most (n * P + k) * n^c retries with count c + 1 are ever written, k the stops below that level, and the dead letters with counts up to c + 1 fit in the same bound |
| `KafkaBudget.SharedTopicDispatches` | src/django_event_bus/brokers/kafka.py:358-395 | n groups with any limits up to M, k workers stopping while settling the event: P publishes lead to at most (n * P + k) * (1 + n + ... + n^(M-1)) dispatches by all groups together |
| `KafkaBudget.SharedTopicDeadLetters` | src/django_event_bus/brokers/kafka.py:384-395 | and to at most (n * P + k) * n^(M-1) dead letters |
| `KafkaQuiescence.Quiesces` | src/django_event_bus/brokers/kafka.py:277-395 | without new messages and stops only boundedly many polls, dispatches, produces and commits, by all n groups with any limits together, can follow from any reachable state |
| `KafkaLoop.QuiescesIff` | src/django_event_bus/brokers/kafka.py:175-187 | from every reachable state only boundedly many protocol steps can follow exactly when no service reads an event type together with the type named like its dead-letter topic; for one that does, an endless run of failing dispatches is built |
| `KafkaLoop.BudgetIff` | src/django_event_bus/brokers/kafka.py:358-395 | the dispatch budget of n groups holds in every run exactly when no service reads its own dead letters |
| `KafkaLoop.Overspend` | src/django_event_bus/brokers/kafka.py:358-395 | for a service that does, and every k, a run with one publish, no stop and at least k dispatches |
| `KafkaQuiescence.ProduceCosts` | src/django_event_bus/brokers/kafka.py:379-395 | a copy fail() writes, retry or dead letter, is paid for, in every group that may read it, by the record it replaces |
| `KafkaBudget.FirstLevel` | src/django_event_bus/brokers/kafka.py:189-194 | copies with retry count 0 are exactly the publishes |
| `KafkaBroker.RetryCount` | src/django_event_bus/brokers/kafka.py:326-345 | the first retry header carrying bytes decides; text or null values are skipped, non-numeric bytes raise, none means 0 |
| `KafkaBroker.StampRoundTrip` | src/django_event_bus/brokers/kafka.py:212-214 | the count that produce writes is the count the next consumer reads, behind any foreign headers |
| `KafkaBroker.Broker.Produce` | src/django_event_bus/brokers/kafka.py:196-241 | raises BufferError iff every attempt found the queue full, raises on a reported delivery error, otherwise the record is appended; raising leaves logs and offsets alone |
| `KafkaBroker.Broker.Publish` | src/django_event_bus/brokers/kafka.py:189-194 | raises as the produce does and then changes nothing; if it returns, the event is the last record of a partition of its topic, with a count of 0 |
| `KafkaBroker.Cluster.Poll` | src/django_event_bus/brokers/kafka.py:283-297 | hands out the record at the position and moves the position only; the offset of what it hands out is the committed one |
| `KafkaBroker.Broker.ToEnvelope` | src/django_event_bus/brokers/kafka.py:299-324 | an unreadable message is committed and not yielded; a readable one becomes the pending delivery of its event id |
| `KafkaBroker.Broker.Ack` | src/django_event_bus/brokers/kafka.py:347-356 | commits the offset behind the pending message of the event and forgets it; does nothing for an event that is not pending |
| `KafkaBroker.Broker.Fail` | src/django_event_bus/brokers/kafka.py:358-395 | with the count one higher than the header's, appends one copy carrying it, to the topic while it is below max_retries and to the dead letters otherwise, then commits; when the produce raises nothing is written or committed; it raises on the header exactly when that is no number, with the delivery forgotten and nothing written or committed |
| `KafkaBroker.Broker.ProduceThenCommit` | src/django_event_bus/brokers/kafka.py:379-382 | the commit comes only after a successful produce |
| `KafkaBroker.Turn` | src/django_event_bus/management/commands/eventbus_worker.py:57-61 | one turn of the loop on any owned partition, from any state between turns and with any logs, malformed retry headers included: while receivers run, publish and everybody else takes any steps, the delivery in hand stays in hand, and whatever the receivers published is in the logs and known as published; then, without a raising receiver, the event is done, and with one its next copy or dead letter is written; the offset moves behind the message, or the turn raises and leaves it where it was; the turn raises on the header exactly when a receiver raised and the header is no number |
| `KafkaBroker.Blocked` | src/django_event_bus/brokers/kafka.py:326-345 | a message whose retry header is no number and whose receivers raise is dispatched by every worker started on its partition, stops each of them with the same error, and stays at the committed offset |
| `KafkaBroker.Restart` | src/django_event_bus/management/commands/eventbus_worker.py:62-64 | a worker gone at any point leaves logs and offsets as they are and its partitions free, and the next one starts with nothing pending |
| `KafkaBroker.Cluster.Elsewhere` | src/django_event_bus/brokers/kafka.py:299-395 | any step of publishers, other groups and other workers of the group keeps the invariant of this worker, its offsets, its phases and the very message it has in hand |
| `KafkaBroker.CodeConserves` | src/django_event_bus/brokers/kafka.py:299-395 | in every state the methods can reach, restarts and steps of all other groups and workers included, a published event of a subscribed type is handled, in the dead-letter log, or at or above the committed offset of the server |
| `KafkaBroker.Drive` | src/django_event_bus/brokers/kafka.py:369-395 | from its publication on, an event whose handlers fail j times is dispatched j + 1 times and never dead-lettered if j < max_retries, and otherwise dispatched max(1, max_retries) times and dead-lettered once, counted by header |
| `RedisConservation.StepKeepsInv` | src/django_event_bus/brokers/redis_streams.py:203-404 | every read, reclaim, dispatch, acknowledgement, burial and crash of any worker keeps: what a group has read is pending or settled |
| `RedisConservation.Conservation` | src/django_event_bus/brokers/redis_streams.py:203-404 | any number of workers, reclaims and crashes: each entry is ahead of the group, pending, or was dispatched with success, unreadable, or dead-lettered by this group |
| `RedisConservation.BuriedNeverPending` | src/django_event_bus/brokers/redis_streams.py:389-403 | at no moment of any run, with any number of workers, is an entry both dead-lettered by a group and pending for it |
| `RedisConservation.RunRefines` | src/django_event_bus/brokers/redis_streams.py:349-404 | every Redis run maps to a legal run of the abstract bus |
| `RedisBounds.RetriesBounded` | src/django_event_bus/brokers/redis_streams.py:368-381 | while an entry is pending, all workers of the group together called fail() for it at most as often as it was delivered, and fail() returned False at most max(1, max_retries) - 1 times |
| `RedisBounds.BuriedAtMostOnce` | src/django_event_bus/brokers/redis_streams.py:383-404 | with one worker at a time, crashes and restarts included, the group dead-letters each entry at most once |
| `RedisBounds.TwoWorkersBuryTwice` | src/django_event_bus/brokers/redis_streams.py:368-404 | for every max_retries and at least two workers, a run in which one entry is dead-lettered twice |
| `RedisBounds.BuriedTwiceIff` | src/django_event_bus/brokers/redis_streams.py:368-404 | whatever max_retries is, n >= 1 workers of a group can dead-letter an entry twice exactly when n >= 2 |
| `RedisRounds.NoStarvation` | src/django_event_bus/brokers/redis_streams.py:208-232 | an entry at rank r of the pending list is among the ten reclaimed after at most (r / 10) * max(1, M - 1) rounds, whatever the handlers do |
| `RedisRounds.ScanAges` | src/django_event_bus/brokers/redis_streams.py:211-232 | an entry that survives a reclaiming scan has one delivery less ahead of it, and the scan never lengthens the list |
| `RedisServer.Server.XAutoClaim` | src/django_event_bus/brokers/redis_streams.py:213-220 | the first ten idle pending entries in id order are handed over with their delivery counts raised by one and all other rows unchanged; an idle entry is passed over only for ten idle ones with smaller ids, never because of a busy one; the machine takes a reclaim step |
| `RedisServer.Server.Transaction` | src/django_event_bus/brokers/redis_streams.py:389-403 | dead letter and acknowledgement take effect together, as one step of the machine |
| `RedisBroker.Broker.Publish` | src/django_event_bus/brokers/redis_streams.py:127-160 | raises iff every attempt meets a connection error; all it adds to the stream is readable copies of the event: at least one if it returns, exactly one unless an error hid a write that took effect |
| `RedisBroker.Broker.ToEnvelope` | src/django_event_bus/brokers/redis_streams.py:314-347 | an unreadable entry is acknowledged and not yielded; a readable one becomes the pending delivery of its event id |
| `RedisBroker.Broker.Ack` | src/django_event_bus/brokers/redis_streams.py:349-357 | removes exactly the entry of the event from the pending list; does nothing when the event is not pending |
| `RedisBroker.Broker.Fail` | src/django_event_bus/brokers/redis_streams.py:359-404 | gives up exactly when the delivery count (1 if the entry is no longer pending) reached max_retries; then one dead letter is written and the entry removed, otherwise nothing changes |
| `RedisBroker.Broker.ReclaimRound` | src/django_event_bus/brokers/redis_streams.py:208-232 | whatever is idle, the first ten idle entries are dispatched; of them those handled, unreadable or delivered for the last time leave the pending list, given-up ones with a dead letter, the others stay with one delivery more, and no other entry is touched; with everything idle the list is what the round model says |
| `RedisBroker.Broker.ReadRound` | src/django_event_bus/brokers/redis_streams.py:244-269 | the reading half moves the group by up to ten entries, dispatches them all, dead-letters those given up, and appends to the pending list exactly those that failed with deliveries left |
| `RedisBroker.Broker.Round` | src/django_event_bus/brokers/redis_streams.py:208-269 | a whole round of the consuming loop with everything idle is a step of the round model, and reads ten new entries or all there are |
| `RedisBroker.Broker.Rounds` | src/django_event_bus/brokers/redis_streams.py:208-269 | any number of rounds, with events published in between, are rounds of the model, so the starvation bound is one of the loop; the stream gains what was published |
| `RedisServer.Server.Elsewhere` | src/django_event_bus/brokers/redis_streams.py:203-404 | any step of publishers, other groups and other workers keeps the invariant of this worker and what it has in hand |
| `RedisBroker.Broker.Restart` | src/django_event_bus/management/commands/eventbus_worker.py:62-64 | a worker gone at any point leaves stream, pending list and dead letters as they are |
| `RedisBroker.CodeConserves` | src/django_event_bus/brokers/redis_streams.py:203-404 | whatever the group has read is pending, was dispatched with success, was unreadable, or is in the dead-letter stream by a dead letter this group wrote for this entry |
| `RedisBroker.Drive` | src/django_event_bus/brokers/redis_streams.py:368-404 | the same dispatch and dead-letter numbers as on Kafka, from the publish of the event on, counted by delivery count |
| `RedisRecovery.Broker.EnsureGroup` | src/django_event_bus/brokers/redis_streams.py:162-181 | an existing group is left alone, a missing one starts at the given id, other streams are untouched; an error other than BUSYGROUP is raised again and changes nothing |
| `RedisRecovery.Broker.Listen` | src/django_event_bus/brokers/redis_streams.py:183-201 | every listened stream has the group, starting at id 0 with nothing pending where it was missing and unchanged where it was not; lengths and other groups are untouched; an error ends the loop with the earlier streams done |
| `RedisRecovery.ListenStartsRun` | src/django_event_bus/brokers/redis_streams.py:162-200 | what listen() creates where a group was missing is the group that a run of the Redis machine starts with, so all that is proved about runs applies |
| `RedisRecovery.Broker.RecoverAll` | src/django_event_bus/brokers/redis_streams.py:252-255 | on NOGROUP every missing group is recreated at the end of its stream with nothing pending; any other error is raised again and changes nothing |
| `RedisRecovery.RecoveryRecreatesOnlyLostGroups` | src/django_event_bus/brokers/redis_streams.py:282-312 | although the handler loops over all streams, a lost group becomes what the machine calls recreated, a surviving one, other groups and other streams are unchanged |
| `RedisRecovery.NeverReplays` | src/django_event_bus/brokers/redis_streams.py:282-312 | the group is recreated at any moment, whatever its workers hold: every entry that a read or a reclaim hands out from then on was added later, and every later entry read is pending or settled |
| `RedisRecovery.FirstListenReadsAll` | src/django_event_bus/brokers/redis_streams.py:183-201 | by contrast, after a first listen every entry the group has got past was handed to some worker |
| `RabbitMachine.BumpCounts` | src/django_event_bus/brokers/rabbitmq.py:417-437 | dead-lettering raises exactly the x-death counter of the queue and reason it happened for |
| `RabbitConservation.StepKeepsInv` | src/django_event_bus/brokers/rabbitmq.py:219-493 | every step of any service, including lost channels and dead letters published after a reconnect, keeps the invariant |
| `RabbitConservation.Conservation` | src/django_event_bus/brokers/rabbitmq.py:219-493 | for any number of services: an event that reached a service is handled, in its dead letters, in its main queue, unacknowledged, or in some retry queue |
| `RabbitConservation.RejectionsBelowLimit` | src/django_event_bus/brokers/rabbitmq.py:459-471 | every copy in any queue or in flight was rejected fewer than max(1, max_retries) times by each service |
| `RabbitConservation.DeadLetterExactlyAtLimit` | src/django_event_bus/brokers/rabbitmq.py:459-491 | the dead-letter branch is taken exactly when this rejection would be number max(1, max_retries), the retry branch otherwise |
| `RabbitConservation.RunRefines` | src/django_event_bus/brokers/rabbitmq.py:439-493 | every RabbitMQ run maps, for each service, to a legal run of the abstract bus |
| `RabbitFanout.FanOut` | src/django_event_bus/brokers/rabbitmq.py:236-256 | one nack with n declared services adds one copy to each of the n retry queues and, after their TTLs, n copies to each of the n main queues |
| `RabbitFanout.IsolatedIffAlone` | src/django_event_bus/brokers/rabbitmq.py:236-256 | a retry leaves the main queues of all other services alone exactly when there are none |
| `RabbitFanout.CopiesBounded` | src/django_event_bus/brokers/rabbitmq.py:459-493 | P publishes put at most P * n * (1 + n^2 + ... + n^(2R)) copies into main queues, R being the sum of max(1, max_retries) - 1 over the services |
| `RabbitFanout.RoundsUniform` | src/django_event_bus/brokers/rabbitmq.py:459-471 | R is n * (M - 1) when all services agree on M |
| `RabbitFanout.TreeIsSum` | src/django_event_bus/brokers/rabbitmq.py:236-256 | the size of the retry tree of one copy is the sum of the even powers of n |
| `RabbitFanout.Quiesces` | src/django_event_bus/brokers/rabbitmq.py:348-493 | without new messages and lost channels only boundedly many deliveries, dispatches, acknowledgements and expiries can follow from any reachable state |
| `RabbitChannel.Channel.Reconnect` | src/django_event_bus/brokers/rabbitmq.py:300-319 | everything unacknowledged is back in the main queue, the consuming channel is gone, no other queue changes |
| `RabbitChannel.Channel.BasicNack` | src/django_event_bus/brokers/rabbitmq.py:470-470 | the message leaves the channel and a copy with one more rejection joins the retry queue of every declared service and nothing else changes; on a lost channel it raises and changes nothing |
| `RabbitBroker.Broker.DeathCount` | src/django_event_bus/brokers/rabbitmq.py:417-437 | the count of the first x-death entry whose queue is the main queue of the service and whose reason is rejected, 0 without one |
| `RabbitBroker.Broker.Publish` | src/django_event_bus/brokers/rabbitmq.py:259-298 | raises iff every attempt meets an outage; otherwise the event is in the main queue of every declared service; whatever happens to the channel, the worker keeps what it has in hand |
| `RabbitBroker.Broker.PublishDead` | src/django_event_bus/brokers/rabbitmq.py:266-298 | raises iff every attempt meets an outage; a success on the first attempt of an open channel keeps it, any other comes after everything handed out was requeued |
| `RabbitBroker.Broker.ToEnvelope` | src/django_event_bus/brokers/rabbitmq.py:387-415 | an unreadable message is acknowledged and not yielded; a readable one becomes the pending delivery of its event id |
| `RabbitBroker.Broker.Ack` | src/django_event_bus/brokers/rabbitmq.py:439-448 | the event counts as handled; its delivery is acknowledged, or, iff the channel is gone, that raises |
| `RabbitBroker.Broker.Fail` | src/django_event_bus/brokers/rabbitmq.py:450-493 | retries below the limit, else publishes the dead letter and acknowledges; raises exactly when the channel of the message is gone, or when giving up and the first publish attempt meets an outage, and says in each case where message and dead letter are |
| `RabbitBroker.Dispatch` | src/django_event_bus/dispatcher.py:28-50 | all receivers are run, each raising exactly when it raises by itself or a publish of it meets an outage at every attempt, whatever the others did, and what a returning one published was routed to every declared service; then the event is acknowledged and done iff none raised, and otherwise its copy with one more rejection is in the retry queues or, at the limit, the event in the dead letters of every declared service |
| `RabbitBroker.Turn` | src/django_event_bus/management/commands/eventbus_worker.py:57-61 | one turn with any prefetched delivery, in whatever state the queues are, runs the receivers and settles the event as the dispatcher does, and ends with nothing pending and nothing in hand, or raises |
| `RabbitBroker.Restart` | src/django_event_bus/management/commands/eventbus_worker.py:62-64 | a worker that raised or was killed at any point starts again with everything it was handed back in its queue |
| `RabbitChannel.Channel.Elsewhere` | src/django_event_bus/brokers/rabbitmq.py:219-493 | any step of other services and of the server keeps the invariant of this worker and what it has in hand |
| `RabbitBroker.CodeConserves` | src/django_event_bus/brokers/rabbitmq.py:219-493 | in every state the methods can reach, restarts and steps of all other services included, an event that reached the service is handled, in its dead letters, in its main queue, handed out, or in a retry queue |
| `RabbitBroker.Drive` | src/django_event_bus/brokers/rabbitmq.py:459-493 | the same dispatch and dead-letter numbers as on Kafka, from the publish of the event on, counted by x-death |
| `Names.QueuesApart` | src/django_event_bus/brokers/rabbitmq.py:198-217 | with dot-free service names, main queues of different services or types differ, and a main queue is the retry or dead-letter queue of another type exactly when the types differ by that suffix |
| `Names.QueuesMeetIff` | src/django_event_bus/brokers/rabbitmq.py:198-203 | queues of two services can meet exactly when "service." of one of them begins that of the other |
| `Names.QueueCollision` | src/django_event_bus/brokers/rabbitmq.py:198-203 | with a dot in a service name two services can share a queue |
| `Names.DlqStreamIsStreamIff` | src/django_event_bus/brokers/redis_streams.py:113-125 | a dead-letter stream is the stream of an event type exactly when that type is spelled u + ":dlq" |
| `Names.RemoteKeyInjective` | src/django_event_bus/remote/cache.py:35-40 | resources whose service and resource names contain no colon never share a cache key |
| `Names.RemoteKeysMeetIff` | src/django_event_bus/remote/cache.py:35-40 | keys of two resources can meet exactly when "service:resource:" of one of them begins that of the other |
| `Names.RemoteKeyCollision` | src/django_event_bus/remote/cache.py:35-40 | with a colon in a service name two resources can share a key |
| `Names.RateKeyInjective` | src/django_event_bus/remote/ratelimit.py:76-77 | counters of different callers or windows have different keys |
| `Names.CountersAndResourcesMeetIff` | src/django_event_bus/remote/ratelimit.py:26-26 | a resource of a service can share a key with a rate-limit counter exactly when that service is called "ratelimit" |
| `Worker.Dispatch` | src/django_event_bus/dispatcher.py:17-71 | runs every receiver once in registration order whether or not earlier ones raised, then acknowledges the pending delivery of the event if none raised and fails it otherwise; an exception of the broker is passed on |
| `Worker.HistoryIsDisciplined` | src/django_event_bus/management/commands/eventbus_worker.py:57-64 | every history obeys the discipline automaton: a delivery is fetched with empty hands only, all its receivers run once in order, then it is settled once through its own handle, acknowledged iff none raised, even when deliveries share an event id; the broker is closed last |
| `Worker.CutShort` | src/django_event_bus/management/commands/eventbus_worker.py:57-61 | killed at any point, the worker leaves a disciplined history: at most the last delivery is yielded and unsettled |
| `Worker.NothingAfterStop` | src/django_event_bus/management/commands/eventbus_worker.py:57-61 | from the delivery at which the stop was requested on, no receiver runs and nothing is settled: unreadable messages are dropped, at most one more event is yielded, and that is the end; before that the history is that of the earlier deliveries |
| `Worker.EarlierIsDispatched` | src/django_event_bus/management/commands/eventbus_worker.py:57-61 | a readable delivery before the stop request, reached because the earlier ones could be settled, is yielded, has each receiver of its type run in order, and is acknowledged iff none raised, whenever the request comes |
| `Worker.Command.Serve` | src/django_event_bus/management/commands/eventbus_worker.py:57-61 | with the stop flag up the trace grows by at most one dropped or yielded delivery; otherwise a readable delivery is dispatched as a whole; the turn leaves nothing pending, or leaves the loop by the flag or by the exception of a settlement |
| `Worker.Command.Handle` | src/django_event_bus/management/commands/eventbus_worker.py:31-64 | the loop as a whole produces the specified history and then closes the broker; it raises exactly when some delivery cannot be settled, all before it could be, and none up to it was yielded after the stop request; without receivers it does not listen |
| `Registry.Registry.Register` | src/django_event_bus/registry.py:16-31 | appends a receiver that is not listed, keeps the list otherwise; no receiver is listed twice |
| `Registry.Registry.RegisteredEventTypes` | src/django_event_bus/registry.py:42-47 | exactly the types having at least one receiver |
| `Registry.Registry.GetReceivers` | src/django_event_bus/registry.py:34-39 | the receivers of the type, without duplicates, as registered |
| `Registry.EachOnceInOrder` | src/django_event_bus/registry.py:16-31 | any list of registrations amounts to each registered receiver once, ordered by where it was registered first |
| `RemoteCache.Cache.Resolve` | src/django_event_bus/remote/fields.py:42-63 | a live entry is returned as it is; else what the transport finds is returned and can be read from now until the field TTL or the default one has passed, and no longer, with all other entries unchanged; a missing resource is not stored and an exception changes nothing |
| `RemoteCache.Cache.Invalidate` | src/django_event_bus/remote/invalidation.py:55-73 | deletes exactly the entry named by the payload id, nothing without one |
| `RemoteCache.WiringKeepsConsistent` | src/django_event_bus/remote/invalidation.py:46-52 | wiring one more triple keeps the table of wired triples exact, with one receiver per triple |
| `RemoteCache.Invalidation.RegisterInvalidation` | src/django_event_bus/remote/invalidation.py:23-52 | every listed type gets exactly one receiver for the target, however often it is listed; registered receivers stay where they were |
| `Coherence.RunReceivers` | src/django_event_bus/dispatcher.py:28-50 | if the payload has an id, afterwards no listed invalidator's key for that id is cached and every other entry is unchanged; without an id nothing changes; other receivers may raise |
| `Coherence.RunAllDeletes` | src/django_event_bus/dispatcher.py:30-40 | a dispatch deletes exactly the keys of the targets wired for the event with its id, and changes no other entry |
| `Coherence.Coherent` | src/django_event_bus/remote/fields.py:42-63 | in every run a cached value of a watched item is the present source value, or an announcement of a change of that item is still owed or outstanding with receivers not yet run, or an invalidation of it overtook the reader that stored it |
| `Coherence.CoherentWhenDrained` | src/django_event_bus/remote/invalidation.py:46-73 | once every announced change was dispatched once, successfully or not, undisturbed readers left only present source values in the cache |
| `Coherence.StepKeepsInv` | src/django_event_bus/remote/invalidation.py:55-73 | updates, fetches, stores, publishes, dispatches, retries, burials and time keep the coherence invariant under any interleaving |
| `Coherence.BusRefines` | src/django_event_bus/dispatcher.py:42-71 | the bus part of every such run is a legal run of the abstract bus the three brokers refine |
| `Coherence.BusIsFree` | src/django_event_bus/dispatcher.py:28-71 | whatever the abstract bus can do next, it can do in this machine at any moment; only a failing dispatch takes a receiver that may raise |
| `BusCoherence.FollowBus` | src/django_event_bus/dispatcher.py:28-71 | whatever moves a legal bus makes, the cache machine can follow them from any state, with anything cached and any reader between fetch and store |
| `BusCoherence.Projects` | src/django_event_bus/dispatcher.py:28-71 | backend and cache as one machine: every joint run, backend steps and cache steps interleaved in any way, is a run of the backend and a run of the cache machine that agree on the bus |
| `BusCoherence.BackendIsFree` | src/django_event_bus/dispatcher.py:28-71 | the cache never holds a backend up: in every joint state, whatever step the backend can take alone is one half of a joint step |
| `BusCoherence.CoherentOver` | src/django_event_bus/remote/invalidation.py:55-73 | in every joint run over any backend, while an old value that no overtaken reader left is cached, its announcement is owed, or outstanding on the backend's own bus with its receivers never run |
| `BusCoherence.KafkaRefines` | src/django_event_bus/brokers/kafka.py:347-395 | the Kafka machine as one group sees it is such a backend: each step carries legal moves that lead to the bus of its next state |
| `BusCoherence.RabbitRefines` | src/django_event_bus/brokers/rabbitmq.py:439-493 | so is the RabbitMQ machine as one service sees it |
| `BusCoherence.RedisRefines` | src/django_event_bus/brokers/redis_streams.py:349-404 | so is the Redis machine, whose entries are named as they are added |
| `BusCoherence.CoherentOverKafka` | src/django_event_bus/remote/invalidation.py:55-73 | the joint machine over Kafka: while an old value that no overtaken reader left is cached, the announcement is not on the bus yet, or in the Kafka run underneath the group has a copy of it at or above its committed offset and never ran its receivers |
| `BusCoherence.CoherentOverRabbit` | src/django_event_bus/remote/invalidation.py:55-73 | the joint machine over RabbitMQ: then a copy is in the main queue, unacknowledged or in a retry queue, and its receivers never ran |
| `BusCoherence.CoherentOverRedis` | src/django_event_bus/remote/invalidation.py:55-73 | the joint machine over Redis: then the entry is ahead of the group or pending, and its receivers never ran |
| `Coherence.OvertakenReaderLeavesOldValue` | src/django_event_bus/remote/fields.py:85-101 | from any start, a run after which an old value is cached with nothing outstanding: the overtaking condition is needed |
| `Staleness.StalenessBounded` | src/django_event_bus/remote/fields.py:85-103 | whatever the interleaving and even if every invalidation is lost, a value returned now was the source value at an instant later than now - TTL - D, for a TTL bounding all fields sharing the key and a fetch-to-set latency of at most D |
| `Staleness.RunKeepsInv` | src/django_event_bus/remote/fields.py:100-101 | every copy in flight or in the cache was held by the source at its recorded instant, and expires within TTL of its store |
| `RateLimit.StepKeepsInv` | src/django_event_bus/remote/ratelimit.py:75-93 | add and incr of any callers in any order keep: the counter is the number of calls answered in its window, and it is still alive for all of them |
| `RateLimit.Exact` | src/django_event_bus/remote/ratelimit.py:75-93 | exactly min(calls, limit) calls of a caller in an aligned window return True, and no call finds its counter expired between add and incr |
| `RateLimit.IntervalBound` | src/django_event_bus/remote/ratelimit.py:57-73 | any interval of k windows length, aligned or not, admits at most (k + 1) * limit calls of a caller |
| `RateLimit.TtlOfTwoWindowsNeeded` | src/django_event_bus/remote/ratelimit.py:79-91 | the counter can disappear between add and incr exactly when the TTL is shorter than two windows |
| `RateLimit.Limiter.IsAllowed` | src/django_event_bus/remote/ratelimit.py:57-93 | allowed exactly when fewer than limit earlier answers went to the same caller in the same aligned window; every call is a piece of a run of the machine |
| `Singletons.StepKeepsInv` | src/django_event_bus/brokers/utils.py:57-80 | every interleaved read, write, lock and unlock keeps: whatever was created is current, closed, or in the hands of the lock holder |
| `Singletons.OneLivePerKey` | src/django_event_bus/remote/transports/grpc.py:72-90 | at every moment at most one object per key is live, and when the lock is free it is the current one |
| `Singletons.ChannelNeverNull` | src/django_event_bus/remote/transports/grpc.py:72-90 | the channel getter returns a channel made for its service, never None, whoever closes meanwhile |
| `Singletons.OneInstance` | src/django_event_bus/brokers/utils.py:57-62 | every getter whose last call was made after the last reset agrees with the one current object of its key |
| `Singletons.CallersShare` | src/django_event_bus/remote/transports/utils.py:78-87 | two callers of a key that called after the last reset get the same object and no other object of the key is live; without any reset it is the only one ever created |
| `Singletons.GetterFindsNothingIff` | src/django_event_bus/brokers/utils.py:58-62 | a getter returns None exactly when a reset took place between its last look and its second read and nobody made a new object for its key after that |
| `Singletons.ResetBetweenReads` | src/django_event_bus/brokers/utils.py:58-80 | a concrete run in which that happens |
| `Singletons.Channels.Channel` | src/django_event_bus/remote/transports/grpc.py:49-90 | returns the known channel of the service or makes and records a new one, as a run of the machine |
| `Singletons.Channels.Close` | src/django_event_bus/remote/transports/grpc.py:144-152 | closes every channel once, forgets all, and leaves no channel ever made unclosed; if closing one raises, the lock is given back and the table kept |
| `LocMem.FanOut` | src/django_event_bus/brokers/locmem.py:38-80 | for every service and type: events yielded so far followed by the queue are, in order, the events of that type published since the service first subscribed, or since the last reset |
| `LocMem.QueuesMatchSubscriptions` | src/django_event_bus/brokers/locmem.py:43-46 | a queue exists exactly for each subscribed type, so publishing never looks up a missing one |
| `LocMem.SubscribedIffListened` | src/django_event_bus/brokers/locmem.py:63-67 | a slot is subscribed exactly when some listen since the last reset named it |
| `LocMem.Hub.Publish` | src/django_event_bus/brokers/locmem.py:38-46 | appends the event to the queue of every service subscribed to its type, once, and to no other |
| `LocMem.Hub.Listen` | src/django_event_bus/brokers/locmem.py:48-67 | adds to the subscription and opens missing queues, keeping what is queued |
| `LocMem.Hub.Round` | src/django_event_bus/brokers/locmem.py:69-80 | one round takes the head of each listened type's queue that has one, in the order of the types, and changes no other queue |
| `LocMem.Hub.Reset` | src/django_event_bus/brokers/locmem.py:95-107 | forgets all subscriptions and queues |

## Left out

- RabbitChannel.Channel.Elsewhere: other services only; several workers of one service are in the machine, but the class follows the only channel of its service.
- RedisRecovery.NeverReplays: entries added between the loss of the group and its recreation are not handed out, as the code accepts.
- RateLimit.Exact: time is counted in integer ticks, not floating-point seconds, and the handler of the missing key is one step, since it is shown to be unreachable.
- RabbitChannel.Channel.Reconnect: requeued messages go to the end of the queue; RabbitMQ may put them elsewhere, and no property here depends on it.
- Singletons.Channels.Channel: a call that is not interrupted; interleavings are the subject of the machine.
- Singletons.Channels.Close: likewise.
- RedisBroker.Broker.ReclaimRound: one stream and one group; the loop over several streams repeats it.
- RedisBroker.Broker.Round: one stream and one group, likewise.
- RedisBroker.Broker.Rounds: likewise, and with every pending entry idle at every reclaim, as the starvation bound supposes.
- KafkaBroker.Turn: the others act while receivers run; between the commands of `ack()` and `fail()` they act in the machine only.
- Round robin over several RabbitMQ queues and the reconnect inside the consuming loop beyond its effect, which is that of a lost channel.
- Sockets, TLS, timeouts, client libraries and their own retries; logging; sleeping between attempts.
- The JSON serializer and the envelope's timestamps; MAXLEN trimming, Kafka retention, cache eviction.
- Django settings, signals, autodiscovery, transaction.on_commit, model field machinery and the descriptor around resolve.
- HTTP transport, resource views, authentication, audit log, gRPC interceptors: short branch chains without shared state.
- load_broker and import_string: creating an object is a step that may raise.
- A publish whose exception hides a write that took effect: in the machines this is a publish, or a late dead-letter write, of its own.
- registry.clear() after invalidators were wired, and consumers of the in-memory broker that outlive a reset.
