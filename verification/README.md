# BabelQueue, modelled and proved

BabelQueue is a message runtime with at-least-once delivery over several brokers: every delivery
is settled by an ack, a retry, a dead-letter, a release, a rewind or a sweep, while workers crash,
handles go stale and writes fail. This project models the parts of it in which that is hard and
proves what they promise, for all inputs and over whole runs. `dafny verify dfyconfig.toml` checks
everything.

How the files belong together:

- `OffsetBook` is the account of one Kafka partition (log, poll position, commit, in flight,
  deferred) as sets of offsets, with the runs of all its steps; `KafkaTransport` is the transport
  with its two lists per queue, each method proved to move every partition as the account says.
- `SortedSet` is a Redis sorted set as a ranked sequence. `RedisLegacy` and `RedisLaravel` take each
  Lua script as one atomic step of any worker at any clock, prove the runs, and hold the
  transports as classes.
- `RetryTopic` names and parses retry topics and follows one record through a retry hop;
  `HeldPartition` is one retry partition of the re-inject consumer with its runs and its timing;
  `RetryReinjector` is the consumer over all its partitions.
- `Settlement` is the settlement of one delivery as a flat decision table and the calls it leads
  to; `Runtime` is the runtime's nested methods, proved to make those calls; `Destinations` says
  where a delivery must go without the table, and that it goes there; `SettlementLaws` is what every
  dispatch keeps. `BoundedDelivery` and `InProcess` are whole runs of the consume loop
  over the in-process transport. `Shutdown` is the consume loop under signals, step by step.
- `Redrive` and `OutboxRows`/`OutboxRelay` are the two drain loops.
- `GdprPaths` and `GdprRoundTrip` are the transformation of sensitive values on paths, `GdprMarks`
  the path strings a schema's marks are printed to and parsed from, `GdprWalk` both together.
- `JsonTree` and `EnvelopeCodec` are the poison rule, decode and encode; `GateRoute` is the Pulsar
  version-gate route. `Helpers` holds the options and the dictionary of lists they share.

State that the source updates in place is a class whose methods are proved against a function on
a snapshot of its state; the invariants and the runs are lemmas about those functions.

Where the code does not do all its documentation says, the model follows the code, and a lemma
says exactly when the promise holds:

- A sweep of the legacy Redis layout strands a reserved empty value for ever
  (`RedisLegacy.SweepStrandsEmptyValues`).
- A Kafka handle that is no longer in flight can still be acked or rewound to. Either can lose a
  record, at once or at a later ack, exactly when it overtakes one still to be polled; only an ack
  whose commit is refused with nothing in flight does no harm then
  (`OffsetBook.StaleAckIsSafeIff`, `OffsetBook.StaleRewindIsSafeIff`).
- With the strategy `dead_letter` alone a message is dropped when its dead-letter write fails and
  its attempts are used up (`SettlementLaws.GivesUpIff`); only `dead_letter=True` excludes that
  (`SettlementLaws.NothingIsDroppedIff`).
- On Redis a dead-letter call whose reservation has lapsed writes nothing and returns, and the
  observer is told of a dead-letter (`SettlementLaws.HearsOfDeadLettersIff`).
- A bad message is meant not to end the consume loop. It does when its dead-letter write fails after
  its last attempt, and when its `attempts` is a JSON null and comes to be read
  (`SettlementLaws.NeverRaisesIff`, `BoundedDelivery.DrainsIff`).
- A dead-letter queue that is the work queue, which an explicit empty suffix makes, takes its messages
  back: the queue need not drain exactly when it holds one that can be buried
  (`BoundedDelivery.DrainsIff`, `BoundedDelivery.EmptySuffixIsSelfBurial`).
- A popped message is neither settled nor released when two signals arrive before `_last_phase` is
  reset, and in seven more places (`Shutdown.NoneIsLeftIff`, `Shutdown.StaleWindowLeavesAMessage`).
- A number such as 1e400 outside `data` passes the poison rule, and the next hop writes the word
  `Infinity` for it, which the core's parser still reads and the poison rule then refuses
  (`EnvelopeCodec.HopIsClean`).
- A marked container with a marked part does not survive protect and unprotect
  (`GdprRoundTrip.RestoresIff`), and the marks of arrays of arrays and of some names lead elsewhere
  and leave their values in clear (`GdprMarks.MarkParsesIff`).
- With a re-injected head that is not due, a due record behind it waits
  (`HeldPartition.NoDueRecordIsLeftIff`), and a partition whose resume fails once it is empty stays
  paused until a restart (`HeldPartition.StuckIff`).

Outside calls become parameters: whether a commit, a seek, a write or an ack succeeds is an oracle
or an argument, clocks and tokens are arguments, handlers and ciphers are functions.

## Model

| member | source | states |
|---|---|---|
| OffsetBook.AckKeeps | src/babelqueue/kafka_transport.py:807-838 | an ack of an in-flight record keeps the partition's account and never moves the commit back: deferred records lie above the lowest in-flight one, everything below it was acked |
| OffsetBook.TightAck | src/babelqueue/kafka_transport.py:816-838 | when the commit is accepted it again reaches the lowest unsettled record, passing nothing but records no delivery was built from |
| OffsetBook.RewindKeeps | src/babelqueue/kafka_transport.py:840-862 | seeking back to an in-flight record and forgetting what follows it keeps the account |
| OffsetBook.AbandonKeeps | src/babelqueue/kafka_transport.py:864-890 | taking back abandoned records keeps the account, also when the seek fails and the partition falls back to its commit |
| OffsetBook.PollKeeps | src/babelqueue/kafka_transport.py:702-791 | a poll keeps the account, whether or not a delivery is built from the record |
| OffsetBook.RunKeeps | src/babelqueue/kafka_transport.py:662-890 | over every run of appends, polls, acks in any order, rewinds, abandoned settlements and crashes: the account holds, commits never go back, and with accepted commits they are never stuck |
| OffsetBook.NothingIsLost | src/babelqueue/kafka_transport.py:807-890 | in every reachable state a record never acked lies at or above the commit and is in flight or ahead of the poll position |
| OffsetBook.UnsettledComesBack | src/babelqueue/kafka_transport.py:840-890 | after a crash, an abandoned settlement or a rewind such a record is at or ahead of the next poll, so it is handed out again |
| OffsetBook.CommitIsExact | src/babelqueue/kafka_transport.py:816-838 | the commit covers exactly the records below the lowest in-flight one; on contiguous offsets the two positions are equal |
| OffsetBook.StaleAckIsSafeIff | src/babelqueue/kafka_transport.py:807-838 | after the ack of a handle that is no longer in flight, whatever the transport goes on to do loses no record, now or later, if and only if the handle's record overtakes none that is still to be polled, or the commit is refused with nothing in flight |
| OffsetBook.StaleRewindIsSafeIff | src/babelqueue/kafka_transport.py:840-862 | after the rewind to such a handle no record is lost, now or later, if and only if the handle's record overtakes none that is still to be polled |
| OffsetBook.LateHandlesAreSafeIff | src/babelqueue/kafka_transport.py:807-862 | over runs with any number of such acks and rewinds between the steps: no record is lost at any time if and only if none of them overtakes one when it comes |
| OffsetBook.AckIsSafe | src/babelqueue/kafka_transport.py:807-838 | an ack of an in-flight record keeps every un-acked record safe also after such acks and rewinds |
| OffsetBook.StaleAckLosesARecord | src/babelqueue/kafka_transport.py:807-838 | and that state is reachable: a rewound handle is acked after all, and the commit passes the record before it |
| KafkaTransport.KafkaTransport.Ack | src/babelqueue/kafka_transport.py:807-838 | for any handle of the queue, in flight or not: the loops over the two lists move the acked partition exactly as the account says, every other partition and queue stays, the record leaves the in-flight list even if the commit is refused |
| KafkaTransport.KafkaTransport.Rewind | src/babelqueue/kafka_transport.py:840-862 | for any handle of the queue, in flight or not: its partition is rewound as the account says, or nothing changed when the seek raises |
| KafkaTransport.KafkaTransport.RewindAbandoned | src/babelqueue/kafka_transport.py:864-890 | every partition of the queue taken back to its own lowest unsettled record, and nothing of the queue in flight afterwards |
| KafkaTransport.KafkaTransport.Pop | src/babelqueue/kafka_transport.py:662-700 | abandoned records taken back, then one poll: no message exactly when no record of the partition that answers is left, else its next one, in flight or undecodable |
| KafkaTransport.KafkaTransport.PopBatch | src/babelqueue/kafka_transport.py:666-700 | the records are taken back once, and each poll hands out the next record of the partition that answers; the batch ends when it is full, when the polls are over, or with a poll that no record answers or that none can be built from, which raises exactly when nothing was taken yet |
| KafkaTransport.KafkaTransport.ForgetFrom | src/babelqueue/kafka_transport.py:850-862 | both lists keep exactly the handles of other partitions and lower offsets |
| KafkaTransport.AckRefines | src/babelqueue/kafka_transport.py:807-838 | the lists computed by an ack, of a handle in flight or not, refine the step of the account on one partition |
| KafkaTransport.AckMoves | src/babelqueue/kafka_transport.py:807-838 | put together over all partitions: the acked one moves, every other one stays |
| KafkaTransport.AnyHandleIsSafeIff | src/babelqueue/kafka_transport.py:807-862 | on the transport's lists, for any handle, in flight or not: when its ack and its rewind lose no record, now or later |
| KafkaTransport.PollRefines | src/babelqueue/kafka_transport.py:702-791 | a tracked record refines the poll of the account |
| KafkaTransport.ForgetRefines | src/babelqueue/kafka_transport.py:840-862 | dropping handles and moving the position refines the rewind |
| KafkaTransport.Floor | src/babelqueue/kafka_transport.py:821-824 | the lowest in-flight offset of one partition, found by a loop over the mixed list |
| KafkaTransport.Split | src/babelqueue/kafka_transport.py:825-834 | the settled handles parted into those the commit may cover and those that wait, nothing lost |
| SortedSet.AddKeepsRank | src/babelqueue/redis_transport.py:181-192 | ZADD keeps the ranking by score then member and holds a member once |
| SortedSet.BytesLessIs | src/babelqueue/redis_transport.py:159-179 | members of one score are ranked by their bytes: a proper prefix first, else by the first byte that differs |
| SortedSet.RangeIsComplete | src/babelqueue/redis_transport.py:159-179 | a range by score that stops before its limit has taken every due member |
| RedisLegacy.RunKeeps | src/babelqueue/redis_transport.py:181-223 | any interleaving of pushes, reservations, settles under any handle and sweeps at any clock and batch keeps the account of values, tokens and the processing list |
| RedisLegacy.Conservation | src/babelqueue/redis_transport.py:181-223 | published values are in the ready list, in processing or settled, with their multiplicities |
| RedisLegacy.OneOutcomePerToken | src/babelqueue/redis_transport.py:194-223 | a reservation token is held or has exactly one outcome, and a late settle under it leaves the whole queue unchanged, even when an identical value is reserved again |
| RedisLegacy.AlwaysMatched | src/babelqueue/redis_transport.py:181-223 | without empty values the processing list and the deadline set always hold the same values |
| RedisLegacy.SweepStrandsEmptyValues | src/babelqueue/redis_transport.py:209-223 | a sweep keeps the two matched if and only if no reservation it takes back holds an empty value |
| RedisLegacy.SweepTakesTheLapsed | src/babelqueue/redis_transport.py:209-223 | a reservation with a deadline ahead, or `+inf`, is never swept; without a limit every lapsed one is |
| RedisLegacy.SweepKeeps | src/babelqueue/redis_transport.py:209-223 | the sweep removes exactly the selected members and counts the values it cannot hand back |
| RedisLegacy.RedisTransport.SweepScript | src/babelqueue/redis_transport.py:209-223 | the loop of the script performs the sweep on its queue and touches no other |
| RedisLegacy.RedisTransport.Pop | src/babelqueue/redis_transport.py:432-479 | sweep, then reserve the head under a fresh token; no sweep takes that reservation before `retry_after` has passed since, any sweep without a limit does from then on and hands the value back, and with recovery off none ever does |
| RedisLegacy.ReservationLasts | src/babelqueue/redis_transport.py:311-316 | and so over every run in which its holder does not settle it and no clock reaches the deadline |
| RedisLegacy.RedisTransport.Settle | src/babelqueue/redis_transport.py:481-496 | gated on the reservation's own member: everything or nothing, over source and target queue |
| RedisLegacy.RedisTransport.DeadLetter | src/babelqueue/redis_transport.py:401-425 | the record is written exactly when the reservation is removed |
| RedisLaravel.RunLosesNothing | src/babelqueue/redis_transport.py:98-179 | in any run with any stale handles, a published job identity stays ready, delayed or reserved until an effective ack or dead-letter |
| RedisLaravel.OrderlyRunKeepsOne | src/babelqueue/redis_transport.py:98-179 | when each job is published once and released only under a live reservation, it is in exactly one place, once |
| RedisLaravel.ReleaseCustody | src/babelqueue/redis_transport.py:137-146 | a release, which is not gated, keeps the copy count if and only if the reservation is live and the body new to the delayed set, or neither |
| RedisLaravel.StepMoves | src/babelqueue/redis_transport.py:98-179 | how each script changes the number of copies of each job |
| RedisLaravel.RunKeepsShape | src/babelqueue/redis_transport.py:98-179 | both sorted sets stay ranked and there is never a wake-up token without a ready job |
| RedisLaravel.MigrateTakesTheDue | src/babelqueue/redis_transport.py:159-179 | the member at a rank moves if and only if it is due and the batch reaches it |
| RedisLaravel.MigrateScript | src/babelqueue/redis_transport.py:159-179 | the range by score and the removal by rank take the same members; they are pushed in order in chunks of 100 with one token each |
| RedisLaravel.LaravelTransport.PopOne | src/babelqueue/redis_transport.py:500-537 | exactly the delayed jobs that are due and in reach of the batch leave the delayed set and, with recovery on, so do the lapsed reservations; all are ready or the job delivered, which is reserved, due again once `retry_after` has passed and never with recovery off |
| RedisLaravel.LaravelTransport.DeadLetter | src/babelqueue/redis_transport.py:148-157 | the record is written exactly when the reservation was removed, and outright for a message without a handle |
| RetryTopic.ParseRetryTopic | src/babelqueue/kafka_retry.py:52-52 | the pattern parses a retry topic back into its work topic and tier, also when the work topic itself contains `.retry.`, if and only if the name is not empty and holds no newline |
| RetryTopic.SubscribedHasTier | src/babelqueue/kafka_retry.py:102-102 | every subscribed topic has a tier, so the branch for one that has none is unreachable |
| RetryTopic.ValidatedTiers | src/babelqueue/kafka_transport.py:154-165 | accepted exactly when every tier is positive and each longer than the one before |
| RetryTopic.TierForDelay | src/babelqueue/kafka_transport.py:573-593 | the first tier that is long enough, or none |
| RetryTopic.RetryHop | src/babelqueue/kafka_retry.py:260-286 | parked by redeliver and moved back, a record returns to its topic with the same key, one more attempt than the body it was consumed with, in the body and in the header, no tier header and its trace headers |
| RetryTopic.NumeralIs | src/babelqueue/kafka_transport.py:145-151 | tiers are numbered in decimal |
| RetryTopic.ParkedOnItsTier | src/babelqueue/kafka_transport.py:595-617 | a record is parked on the tier after the attempts it has had, or on the last one, on the topic of that tier and with its delay in the header |
| RetryTopic.ParkedIsSubscribed | src/babelqueue/kafka_retry.py:102-102 | which is a topic the re-inject consumer of its work topic subscribes to |
| HeldPartition.RunKeeps | src/babelqueue/kafka_retry.py:169-258 | across failed writes, commits, pauses and seeks and across crashes: the deque is the run of records from the commit to the poll position, each record below the commit has a confirmed write, and every write belongs to a record of the log, with the due time of that record |
| HeldPartition.NoWriteIsEarly | src/babelqueue/kafka_retry.py:66-72 | in any run a write comes at or after its due time, which lies between the record's acceptance and one tier later, and at least one tier after a timestamp that was not in the future then |
| HeldPartition.FirstWritesInOrder | src/babelqueue/kafka_retry.py:220-258 | first-time writes come in log order without a gap |
| HeldPartition.DueTimeBounds | src/babelqueue/kafka_retry.py:66-72 | the due time is the timestamp and a tier, no earlier than the acceptance and no later than a tier after it; without a timestamp it is a tier after the acceptance |
| HeldPartition.AcceptTakesTheNext | src/babelqueue/kafka_retry.py:191-207 | a partition that is not paused takes its next record, a paused one takes none |
| HeldPartition.AtMostOneHeld | src/babelqueue/kafka_retry.py:191-258 | as long as pauses and seeks succeed a partition never holds more than the one record it is paused for |
| HeldPartition.RaisesIff | src/babelqueue/kafka_retry.py:229-258 | a pass over one deque raises if and only if it comes to a record whose commit raises or whose seek fails; a failed write that is sought back does not raise |
| HeldPartition.WrittenIs | src/babelqueue/kafka_retry.py:229-258 | it writes the records that are due and done up to the first that is not |
| HeldPartition.ReleaseLeaves | src/babelqueue/kafka_retry.py:229-258 | where it leaves the partition: holding the rest from the record it stopped at, sought back to it and emptied, or emptied and resumed |
| HeldPartition.HeldDuesAreSorted | src/babelqueue/kafka_retry.py:191-207 | with rising timestamps and a clock that does not run back, the held due times are sorted |
| HeldPartition.NoDueRecordIsLeftIff | src/babelqueue/kafka_retry.py:220-258 | a pass whose attempts succeed leaves no due record behind if and only if no held record that is not due stands before one that is |
| HeldPartition.NoDueRecordIsLeft | src/babelqueue/kafka_retry.py:220-258 | so gating on the head delays nothing in any run with rising timestamps and clock |
| HeldPartition.HeadCanDelayADueRecord | src/babelqueue/kafka_retry.py:220-258 | without rising timestamps a run leads to a state in which it delays one |
| HeldPartition.StuckIff | src/babelqueue/kafka_retry.py:200-258 | a partition ends up paused with nothing held, so that it is never polled or released again, if and only if a pass emptied it, the resume of that pass failed, and there was no restart since |
| HeldPartition.NeverStuckPaused | src/babelqueue/kafka_retry.py:200-258 | so a partition is paused only while it holds a record, as long as resume calls succeed |
| HeldPartition.WrittenMovesTheCommit | src/babelqueue/kafka_retry.py:220-258 | the commit of a partition moves by the number of records a pass wrote and committed |
| RetryReinjector.PassIsPartitionwise | src/babelqueue/kafka_retry.py:220-258 | a pass over all partitions moves exactly those it gets to, each by its own release |
| RetryReinjector.ReachedIff | src/babelqueue/kafka_retry.py:229-258 | a partition is gotten to if and only if none listed before it comes to a record whose commit raises or whose seek fails |
| RetryReinjector.PassRaisesIff | src/babelqueue/kafka_retry.py:229-258 | and the pass raises if and only if one of them does |
| RetryReinjector.EveryListedIsReleased | src/babelqueue/kafka_retry.py:229-258 | when none does, every listed partition is released, whatever writes fail elsewhere |
| RetryReinjector.PassKeepsOne | src/babelqueue/kafka_retry.py:220-258 | the account of every partition survives a pass, and its commit moves by the records written |
| RetryReinjector.ConsumerRefines | src/babelqueue/kafka_retry.py:83-258 | over every run of the whole consumer, with arrivals, passes in any order, raising calls and restarts: each partition goes through a run of its own, and every account holds |
| RetryReinjector.ConsumerIsNeverEarly | src/babelqueue/kafka_retry.py:66-258 | a consumer subscribed to the tier topics of its work topics never writes a record before its acceptance, nor less than the tier of its topic after a timestamp that was not in the future then |
| RetryReinjector.ReleaseHeld | src/babelqueue/kafka_retry.py:230-251 | the loop over one deque performs the release and counts what it wrote |
| RetryReinjector.PollWait | src/babelqueue/kafka_retry.py:169-180 | the poll never waits past the nearest due record, and waits as long as that allows |
| RetryReinjector.RetryReinjector.AcceptNext | src/babelqueue/kafka_retry.py:191-207 | the record joins the deque of its partition with its due time, every other deque stays |
| RetryReinjector.RetryReinjector.ReleaseDue | src/babelqueue/kafka_retry.py:220-258 | the loops over dictionary and deques perform the pass, up to the first commit or seek that raises |
| RetryReinjector.RestartKeeps | src/babelqueue/kafka_retry.py:83-116 | a restart drops the deques and falls back to the commits, and the accounts hold |
| Runtime.Runtime.Dispatch | src/babelqueue/app.py:384-468 | the nested methods make exactly the calls of the flat decision table, in order, and raise exactly when it says, null attempts included |
| Runtime.Runtime.RouteUnknown | src/babelqueue/app.py:779-829 | the routing of a delivery without a handler, in the order of the source's branches |
| Runtime.Runtime.RoutePoison | src/babelqueue/app.py:831-865 | a Kafka poison record: drop, dead-letter, degrade to drop without tiers, or bounded retry |
| Runtime.Runtime.RouteBodyPoison | src/babelqueue/app.py:867-910 | a poison body on the other transports |
| Runtime.Runtime.RetryOrDeadLetter | src/babelqueue/app.py:1004-1028 | one more attempt, or the dead-letter queue, or dropped |
| Runtime.Runtime.GiveItBack | src/babelqueue/app.py:552-563 | native redelivery, or a normalised re-publish and then the ack |
| SettlementLaws.DispatchIsLawful | src/babelqueue/app.py:384-468 | under any faults, configuration and capabilities at most one call settles the delivery, and the observer hears of each dead-letter call that returned exactly once, after it, under its queue, and of nothing else |
| SettlementLaws.HearsOfDeadLettersIff | src/babelqueue/app.py:572-611 | an observer hears of nothing but written dead-letters, whatever the delivery and however its calls end, if and only if the transport has no dead-letter call of its own |
| SettlementLaws.SuccessIsAcked | src/babelqueue/app.py:424-466 | a handler that returns is followed by the ack and nothing else |
| SettlementLaws.GivesUpIff | src/babelqueue/app.py:779-1028 | an ack that follows neither a handler that returned nor a confirmed write happens exactly in the drops listed by configuration, capabilities, delivery and failed calls: the strategy `delete`, a gated delivery or Kafka poison that can be neither kept nor left nor retried, and the last attempt without a dead-letter queue |
| Destinations.GoesIff | src/babelqueue/app.py:779-1028 | a delivery is left to the native mechanism, a dead-letter write is tried, a return to the queue is tried and what the transport refused is abandoned, each if and only if rules on configuration, capabilities, delivery and failed calls say so |
| Destinations.CallsFit | src/babelqueue/app.py:552-1028 | what each call says: the record, block, reason, source and queue of a burial, the bytes or the counted envelope of a return, the reason of a native settle and of a notice |
| Destinations.ReadAs | src/babelqueue/app.py:384-425 | a routing URN beside the body wins and makes up for a missing identity; without it a body with none is poison; a poison body has had as many attempts as the transport or the body counts |
| Destinations.SourceIs | src/babelqueue/app.py:1037-1037 | a message comes from the queue it names itself, or else from the one it was taken from |
| Destinations.TargetIs | src/babelqueue/app.py:952-961 | the dead-letter queue is the one named, else the transport's name for it, else the queue with its suffix, `.dlq` by default |
| SettlementLaws.NothingIsDroppedIff | src/babelqueue/app.py:779-1028 | no delivery is ever given up, however its calls end, if and only if dead-lettering is on and the strategy is not `delete` |
| SettlementLaws.HandledIff | src/babelqueue/app.py:398-425 | a handler runs exactly for a delivery that is neither gated nor poison and whose routing URN is mapped, first and once |
| SettlementLaws.DispatchEndsWell | src/babelqueue/app.py:426-468 | a settled delivery is never taken back as well; an unsettled one is left to the native mechanism, rewound where possible, or its exception ends the loop |
| SettlementLaws.NeverRaisesIff | src/babelqueue/app.py:384-468 | no exception leaves the dispatch of a delivery, however its handler and its calls end, if and only if it is reserved or poison, cannot fail, or has readable attempts and either some left or no dead-letter queue to go to |
| SettlementLaws.DispatchCarries | src/babelqueue/app.py:552-595 | every write carries the delivery's own body or envelope, with the attempts as they were or one more; only a retried poison body is replaced by the bare count |
| BoundedDelivery.TurnRetries | src/babelqueue/app.py:1004-1020 | a retry goes back to its queue with exactly one less delivery left |
| BoundedDelivery.TurnEndsAs | src/babelqueue/app.py:298-370 | how a turn ends its message, and the record that joins the dead-letter queue, are those of the rules |
| BoundedDelivery.RunIsBounded | src/babelqueue/app.py:298-370 | total deliveries are at most the sum of max(1, max_attempts - attempts), poison included, no message is lost or doubled on the way, and only null attempts end the loop early |
| BoundedDelivery.RunDrains | src/babelqueue/app.py:298-370 | the run drains and every message ends exactly once: handled, dropped, or in the dead-letter queue, which holds exactly the buried ones |
| BoundedDelivery.DrainsIff | src/babelqueue/app.py:812-825 | for every configuration, a queue drains whatever the handlers do if and only if it holds no message that is released verbatim, none that is buried in the queue it came from, and none whose null attempts a turn can come to read |
| BoundedDelivery.NullEndsTheLoop | src/babelqueue/app.py:1004-1010 | the turn that reads null attempts takes its message off the queue and ends the loop, and nothing else is delivered |
| BoundedDelivery.SelfBurialNeverDrains | src/babelqueue/app.py:952-961 | when every message is released verbatim or buried where it came from, none ever leaves, unless null attempts end the loop: not while the handlers fail, and whatever they do when no message has one |
| BoundedDelivery.EmptySuffixIsSelfBurial | src/babelqueue/app.py:952-961 | the dead-letter queue is the work queue if and only if it is named so, or nothing is named and the suffix is explicitly empty |
| InProcess.InMemoryTransport.Pop | src/babelqueue/transport.py:351-357 | each queue is first in first out and a body keeps its own headers in the parallel deque |
| InProcess.InMemoryTransport.PublishWithHeaders | src/babelqueue/transport.py:347-349 | body and headers join the ends of their deques together, other queues stay |
| InProcess.InMemoryTransport.ConsumeQueue | src/babelqueue/app.py:298-370 | the consume loop over the in-process transport performs the run, up to its limit or an empty queue, and writes only to its queue and the dead-letter queue |
| Shutdown.NeverBoth | src/babelqueue/app.py:334-370 | wherever signals, the deadline and stops arrive: a message whose settlement started is never released as well, and none is released twice |
| Shutdown.NoneIsLeftIff | src/babelqueue/app.py:334-370 | when the loop has ended, every popped message is settled or released, not both, if and only if the last exception did not hit one of eight steps in the way that leaves its message behind |
| Shutdown.SettlingIsNotInterrupted | src/babelqueue/app.py:492-534 | in any run no signal and no deadline interrupts a settlement; the first signal interrupts nothing before the deadline unless there is none to wait for; the forced exit takes a second one |
| Shutdown.HandlerIsInterrupted | src/babelqueue/app.py:492-534 | the first signal during a handler stops the loop and arms the deadline, or interrupts it where there is none to wait for; the deadline and a second signal do interrupt it |
| Shutdown.InterruptedIsReleased | src/babelqueue/app.py:334-370 | and then the message is released and the loop ends |
| Shutdown.NothingIsHandledAfterStop | src/babelqueue/app.py:334-352 | once stopped between two messages no dispatch begins any more, wherever signals arrive |
| Shutdown.HandedBack | src/babelqueue/app.py:341-347 | a message popped after the stop is handed back and the loop ends |
| Shutdown.CleanShutdown | src/babelqueue/app.py:492-534 | with at most one signal, its deadline included, every popped message is settled or released, not both, unless its body could not be read |
| Shutdown.StaleWindowLeavesAMessage | src/babelqueue/app.py:341-347 | two signals before `_last_phase` is reset leave the second message neither settled nor released |
| Redrive.NormalReturn | src/babelqueue/redrive.py:77-167 | on a normal return each queue has the copies of exactly its messages at its end, in order, every message is acknowledged, and nothing else changed, also when the target is the dead-letter queue |
| Redrive.OnRaise | src/babelqueue/redrive.py:104-166 | when a call raises at the n-th message, those before it are copied and acknowledged, those after it untouched and un-acknowledged |
| Redrive.GoesWhere | src/babelqueue/redrive.py:104-166 | a message goes back as it is when the run is dry or it is poison or not selected, else to the named queue or the one it came from, reset |
| Redrive.DryRunRestores | src/babelqueue/redrive.py:144-148 | a dry run that returns normally puts every message back at the end of the dead-letter queue, unchanged and in order, and changes no other queue |
| Redrive.FailedReplayIsRestored | src/babelqueue/redrive.py:156-163 | a replay whose write fails is restored to the dead-letter queue and acknowledged, and the failure surfaces |
| Redrive.RunKeeps | src/babelqueue/redrive.py:104-166 | however the calls end, every message is still un-acknowledged or has a copy in a queue |
| Redrive.DeadLetterThenRedrive | src/babelqueue/redrive.py:104-186 | the record of any annotated dead-letter write a dispatch makes, for whatever reason, redriven: with a string `job` the message goes to the queue it came from, as it was delivered but with attempts 0 and no block; without one the record goes back to the dead-letter queue as it is |
| Redrive.Redriver.Drain | src/babelqueue/redrive.py:88-100 | exactly the first `max` messages are popped, once each, before any is processed |
| Redrive.Redriver.Redrive | src/babelqueue/redrive.py:77-167 | the loop performs the run; one counter is the messages replayed, the two add up to those finished |
| OutboxRows.DrainSendsTheReach | src/babelqueue/outbox.py:259-279 | drain sends exactly the rows with fewer than a batch of failing rows ahead of them that do not fail themselves, once each, byte for byte, in the order of saving; with fewer passes a part of them |
| OutboxRows.ReachIsOfRows | src/babelqueue/outbox.py:234-279 | what drain can send is the queue and body of each pending row that does not fail and has fewer than a batch of failing rows ahead |
| OutboxRows.PublishedIff | src/babelqueue/outbox.py:234-279 | a pending row ends published if and only if it does not fail and fewer than a batch of failing rows are ahead of it |
| OutboxRows.DrainSettles | src/babelqueue/outbox.py:259-279 | the rows published by a drain with enough passes are those and no others |
| OutboxRows.PassesAreBounded | src/babelqueue/outbox.py:259-279 | the passes are at most one more than the rows sent |
| OutboxRows.DrainTallies | src/babelqueue/outbox.py:259-279 | the tallies are the drop in pending rows and the rise of the attempt counts |
| OutboxRelay.InMemoryOutboxStore.FetchUnpublished | src/babelqueue/outbox.py:326-334 | the oldest pending rows, as many as there are up to the limit, and one row even for a limit below 1 |
| OutboxRelay.InMemoryOutboxStore.MarkPublished | src/babelqueue/outbox.py:336-340 | exactly the named rows become published |
| OutboxRelay.OutboxRelay.Flush | src/babelqueue/outbox.py:234-257 | the loop over the batch performs the pass and counts it |
| OutboxRelay.OutboxRelay.Drain | src/babelqueue/outbox.py:259-279 | the loop of passes performs the drain, with 10000 as its own ceiling: with no more rows to send than passes allowed it sends them all |
| OutboxRelay.PassIsTouched | src/babelqueue/outbox.py:240-257 | recording failures one by one and marking the published ids at the end is the pass row by row |
| GdprPaths.Commute | src/babelqueue/gdpr.py:183-216 | operations at paths that are not nested commute, raising included |
| GdprPaths.UndoneAtPath | src/babelqueue/gdpr.py:183-216 | at one path, an inverse operation restores the document |
| GdprPaths.ApplyByLocation | src/babelqueue/gdpr.py:183-216 | every location is accounted for: rewritten by the operation where the path ends, unchanged where the path does not pass |
| GdprPaths.RaisesIff | src/babelqueue/gdpr.py:183-216 | an operation at a path raises if and only if it does at a location the path leads to; a path that leads nowhere raises nothing |
| GdprRoundTrip.ProtectThenUnprotect | src/babelqueue/gdpr.py:116-149 | unprotect after protect gives the document back, whatever nonces were drawn, when no path is nested in another |
| GdprRoundTrip.RestoresIff | src/babelqueue/gdpr.py:116-149 | for distinct paths in any order, every document comes back if and only if no path is nested in another |
| GdprRoundTrip.ProtectByLocation | src/babelqueue/gdpr.py:116-131 | after protect, what no marked path passes is as it was, and the value at the end of every marked path is the ciphertext of what stood there |
| GdprRoundTrip.UnprotectByLocation | src/babelqueue/gdpr.py:134-149 | after unprotect, what no marked path passes is as it was, and at the end of every marked path stands what its ciphertext opens to |
| GdprRoundTrip.ListRaisesIff | src/babelqueue/gdpr.py:116-160 | a list raises if and only if one of its operations does at a location its path leads to in the document as it was |
| GdprRoundTrip.OrderIsIrrelevant | src/babelqueue/schema.py:292-304 | without nesting the order of the paths does not matter, raising included and each path with its own operation, so neither does sorting |
| GdprRoundTrip.ContainerFirst | src/babelqueue/gdpr.py:219-245 | a marked container before a marked part: the part is opened as if it were a ciphertext, and that raises |
| GdprMarks.PrintedParsesIff | src/babelqueue/gdpr.py:168-180 | a printed path parses back into its steps if and only if every array stands under a key, no name holds a dot, a name that ends in brackets leads to an array, and an empty name that comes first does too |
| GdprMarks.MarkParsesIff | src/babelqueue/schema.py:307-319 | the path string collected for a mark leads where the mark stands if and only if its path is of that kind |
| GdprMarks.CollectedIff | src/babelqueue/schema.py:307-319 | exactly the marked nodes that properties and array items lead to are collected, each under the print of its path |
| GdprMarks.NestedArraysAreLost | src/babelqueue/gdpr.py:174-180 | the mark of an array of arrays is not: it leads to a key that ends in brackets |
| GdprWalk.ApplyAtPath | src/babelqueue/gdpr.py:183-216 | the recursion over segments performs the transformation at the path |
| GdprWalk.ApplyAtElements | src/babelqueue/gdpr.py:199-208 | the loop over the elements of an array |
| GdprWalk.Document.Walk | src/babelqueue/gdpr.py:152-160 | the document is rewritten path by path, up to the first that raises |
| GdprWalk.WalkThereAndBack | src/babelqueue/gdpr.py:116-160 | the round trip on path strings, a mark on the root skipped |
| GdprWalk.SchemaRoundTrip | src/babelqueue/gdpr.py:116-160 | for any schema whose marks lead where they stand and are not nested, any document and any order of the collected strings: sealing at every path and then unsealing gives the document back |
| GdprWalk.WalkByLocation | src/babelqueue/gdpr.py:152-160 | for such a schema, a walk over its strings leaves what no mark leads to as it was, and where a mark leads stands what the operation of its string makes of the value there |
| GdprWalk.EveryMarkIsSealed | src/babelqueue/gdpr.py:116-131 | so protect leaves a ciphertext at every mark |
| GdprWalk.EveryMarkIsOpened | src/babelqueue/gdpr.py:134-149 | and unprotect what it opens to |
| JsonTree.AllNumbersFinite | src/babelqueue/_envelope_shape.py:98-108 | the loop over an explicit stack decides whether every number in the tree is finite |
| JsonTree.LoadIsProper | src/babelqueue/codec.py:109-115 | parsing leaves no repeated member at any depth |
| JsonTree.LastWins | src/babelqueue/codec.py:109-115 | a parsed object keeps every member, and the last value of a repeated one wins |
| EnvelopeCodec.HopIsClean | src/babelqueue/codec.py:247-345 | a body that is no poison decodes, encodes after its attempts are set, and is poison afterwards if and only if the document holds a number that is not finite |
| EnvelopeCodec.HopsAreClean | src/babelqueue/codec.py:247-345 | any number of decode, set attempts, encode hops: never refused, never poison, the first decode with the last count |
| EnvelopeCodec.HopKeepsMembers | src/babelqueue/codec.py:118-133 | the identity and every member but the attempts, the alias and the forbidden keys come through |
| EnvelopeCodec.HopKeepsMeta | src/babelqueue/codec.py:48-64 | every member of `meta` that is not forbidden comes through a hop |
| EnvelopeCodec.InfinityTurnsPoison | src/babelqueue/_envelope_shape.py:85-108 | a document family that is no poison and is poison after one hop |
| EnvelopeCodec.PoisonIff | src/babelqueue/_envelope_shape.py:68-142 | a body is poison for its structure if and only if it is no object, holds NaN or Infinity, or an occurrence of a known member has the wrong type, member by member |
| EnvelopeCodec.NamelessIff | src/babelqueue/codec.py:312-345 | and for its identity if and only if neither `job` nor `urn` is, last, a string that is not blank |
| EnvelopeCodec.OrdinaryIsNoPoison | src/babelqueue/_envelope_shape.py:68-142 | an envelope as the producers write it is no poison |
| EnvelopeCodec.EncodeRefusesIff | src/babelqueue/codec.py:48-64 | encode raises if and only if the dictionary holds the alias or one of the five forbidden keys |
| EnvelopeCodec.FoldKeepsUrn | src/babelqueue/codec.py:118-133 | the identity of a body is that of its decode, in `job`, and the alias is gone |
| EnvelopeCodec.FoldDropsByName | src/babelqueue/codec.py:48-64 | no forbidden key is left, at the top or in `meta`, by their names |
| EnvelopeCodec.TopOkLoads | src/babelqueue/_envelope_shape.py:111-142 | a document whose every occurrence of a member is well typed decodes into a well typed dictionary |
| EnvelopeCodec.EnvelopeDict.StripForbiddenKeys | src/babelqueue/codec.py:48-64 | the loop over the forbidden keys strips them and reports exactly those the envelope carried |
| EnvelopeCodec.EnvelopeDict.FoldIdentity | src/babelqueue/codec.py:118-133 | the in-place normalisation is the decode |
| GateRoute.QuoteRoundTrip | src/babelqueue/pulsar_transport.py:79-88 | unquoting undoes quoting, and what is quoted holds no question mark |
| GateRoute.QuoteIs | src/babelqueue/pulsar_transport.py:79-88 | which characters stand for themselves and how the others are written |
| GateRoute.ParsePrint | src/babelqueue/pulsar_transport.py:79-97 | parsing a printed gate route gives back the exact version and job |
| GateRoute.GatedIff | src/babelqueue/pulsar_transport.py:216-230 | a message is gated if and only if it declares a version that is neither blank nor the supported one |
| GateRoute.PlainRouteIsTheJob | src/babelqueue/pulsar_transport.py:177-214 | any other route is the job a message is published under, and changes nothing else |
| GateRoute.GatedAgain | src/babelqueue/pulsar_transport.py:177-230 | re-published under its route a gated message is gated again with the same version |
| GateRoute.RouteIsFixed | src/babelqueue/pulsar_transport.py:177-230 | however often it is re-published, it stays gated under one route from the first time on |
| GateRoute.RouteStaysIff | src/babelqueue/pulsar_transport.py:177-197 | the first re-publication leaves the route as it was if and only if the delivery had a job or the body names none |

## Left out

- Broker clients, connections, URL parsing, blocking, sleeping and `close`: plumbing; one turn of each polling loop is modelled.
- The SQS, Azure Service Bus, Artemis and RabbitMQ transports: only their capability flags appear, in `Settlement`.
- Text of JSON, UTF-8, base64 and the cipher: documents are trees and encryption is any function with a left inverse. Strings hold no lone surrogates, and a document with an integer the core parser rejects for its length counts as unparsable.
- The poison record of `_poison_record.py`: it is an opaque value that keeps the body.
- Logging, spans, metrics, header sanitising, idempotency, `retry_delay`, `validate_schema` and the timestamps of `dead_letter.annotate`: settled by reading them.
- Redis framing of values with headers: stored values are plain strings. Key spaces of different queues do not overlap.
- KafkaTransport.KafkaTransport.Ack: the transport's whole invariant is promised for handles in flight only; what any other handle does to the records of its partition, now and later, is `KafkaTransport.AnyHandleIsSafeIff`. Two queues never share a partition. The equality of commit and lowest in-flight position is stated for accepted commits and contiguous offsets, and for logs with gaps as an equality of the records covered.
- RedisLaravel.RunLosesNothing: claims are by job identity. Members of the sorted sets that are equal collapse, and a released body must belong to the job of its handle.
- Runtime.Runtime.Dispatch: an envelope's `attempts` is an integer or null, as the poison rule has it; other types, which only a poison body has, are not told apart. Members other than identity, attempts and queue are one opaque value, and the poison verdict is part of the delivery (`EnvelopeCodec` has the rule itself).
- InProcess.InMemoryTransport.ConsumeQueue: a limit on the messages is always given; without one the loop polls an empty queue for ever.
- Shutdown.NeverBoth: signals arrive between the listed steps, one at a time, and installing and restoring the handlers is not a step. A handler that itself swallows the interrupt is not modelled.
- RetryReinjector.RetryReinjector.AcceptNext: the branch for a topic without a tier is not code here, since `RetryTopic.SubscribedHasTier` shows that it is never taken. Positions count records, so gaps in offsets play no role, and times are real milliseconds.
- Redrive.Redriver.Redrive: a pop never raises, and deliveries in the dead-letter queue have distinct tags. The per-message report is not modelled beyond its two counters, and route and key are carried by the transport's own publish.
- OutboxRows.DrainSendsTheReach: a row either always fails or never does. The backoff sleeps are not modelled.
- GdprWalk.Document.Walk: values are immutable trees, so a document whose parts are shared, and the half-changed document after a raise, are not modelled. Paths are not sorted, since their order does not matter.
- GateRoute.ParsePrint: text stands for its UTF-8 bytes; `bq-attempts` and the other properties of the projection are opaque.
