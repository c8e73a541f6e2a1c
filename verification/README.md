# A verified model of PerfTest's protocols

PerfTest drives RabbitMQ over AMQP 0-9-1. This project models the parts of it that decide
something by themselves, and proves what they promise:

- the **publisher confirm window** (`ConfirmWindow.dfy`, `RecoveryPlacement.dfy`, `AgentWrites.dfy`,
  `Producers.dfy`): a pool of permits, a map of unconfirmed numbers, a publishing thread, a confirm callback
  and connection recoveries, which can overlap, interleaved at the grain of their reads and writes; then the
  producer object itself, its run loop and its final wait;
- the **consumer's acknowledgements** (`Consumers.dfy`): acks every A messages, commits every T, a broker
  that settles and gates deliveries, the flush before exit; and the re-subscription chain
  (`Resubscription.dfy`);
- the **topology** (`Topology.dfy`): the cursor that hands out queues and routing keys, the layout of
  consumers and producers, the connections shared by exclusive queues;
- the **end and the start of a run** (`Completion.dfy`, `BrokerStartUp.dfy`);
- the JSON bodies (`JsonBodies.dfy`, with a parser in `Json.dfy`), the shutdown callbacks
  (`ShutdownServices.dfy`) and the byte capacities (`ByteCapacities.dfy`).

`Arithmetic.dfy`, `Gcds.dfy`, `Sequences.dfy` and `Wrappers.dfy` hold what several of them need. Objects that the source updates in place are classes
whose methods are proved against a function on values, or against the steps of a step system; the
theorems are about those functions and steps, over all runs.

`dafny verify dfyconfig.toml` checks everything.

## What the environment is trusted for

Foreign code appears only through these assumptions.

- *Confirms* (`ConfirmWindow.Contract`). A single confirm is for a number that the broker received and has
  not confirmed yet; a multiple one is for a number already published. `SingleConfirmExact` shows that the
  first is needed.
- *Where a recovery lands* (`ConfirmWindow.Contract`). It does not renumber the channel between the `acquire`
  and the end of the write of one publish, or while a confirm callback is in progress; no permit is acquired
  while a recovery handler has not read the pool yet; and no handler reads it while another one has not given
  back what it found missing. A loss of the link during a recovery is allowed, so several handlers can be
  under way. `RefillExact` drops these assumptions and says exactly what a refill needs;
  `RecoveryBetweenAcquireAndPut`, `RecoveryDuringConfirm` and `OverlappingRefills` are runs where it fails.
  The guard at the top of `handlePublish` keeps a publisher out for one recovery at a time only (`GuardExact`).
- *The channel.* It numbers publishes from 1 after each recovery. A write that fails means that the link
  is lost; whether the failed write used up its number is left open. A consumer's delivery tags go on
  upwards across recoveries, and unacked deliveries do not survive one.
- *basic.ack* with `multiple` settles every tag up to and including the given one (section 1.8.3.13 of the
  AMQP 0-9-1 reference); on a transactional channel it takes effect at the next commit. A delivery counts
  against the consumer's and the channel's prefetch until it is settled; a consumer reads one queue, on a
  channel of its own. The exchange of the topology theorems routes by equality of keys.
- *Queues.* The broker keeps the names of the queues it is asked for, none of them empty, and they are bound:
  the exchange is not the default one and the binding is not skipped.
- *Clocks, random draws, broker answers, existence checks and write outcomes* are arbitrary functions. The
  start-up clock advances by a second at least per round, which is what the sleep is for.

## Where the code does less than it seems to

Each of these is a lemma with the exact condition.

- A recovery that renumbers the channel inside a publish or inside a confirm callback, or that refills the
  pool at the same time as another one, can leave the pool with permits too many or too few: `RefillExact`.
  Too few are made up by a later refill that finds nothing held. Too many are not: the refill then releases
  a negative number, which throws before the in-progress flag is lowered, and the producer stays behind its
  guard (`GuardExact`, and a run in `ExcessJamsTheProducer`).
- With two overlapping recoveries the handler of the first lowers the in-progress flag that the second has
  raised, and the publisher gets in before the second refill: `GuardExact`, and a run in `FlagLoweredLate`.
- A single nack of a number that is not in the map throws, on unboxing its timestamp; a single ack of one
  releases a permit: `ProcessNack`, `SingleConfirmExact`, and a state in `UnknownAckAddsPermit`.
- Entries that a recovery leaves in `unconfirmed` are only removed by being overwritten, so the final wait
  uses up its whole timeout, although every confirm has come, if one of them has not been overtaken:
  `MapEmptiesExactlyWhenOverrun`, `FinalWaitExact`, and a run in `WaitInVain`.
- `validateMultiAckEveryQos` looks at the consumer's prefetch alone: without transactions and with options
  that are not negative it errs exactly when it accepts and the channel's prefetch is positive and below A
  (`ValidationExact`, `ValidationIgnoresChannelPrefetch`); it errs on some negative options
  (`ValidationErrsOnNegatives`); and it does not look at the transaction size, with which A + T - gcd(A, T)
  is the least prefetch that never stalls (`NeverStallsExactly`, `ValidationIgnoresTransactions`).
- The exit flush is skipped when the last processed message was acked, so acks since the last commit are then not
  committed (`ExitFlushSettles`, and a run in `ExitFlushSkipsCommit`); and it does not record its own ack, so
  a second check sends it again exactly when the first one did (`SecondFlushRepeatsTheAck`, and a run in
  `SecondFlushHappens`).
- `ByteCapacity.from("007").toString()` is `7`, and a size that overflows a long is not refused
  (`AcceptedTexts`, `LeadingZerosAreLost`, `SizeWraps`).
- The milliseconds of the confirm timeout are computed on an int (`MostRounds`, `TimeoutOverflows`).

## Model

| member | source | states |
|---|---|---|
| ConfirmWindow.StepKeepsInv | src/main/java/com/rabbitmq/perf/Producer.java:320-386 | every step of the publisher, the confirm callback or recovery keeps the window's invariant |
| ConfirmWindow.WindowConserved | src/main/java/com/rabbitmq/perf/Producer.java:591-681 | in every run, with any number of recoveries, also interrupted ones, and swallowed write errors: permits, what a refill is about to give back, publishes in hand, outstanding numbers, pending releases and leaked permits add up to the limit; while a handler has still to read the pool nothing else holds a permit; leaks only exist while the link is down |
| ConfirmWindow.PermitsMirrorOwedConfirms | src/main/java/com/rabbitmq/perf/Producer.java:591-603 | on a live link, missing permits are exactly the confirms the broker owes for this epoch, so the producer waits or times out only behind a full window |
| ConfirmWindow.ConfirmedNumberIsKnown | src/main/java/com/rabbitmq/perf/Producer.java:379-382 | a single confirm always finds its timestamp, from this epoch: nothing null is unboxed |
| ConfirmWindow.VisitStaysInBounds | src/main/java/com/rabbitmq/perf/Producer.java:338-348 | with puts in between, the latencies array is never indexed past its end |
| ConfirmWindow.MultipleConfirmSettlesThisEpoch | src/main/java/com/rabbitmq/perf/Producer.java:338-349 | size, iteration and clear see the same entries: exactly this epoch's outstanding numbers up to the confirmed one, never a left-over |
| ConfirmWindow.PublishesAccountedFor | src/main/java/com/rabbitmq/perf/Producer.java:334-386 | publishes = confirmed + nacked + outstanding + abandoned; as many distinct (epoch, number) pairs are reported as are counted |
| ConfirmWindow.EntryIsItsPublish | src/main/java/com/rabbitmq/perf/Producer.java:628-632 | over all runs every entry of the map holds the timestamp and the epoch of the last publish under its number |
| ConfirmWindow.SwallowedWriteRecovered | src/main/java/com/rabbitmq/perf/Producer.java:559-571 | a run where a write fails on a lost socket, the producer goes on, and the recovery makes up for the permit |
| ConfirmWindow.FullWindowGivesUp | src/main/java/com/rabbitmq/perf/Producer.java:591-603 | a run into a full window: no permit can be acquired, and a publisher that gives up stops for good |
| Producers.Producer.constructor | src/main/java/com/rabbitmq/perf/Producer.java:136-146 | a producer with confirms starts with a full pool and an empty map, a state from which the theorems speak |
| AgentWrites.Propagates | src/main/java/com/rabbitmq/perf/AgentBase.java:63-103 | a failed write reaches the caller if and only if it is neither a socket failure nor a shutdown, or it is a shutdown that recovery does not follow, or recovery is off |
| ConfirmWindow.SingleConfirmExact | src/main/java/com/rabbitmq/perf/Producer.java:350-382 | a single confirm keeps the count of permits right if and only if its number was outstanding, or it is a nack that throws |
| ConfirmWindow.UnknownAckAddsPermit | src/main/java/com/rabbitmq/perf/Producer.java:350-361 | a single ack of an unknown number adds a permit to a full pool |
| RecoveryPlacement.RefillExact | src/main/java/com/rabbitmq/perf/Producer.java:669-681 | over all runs, wherever recoveries land, the refill being two steps: the window is right in every later run if and only if, when the refill reads the pool, it holds no more than the limit, nothing is in hand, current, owed, being released or being given back, and no confirm callback from before the renumbering is in its loop |
| RecoveryPlacement.RecoveryBetweenAcquireAndPut | src/main/java/com/rabbitmq/perf/Producer.java:559-571 | a run where a recovery lands between acquire and put: two confirms owed in a window of one |
| RecoveryPlacement.RecoveryDuringConfirm | src/main/java/com/rabbitmq/perf/Producer.java:338-349 | a run where a recovery lands in the loop of a multiple ack: the refill looks right, and the pool ends with two permits for a limit of one |
| RecoveryPlacement.OverlappingRefills | src/main/java/com/rabbitmq/perf/Producer.java:674-675 | two recoveries that both read the pool before either gives back: a permit too many |
| RecoveryPlacement.GuardExact | src/main/java/com/rabbitmq/perf/Recovery.java:78-106 | without another renumbering, a publisher outside handlePublish can get in before the last refill has read the pool if and only if the flag is down or some other handler will lower it; and it can get in at all if and only if that holds or a refill is owed that will not throw |
| RecoveryPlacement.NeverRecovers | src/main/java/com/rabbitmq/perf/Recovery.java:48-111 | without recovery the flag stays down and the channel is never renumbered |
| RecoveryPlacement.FlagLoweredLate | src/main/java/com/rabbitmq/perf/Recovery.java:84-105 | a run with two recoveries where that happens: two confirms owed in a window of one |
| RecoveryPlacement.ExcessJamsTheProducer | src/main/java/com/rabbitmq/perf/Recovery.java:84-97 | a run where a pool with a permit too many keeps the producer out for good after the next recovery |
| ConfirmWindow.MapEmptiesExactlyWhenOverrun | src/main/java/com/rabbitmq/perf/Producer.java:454-465 | after a recovery, with all confirms received, the map is empty if and only if the numbers used since have passed every number outstanding at the recovery |
| ConfirmWindow.StaleEntryOutlivesItsEpoch | src/main/java/com/rabbitmq/perf/Producer.java:665-681 | a run that ends with nothing owed, a full pool and a map that is not empty |
| Producers.Producer.ProcessAck | src/main/java/com/rabbitmq/perf/Producer.java:334-364 | removes exactly the settled numbers, counts them, and returns their latencies in ascending order of number |
| Producers.Producer.WalkHead | src/main/java/com/rabbitmq/perf/Producer.java:339-348 | the loop fills an array of the size of the head map exactly |
| Producers.LatencyOf | src/main/java/com/rabbitmq/perf/Producer.java:344-348 | the latency of a number stands at the position given by how many outstanding numbers are below it |
| Producers.LatencyIsSincePublish | src/main/java/com/rabbitmq/perf/Producer.java:334-364 | over all runs the latency an ack reports for a number is the difference from the last publish under that number |
| Producers.Producer.ProcessNack | src/main/java/com/rabbitmq/perf/Producer.java:366-386 | removes the same numbers as an ack would and counts them, except that a single nack of an unknown number throws and counts nothing |
| Producers.Producer.HandleAckNack | src/main/java/com/rabbitmq/perf/Producer.java:320-332 | a whole callback is the start, clear and release of the step system; it throws exactly for a single nack of an unknown number |
| Producers.Producer.HandlePublish | src/main/java/com/rabbitmq/perf/Producer.java:559-577 | a publish takes a permit and enters its number with its timestamp, and is the acquire, put and end of write of the step system; it throws exactly for the failures that reach the caller, which with recovery on are never a socket failure or a shutdown that recovery follows |
| Producers.Producer.Recover | src/main/java/com/rabbitmq/perf/Producer.java:665-681 | recovery gives back the missing permits and touches nothing else; it throws, and changes nothing, exactly when the pool holds more than the limit |
| Producers.Run | src/main/java/com/rabbitmq/perf/Producer.java:407-450 | bodies are numbered from 0 without gap or repeat, whatever the pauses; the limit is reached if and only if no attempt is fatal, so always when recovery is on, permits come and every failure is a lost connection; otherwise the run stops at the first fatal attempt; the commits asked for are known in all cases |
| Producers.FatalAttempts | src/main/java/com/rabbitmq/perf/Producer.java:559-577 | which outcomes of permit, write and commit end the run, with recovery on and off |
| Producers.CommitCount | src/main/java/com/rabbitmq/perf/Producer.java:605-609 | n messages ask for n / txSize commits, at the multiples of txSize |
| Producers.WaitForConfirms | src/main/java/com/rabbitmq/perf/Producer.java:454-478 | the final wait ends with the first round that finds the map empty or is interrupted, and otherwise with the last one the timeout allows |
| Producers.MostRounds | src/main/java/com/rabbitmq/perf/Producer.java:458-473 | that is 10 * confirmTimeout + 1 rounds, if and only if the milliseconds fit an int |
| Producers.TimeoutOverflows | src/main/java/com/rabbitmq/perf/Producer.java:458-459 | one second more, and the wait makes no round |
| Producers.FinalWaitExact | src/main/java/com/rabbitmq/perf/Producer.java:454-478 | after a recovery the wait uses up its whole timeout, whatever confirms come, if a number outstanding at the recovery has not been overtaken when publishing ends; otherwise it ends at the latest with the first poll after all confirms have come |
| Producers.WaitInVain | src/main/java/com/rabbitmq/perf/Producer.java:454-478 | a run that ends with nothing owed and a full pool, and the wait takes its whole time |
| Consumers.MessageKeepsShape | src/main/java/com/rabbitmq/perf/Consumer.java:303-369 | after each message, before and beyond the limit, the unacked, uncommitted and settled tags are the intervals given by the two periods and by earlier exit checks |
| Consumers.OutstandingAfterRun | src/main/java/com/rabbitmq/perf/Consumer.java:344-369 | over all runs, with recoveries, exit checks and messages beyond the limit, the unacked tags and the unsettled ones are those after two prefixes; without a limit and exit checks n mod A messages are unacked |
| Consumers.NestedFloors | src/main/java/com/rabbitmq/perf/Consumer.java:317-320 | the settled prefix of n messages is A * floor(T * floor(n / T) / A) |
| Consumers.UnsettledBound | src/main/java/com/rabbitmq/perf/Consumer.java:317-320 | at most A + T - 1 - gcd(A, T) deliveries are ever unsettled, so at most A + T - 2 |
| Consumers.UnsettledBoundReached | src/main/java/com/rabbitmq/perf/Consumer.java:317-320 | and that many are, for some count of messages |
| Consumers.NeverStallsExactly | src/main/java/com/rabbitmq/perf/MulticastParams.java:650-652 | deliveries never stall if and only if the consumer prefetch and the channel prefetch are each unlimited or at least A + T - gcd(A, T) |
| Consumers.ValidationExact | src/main/java/com/rabbitmq/perf/PerfTest.java:1883-1885 | without transactions an acceptance is right if and only if no prefetch that is set is below the ack period, a refusal if and only if one is; for options that are not negative the check errs exactly when it accepts and 0 < channel prefetch < A |
| Consumers.ValidationIgnoresChannelPrefetch | src/main/java/com/rabbitmq/perf/PerfTest.java:708-713 | A = 2 with a channel prefetch of 1 passes the check and stalls |
| Consumers.ValidationErrsOnNegatives | src/main/java/com/rabbitmq/perf/PerfTest.java:1883-1885 | a negative A that passes and stalls, and a negative prefetch that is refused and never stalls |
| Consumers.ValidationIgnoresTransactions | src/main/java/com/rabbitmq/perf/PerfTest.java:708-713 | options that pass the check and stall |
| Consumers.ExitFlushSettles | src/main/java/com/rabbitmq/perf/Consumer.java:579-595 | over all runs, also with earlier exit checks and beyond the message limit: after the exit flush exactly the unprocessed deliveries are unacked; every ack is committed if and only if the last processed message fell on a commit or off an ack, and whenever the flush fires |
| Consumers.NothingUnackedWithinLimit | src/main/java/com/rabbitmq/perf/Consumer.java:579-595 | with no message beyond the limit, nothing is unacked after the exit flush |
| Consumers.ExitFlushSkipsCommit | src/main/java/com/rabbitmq/perf/Consumer.java:579-595 | acks every 2, commits every 3, two messages: an ack is left uncommitted after the flush |
| Consumers.SecondFlushRepeatsTheAck | src/main/java/com/rabbitmq/perf/Consumer.java:536-595 | over all these runs a second flush sends an ack for a tag that is not unacked if and only if the first flush fired, and settles nothing more; the first fires, in an epoch with a processed message, if and only if the last of them was off an ack |
| Consumers.SecondFlushHappens | src/main/java/com/rabbitmq/perf/Consumer.java:579-595 | acks every 2, one message: the second flush repeats the ack |
| Consumers.DoneExactlyAtLimit | src/main/java/com/rabbitmq/perf/Consumer.java:303-342 | the consumer is done from the message that reaches its limit, or from the first exit check; from the limit on message handling counts and neither acks nor commits |
| Consumers.OnlyCounted | src/main/java/com/rabbitmq/perf/Consumer.java:303-342 | a message beyond the limit, or whose processing is interrupted, is counted and nothing else |
| Consumers.AutoAckSendsNothing | src/main/java/com/rabbitmq/perf/Consumer.java:344-369 | with automatic acks nothing is unacked, no ack is sent and the exit flush does nothing |
| Consumers.Consumer.HandleMessage | src/main/java/com/rabbitmq/perf/Consumer.java:303-342 | counts, acks before it commits, records the tag, and counts down once |
| Consumers.Consumer.MaybeAckCommitBeforeExit | src/main/java/com/rabbitmq/perf/Consumer.java:579-595 | the flush as a change of the broker's state alone |
| Consumers.Consumer.Stop | src/main/java/com/rabbitmq/perf/Consumer.java:552-574 | an exit check is the flush and one count-down |
| Resubscription.ConsumeOrScheduleConsume | src/main/java/com/rabbitmq/perf/Consumer.java:457-526 | tasks are five seconds apart, one pending at most at every moment and none at the end; the chain runs up to the first task that does not miss the queue, and subscribes if that one finds it; if 121 tasks miss it, it ends there without subscribing |
| Topology.SequenceTopologyHandler.ConfigureAllQueues | src/main/java/com/rabbitmq/perf/MulticastParams.java:931-1018 | queue i goes to connection i mod m, bound with the key under the cursor, which moves on by one |
| Topology.StridesInterleave | src/main/java/com/rabbitmq/perf/MulticastParams.java:972-1004 | each queue is on one connection, at position i / m; the lists interleave back to the input and differ by one in size at most |
| Topology.PlaceInSpread | src/main/java/com/rabbitmq/perf/MulticastParams.java:972-1004 | of the lists that the configuration returns, queue i is on that of connection i mod m, at position i / m |
| Topology.SizeInSpread | src/main/java/com/rabbitmq/perf/MulticastParams.java:972-1004 | and the size of each of them |
| Topology.SequenceTopologyHandler.CreateClients | src/main/java/com/rabbitmq/perf/MulticastSet.java:481-544 | every position of the array holds the client of that number, with its connection, queue and key |
| Topology.RunPhases | src/main/java/com/rabbitmq/perf/MulticastSet.java:264-300 | configuration, consumers and producers walk the queues in lockstep, each from the start |
| Topology.ClientFacts | src/main/java/com/rabbitmq/perf/MulticastSet.java:481-544 | client k has number k, connection k / channels and queue k mod n |
| Topology.LockstepFacts | src/main/java/com/rabbitmq/perf/MulticastParams.java:1136-1200 | without a routing key, queue i is bound with its own name, consumer k reads and producer k publishes to queue k mod n |
| Topology.GivenKeyFacts | src/main/java/com/rabbitmq/perf/MulticastParams.java:1136-1200 | with a routing key, every queue is bound with it and every client has it |
| Topology.EveryProducerServed | src/main/java/com/rabbitmq/perf/MulticastParams.java:1136-1200 | every producer's messages reach a queue with a consumer if and only if there are at least min(queues, producers) consumers |
| Topology.EveryProducerServedWithKey | src/main/java/com/rabbitmq/perf/MulticastParams.java:1136-1200 | with a routing key, every message goes to every queue, so every producer is served if and only if there is none or every queue has a consumer |
| Topology.EvenSpread | src/main/java/com/rabbitmq/perf/MulticastParams.java:1188-1195 | the consumers of two queues differ by one at most |
| Topology.ConnectionCache.ConnectConsumers | src/main/java/com/rabbitmq/perf/MulticastParams.java:892-915 | each consumer uses the first connection that asked for its key, for ever; the open connections are exactly the cached ones, one per key |
| Topology.SharedConnections | src/main/java/com/rabbitmq/perf/MulticastParams.java:1142-1147 | over n distinct queues, consumer k ends on connection k mod n and min(consumers, n) keys are cached, so as many connections stay open |
| Completion.WaitEndsAfterEnoughAgents | src/main/java/com/rabbitmq/perf/MulticastSet.java:861-887 | for every interleaving of the inner steps of countDown, the latch lets the wait end if and only if enough distinct agents have counted down; otherwise only a time limit does |
| Completion.ReasonsAreTheAgents | src/main/java/com/rabbitmq/perf/MulticastSet.java:841-887 | the reasons are those of the agents past the recording, each once, plus the time limit's, and at least as many as the agents counted |
| Completion.NobodyAdmittedLate | src/main/java/com/rabbitmq/perf/MulticastSet.java:878-887 | once the run is over, no further agent gets past the check |
| Completion.ReasonsFinalOnceOver | src/main/java/com/rabbitmq/perf/MulticastSet.java:861-887 | once the run is over, no reason but the time limit's can be added any more if and only if nobody is between the check and the recording |
| Completion.ChooseLimits | src/main/java/com/rabbitmq/perf/PerfTest.java:942-967 | the count limit is the number of agents with a limit of their own |
| Completion.GetCompletionHandler | src/main/java/com/rabbitmq/perf/PerfTest.java:942-967 | a limited run gets a handler whose latch is the number of agents with a limit, and one at least |
| Completion.WaitEndsAfterLimitedAgents | src/main/java/com/rabbitmq/perf/MulticastSet.java:841-887 | with that handler and no time limit, the wait ends only after as many distinct agents have counted down as have a limit, and one at least; and it can end then |
| Completion.AgentStops | src/main/java/com/rabbitmq/perf/MulticastSet.java:878-887 | an agent that stops leaves its reason and takes the latch down by one, or is ignored once the run is over |
| Completion.WaitEnds | src/main/java/com/rabbitmq/perf/MulticastSet.java:861-876 | a latch that is down ends the wait and the run |
| Completion.WaitTimesOut | src/main/java/com/rabbitmq/perf/MulticastSet.java:861-876 | a time limit ends them too, and is noted |
| Completion.DefaultCompletionHandler.CountDown | src/main/java/com/rabbitmq/perf/MulticastSet.java:878-887 | an uninterrupted countDown is the check, the recording and the drop, or the check alone once the run is over |
| Completion.DefaultCompletionHandler.FinishWaiting | src/main/java/com/rabbitmq/perf/MulticastSet.java:861-876 | the end of the wait completes the run, and notes the time limit when the latch was not down |
| BrokerStartUp.TestOnce | src/main/java/com/rabbitmq/perf/MulticastSet.java:422-438 | one pass tries each uri once, in order: the ones that answer are connected to, the silent ones stay, and it stops at the success that makes up the limit |
| BrokerStartUp.AttemptShows | src/main/java/com/rabbitmq/perf/MulticastSet.java:422-438 | the uri of each attempt of a pass is among the answering or the silent ones as the attempt went, in order |
| BrokerStartUp.WaitUntilBrokerAvailable | src/main/java/com/rabbitmq/perf/MulticastSet.java:405-443 | true if and only if an attempt, the last one, made up the limit, the uris being cut down to the ones that answered; false leaves them, after the timeout and with too few answers |
| BrokerStartUp.ReachedOnce | src/main/java/com/rabbitmq/perf/MulticastSet.java:428-432 | the limit is made up by one attempt at most, the first one after which the answers are enough |
| BrokerStartUp.RoundsPartition | src/main/java/com/rabbitmq/perf/MulticastSet.java:417-438 | after any number of rounds, the uris to test and those connected to are a permutation of the original ones |
| BrokerStartUp.CutDownUris | src/main/java/com/rabbitmq/perf/MulticastSet.java:428-432 | on true the uris are exactly as many as the limit, and original ones |
| JsonBodies.RandomString | src/main/java/com/rabbitmq/perf/RandomJsonMessageBodySource.java:80-87 | 5 to maxSize symbols, each the one drawn; the rest of the shared buffer is untouched |
| JsonBodies.Pools | src/main/java/com/rabbitmq/perf/RandomJsonMessageBodySource.java:46-53 | the fields and values have the sizes and the characters drawn for them although they share a buffer |
| JsonBodies.ParsePrinted | src/main/java/com/rabbitmq/perf/RandomJsonMessageBodySource.java:58-73 | the text of an object parses back to its members, in order |
| JsonBodies.TextOfOne | src/main/java/com/rabbitmq/perf/RandomJsonMessageBodySource.java:58-73 | the text of an object of one member, letter by letter |
| JsonBodies.Alphabets | src/main/java/com/rabbitmq/perf/RandomJsonMessageBodySource.java:34-53 | the symbols of fields and of values |
| JsonBodies.BuildBody | src/main/java/com/rabbitmq/perf/RandomJsonMessageBodySource.java:58-74 | a body parses back to its members, the k-th from field k mod n; their number is the least that reaches bodySize, and bodySize + 2 <= length <= max(2, bodySize) + 239 |
| ShutdownServices.ShutdownService.CloseOne | src/main/java/com/rabbitmq/perf/ShutdownService.java:46-56 | a wrapped callback runs, and throws, the first time only |
| ShutdownServices.ShutdownService.Close | src/main/java/com/rabbitmq/perf/ShutdownService.java:60-70 | closing all runs what has not run, whatever throws |
| ShutdownServices.EveryCallbackOnce | src/main/java/com/rabbitmq/perf/ShutdownService.java:46-70 | over any uses each callback runs once at most, and closing all runs exactly the ones not run yet, last registered first |
| ByteCapacities.PrintThenParse | src/main/java/com/rabbitmq/perf/ByteCapacity.java:66-123 | printing a number of bytes and parsing it gives it back, if and only if it is not negative |
| ByteCapacities.AcceptedTexts | src/main/java/com/rabbitmq/perf/ByteCapacity.java:102-123 | the accepted texts; toBytes is the size if and only if it fits a long; toString is the text except for a numeral without a unit and with a useless leading zero |
| ByteCapacities.LeadingZerosAreLost | src/main/java/com/rabbitmq/perf/ByteCapacity.java:102-110 | a text that from and toString do not give back |
| ByteCapacities.SizeWraps | src/main/java/com/rabbitmq/perf/ByteCapacity.java:102-123 | an accepted text in kilobytes that stands for -1000 bytes |
| ByteCapacities.UnitNames | src/main/java/com/rabbitmq/perf/ByteCapacity.java:38-51 | the spellings of the four units |
| ByteCapacities.UnitSize | src/main/java/com/rabbitmq/perf/ByteCapacity.java:32-36 | what they stand for |
| ByteCapacities.Printed | src/main/java/com/rabbitmq/perf/ByteCapacity.java:57-63 | a number of bytes prints in decimal, with its sign |
| ByteCapacities.SpellingsAgree | src/main/java/com/rabbitmq/perf/ByteCapacity.java:129-154 | gb and MB spellings of one size are equal and tie |
| ByteCapacities.CompareToIsTotalOrder | src/main/java/com/rabbitmq/perf/ByteCapacity.java:152-154 | compareTo orders by bytes, and is a total order that ties exactly the equal capacities |

## Left out

- Connections, channels, TLS, OAuth2, metrics, HTTP servers, option parsing, result files and the pages under `html/`: foreign or without a decision to prove.
- TopologyRecording, VariableValueIndicator, TimestampProvider, RateLimiterUtils, Utils and TimeSequenceMessageBodySource are not part of this model.
- Producers with confirms off (`confirm` not positive): nothing is tracked then; the constructor models the choice, the theorems are about the tracked case.
- The nack loop that only logs: the step system lets it stop anywhere, so `visited` is claimed for acks only.
- RecoveryPlacement.RefillExact: the equivalence about later runs is for a producer that has not stopped. Of overlapping recovery handlers only how far they have come is kept, not which recovery they belong to.
- Producers.Run: fixed rates and no interruption; with a variable rate the count is reset every second (Producer.java:420-423), and the scheduled form (Producer.java:493-557) makes the same attempts from a timer.
- Consumers.Consumer.Stop: when the exit check fires (idle time, queue counts) is left open, and it does not interleave with the handling of a message.
- Consumers.NeverStallsExactly: consumers of several queues on one channel, where each queue has a consumer prefetch of its own.
- Consumers.Consumer.HandleMessage: the simulated latency and the rate limit are time only; an interrupted message is modelled, but the theorems are about uninterrupted runs.
- Cancellations by the broker reset the epoch count on the same channel (Consumer.java:384-386); the ack theorems are about epochs without one.
- Failed acks and commits: a swallowed failure means a lost connection, so the epoch ends.
- The polling consumer and its cached queue names.
- Resubscription.ConsumeOrScheduleConsume: a subscription that throws is not modelled.
- Topology.ConnectionCache.ConnectConsumers: one channel per connection; with more, a hit for one queue can close a connection cached for another.
- The topology with a fixed list of queues and one routing key, and server-named queues: no cursor moves there.
- Completion: the handler of runs without a limit, a latch of one that any agent opens.
- BrokerStartUp.WaitUntilBrokerAvailable: an exception from closing a test connection.
- JsonBodies.BuildBody: the shuffle is any list of fields, and the parser knows no escapes, which the generator never prints.
- ShutdownServices.ShutdownService.Close: callbacks that register or close others while they run.
