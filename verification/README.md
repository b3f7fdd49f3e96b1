# Verified models for natsclient-cpp

Two parts of the repository carry logic of their own, and both are modelled here.

**The benchmark handshake** (`bench/bench_zeromq.cpp`). A producer and a consumer
thread share three atomics, `timestamp`, `ready` and `should_exit`, and a trigger
channel. Each round the producer publishes a timestamp, raises `ready`, sends a
trigger and spins; the consumer takes the trigger, waits for `ready`, samples the
clock, loads the timestamp, clears `ready` and accounts for the latency.

**Native handles** (`include/nats_client/`). Move-only wrappers own one native handle
each; `NatsClient` owns three, and moves only two of them.

## How the model is built

`Handshake.dfy` is a state machine whose steps are the single atomic actions of the
two threads, for any number of rounds instead of 10'000'000. Memory follows the
release/acquire fragment of ISO C++23, sections 6.9.2.2 [intro.races] and 33.5.4
[atomics.order]: each location has the history of its stores in modification order,
each thread a view of the oldest entries it may still load; a release store attaches
the storer's view, an acquire load joins it, a relaxed access does neither. Views also
carry the largest clock reading that happens before, and a new reading is only
required not to be below that. An event says which history entry a load returns, what
a clock reads, and whether a native call fails, so runs cover every choice. Receiving
a trigger synchronises nothing, may find nothing although one is in flight, and any
trigger in flight may be lost. `ExternalExit` is a store to `should_exit` by someone
other than the producer; most results are about runs without it. Plain interleaving is
the same machine restricted to loads of the newest entry.

A store goes to the end of the modification order. `Delivery.StoresGoLast` shows that
without external exit there is no other place for it. With one, a consumer that was cut
off may clear `ready` at a place before the producer's last `true`; `Placement.dfy` adds
this choice (`Placement.Clear`) and proves that this is the one other place, and open only to such a consumer.
`Displacement`, `Release` and `Fairness` are about these wider runs.

| source | definition |
|---|---|
| bench/bench_zeromq.cpp:45-76 | `Handshake.ProducerEnabled`, `Handshake.ProducerStep` |
| bench/bench_zeromq.cpp:78-138 | `Handshake.ConsumerEnabled`, `Handshake.ConsumerStep` |
| bench/bench_zeromq.cpp:120-134 | `Windows.Account` |
| bench/bench_zeromq.cpp:159-161 | `Handshake.INITIAL_MEMORY`, `Handshake.Init` |
| include/nats_client/Client.hpp:40-101 | `Ownership.Cleanup`, `DestroyClient`, `MoveClient`, `AssignClient` |
| include/nats_client/Kv.hpp:51-64 | `Ownership.AssignSlot` |

That this machine is the intended one is itself a theorem. `History.dfy` tells the whole
state but for the views from the events alone; `HappensBefore.dfy` defines program order,
synchronisation, happens-before and coherence on sequences of events, without views or
states, and proves that the runs of the machine are exactly the coherent ones
(`HappensBefore.RunsAreTheCoherentHistories`). `Programs.dfy` does the same for the account
of handles: what each operation does, told from the names in scope.

The histories begin with the stores of `main` to `ready` and `should_exit` (for
`timestamp` with its initial value), which both threads know because starting a thread
synchronises.

Results about reachable states are stated with `Delivery.Reaches`, some run without an
external exit, `Delivery.Leads`, some run of the state machine, or
`Placement.PlacedLeads`, some run with clearing stores in any place; results about the
run itself name its events.

`Invariant.dfy` proves one invariant for every step, faults and external exits
included; `Delivery.dfy`, `Spacing.dfy`, `Rendezvous.dfy`, `Exactness.dfy`, `Loss.dfy`,
`Progress.dfy`, `ExternalExit.dfy`, `Placement.dfy`, `Displacement.dfy`, `Overflow.dfy`,
`Release.dfy` and `Fairness.dfy` draw the results from it, and `Witnesses.dfy` has a run
for each failure they speak of. `Interleaving.dfy` tells plain interleaving from the events.
`Windows.dfy` is about the statistics alone. `Benchmark.dfy` is the same program as a
class that updates its variables in place, each method proved against the state
machine. `Ownership.dfy` is the pure account of handles and `Accounting.dfy` the
results about arbitrary programs; `Wrappers.dfy` has the wrapper classes and a heap of
them as mutable objects that refine that account, `KeysLists.dfy` the list of keys.

What the proofs found, each with a run that shows it:

- The two sockets of the benchmark belong to different contexts, so delivery of a
  trigger cannot be assumed. One lost trigger is enough to stop both threads for good
  (`Witnesses.ATriggerCanBeLost`, and for a whole fair run `Witnesses.FairRunsCanBeStuck`);
  two can never be lost.
- A consumer that fails before the last acknowledgement leaves the producer spinning
  for ever (`Witnesses.TheConsumerCanFailEarly`), and a producer that cannot bind leaves
  the consumer polling for ever (`Witnesses.TheBindCanFail`). In neither case is
  `should_exit` set. Only an exit from outside helps; it frees every thread that
  has not failed (`Release.RaisedExitFreesBoth`).
- Raised from outside, `should_exit` can make the consumer count one message with a
  stale timestamp (`ExternalExit.ExitCanMakeASampleStale`) or with a timestamp taken
  after its clock sample, a negative latency (`ExternalExit.ExitCanMakeALatencyNegative`),
  because it does not check why its inner loop ended. Exactly a consumer that left that
  loop without seeing `ready` is open to this (`ExternalExit.LoadIsSureIffReadySeen`).
  Its clearing store can then come before the producer's `true`, which stays
  (`Placement.ClearingCanGoUnseen`, with the condition in `Placement.OnlyOneOtherPlace`),
  and its message can take the sum of latencies out of `int64_t` although every clock
  reading is in it (`Overflow.TheSumCanOverflow`, with the condition in
  `Overflow.SumMayOverflowIff`). Under plain interleaving none of this can happen.
- Under release/acquire an exit raised from outside need not be seen before the producer
  is done: any number of messages may still be counted
  (`Witnesses.AnyNumberCountedAfterExit`). Under plain interleaving it is at most one.
- `NatsClient`'s move operations leave the JetStream context with the source. This
  loses no handle and destroys none twice. What does leak a handle is a successful
  `connect` or `jet_stream` on a client that already has one
  (`Witnesses.ConnectingTwiceLeaks`), and nothing else does.

## Model

| member | source | states |
|---|---|---|
| HappensBefore.RunsAreTheCoherentHistories | bench/bench_zeromq.cpp:45-138 | a sequence of events is a run if and only if each event is in the program order of its thread, finds its trigger in the channel, loads an entry that has been stored, and is coherent with all that happens before it; stale loads of every kind included |
| HappensBefore.ViewsAreTheKnownPast | bench/bench_zeromq.cpp:60-118 | after every run each thread's view is exactly what its own events, and all that happen before them, touched last |
| History.StateIsTheHistory | bench/bench_zeromq.cpp:45-138 | after every run the values stored, the place and locals of both threads, the channel and the samples are those that the events tell |
| History.EachCountIsASample | bench/bench_zeromq.cpp:116-124 | the sample of each counted message has the wall clock read then, the monotonic clock sampled last and the entry loaded last, and stands in the order of counting |
| History.ConnectDecides | bench/bench_zeromq.cpp:85-96 | the first window starts at the wall clock read after a successful connect; after a failed one the consumer is gone in every continuation |
| Interleaving.InterleavingMeansLastStore | bench/bench_zeromq.cpp:60-118 | plain interleaving is the runs in which every load returns the last store to its location |
| Invariant.StepKeepsInv | bench/bench_zeromq.cpp:60-138 | every atomic step of either thread, a lost trigger and an external exit keep the protocol invariant |
| Invariant.RunKeepsInv | bench/bench_zeromq.cpp:60-138 | the invariant holds after every run |
| Invariant.AcknowledgingMeansParked | bench/bench_zeromq.cpp:66-72 | while the consumer handles a trigger the producer is spinning in that round or leaving, and nothing is in flight or lost |
| Invariant.ReleaseReadyKeepsMemory | bench/bench_zeromq.cpp:64-118 | a store to `ready` that continues the alternation, and whose view carries its round's timestamp, keeps the memory invariant |
| Delivery.TimestampsDeliveredInOrder | bench/bench_zeromq.cpp:62-121 | the k-th counted sample was loaded from the k-th published entry and has its value: never stale, never the next, never twice |
| Delivery.LoadReturnsCurrentRound | bench/bench_zeromq.cpp:116-118 | when the consumer loads `timestamp`, coherence leaves one entry to return, that of the round being acknowledged, whose producer is still spinning |
| Delivery.TriggerDoesNotSynchronise | bench/bench_zeromq.cpp:102-114 | after a trigger the consumer may load its own old `false` or the new `true`, and nothing else; so the inner wait is needed |
| Delivery.ClearingIsSeenAnyTime | bench/bench_zeromq.cpp:68 | in its spin the producer may load its own `true`, even after the clearing, or the newest entry, and nothing else |
| Witnesses.TheClearingCanBeOverlooked | bench/bench_zeromq.cpp:68 | a run in which the producer's look after the clearing still finds `true` |
| Delivery.ReadyAlternates | bench/bench_zeromq.cpp:64-118 | while stores go last the modification order of `ready` strictly alternates, starting from `false` |
| Delivery.StoresGoLast | bench/bench_zeromq.cpp:63-118 | each store is made by a thread that knows the newest entry, so the end of the modification order is the only place for it |
| Delivery.TimestampStableWhileSeen | bench/bench_zeromq.cpp:111-118 | between seeing and clearing `ready`, no step stores `timestamp`, and none but the clearing stores `ready` |
| Delivery.FinishedRunsAreComplete | bench/bench_zeromq.cpp:60-122 | if both threads have finished, exactly all rounds were counted, in order, and no trigger was lost; the relaxed exit flag cuts none off |
| Delivery.CutMeansExternalExit | bench/bench_zeromq.cpp:74 | the flag in the state that marks an external exit is set exactly when the run contains one |
| Rendezvous.StepRefines | bench/bench_zeromq.cpp:60-122 | loading the timestamp is the abstract meeting, storing `should_exit` the abstract end, and every other step, stale spins included, a stutter |
| Rendezvous.ThreadsRefineRendezvous | bench/bench_zeromq.cpp:60-122 | every run of the two threads is, step by step, a run of the atomic rendezvous specification |
| Rendezvous.LatencyIntervalsAreDisjoint | bench/bench_zeromq.cpp:62-121 | the latency intervals of successive messages never overlap and are in order |
| Rendezvous.MeterFollowsSamples | bench/bench_zeromq.cpp:94-134 | in every run the consumer's accumulators are what accounting for its samples one by one gives |
| Rendezvous.AccountingFitsInt64 | bench/bench_zeromq.cpp:120-122 | whoever raises the exit, the latency, the sum so far and, for a message of its round, the new sum stay within `int64_t` for any number of rounds when the clock readings do; without external exit every message is that of its round; the counter never exceeds the number of rounds |
| Overflow.SumMayOverflowIff | bench/bench_zeromq.cpp:111-122 | the message about to be read may take the sum out of `int64_t`, with clock readings in range, if and only if the consumer left its inner loop without seeing `ready` and the sum is larger than the timestamp it still knows |
| Overflow.TheSumCanOverflow | bench/bench_zeromq.cpp:111-122 | a reachable state in which that can happen |
| Rendezvous.ReportsPartitionSamples | bench/bench_zeromq.cpp:98-135 | the printed windows and the partial one partition the samples of any run, their sums and counts and the live accumulators add up to the totals, each average lies within its window, and without external exit no window, the partial one included, sums to more than the time it spans |
| Exactness.PlayRound | bench/bench_zeromq.cpp:60-122 | from rest the two threads can play out any next meeting, without a stale load, and come to rest again |
| Exactness.EveryLogIsPlayed | bench/bench_zeromq.cpp:60-122 | every log the specification allows is the log of a run without stale loads |
| Exactness.LogsAreExactlyTheDisjointOnes | bench/bench_zeromq.cpp:60-122 | the release/acquire system, plain interleaving and the runs of the specification have the same logs: exactly the ordered disjoint ones with at most one meeting a round |
| Displacement.TriggersAreConserved | bench/bench_zeromq.cpp:66-118 | in every run, external exits included, sent = received + in flight + lost, and in flight, lost and received but unacknowledged together are at most one |
| Loss.LossFreezesTheProtocol | bench/bench_zeromq.cpp:66-106 | after a loss, in every continuation, nothing is stored or acknowledged, the round never changes, and neither thread finishes |
| Loss.ConsumerFailureStrandsProducer | bench/bench_zeromq.cpp:68-109 | a consumer error before the last acknowledgement: the producer finishes in no continuation and never sets the exit flag |
| Loss.BindFailureStrandsConsumer | bench/bench_zeromq.cpp:52-106 | a failed bind: the consumer's loop ends in no continuation |
| Witnesses.ATriggerCanBeLost | bench/bench_zeromq.cpp:66-106 | a run that loses its first trigger, for any positive number of rounds |
| Witnesses.TheConsumerCanFailEarly | bench/bench_zeromq.cpp:66-109 | a run whose consumer fails with a round unacknowledged and the producer spinning |
| Witnesses.TheBindCanFail | bench/bench_zeromq.cpp:52-106 | a run whose producer fails to bind, with the consumer in its loop |
| Progress.StepDecreasesMeasure | bench/bench_zeromq.cpp:52-135 | no step increases the measure; spins and external exits leave it unchanged, every other step, losses and failures included, decreases it |
| Progress.NoDeadlock | bench/bench_zeromq.cpp:60-135 | from every reachable faultless state one or two enabled steps decrease the measure, unless both threads have finished |
| Progress.HealthyCanFinish | bench/bench_zeromq.cpp:60-137 | every faultless state has a faultless run to completion |
| Progress.CanFinishIffUnharmed | bench/bench_zeromq.cpp:52-137 | a run can still be completed if and only if no trigger is lost and neither thread has failed |
| Progress.ProducerCanFinishIff | bench/bench_zeromq.cpp:52-109 | the producer can still finish if and only if no trigger is lost, its bind did not fail, and a failed consumer had acknowledged every round |
| Fairness.ProducerFinishesIff | bench/bench_zeromq.cpp:52-75 | the producer of a fair infinite run finishes if and only if its bind succeeds and either someone else raises the exit, or no trigger is lost and a consumer that fails has acknowledged every round |
| Fairness.ConsumerFinishesIff | bench/bench_zeromq.cpp:85-137 | the consumer of a fair infinite run finishes if and only if it does not fail and either someone else raises the exit, or no trigger is lost and the bind succeeds |
| Fairness.BothFinishIff | bench/bench_zeromq.cpp:52-137 | both threads of a fair infinite run finish if and only if neither fails and no trigger is lost unless someone else raises the exit |
| Fairness.StrandedForEver | bench/bench_zeromq.cpp:68-74 | a bound producer of a fair infinite run that never finishes polls for ever with `ready` raised, its trigger lost or the consumer failed too early, and nobody ever raises the exit |
| Fairness.FairRunsFinish | bench/bench_zeromq.cpp:60-137 | every fair infinite run without loss, failure and external exit finishes with every round counted |
| Fairness.FairRunsExist | bench/bench_zeromq.cpp:60-137 | fair runs that finish exist for any number of rounds |
| Fairness.EveryRunBeginsAFairOne | bench/bench_zeromq.cpp:45-138 | fairness forbids no finite run: each is the beginning of a fair infinite one |
| Witnesses.FairRunsCanBeStuck | bench/bench_zeromq.cpp:60-114 | fair runs in which nobody fails and neither thread ever finishes exist, for any positive number of rounds |
| Fairness.NotAwaitingForEver | bench/bench_zeromq.cpp:111-114 | under fairness the consumer's inner wait ends, whatever is lost, whoever fails or raises the exit |
| Displacement.OnlyTheLastSampleMayBeStale | bench/bench_zeromq.cpp:98-122 | with exits from outside, and wherever clearing stores are placed, at most one counted sample is not that of its round, it is the last in every continuation, an exit from outside has happened, and its timestamp is the previous one or newer than its clock sample |
| Displacement.MatchedSamplesAreDisjoint | bench/bench_zeromq.cpp:62-121 | in every run, wherever clearing stores are placed, the latency intervals of the samples that are those of their rounds, all or all but the last, never overlap and are in order |
| Placement.OnlyOneOtherPlace | bench/bench_zeromq.cpp:64-118 | a clearing store may go last, and it may go just before the producer's `true` if and only if the consumer's last look at `ready` found it `false`; such a consumer was cut off |
| Displacement.ProducerStoresGoLast | bench/bench_zeromq.cpp:63-64 | the producer's stores to `timestamp` and `ready` have one place only, external exits included |
| ExternalExit.LoadIsSureIffReadySeen | bench/bench_zeromq.cpp:111-117 | the load is sure to return the timestamp of its round, and one not newer than the clock sample, if and only if the consumer left its inner loop because it saw `ready` |
| ExternalExit.ExitCanMakeASampleStale | bench/bench_zeromq.cpp:111-122 | a run in which the one sample counted carries the initial timestamp |
| ExternalExit.ExitCanMakeALatencyNegative | bench/bench_zeromq.cpp:111-122 | a run in which the one sample counted has a clock sample older than its timestamp |
| Placement.ClearingCanGoUnseen | bench/bench_zeromq.cpp:111-118 | a run in which the clearing store comes before the producer's `true`, so that `ready` stays raised |
| ExternalExit.InterleavingNeverStale | bench/bench_zeromq.cpp:98-122 | under plain interleaving every sample is that of its round, whenever the exit comes |
| ExternalExit.AtMostOneCountAfterExit | bench/bench_zeromq.cpp:98-120 | under plain interleaving at most one message is counted after the exit flag is raised |
| ExternalExit.RaiseCanGoUnseen | bench/bench_zeromq.cpp:60-112 | under release/acquire every run that does not end the producer can also be taken after the exit has been raised from outside, with the same effect |
| Witnesses.AnyNumberCountedAfterExit | bench/bench_zeromq.cpp:98-120 | under release/acquire any number of messages up to the number of rounds can be counted after the exit flag is raised |
| Release.RaisedExitFreesBoth | bench/bench_zeromq.cpp:60-137 | once the exit is raised every thread that has not failed can finish without further help, after a lost trigger and whatever became of the other thread |
| Release.CanFinishWithHelpIff | bench/bench_zeromq.cpp:52-137 | with an exit from outside a run can be completed if and only if neither thread has failed |
| Windows.MeterReportsWindows | bench/bench_zeromq.cpp:94-134 | the accumulators describe the windows exactly: one line per closed window, its figures the quotients without fraction of its count by its whole seconds and of its sum by its count, the rest in the live accumulators |
| Windows.ReportIsUnique | bench/bench_zeromq.cpp:126-129 | the line printed for a window is determined by the window |
| Windows.TruncDivIsQuotient | bench/bench_zeromq.cpp:126-129 | integer division drops the fraction, toward zero for either sign |
| Windows.WindowingIsUnique | bench/bench_zeromq.cpp:124-134 | samples can be cut into windows in one way only |
| Windows.SumWithinSpan | bench/bench_zeromq.cpp:121-122 | the latencies of disjoint intervals sum to at least zero and at most the span they cover |
| Windows.AccountNeverOverflows | bench/bench_zeromq.cpp:120-122 | for disjoint intervals with readings in range, latency and running sum stay in range, before and after a window closes |
| Windows.AverageWithinWindow | bench/bench_zeromq.cpp:129 | the truncated average of a window lies between two of its latencies, negative ones included |
| Benchmark.Bench.constructor | bench/bench_zeromq.cpp:159-161 | the initial shared memory and threads |
| Benchmark.Bench.AddLatency | bench/bench_zeromq.cpp:120-134 | the accounting in place computes the specified accumulators and printed line |
| Benchmark.Bench.Execute | bench/bench_zeromq.cpp:45-138 | driven by any schedule, the program takes exactly the events that are possible where it stands, all of them if the schedule is a run, and leaves behind a run of the state machine; from a fresh start without external exit its samples are delivered, disjoint and, once both threads finish, complete |
| Accounting.NoHandleDestroyedTwice | include/nats_client/Client.hpp:40-101 | no program over clients and wrappers destroys a handle twice, destroys one still held, or has one in two places |
| Accounting.HandlesAreAccountedFor | include/nats_client/Client.hpp:40-170 | handles created = destroyed + still owned + overwritten, the last counted by the `connect` and `jet_stream` calls that stored over a handle |
| Accounting.AllDestroyedOnceIffNoOverwrite | include/nats_client/Client.hpp:40-170 | a program that has dropped all its objects has destroyed every handle exactly once if and only if it made no overwriting call |
| Accounting.HandleLostIffOverwritten | include/nats_client/Client.hpp:151-170 | an operation leaks a handle, so that it is neither destroyed nor held, if and only if it is a successful `connect` or `jet_stream` over one already held; what is leaked stays leaked |
| Accounting.LeaksAreOverwrites | include/nats_client/Client.hpp:40-170 | a program leaks exactly as many handles as it makes overwriting calls |
| Witnesses.ConnectingTwiceLeaks | include/nats_client/Client.hpp:129-155 | connecting a client twice leaks the first connection, whatever the program does afterwards |
| Accounting.MoveClientEffect | include/nats_client/Client.hpp:86-89 | move construction takes connection and options, leaves the JetStream context with the source, and destroys nothing |
| Accounting.AssignClientEffect | include/nats_client/Client.hpp:90-101 | move assignment destroys the target's handles, moves connection and options, and leaves the JetStream context with the source |
| Accounting.ImplicitDestructionIsNothing | include/nats_client/Client.hpp:48-67 | after `cleanup` the implicit destruction of `opts` does nothing |
| Accounting.AssignSlotEffect | include/nats_client/Options.hpp:103-117 | move assignment of a wrapper, seen on every member that holds a handle |
| Accounting.MovedFromIsInert | include/nats_client/Kv.hpp:32-64 | after a move construction or assignment the source holds nothing and destroying it destroys nothing; the target has its handle, and what the target had is destroyed |
| Accounting.ChainEffect | include/nats_client/Kv.hpp:267-287 | after any chain of moves the last holder has what the first had, the others on the way nothing |
| Accounting.ChainEndDestroysOnce | include/nats_client/Kv.hpp:252-287 | dropping the last holder of a chain destroys the handle, for the first and only time |
| Accounting.ExecKeepsInv | include/nats_client/Client.hpp:40-101 | every operation keeps each handle destroyed once, overwritten once or held in one place |
| Programs.CreateDoes | include/nats_client/Client.hpp:69-79 | a client created holds new options and nothing else; a failure changes nothing |
| Programs.ConnectDoes | include/nats_client/Client.hpp:129-155 | a successful connect on any client stores a new connection over whatever was there |
| Programs.JetStreamDoes | include/nats_client/Client.hpp:160-174 | a successful `jet_stream` on any client stores a new context over whatever was there |
| Programs.MoveConstructDoes | include/nats_client/Client.hpp:86-89 | move construction from any client gives its connection and options to a new one and leaves its JetStream context |
| Programs.MoveAssignDoes | include/nats_client/Client.hpp:90-101 | move assignment between any two clients destroys the target's three handles and moves connection and options; to itself it does nothing |
| Programs.DropDoes | include/nats_client/Client.hpp:40-67 | dropping any client, whatever it holds, destroys its three handles in order and removes it |
| Programs.MakeDoes | include/nats_client/SubscriptionSync.hpp:90-98 | a factory makes a wrapper over a new handle or over null, or none |
| Programs.MoveConstructWrapperDoes | include/nats_client/Kv.hpp:46-49 | a wrapper moves into a new one of its kind |
| Programs.AssignNamedDoes | include/nats_client/Kv.hpp:51-64 | assignment between any two wrappers of one kind destroys the target's handle and moves the other's |
| Programs.AssignBetweenClientsDoes | include/nats_client/Options.hpp:103-117 | the same for the options of two clients |
| Programs.DropWrapperDoes | include/nats_client/Kv.hpp:32-41 | dropping any wrapper destroys its handle and removes it |
| Programs.EveryProgramCanEnd | include/nats_client/Client.hpp:40-174 | every program can be continued so that no object is left, and then every handle has been destroyed but those its calls had overwritten |
| Wrappers.Wrapper.Move | include/nats_client/Kv.hpp:46-49 | move construction of a wrapper, in place |
| Wrappers.Wrapper.Destruct | include/nats_client/MessageView.hpp:25-32 | the destructor destroys the handle if there is one and nulls the pointer |
| Wrappers.Wrapper.Assign | include/nats_client/SubscriptionSync.hpp:76-88 | move assignment in place, self-assignment included |
| Wrappers.Client.Cleanup | include/nats_client/Client.hpp:40-56 | destroys connection, options and JetStream context in this order and nulls all three |
| Wrappers.Client.Destruct | include/nats_client/Client.hpp:64-67 | the destructor with the implicit second destruction of `opts` destroys each handle once |
| Wrappers.Client.Move | include/nats_client/Client.hpp:86-89 | move construction in place |
| Wrappers.Client.Assign | include/nats_client/Client.hpp:90-101 | move assignment in place, with its null assignment to the source's options |
| Wrappers.Client.Connect | include/nats_client/Client.hpp:129-155 | stores a new connection only on success, over whatever was held |
| Wrappers.Client.JetStream | include/nats_client/Client.hpp:160-174 | stores a new context only on success, over whatever was held |
| Wrappers.CreateClientObject | include/nats_client/Client.hpp:69-79 | the temporaries through which a created client is returned destroy nothing |
| Wrappers.Heap.MoveAssignWrapper | include/nats_client/Kv.hpp:193-206 | assignment between any two wrapper objects of the heap, the options of clients included, refines the pure account |
| Wrappers.Heap.MakeWrapper | include/nats_client/SubscriptionSync.hpp:90-98 | a factory makes a wrapper over a new handle, over null, or none, and refines the pure account |
| Wrappers.Heap.Execute | include/nats_client/Client.hpp:31-174 | any program on the mutable heap refines the pure account; from an empty heap no handle is destroyed twice and all are accounted for |
| KeysLists.KvKeysList.Keys | include/nats_client/Kv.hpp:289-295 | the loop returns exactly the keys behind the list |
| KeysLists.KvKeysList.Assign | include/nats_client/Kv.hpp:272-287 | move assignment of a list in place, count included |
| KeysLists.ListHeap.Fetch | include/nats_client/Client.hpp:250-260 | `kvs_keys` that fails returns no list, one without an array an empty list, one that fills an array a list of exactly the keys filled in; the local list leaves nothing behind |
| KeysLists.ListHeap.FollowChain | include/nats_client/Kv.hpp:267-295 | after any chain of moves the current owner returns exactly the keys filled in, every other list on the way none, and the array is not freed |
| KeysLists.ListHeap.FetchMoveAndDrop | include/nats_client/Kv.hpp:252-295 | from `kvs_keys` through any chain of moves to the end: the last owner's `keys()` returns exactly the keys filled in, every other list's none, and the array has been freed exactly once |

## Left out

- Executions in which a relaxed load takes its value from a store that depends on the load; the views used here do not have them.
- The forwarding calls to the native library (publish, subscribe, KV get, put and delete, option setters, drain): they hold no logic.
- The native library itself: a create call yields a new handle or fails as it likes, a destroy call is logged; a failed call is taken to store nothing.
- The status gate at the head of `connect` and the indeterminate initial status: every native answer is possible at any call.
- ZeroMQ, shared-memory mapping, thread priorities and thread creation; what remains is the channel and the initial state.
- An exception out of `socket.send`, which is outside any `try`, and allocation failure.
- The `int` loop counter: rounds are natural numbers; 10'000'000 fits.
- The conversion of `timespec` to nanoseconds: a clock reading is a natural number.
- Wrappers built by hand from a native pointer that some other wrapper already holds; the public constructors allow it.
- Object-lifetime rules for the explicit destructor call on `opts`: it is modelled as what its body does.
- Error texts, formatting, callbacks that print, and the `string_view` accessors.
- `bench/bench_lat_pub_sub.cpp`, `scratch/scratch.cpp` and everything commented out in `bench/bench_zeromq.cpp`.
