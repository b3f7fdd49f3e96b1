/** The benchmark as a program that updates its variables in place: the shared
    atomics and the locals of both threads, driven by a schedule. */
module Benchmark {
  import opened Windows
  import opened Handshake
  import opened Delivery
  import opened Rendezvous

  class Bench {
    const rounds: nat

    // `SharedData`
    var timestamp: seq<Entry<nat>>
    var ready: seq<Entry<bool>>
    var shouldExit: seq<Entry<bool>>

    // locals of `run_producer`
    var producerAt: ProducerPc
    var i: nat
    var currentTime: nat
    var producerView: View

    // locals of `run_consumer`, and what it has printed
    var consumerAt: ConsumerPc
    var ns: nat
    var msgTs: nat
    var msgSlot: nat
    var counter: nat
    var latencySum: int
    var startTime: int
    var lastTime: int
    var printed: seq<Report>
    var consumerView: View

    // the trigger channel, and the log of the run
    var channel: nat
    var sent: nat
    var received: nat
    var lost: nat
    var samples: seq<Sample>
    var cut: bool

    function Statistics(): Meter
      reads this
    {
      Meter(counter, latencySum, lastTime, printed)
    }

    function Value(): State
      reads this
    {
      State(rounds, Memory(timestamp, ready, shouldExit),
            Producer(producerAt, i, currentTime, producerView),
            Consumer(consumerAt, ns, msgSlot, msgTs, startTime, Statistics(), consumerView),
            channel, sent, received, lost, samples, cut)
    }

    /** The shared memory as `main` initialises it, the threads about to start. */
    constructor (n: nat)
      ensures rounds == n && Value() == Init(n)
    {
      rounds := n;
      timestamp, ready, shouldExit := [Entry(0, BOTTOM)], [Entry(false, BOTTOM)], [Entry(false, BOTTOM)];
      producerAt, i, currentTime, producerView := PBinding, 0, 0, BOTTOM;
      consumerAt, ns, msgTs, msgSlot, consumerView := CConnecting, 0, 0, 0, BOTTOM;
      counter, latencySum, startTime, lastTime, printed := 0, 0, 0, 0, [];
      channel, sent, received, lost, samples, cut := 0, 0, 0, 0, [], false;
    }

    // ---------- run_producer, one atomic action a method ----------

    method BindSocket(ok: bool)
      requires ProducerEnabled(Value(), Bind(ok))
      modifies this`producerAt
      ensures Value() == ProducerStep(old(Value()), Bind(ok))
    {
      producerAt := if ok then PTesting else PBindFailed;
    }

    method LeaveLoop()
      requires ProducerEnabled(Value(), RoundsOver)
      modifies this`producerAt
      ensures Value() == ProducerStep(old(Value()), RoundsOver)
    {
      producerAt := PFinishing;
    }

    method TestShouldExit(idx: nat)
      requires ProducerEnabled(Value(), TestExit(idx))
      modifies this`producerAt, this`producerView
      ensures Value() == ProducerStep(old(Value()), TestExit(idx))
    {
      producerView := producerView.(exit := idx);
      producerAt := if shouldExit[idx].value then PFinishing else PReading;
    }

    method ReadNanos(t: nat)
      requires ProducerEnabled(Value(), ReadClock(t))
      modifies this`producerAt, this`producerView, this`currentTime
      ensures Value() == ProducerStep(old(Value()), ReadClock(t))
    {
      currentTime := t;
      producerView := producerView.(clock := t);
      producerAt := PStoring;
    }

    method ReleaseTimestampStore()
      requires ProducerEnabled(Value(), StoreTimestamp)
      modifies this`producerAt, this`producerView, this`timestamp
      ensures Value() == ProducerStep(old(Value()), StoreTimestamp)
    {
      producerView := producerView.(timestamp := |timestamp|);
      timestamp := timestamp + [Entry(currentTime, producerView)];
      producerAt := PRaising;
    }

    method ReleaseReadyTrue()
      requires ProducerEnabled(Value(), RaiseReady)
      modifies this`producerAt, this`producerView, this`ready
      ensures Value() == ProducerStep(old(Value()), RaiseReady)
    {
      producerView := producerView.(ready := |ready|);
      ready := ready + [Entry(true, producerView)];
      producerAt := PSending;
    }

    method SendMessage()
      requires ProducerEnabled(Value(), SendTrigger)
      modifies this`producerAt, this`channel, this`sent
      ensures Value() == ProducerStep(old(Value()), SendTrigger)
    {
      channel, sent := channel + 1, sent + 1;
      producerAt := PPolling;
    }

    method SpinOnReady(idx: nat)
      requires ProducerEnabled(Value(), PollReady(idx))
      modifies this`producerAt, this`producerView, this`i
      ensures Value() == ProducerStep(old(Value()), PollReady(idx))
    {
      producerView := Join(producerView.(ready := idx), ready[idx].view);
      if ready[idx].value {
        producerAt := PPollingExit;
      } else {
        i := i + 1;
        producerAt := PTesting;
      }
    }

    method SpinOnExit(idx: nat)
      requires ProducerEnabled(Value(), PollExit(idx))
      modifies this`producerAt, this`producerView, this`i
      ensures Value() == ProducerStep(old(Value()), PollExit(idx))
    {
      producerView := producerView.(exit := idx);
      if shouldExit[idx].value {
        i := i + 1;
        producerAt := PTesting;
      } else {
        producerAt := PPolling;
      }
    }

    method StoreShouldExit()
      requires ProducerEnabled(Value(), StoreExit)
      modifies this`producerAt, this`producerView, this`shouldExit
      ensures Value() == ProducerStep(old(Value()), StoreExit)
    {
      producerView := producerView.(exit := |shouldExit|);
      shouldExit := shouldExit + [Entry(true, BOTTOM)];
      producerAt := PDone;
    }

    // ---------- run_consumer, one atomic action a method ----------

    method ConnectSocket(ok: bool, now: int)
      requires ConsumerEnabled(Value(), Connect(ok, now))
      modifies this`consumerAt, this`counter, this`latencySum, this`startTime, this`lastTime, this`printed
      ensures Value() == ConsumerStep(old(Value()), Connect(ok, now))
    {
      if ok {
        counter, latencySum, startTime, lastTime, printed := 0, 0, now, now, [];
        consumerAt := CTesting;
      } else {
        consumerAt := CFailed;
      }
    }

    method TestLoop(idx: nat)
      requires ConsumerEnabled(Value(), LoopTest(idx))
      modifies this`consumerAt, this`consumerView
      ensures Value() == ConsumerStep(old(Value()), LoopTest(idx))
    {
      consumerView := consumerView.(exit := idx);
      consumerAt := if shouldExit[idx].value then CDone else CReceiving;
    }

    method ReceiveMessage(got: bool)
      requires ConsumerEnabled(Value(), Receive(got))
      modifies this`consumerAt, this`channel, this`received
      ensures Value() == ConsumerStep(old(Value()), Receive(got))
    {
      if got {
        channel, received := channel - 1, received + 1;
        consumerAt := CWaiting;
      } else {
        consumerAt := CTesting;
      }
    }

    method ReceiveError()
      requires ConsumerEnabled(Value(), ReceiveFails)
      modifies this`consumerAt
      ensures Value() == ConsumerStep(old(Value()), ReceiveFails)
    {
      consumerAt := CFailed;
    }

    method WaitOnReady(idx: nat)
      requires ConsumerEnabled(Value(), WaitReady(idx))
      modifies this`consumerAt, this`consumerView
      ensures Value() == ConsumerStep(old(Value()), WaitReady(idx))
    {
      consumerView := Join(consumerView.(ready := idx), ready[idx].view);
      consumerAt := if ready[idx].value then CReading else CWaitingExit;
    }

    method WaitOnExit(idx: nat)
      requires ConsumerEnabled(Value(), WaitExit(idx))
      modifies this`consumerAt, this`consumerView
      ensures Value() == ConsumerStep(old(Value()), WaitExit(idx))
    {
      consumerView := consumerView.(exit := idx);
      consumerAt := if shouldExit[idx].value then CReading else CWaiting;
    }

    method SampleNanos(t: nat)
      requires ConsumerEnabled(Value(), SampleClock(t))
      modifies this`consumerAt, this`consumerView, this`ns
      ensures Value() == ConsumerStep(old(Value()), SampleClock(t))
    {
      ns := t;
      consumerView := consumerView.(clock := t);
      consumerAt := CLoading;
    }

    method AcquireTimestampLoad(idx: nat)
      requires ConsumerEnabled(Value(), LoadTimestamp(idx))
      modifies this`consumerAt, this`consumerView, this`msgTs, this`msgSlot
      ensures Value() == ConsumerStep(old(Value()), LoadTimestamp(idx))
    {
      assert MayLoadTimestamp(Value().mem, consumerView, idx);
      consumerView := Join(consumerView.(timestamp := idx), timestamp[idx].view);
      msgTs, msgSlot := timestamp[idx].value, idx;
      consumerAt := CClearing;
    }

    method ReleaseReadyFalse()
      requires ConsumerEnabled(Value(), ClearReady)
      modifies this`consumerAt, this`consumerView, this`ready
      ensures Value() == ConsumerStep(old(Value()), ClearReady)
    {
      consumerView := consumerView.(ready := |ready|);
      ready := ready + [Entry(false, consumerView)];
      consumerAt := CCounting;
    }

    method CountMessage(time: int)
      requires ConsumerEnabled(Value(), Count(time))
      modifies this`consumerAt, this`samples, this`counter, this`latencySum, this`lastTime, this`printed
      ensures Value() == ConsumerStep(old(Value()), Count(time))
    {
      AddLatency(time);
      samples := samples + [Sample(msgSlot, msgTs, ns, time)];
      consumerAt := CTesting;
    }

    /** The accounting at the end of the consumer's loop body. */
    method AddLatency(time: int)
      modifies this`counter, this`latencySum, this`lastTime, this`printed
      ensures Statistics() == Account(old(Statistics()), Sample(msgSlot, msgTs, ns, time))
    {
      counter := counter + 1;
      var latency := ns - msgTs;
      latencySum := latencySum + latency;
      var duration := WholeSeconds(time, lastTime);
      if duration >= 1 {
        var throughput := TruncDiv(counter, duration);
        var avgLatency := TruncDiv(latencySum, counter);
        printed := printed + [Report(throughput, avgLatency)];
        counter := 0;
        latencySum := 0;
        lastTime := time;
      }
    }

    // ---------- the schedule ----------

    method ProducerActs(e: Event)
      requires ByProducer(e) && ProducerEnabled(Value(), e)
      modifies this
      ensures Value() == ProducerStep(old(Value()), e)
    {
      match e
      case Bind(ok) => BindSocket(ok);
      case RoundsOver => LeaveLoop();
      case TestExit(idx) => TestShouldExit(idx);
      case ReadClock(t) => ReadNanos(t);
      case StoreTimestamp => ReleaseTimestampStore();
      case RaiseReady => ReleaseReadyTrue();
      case SendTrigger => SendMessage();
      case PollReady(idx) => SpinOnReady(idx);
      case PollExit(idx) => SpinOnExit(idx);
      case StoreExit => StoreShouldExit();
    }

    method ConsumerActs(e: Event)
      requires ByConsumer(e) && ConsumerEnabled(Value(), e)
      modifies this
      ensures Value() == ConsumerStep(old(Value()), e)
    {
      match e
      case Connect(ok, now) => ConnectSocket(ok, now);
      case LoopTest(idx) => TestLoop(idx);
      case Receive(got) => ReceiveMessage(got);
      case ReceiveFails => ReceiveError();
      case WaitReady(idx) => WaitOnReady(idx);
      case WaitExit(idx) => WaitOnExit(idx);
      case SampleClock(t) => SampleNanos(t);
      case LoadTimestamp(idx) => AcquireTimestampLoad(idx);
      case ClearReady => ReleaseReadyFalse();
      case Count(time) => CountMessage(time);
    }

    /** The environment: a trigger in flight is lost, or the exit raised. */
    method EnvironmentActs(e: Event)
      requires (e.Lose? || e.ExternalExit?) && Enabled(Value(), e)
      modifies this`channel, this`lost, this`shouldExit, this`cut
      ensures Value() == Step(old(Value()), e)
    {
      if e.Lose? {
        channel, lost := channel - 1, lost + 1;
      } else {
        shouldExit := shouldExit + [Entry(true, BOTTOM)];
        cut := true;
      }
    }

    method Act(e: Event)
      requires Enabled(Value(), e)
      modifies this
      ensures Value() == Step(old(Value()), e)
    {
      if ByProducer(e) {
        ProducerActs(e);
      } else if ByConsumer(e) {
        ConsumerActs(e);
      } else {
        EnvironmentActs(e);
      }
    }

    /** Runs the threads as far as `schedule` drives them, passing over exactly what is
        not possible where it stands; `kept[k]` is how many of the first `k` events were
        taken.  What is left behind is a run of the state machine, all of `schedule` if
        that is one; if the program was fresh and nobody else raised `should_exit`,
        every counted sample is that of its round, the latency intervals are disjoint,
        and if both threads have finished every round was counted. */
    method Execute(schedule: seq<Event>) returns (taken: seq<Event>, ghost kept: seq<nat>)
      modifies this
      ensures Run(old(Value()), taken) && Value() == After(old(Value()), taken)
      ensures PassesOverTheImpossible(old(Value()), schedule, taken, kept)
      ensures Run(old(Value()), schedule) ==> taken == schedule
      ensures old(Value()) == Init(rounds) && NoExternalExit(taken) ==> Delivered(Value())
    {
      taken, kept := [], [0];
      ghost var start := Value();
      for k := 0 to |schedule|
        invariant Run(start, taken) && Value() == After(start, taken)
        invariant PassesOverTheImpossible(start, schedule[..k], taken, kept)
      {
        var e := schedule[k];
        PassOver(start, schedule[..k], e, taken, kept);
        assert schedule[..k + 1] == schedule[..k] + [e];
        if Enabled(Value(), e) {
          Act(e);
          RunOneMore(start, taken, e);
          taken, kept := taken + [e], kept + [|taken| + 1];
        } else {
          kept := kept + [|taken|];
        }
      }
      assert schedule[..|schedule|] == schedule;
      if Run(start, schedule) { RunsAreTakenWhole(start, schedule, taken, kept); }
      if start == Init(rounds) && NoExternalExit(taken) {
        DeliveryHolds(rounds, taken);
      }
    }
  }

  /** Of `schedule` exactly the events are taken that are enabled in the state reached
      by those taken before. */
  ghost predicate PassesOverTheImpossible(s: State, schedule: seq<Event>, taken: seq<Event>, kept: seq<nat>) {
    && |kept| == |schedule| + 1 && kept[0] == 0 && kept[|schedule|] == |taken|
    && (forall k :: 0 <= k <= |schedule| ==> kept[k] <= |taken|)
    && (forall k :: 0 <= k < |schedule| ==> TakenOrImpossible(s, schedule[k], taken, kept[k], kept[k + 1]))
  }

  /** With `n` events taken before, event `e` is the next one, or it is not enabled. */
  ghost predicate TakenOrImpossible(s: State, e: Event, taken: seq<Event>, n: nat, m: nat)
    requires n <= |taken|
  {
    && Run(s, taken[..n])
    && if Enabled(After(s, taken[..n]), e) then m == n + 1 && n < |taken| && taken[n] == e else m == n
  }

  lemma PassOver(s: State, schedule: seq<Event>, e: Event, taken: seq<Event>, kept: seq<nat>)
    requires PassesOverTheImpossible(s, schedule, taken, kept) && Run(s, taken)
    ensures Enabled(After(s, taken), e) ==>
              PassesOverTheImpossible(s, schedule + [e], taken + [e], kept + [|taken| + 1])
    ensures !Enabled(After(s, taken), e) ==>
              PassesOverTheImpossible(s, schedule + [e], taken, kept + [|taken|])
  {
    var possible := Enabled(After(s, taken), e);
    var more, all := if possible then taken + [e] else taken, schedule + [e];
    var counts := kept + [if possible then |taken| + 1 else |taken|];
    assert taken[..|taken|] == taken;
    forall k | 0 <= k < |all| ensures TakenOrImpossible(s, all[k], more, counts[k], counts[k + 1]) {
      assert more[..counts[k]] == taken[..kept[k]];
      if k < |schedule| { assert TakenOrImpossible(s, schedule[k], taken, kept[k], kept[k + 1]); }
    }
  }

  /** A schedule that is a run is taken whole. */
  lemma RunsAreTakenWhole(s: State, schedule: seq<Event>, taken: seq<Event>, kept: seq<nat>)
    requires PassesOverTheImpossible(s, schedule, taken, kept) && Run(s, schedule)
    ensures taken == schedule
  {
    AllTakenUpTo(s, schedule, taken, kept, |schedule|);
    assert schedule[..|schedule|] == schedule && taken[..|taken|] == taken;
  }

  lemma {:induction false} AllTakenUpTo(s: State, schedule: seq<Event>, taken: seq<Event>, kept: seq<nat>, k: nat)
    requires PassesOverTheImpossible(s, schedule, taken, kept) && Run(s, schedule) && k <= |schedule|
    ensures kept[k] == k && taken[..k] == schedule[..k]
  {
    if k > 0 {
      AllTakenUpTo(s, schedule, taken, kept, k - 1);
      RunPrefix(s, schedule, k - 1);
      assert TakenOrImpossible(s, schedule[k - 1], taken, kept[k - 1], kept[k]);
    }
  }

  /** Every counted sample carries the timestamp of its round, the latency intervals
      are disjoint, and when both threads have finished every round was counted. */
  ghost predicate Delivered(s: State) {
    && Ordered(s.samples)
    && (forall k :: 0 <= k < |s.samples| ==>
          k + 1 < |s.mem.timestamp| && s.samples[k].slot == k + 1
          && s.samples[k].ts == s.mem.timestamp[k + 1].value)
    && (s.prod.pc == PDone && s.cons.pc == CDone ==> |s.samples| == s.rounds)
  }

  lemma DeliveryHolds(rounds: nat, es: seq<Event>)
    requires Run(Init(rounds), es) && NoExternalExit(es)
    ensures Delivered(After(Init(rounds), es))
  {
    var s := After(Init(rounds), es);
    ReachableIsSound(rounds, s);
    SamplesAreFresh(s);
    LatencyIntervalsAreDisjoint(rounds, es);
    if s.prod.pc == PDone && s.cons.pc == CDone { FinishedRunsAreComplete(rounds, s); }
  }
}
