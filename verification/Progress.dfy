/** Termination: a measure that no step increases and only waiting leaves unchanged. */
module Progress {
  import opened Handshake
  import opened Invariant
  import opened Delivery
  import opened Loss

  /** Not a loss, an error or an exit from outside. */
  predicate Benign(e: Event) {
    !e.Lose? && !e.ExternalExit? && !e.ReceiveFails? && (e.Bind? ==> e.ok) && (e.Connect? ==> e.ok)
  }

  ghost predicate AllBenign(es: seq<Event>) {
    forall k :: 0 <= k < |es| ==> Benign(es[k])
  }

  /** Nothing has been lost and nobody has failed. */
  ghost predicate Healthy(s: State) {
    Sound(s) && s.lost == 0 && s.prod.pc != PBindFailed && s.cons.pc != CFailed
  }

  predicate Finished(s: State) { s.prod.pc == PDone && s.cons.pc == CDone }

  /** A step that goes once around a waiting loop. */
  predicate Spin(s: State, e: Event)
    requires Enabled(s, e)
  {
    match e
    case PollReady(idx) => s.mem.ready[idx].value
    case PollExit(idx) => !s.mem.exit[idx].value
    case LoopTest(idx) => !s.mem.exit[idx].value
    case Receive(got) => !got
    case WaitReady(idx) => !s.mem.ready[idx].value
    case WaitExit(idx) => !s.mem.exit[idx].value
    case _ => false
  }

  function ProducerRest(s: State): int {
    var r := 7 * (s.rounds - s.prod.i);
    match s.prod.pc
    case PBinding => r + 3
    case PBindFailed => 0
    case PTesting => r + 2
    case PReading => r + 1
    case PStoring => r
    case PRaising => r - 1
    case PSending => r - 2
    case PPolling => r - 4
    case PPollingExit => r - 4
    case PFinishing => 1
    case PDone => 0
  }

  function ConsumerRest(s: State): int {
    var r := 6 * (s.rounds - s.received);
    match s.cons.pc
    case CConnecting => r + 2
    case CFailed => 0
    case CTesting => r + 1
    case CReceiving => r + 1
    case CWaiting => r + 6
    case CWaitingExit => r + 6
    case CReading => r + 5
    case CLoading => r + 4
    case CClearing => r + 3
    case CCounting => r + 2
    case CDone => 0
  }

  /** What is left to do, spins and external exits apart: the steps of the two
      threads, with one step more for a trigger that may still get lost. */
  function Measure(s: State): int { ProducerRest(s) + ConsumerRest(s) + s.channel }

  lemma ReceivedWithinRounds(s: State)
    requires Inv(s)
    ensures s.received <= s.sent <= s.rounds && s.prod.i <= s.rounds
  {}

  lemma MeasureIsNatural(s: State)
    requires Inv(s)
    ensures ProducerRest(s) >= 0 && ConsumerRest(s) >= 0
  {
    ReceivedWithinRounds(s);
  }

  /** Before the producer is done, `should_exit` is false to everyone. */
  lemma ExitIsFalseBeforeTheEnd(s: State)
    requires Sound(s)
    ensures s.prod.pc != PDone ==> |s.mem.exit| == 1 && !s.mem.exit[0].value
    ensures s.prod.pc == PDone ==> |s.mem.exit| > 1 && s.mem.exit[|s.mem.exit| - 1].value
    ensures |s.mem.ready| > 0 && |s.mem.timestamp| > 0
    ensures s.prod.view.exit < |s.mem.exit| && s.cons.view.exit < |s.mem.exit|
  {
    assert ExitEntry(s.mem, 0) && ExitEntry(s.mem, |s.mem.exit| - 1);
  }

  lemma ProducerMeasure(s: State, e: Event)
    requires ByProducer(e) && ProducerEnabled(s, e) && s.prod.i <= s.rounds
    ensures ConsumerRest(Step(s, e)) == ConsumerRest(s)
    ensures if Spin(s, e) then ProducerRest(Step(s, e)) == ProducerRest(s) && Step(s, e).channel == s.channel
            else ProducerRest(Step(s, e)) < ProducerRest(s) && Measure(Step(s, e)) < Measure(s)
  {}

  lemma ConsumerMeasure(s: State, e: Event)
    requires ByConsumer(e) && ConsumerEnabled(s, e) && s.received <= s.rounds
    ensures ProducerRest(Step(s, e)) == ProducerRest(s)
    ensures if Spin(s, e) then ConsumerRest(Step(s, e)) == ConsumerRest(s) && Step(s, e).channel == s.channel
            else ConsumerRest(Step(s, e)) < ConsumerRest(s) && Measure(Step(s, e)) < Measure(s)
  {}

  lemma BenignStepDoesNoHarm(s: State, e: Event)
    requires Enabled(s, e) && Benign(e)
    requires s.lost == 0 && !s.cut && s.prod.pc != PBindFailed && s.cons.pc != CFailed
    ensures var t := Step(s, e);
      t.lost == 0 && !t.cut && t.prod.pc != PBindFailed && t.cons.pc != CFailed && t.rounds == s.rounds
  {}

  lemma BenignStepKeepsHealthy(s: State, e: Event)
    requires Healthy(s) && Enabled(s, e) && Benign(e)
    ensures Healthy(Step(s, e)) && Step(s, e).rounds == s.rounds
  {
    StepKeepsInv(s, e);
    BenignStepDoesNoHarm(s, e);
  }

  lemma RestFrame(s: State, t: State)
    requires t.prod == s.prod && t.cons == s.cons && t.rounds == s.rounds && t.received == s.received
    ensures ProducerRest(t) == ProducerRest(s) && ConsumerRest(t) == ConsumerRest(s)
  {}

  lemma EnvironmentMeasure(s: State, e: Event)
    requires (e.Lose? || e.ExternalExit?) && Enabled(s, e)
    ensures Measure(Step(s, e)) == if e.Lose? then Measure(s) - 1 else Measure(s)
  {
    RestFrame(s, Step(s, e));
  }

  lemma MeasureFalls(s: State, e: Event)
    requires Enabled(s, e) && s.prod.i <= s.rounds && s.received <= s.rounds
    ensures if Spin(s, e) || e.ExternalExit? then Measure(Step(s, e)) == Measure(s)
            else Measure(Step(s, e)) < Measure(s)
  {
    if ByProducer(e) {
      ProducerMeasure(s, e);
    } else if ByConsumer(e) {
      ConsumerMeasure(s, e);
    } else {
      EnvironmentMeasure(s, e);
    }
  }

  /** No step increases the measure, losses, failures and external exits included,
      and only spins and external exits leave it unchanged. */
  lemma StepDecreasesMeasure(s: State, e: Event)
    requires Inv(s) && Enabled(s, e)
    ensures Inv(Step(s, e)) && Measure(Step(s, e)) >= 0
    ensures if Spin(s, e) || e.ExternalExit? then Measure(Step(s, e)) == Measure(s)
            else Measure(Step(s, e)) < Measure(s)
  {
    StepKeepsInv(s, e);
    MeasureIsNatural(Step(s, e));
    ReceivedWithinRounds(s);
    MeasureFalls(s, e);
  }

  // ---------- there is always a way on ----------

  function ProducerAdvance(s: State): seq<Event> {
    match s.prod.pc
    case PBinding => [Bind(true)]
    case PTesting => if s.prod.i >= s.rounds then [RoundsOver] else [TestExit(s.prod.view.exit)]
    case PReading => [ReadClock(s.prod.view.clock)]
    case PStoring => [StoreTimestamp]
    case PRaising => [RaiseReady]
    case PSending => [SendTrigger]
    case PFinishing => [StoreExit]
    case _ =>
      if s.mem.ready == [] || s.mem.ready[|s.mem.ready| - 1].value then []
      else if s.prod.pc == PPolling then [PollReady(|s.mem.ready| - 1)]
      else if s.prod.pc == PPollingExit then [PollExit(s.prod.view.exit), PollReady(|s.mem.ready| - 1)]
      else []
  }

  function ConsumerAdvance(s: State): seq<Event>
    requires |s.mem.ready| > 0 && |s.mem.exit| > 0 && |s.mem.timestamp| > 0
  {
    match s.cons.pc
    case CConnecting => [Connect(true, 0)]
    case CTesting => if s.channel > 0 then [LoopTest(s.cons.view.exit), Receive(true)] else [LoopTest(|s.mem.exit| - 1)]
    case CReceiving => if s.channel > 0 then [Receive(true)] else [Receive(false), LoopTest(|s.mem.exit| - 1)]
    case CWaiting => [WaitReady(|s.mem.ready| - 1)]
    case CWaitingExit => [WaitExit(s.cons.view.exit), WaitReady(|s.mem.ready| - 1)]
    case CReading => [SampleClock(s.cons.view.clock)]
    case CLoading => [LoadTimestamp(|s.mem.timestamp| - 1)]
    case CClearing => [ClearReady]
    case CCounting => [Count(0)]
    case _ => []
  }

  /** One or two steps without fault that leave less to do. */
  ghost predicate Advances(s: State, es: seq<Event>) {
    && 1 <= |es| <= 2 && AllBenign(es) && Run(s, es)
    && Healthy(After(s, es)) && 0 <= Measure(After(s, es)) < Measure(s)
  }

  lemma OneStep(s: State, e: Event)
    requires Healthy(s) && Enabled(s, e) && Benign(e) && !Spin(s, e)
    ensures Advances(s, [e])
  {
    BenignStepKeepsHealthy(s, e);
    StepDecreasesMeasure(s, e);
    assert After(s, [e]) == Step(s, e);
  }

  lemma TwoSteps(s: State, e: Event, f: Event)
    requires Healthy(s) && Enabled(s, e) && Benign(e)
    requires Enabled(Step(s, e), f) && Benign(f) && !Spin(Step(s, e), f)
    ensures Advances(s, [e, f])
  {
    BenignStepKeepsHealthy(s, e);
    StepDecreasesMeasure(s, e);
    OneStep(Step(s, e), f);
    assert [e, f][1..] == [f];
  }

  /** What the producer does next can be done and is no spin. */
  lemma ProducerAdvanceGoesOn(s: State)
    requires ProducerAdvance(s) != []
    requires s.prod.pc != PDone ==> |s.mem.exit| == 1 && !s.mem.exit[0].value
    requires s.prod.view.exit < |s.mem.exit| && s.prod.view.ready < |s.mem.ready|
    ensures var es := ProducerAdvance(s);
      && ByProducer(es[0]) && ProducerEnabled(s, es[0]) && Benign(es[0])
      && (|es| == 1 ==> !Spin(s, es[0]))
      && (|es| != 1 ==> |es| == 2 && es[1].PollReady? && ProducerEnabled(ProducerStep(s, es[0]), es[1])
                        && !s.mem.ready[es[1].idx].value && ProducerStep(s, es[0]).mem == s.mem)
  {}

  lemma ProducerAdvances(s: State)
    requires Healthy(s) && ProducerAdvance(s) != []
    ensures Advances(s, ProducerAdvance(s))
  {
    ExitIsFalseBeforeTheEnd(s);
    ProducerAdvanceGoesOn(s);
    var es := ProducerAdvance(s);
    if |es| == 1 {
      OneStep(s, es[0]);
      assert es == [es[0]];
    } else {
      TwoSteps(s, es[0], es[1]);
      assert es == [es[0], es[1]];
    }
  }

  lemma WaitAdvances(s: State)
    requires Healthy(s) && Parked(s) && (s.cons.pc == CWaiting || s.cons.pc == CWaitingExit)
    requires |s.mem.exit| > 0 && |s.mem.timestamp| > 0 && s.cons.view.exit < |s.mem.exit|
    requires !s.mem.exit[s.cons.view.exit].value
    ensures Advances(s, ConsumerAdvance(s))
  {
    var es := ConsumerAdvance(s);
    assert ReadyEntry(s.mem, |s.mem.ready| - 1);
    if |es| == 1 { OneStep(s, es[0]); } else { TwoSteps(s, es[0], es[1]); }
  }

  lemma AcknowledgingAdvances(s: State)
    requires Healthy(s) && Acknowledging(s.cons.pc)
    requires |s.mem.ready| > 0 && |s.mem.exit| > 0 && |s.mem.timestamp| > 0
    ensures Advances(s, ConsumerAdvance(s))
  {
    ExitIsFalseBeforeTheEnd(s);
    AcknowledgingMeansParked(s);
    AcknowledgingUnaware(s);
    if s.cons.pc == CWaiting || s.cons.pc == CWaitingExit {
      WaitAdvances(s);
    } else {
      OneStep(s, ConsumerAdvance(s)[0]);
    }
  }

  /** A producer that cannot move on has its trigger in flight, or is done. */
  lemma StuckProducer(s: State)
    requires Healthy(s) && ProducerAdvance(s) == [] && !Acknowledging(s.cons.pc)
    ensures s.prod.pc == PDone || s.channel == 1 || s.cons.pc == CCounting
  {
    assert ReadyEntry(s.mem, |s.mem.ready| - 1);
  }

  /** What the consumer does next can be done and is no spin. */
  lemma ConsumerAdvanceGoesOn(s: State)
    requires |s.mem.ready| > 0 && |s.mem.timestamp| > 0 && s.cons.view.exit < |s.mem.exit|
    requires s.cons.pc == CConnecting || s.cons.pc == CTesting || s.cons.pc == CReceiving || s.cons.pc == CCounting
    requires s.channel > 0 && s.cons.pc == CTesting ==> !s.mem.exit[s.cons.view.exit].value
    requires s.channel == 0 && s.cons.pc != CConnecting && s.cons.pc != CCounting ==> s.mem.exit[|s.mem.exit| - 1].value
    ensures var es := ConsumerAdvance(s);
      && 1 <= |es| <= 2 && ByConsumer(es[0]) && ConsumerEnabled(s, es[0]) && Benign(es[0])
      && (|es| == 1 ==> !Spin(s, es[0]))
      && (|es| == 2 ==> ByConsumer(es[1]) && ConsumerEnabled(ConsumerStep(s, es[0]), es[1]) && Benign(es[1])
                        && !Spin(ConsumerStep(s, es[0]), es[1]))
  {}

  /** When the producer cannot move on, it waits for the consumer or is done. */
  lemma ConsumerAdvances(s: State)
    requires Healthy(s) && ProducerAdvance(s) == [] && s.cons.pc != CDone && !Acknowledging(s.cons.pc)
    requires |s.mem.ready| > 0 && |s.mem.exit| > 0 && |s.mem.timestamp| > 0
    ensures Advances(s, ConsumerAdvance(s))
  {
    ExitIsFalseBeforeTheEnd(s);
    StuckProducer(s);
    ConsumerAdvanceGoesOn(s);
    var es := ConsumerAdvance(s);
    if |es| == 1 {
      OneStep(s, es[0]);
      assert es == [es[0]];
    } else {
      TwoSteps(s, es[0], es[1]);
      assert es == [es[0], es[1]];
    }
  }

  /** There is no deadlock: from every reachable state without loss or failure one
      or two steps lead on, unless both threads have finished. */
  lemma NoDeadlock(s: State) returns (es: seq<Event>)
    requires Healthy(s) && !Finished(s)
    ensures Advances(s, es)
  {
    if ProducerAdvance(s) != [] {
      es := ProducerAdvance(s);
      ProducerAdvances(s);
    } else {
      ExitIsFalseBeforeTheEnd(s);
      assert s.cons.pc == CDone ==> Knows(s.cons.view);
      es := ConsumerAdvance(s);
      if Acknowledging(s.cons.pc) { AcknowledgingAdvances(s); } else { ConsumerAdvances(s); }
    }
  }

  lemma {:induction false} HealthyCanFinish(s: State) returns (es: seq<Event>)
    requires Healthy(s)
    ensures AllBenign(es) && Run(s, es) && Finished(After(s, es))
    decreases Measure(s)
  {
    MeasureIsNatural(s);
    if Finished(s) {
      es := [];
    } else {
      var now := NoDeadlock(s);
      var later := HealthyCanFinish(After(s, now));
      RunAppend(s, now, later);
      es := now + later;
    }
  }

  lemma {:induction false} FaultsAreForever(s: State, fs: seq<Event>)
    requires Run(s, fs)
    requires s.prod.pc == PBindFailed || s.cons.pc == CFailed
    ensures !Finished(After(s, fs))
    decreases |fs|
  {
    if fs != [] { FaultsAreForever(Step(s, fs[0]), fs[1..]); }
  }

  ghost predicate CanFinish(s: State) {
    exists t :: Reaches(s, t) && Finished(t)
  }

  /** Exactly when a run can still be completed: as long as no trigger is lost and
      neither thread has failed. */
  lemma CanFinishIffUnharmed(rounds: nat, s: State)
    requires Reaches(Init(rounds), s)
    ensures CanFinish(s) <==> s.lost == 0 && s.prod.pc != PBindFailed && s.cons.pc != CFailed
  {
    ReachableIsSound(rounds, s);
    if Healthy(s) {
      var fs := HealthyCanFinish(s);
      assert Reaches(s, After(s, fs));
    } else if CanFinish(s) {
      var t :| Reaches(s, t) && Finished(t);
      if s.lost > 0 {
        LossFreezesTheProtocol(rounds, s, t);
      } else {
        var fs :| Run(s, fs) && NoExternalExit(fs) && After(s, fs) == t;
        FaultsAreForever(s, fs);
      }
    }
  }

  // ---------- the producer alone ----------

  /** The consumer has failed, but only after acknowledging every round. */
  ghost predicate Abandoned(s: State) {
    Sound(s) && s.cons.pc == CFailed && Acks(s) == s.rounds && s.prod.pc != PBindFailed
  }

  lemma AbandonedStep(s: State, e: Event)
    requires Abandoned(s) && ByProducer(e) && ProducerEnabled(s, e) && Benign(e)
    ensures Abandoned(Step(s, e)) && ProducerRest(Step(s, e)) >= 0
    ensures if Spin(s, e) then ProducerRest(Step(s, e)) == ProducerRest(s)
            else ProducerRest(Step(s, e)) < ProducerRest(s)
  {
    StepKeepsInv(s, e);
    ProducerStepKeepsMemory(s, e);
    ProducerStepKeepsConsumer(s, e);
    ExitIsFalseBeforeTheEnd(s);
    ProducerMeasure(s, e);
    MeasureIsNatural(Step(s, e));
  }

  /** With nothing left to wait for, the producer always has a way on. */
  lemma AbandonedCanStep(s: State)
    requires Abandoned(s) && s.prod.pc != PDone
    ensures ProducerAdvance(s) != []
  {
    assert ReadyEntry(s.mem, |s.mem.ready| - 1);
  }

  /** Steps of the abandoned producer that leave it less to do. */
  ghost predicate GoesOn(s: State, es: seq<Event>) {
    && Run(s, es) && NoExternalExit(es) && Abandoned(After(s, es))
    && 0 <= ProducerRest(After(s, es)) < ProducerRest(s)
  }

  lemma AbandonedOne(s: State, e: Event)
    requires Abandoned(s) && ByProducer(e) && ProducerEnabled(s, e) && Benign(e) && !Spin(s, e)
    ensures GoesOn(s, [e])
  {
    AbandonedStep(s, e);
    assert After(s, [e]) == Step(s, e);
  }

  lemma AbandonedTwo(s: State, e: Event, f: Event)
    requires Abandoned(s) && ByProducer(e) && ProducerEnabled(s, e) && Benign(e)
    requires ByProducer(f) && ProducerEnabled(ProducerStep(s, e), f) && Benign(f) && !Spin(ProducerStep(s, e), f)
    ensures GoesOn(s, [e, f])
  {
    AbandonedStep(s, e);
    AbandonedOne(Step(s, e), f);
    assert [e, f][1..] == [f];
  }

  lemma AbandonedAdvance(s: State)
    requires Abandoned(s) && s.prod.pc != PDone
    ensures GoesOn(s, ProducerAdvance(s))
  {
    var es := ProducerAdvance(s);
    AbandonedCanStep(s);
    ExitIsFalseBeforeTheEnd(s);
    ProducerAdvanceGoesOn(s);
    if |es| == 1 {
      AbandonedOne(s, es[0]);
      assert es == [es[0]];
    } else {
      AbandonedTwo(s, es[0], es[1]);
      assert es == [es[0], es[1]];
    }
  }

  lemma {:induction false} AbandonedFinishes(s: State) returns (fs: seq<Event>)
    requires Abandoned(s)
    ensures Run(s, fs) && NoExternalExit(fs) && After(s, fs).prod.pc == PDone
    decreases ProducerRest(s)
  {
    MeasureIsNatural(s);
    if s.prod.pc == PDone {
      fs := [];
    } else {
      AbandonedAdvance(s);
      var now := ProducerAdvance(s);
      var later := AbandonedFinishes(After(s, now));
      RunAppend(s, now, later);
      fs := now + later;
    }
  }

  ghost predicate ProducerCanFinish(s: State) {
    exists t :: Reaches(s, t) && t.prod.pc == PDone
  }

  /** Exactly when the producer can still finish: no trigger lost, its socket bound,
      and the consumer, if it has failed, failed after the last acknowledgement. */
  lemma ProducerCanFinishIff(rounds: nat, s: State)
    requires Reaches(Init(rounds), s)
    ensures ProducerCanFinish(s) <==>
              s.lost == 0 && s.prod.pc != PBindFailed && (s.cons.pc == CFailed ==> Acks(s) == rounds)
  {
    ReachableIsSound(rounds, s);
    if s.lost == 0 && s.prod.pc != PBindFailed && (s.cons.pc == CFailed ==> Acks(s) == rounds) {
      if s.cons.pc == CFailed {
        var fs := AbandonedFinishes(s);
        assert Reaches(s, After(s, fs));
      } else {
        var fs := HealthyCanFinish(s);
        assert Reaches(s, After(s, fs));
      }
    } else if ProducerCanFinish(s) {
      var t :| Reaches(s, t) && t.prod.pc == PDone;
      if s.lost > 0 {
        LossFreezesTheProtocol(rounds, s, t);
      } else if s.prod.pc == PBindFailed {
        var fs :| Run(s, fs) && NoExternalExit(fs) && After(s, fs) == t;
        UnboundProducerStays(s, fs);
      } else {
        AcksWithinRounds(s);
        ConsumerFailureStrandsProducer(rounds, s, t);
      }
    }
  }

  lemma AcksWithinRounds(s: State)
    requires Inv(s)
    ensures Acks(s) <= s.rounds
  {}
}
