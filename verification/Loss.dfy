/** What losing a trigger, or one thread's failure, does to the run. */
module Loss {
  import opened Handshake
  import opened Invariant
  import opened Delivery

  /** At most one trigger is sent ahead of the acknowledgements. */
  lemma SentWithinOneRound(s: State)
    requires Inv(s)
    ensures Acks(s) <= s.received && s.sent <= Acks(s) + 1
  {
    if Acknowledging(s.cons.pc) { AcknowledgingMeansParked(s); }
  }

  /** A trigger is lost, and both threads wait for what cannot come. */
  ghost predicate Frozen(s: State) {
    && s.lost == 1 && s.channel == 0 && s.received == Acks(s)
    && !Acknowledging(s.cons.pc) && s.cons.pc != CDone
    && (s.prod.pc == PPolling || s.prod.pc == PPollingExit)
    && s.prod.view.ready == |s.mem.ready| - 1
    && |s.mem.ready| > 0 && s.mem.ready[|s.mem.ready| - 1].value
    && s.mem.ready[|s.mem.ready| - 1].view.ready == |s.mem.ready| - 1
    && |s.mem.exit| == 1 && !s.mem.exit[0].value
  }

  lemma LossFreezesState(s: State)
    requires Sound(s) && s.lost > 0
    ensures Frozen(s)
  {
    SentWithinOneRound(s);
    if Acknowledging(s.cons.pc) { AcknowledgingMeansParked(s); }
    assert ReadyEntry(s.mem, |s.mem.ready| - 1) && ExitEntry(s.mem, 0);
  }

  lemma FrozenProducer(s: State, e: Event)
    requires Frozen(s) && ByProducer(e) && ProducerEnabled(s, e)
    ensures var t := ProducerStep(s, e);
      Frozen(t) && t.mem == s.mem && t.prod.i == s.prod.i && t.received == s.received
  {}

  lemma FrozenConsumer(s: State, e: Event)
    requires Frozen(s) && ByConsumer(e) && ConsumerEnabled(s, e)
    ensures var t := ConsumerStep(s, e);
      Frozen(t) && t.mem == s.mem && t.prod.i == s.prod.i && t.received == s.received
  {}

  lemma FrozenStaysFrozen(s: State, e: Event)
    requires Frozen(s) && Enabled(s, e) && !e.ExternalExit?
    ensures var t := Step(s, e);
      Frozen(t) && t.mem == s.mem && t.prod.i == s.prod.i && t.received == s.received
  {
    if ByProducer(e) {
      FrozenProducer(s, e);
    } else if ByConsumer(e) {
      FrozenConsumer(s, e);
    }
  }

  lemma {:induction false} FrozenForever(s: State, fs: seq<Event>)
    requires Frozen(s) && Run(s, fs) && NoExternalExit(fs)
    ensures var t := After(s, fs);
      Frozen(t) && t.mem == s.mem && t.prod.i == s.prod.i && t.received == s.received
    decreases |fs|
  {
    if fs != [] {
      FrozenStaysFrozen(s, fs[0]);
      FrozenForever(Step(s, fs[0]), fs[1..]);
    }
  }

  /** Once a trigger is lost, in every continuation nothing is stored any more, no
      timestamp is read or acknowledged, the producer's round never changes, and
      neither thread gets to its end. */
  lemma LossFreezesTheProtocol(rounds: nat, s: State, t: State)
    requires Reaches(Init(rounds), s) && s.lost > 0 && Reaches(s, t)
    ensures t.mem == s.mem && t.prod.i == s.prod.i && t.received == s.received && t.lost == 1
    ensures !Acknowledging(t.cons.pc)
    ensures t.prod.pc != PDone && t.cons.pc != CDone
  {
    ReachableIsSound(rounds, s);
    LossFreezesState(s);
    var fs :| Run(s, fs) && NoExternalExit(fs) && After(s, fs) == t;
    FrozenForever(s, fs);
  }

  // ---------- one thread fails ----------

  lemma FailedConsumerStep(s: State, e: Event)
    requires Inv(s) && s.cons.pc == CFailed && Enabled(s, e)
    ensures Inv(Step(s, e)) && Step(s, e).cons.pc == CFailed && Acks(Step(s, e)) == Acks(s)
  {
    StepKeepsInv(s, e);
    if ByProducer(e) {
      ProducerStepKeepsMemory(s, e);
      ProducerStepKeepsConsumer(s, e);
    }
  }

  /** A failed consumer stays failed and acknowledges nothing more. */
  lemma {:induction false} FailedConsumerStays(s: State, fs: seq<Event>)
    requires Inv(s) && s.cons.pc == CFailed && Run(s, fs)
    ensures After(s, fs).cons.pc == CFailed && Acks(After(s, fs)) == Acks(s)
    decreases |fs|
  {
    if fs != [] {
      FailedConsumerStep(s, fs[0]);
      FailedConsumerStays(Step(s, fs[0]), fs[1..]);
    }
  }

  /** If the consumer has returned an error before acknowledging every round, the
      producer finishes in no continuation. */
  lemma ConsumerFailureStrandsProducer(rounds: nat, s: State, t: State)
    requires Reaches(Init(rounds), s) && s.cons.pc == CFailed && Acks(s) < rounds && Reaches(s, t)
    ensures t.prod.pc != PDone && t.prod.pc != PFinishing && |t.mem.exit| == 1
  {
    ReachableIsSound(rounds, s);
    SoundStaysSound(s, t);
    var fs :| Run(s, fs) && NoExternalExit(fs) && After(s, fs) == t;
    FailedConsumerStays(s, fs);
    ExitKnownOnlyAtTheEnd(t);
  }

  lemma {:induction false} UnboundProducerStays(s: State, fs: seq<Event>)
    requires s.prod.pc == PBindFailed && Run(s, fs)
    ensures After(s, fs).prod.pc == PBindFailed
    decreases |fs|
  {
    if fs != [] { UnboundProducerStays(Step(s, fs[0]), fs[1..]); }
  }

  /** If the producer's bind fails, the consumer's loop ends in no continuation:
      only an error return of its own can stop it. */
  lemma BindFailureStrandsConsumer(rounds: nat, s: State, t: State)
    requires Reaches(Init(rounds), s) && s.prod.pc == PBindFailed && Reaches(s, t)
    ensures t.cons.pc != CDone && t.received == 0 && t.samples == []
  {
    ReachableIsSound(rounds, s);
    SoundStaysSound(s, t);
    var fs :| Run(s, fs) && NoExternalExit(fs) && After(s, fs) == t;
    UnboundProducerStays(s, fs);
    ExitKnownOnlyAtTheEnd(t);
  }
}
