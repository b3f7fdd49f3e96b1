/** What happens when `should_exit` is raised from outside, at any moment. */
module ExternalExit {
  import opened Windows
  import opened Handshake
  import opened Invariant
  import opened Delivery

  // ---------- under release/acquire ----------

  /** A cut-off consumer at its loop test can only leave. */
  ghost predicate Leaving(s: State) {
    Inv(s) && CutOff(s) && (s.cons.pc == CTesting || s.cons.pc == CDone)
  }

  lemma LeavingStep(s: State, e: Event)
    requires Leaving(s) && Enabled(s, e)
    ensures Leaving(Step(s, e)) && Step(s, e).samples == s.samples
  {
    StepKeepsInv(s, e);
    if e.LoopTest? { assert ExitEntry(s.mem, e.idx); }
  }

  lemma LoadChoices(s: State)
    requires Inv(s) && s.cons.pc == CLoading
    ensures |s.mem.timestamp| == Acks(s) + 2
    ensures s.cons.view.ready < |s.mem.ready|
    ensures if s.mem.ready[s.cons.view.ready].value then s.cons.view.timestamp == Acks(s) + 1
            else s.cons.view.timestamp == Acks(s)
  {
    AcknowledgingMeansParked(s);
    assert ReadyEntry(s.mem, s.cons.view.ready);
  }

  /** Exactly when the load of `timestamp` is sure to return the entry of the round, and
      one not newer than the clock sample: when the consumer left its inner loop because
      it saw `ready`. */
  lemma LoadIsSureIffReadySeen(rounds: nat, s: State)
    requires Leads(Init(rounds), s) && s.cons.pc == CLoading
    ensures s.cons.view.ready < |s.mem.ready|
    ensures s.mem.ready[s.cons.view.ready].value <==>
              forall idx: nat :: Enabled(s, LoadTimestamp(idx)) ==>
                idx == Acks(s) + 1 && s.mem.timestamp[idx].value <= s.cons.ns
  {
    LeadsKeepsInv(rounds, s);
    LoadChoices(s);
    if !s.mem.ready[s.cons.view.ready].value { assert Enabled(s, LoadTimestamp(Acks(s))); }
  }

  /** The first round of `rounds` is published at clock `ts`, its trigger on the way. */
  function Triggered(rounds: nat, ts: nat): State {
    var view := View(1, 1, 0, ts);
    Init(rounds).(mem := Memory([Entry(0, BOTTOM), Entry(ts, View(1, 0, 0, ts))],
                                [Entry(false, BOTTOM), Entry(true, view)],
                                [Entry(false, BOTTOM)]),
                  prod := Producer(PPolling, 0, ts, view), channel := 1, sent := 1)
  }

  /** One step without external exit. */
  lemma Next(s: State, t: State, e: Event) returns (u: State)
    requires Reaches(s, t) && Enabled(t, e) && !e.ExternalExit?
    ensures u == Step(t, e) && Reaches(s, u)
  {
    ReachesFurther(s, t, e);
    u := Step(t, e);
  }

  lemma TriggeredIsReachable(rounds: nat, ts: nat)
    requires rounds > 0
    ensures Reaches(Init(rounds), Triggered(rounds, ts))
  {
    var start := Init(rounds);
    ReachesItself(start);
    var s := Next(start, start, Bind(true));
    s := Next(start, s, TestExit(0));
    s := Next(start, s, ReadClock(ts));
    s := Next(start, s, StoreTimestamp);
    s := Next(start, s, RaiseReady);
    s := Next(start, s, SendTrigger);
  }

  /** The consumer has the trigger but not yet the store to `ready`. */
  function Handed(rounds: nat, ts: nat): State {
    Triggered(rounds, ts).(cons := Init(rounds).cons.(pc := CWaiting), channel := 0, received := 1)
  }

  lemma HandedIsReachable(rounds: nat, ts: nat)
    requires rounds > 0
    ensures Reaches(Init(rounds), Handed(rounds, ts))
  {
    var start := Init(rounds);
    TriggeredIsReachable(rounds, ts);
    var s := Next(start, Triggered(rounds, ts), Connect(true, 0));
    s := Next(start, s, LoopTest(0));
    s := Next(start, s, Receive(true));
  }

  /** It has looked in vain, and then the exit has been raised. */
  function Overtaken(rounds: nat): State {
    var s := Handed(rounds, 7);
    s.(mem := RelaxedExit(s.mem), cons := s.cons.(pc := CWaitingExit), cut := true)
  }

  lemma OvertakenIsReachable(rounds: nat)
    requires rounds > 0
    ensures Leads(Init(rounds), Overtaken(rounds))
  {
    HandedIsReachable(rounds, 7);
    var s := Next(Init(rounds), Handed(rounds, 7), WaitReady(0));
    assert Leads(Init(rounds), s);
    LeadsFurther(Init(rounds), s, ExternalExit);
  }

  lemma Onto(s: State, t: State, e: Event) returns (u: State)
    requires Leads(s, t) && Enabled(t, e)
    ensures u == Step(t, e) && Leads(s, u)
  {
    LeadsFurther(s, t, e);
    u := Step(t, e);
  }

  /** The cut-off consumer has sampled the clock at `ns`. */
  function Sampled(rounds: nat, ns: nat): State {
    var s := Overtaken(rounds);
    s.(cons := s.cons.(pc := CLoading, ns := ns, view := View(0, 0, 1, ns)))
  }

  lemma SampledIsReachable(rounds: nat, ns: nat)
    requires rounds > 0
    ensures Leads(Init(rounds), Sampled(rounds, ns))
  {
    OvertakenIsReachable(rounds);
    var s := Onto(Init(rounds), Overtaken(rounds), WaitExit(1));
    s := Onto(Init(rounds), s, SampleClock(ns));
  }

  /** It loads entry `slot`. */
  lemma LoadAfterCut(rounds: nat, ns: nat, slot: nat) returns (s: State)
    requires rounds > 0 && slot <= 1
    ensures Leads(Init(rounds), s) && s.mem == Overtaken(rounds).mem && s.samples == []
    ensures s.cons.pc == CClearing && s.cons.slot == slot && s.cons.ns == ns
    ensures s.cons.msgTs == s.mem.timestamp[slot].value && s.cons.view.ready == 0
  {
    SampledIsReachable(rounds, ns);
    s := Onto(Init(rounds), Sampled(rounds, ns), LoadTimestamp(slot));
  }

  lemma CountAfterCut(rounds: nat, ns: nat, slot: nat) returns (s: State)
    requires rounds > 0 && slot <= 1
    ensures Leads(Init(rounds), s) && s.mem.timestamp == Overtaken(rounds).mem.timestamp
    ensures s.samples == [Sample(slot, s.mem.timestamp[slot].value, ns, 0)]
  {
    s := LoadAfterCut(rounds, ns, slot);
    s := Onto(Init(rounds), s, ClearReady);
    s := Onto(Init(rounds), s, Count(0));
  }

  /** It does happen: a stale look at `ready`, then the exit, and the one sample of
      the run is counted with the initial value of `timestamp`. */
  lemma ExitCanMakeASampleStale() returns (s: State)
    ensures Leads(Init(1), s)
    ensures s.samples == [Sample(0, 0, 7, 0)] && !Fresh(s.samples[0], 0) && Published(s) == [7]
  {
    s := CountAfterCut(1, 7, 0);
  }

  /** And so does the other case: the clock is sampled before the round's timestamp
      was taken, and the latency counted is negative. */
  lemma ExitCanMakeALatencyNegative() returns (s: State)
    ensures Leads(Init(1), s)
    ensures s.samples == [Sample(1, 7, 0, 0)] && !Fresh(s.samples[0], 0) && s.samples[0].Latency() < 0
  {
    s := CountAfterCut(1, 0, 1);
  }

  // ---------- a raise that nobody sees ----------

  /** The exit has been raised from outside. */
  function Raise(s: State): State { s.(mem := RelaxedExit(s.mem), cut := true) }

  lemma RaiseCommutesWithProducer(s: State, e: Event)
    requires ByProducer(e) && ProducerEnabled(s, e) && !e.StoreExit?
    ensures ProducerEnabled(Raise(s), e) && ProducerStep(Raise(s), e) == Raise(ProducerStep(s, e))
  {}

  lemma RaiseCommutesWithConsumer(s: State, e: Event)
    requires ByConsumer(e) && ConsumerEnabled(s, e)
    ensures ConsumerEnabled(Raise(s), e) && ConsumerStep(Raise(s), e) == Raise(ConsumerStep(s, e))
  {}

  lemma RaiseCommutesWithEnvironment(s: State, e: Event)
    requires (e.Lose? || e.ExternalExit?) && Enabled(s, e)
    ensures Enabled(Raise(s), e) && Step(Raise(s), e) == Raise(Step(s, e))
  {}

  lemma {:induction false} DoneStaysDone(s: State, es: seq<Event>)
    requires Run(s, es) && s.prod.pc == PDone
    ensures After(s, es).prod.pc == PDone
    decreases |es|
  {
    if es != [] { DoneStaysDone(Step(s, es[0]), es[1..]); }
  }

  /** Under release/acquire a raise need not be seen: whatever the threads can do
      without it, up to the end of the producer, they can do after it. */
  lemma {:induction false} RaiseCanGoUnseen(s: State, es: seq<Event>)
    requires Run(s, es) && After(s, es).prod.pc != PDone
    ensures Run(Raise(s), es) && After(Raise(s), es) == Raise(After(s, es))
    decreases |es|
  {
    if es != [] {
      var e := es[0];
      if ByProducer(e) {
        if e.StoreExit? { DoneStaysDone(Step(s, e), es[1..]); }
        RaiseCommutesWithProducer(s, e);
      } else if ByConsumer(e) {
        RaiseCommutesWithConsumer(s, e);
      } else {
        RaiseCommutesWithEnvironment(s, e);
      }
      RaiseCanGoUnseen(Step(s, e), es[1..]);
    }
  }

  // ---------- under plain interleaving ----------

  /** The load, if `e` is one, returns the newest entry. */
  predicate Newest(s: State, e: Event) {
    match e
    case TestExit(idx) => idx + 1 == |s.mem.exit|
    case PollReady(idx) => idx + 1 == |s.mem.ready|
    case PollExit(idx) => idx + 1 == |s.mem.exit|
    case LoopTest(idx) => idx + 1 == |s.mem.exit|
    case WaitReady(idx) => idx + 1 == |s.mem.ready|
    case WaitExit(idx) => idx + 1 == |s.mem.exit|
    case LoadTimestamp(idx) => idx + 1 == |s.mem.timestamp|
    case _ => true
  }

  /** A run of the plain interleaving semantics: memory is the newest stores. */
  ghost predicate InterleavingRun(s: State, es: seq<Event>)
    decreases |es|
  {
    es == [] || (Enabled(s, es[0]) && Newest(s, es[0]) && InterleavingRun(Step(s, es[0]), es[1..]))
  }

  lemma {:induction false} InterleavingIsRun(s: State, es: seq<Event>)
    requires InterleavingRun(s, es)
    ensures Run(s, es)
    decreases |es|
  {
    if es != [] { InterleavingIsRun(Step(s, es[0]), es[1..]); }
  }

  /** Under interleaving the inner wait of the consumer never waits, and what it
      holds is always the current round. */
  ghost predicate InterleavingInv(s: State) {
    && (forall k :: 0 <= k < |s.samples| ==> Fresh(s.samples[k], k))
    && match s.cons.pc
       case CWaitingExit => false
       case CReading => Seen(s) && TimestampBefore(s.mem, Acks(s) + 1, s.cons.view.clock)
       case CLoading => Seen(s) && TimestampBefore(s.mem, Acks(s) + 1, s.cons.ns)
       case CClearing => s.cons.slot == Acks(s) + 1 && s.cons.msgTs <= s.cons.ns
       case CCounting => s.cons.slot == Acks(s) && s.cons.msgTs <= s.cons.ns
       case _ => true
  }

  lemma WaitReadyKeepsInterleavingInv(s: State, e: Event)
    requires MemoryInv(s.mem) && ConsumerInv(s) && Parked(s) && InterleavingInv(s)
    requires e.WaitReady? && ConsumerEnabled(s, e) && Newest(s, e)
    ensures InterleavingInv(ConsumerStep(s, e))
  {
    assert ReadyEntry(s.mem, e.idx);
  }

  lemma AckKeepsInterleavingInv(s: State, e: Event)
    requires ConsumerInv(s) && Parked(s) && InterleavingInv(s)
    requires (e.LoadTimestamp? || e.ClearReady? || e.SampleClock?) && ConsumerEnabled(s, e) && Newest(s, e)
    ensures InterleavingInv(ConsumerStep(s, e))
  {}

  lemma ConsumerKeepsInterleavingInv(s: State, e: Event)
    requires Inv(s) && InterleavingInv(s) && ByConsumer(e) && ConsumerEnabled(s, e) && Newest(s, e)
    ensures InterleavingInv(ConsumerStep(s, e))
  {
    if Acknowledging(s.cons.pc) { AcknowledgingMeansParked(s); }
    match e
    case WaitReady(_) => WaitReadyKeepsInterleavingInv(s, e);
    case LoadTimestamp(_) => AckKeepsInterleavingInv(s, e);
    case ClearReady => AckKeepsInterleavingInv(s, e);
    case SampleClock(_) => AckKeepsInterleavingInv(s, e);
    case _ =>
  }

  lemma OthersKeepInterleavingInv(s: State, e: Event)
    requires InterleavingInv(s) && !ByConsumer(e) && Enabled(s, e)
    requires Acks(Step(s, e)) == Acks(s)
    ensures InterleavingInv(Step(s, e))
  {}

  lemma OthersKeepAcks(s: State, e: Event)
    requires Inv(s) && !ByConsumer(e) && Enabled(s, e)
    ensures Acks(Step(s, e)) == Acks(s)
  {
    if ByProducer(e) {
      ProducerStepKeepsMemory(s, e);
      ProducerStepKeepsConsumer(s, e);
    }
  }

  lemma {:induction false} InterleavingRunKeepsInv(s: State, es: seq<Event>)
    requires Inv(s) && InterleavingInv(s) && InterleavingRun(s, es)
    ensures Run(s, es) && Inv(After(s, es)) && InterleavingInv(After(s, es))
    decreases |es|
  {
    if es != [] {
      StepKeepsInv(s, es[0]);
      if ByConsumer(es[0]) {
        ConsumerKeepsInterleavingInv(s, es[0]);
      } else {
        OthersKeepAcks(s, es[0]);
        OthersKeepInterleavingInv(s, es[0]);
      }
      InterleavingRunKeepsInv(Step(s, es[0]), es[1..]);
    }
  }

  lemma FreshMeansInOrder(s: State)
    requires SamplesInv(s) && forall k :: 0 <= k < |s.samples| ==> Fresh(s.samples[k], k)
    ensures InOrder(s)
  {
    forall k | 0 <= k < |s.samples|
      ensures s.samples[k].slot == k + 1 && k < |Published(s)|
      ensures s.samples[k].ts == Published(s)[k] <= s.samples[k].ns
    {
      assert Fresh(s.samples[k], k) && SampleAt(s, k);
    }
  }

  /** Under plain interleaving no sample is ever stale, whenever the exit comes. */
  lemma InterleavingNeverStale(rounds: nat, es: seq<Event>)
    requires InterleavingRun(Init(rounds), es)
    ensures Run(Init(rounds), es) && InOrder(After(Init(rounds), es))
  {
    InvHoldsInitially(rounds);
    InterleavingRunKeepsInv(Init(rounds), es);
    FreshMeansInOrder(After(Init(rounds), es));
  }

  /** Samples counted, and the one the consumer may be on its way to count. */
  function Countable(s: State): nat {
    |s.samples| + match s.cons.pc
                  case CConnecting => 0
                  case CFailed => 0
                  case CTesting => 0
                  case CDone => 0
                  case _ => 1
  }

  lemma RaisedStep(s: State, e: Event)
    requires Inv(s) && |s.mem.exit| > 1 && Enabled(s, e) && Newest(s, e)
    ensures |Step(s, e).mem.exit| > 1 && Countable(Step(s, e)) <= Countable(s)
  {
    if e.LoopTest? { assert ExitEntry(s.mem, e.idx); }
  }

  lemma {:induction false} RaisedRun(s: State, fs: seq<Event>)
    requires Inv(s) && |s.mem.exit| > 1 && InterleavingRun(s, fs)
    ensures Run(s, fs) && Countable(After(s, fs)) <= Countable(s)
    decreases |fs|
  {
    if fs != [] {
      RaisedStep(s, fs[0]);
      StepKeepsInv(s, fs[0]);
      RaisedRun(Step(s, fs[0]), fs[1..]);
    }
  }

  /** Under plain interleaving at most one more message is counted once
      `should_exit` has been raised, by whomever. */
  lemma AtMostOneCountAfterExit(rounds: nat, s: State, fs: seq<Event>)
    requires Leads(Init(rounds), s) && |s.mem.exit| > 1 && InterleavingRun(s, fs)
    ensures Run(s, fs) && |s.samples| <= |After(s, fs).samples| <= |s.samples| + 1
  {
    LeadsKeepsInv(rounds, s);
    RaisedRun(s, fs);
    SamplesOnlyGrow(s, fs);
  }

  lemma {:induction false} SamplesOnlyGrow(s: State, fs: seq<Event>)
    requires Run(s, fs)
    ensures s.samples <= After(s, fs).samples
    decreases |fs|
  {
    if fs != [] { SamplesOnlyGrow(Step(s, fs[0]), fs[1..]); }
  }
}
