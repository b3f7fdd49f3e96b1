/** Exactly when the running sum of latencies may leave the range of `int64_t` although
    every clock reading is in it: only with an exit from outside, in the last message. */
module Overflow {
  import opened Windows
  import opened Handshake
  import opened Invariant
  import opened Delivery
  import opened Spacing
  import opened Rendezvous
  import opened ExternalExit

  /** The last look at `ready` found it raised. */
  predicate ReadySeen(s: State) {
    s.cons.view.ready < |s.mem.ready| && s.mem.ready[s.cons.view.ready].value
  }

  /** The consumer may sample the clock at `t` and load entry `idx` next. */
  predicate MayRead(s: State, t: nat, idx: nat) {
    Enabled(s, SampleClock(t)) && Enabled(Step(s, SampleClock(t)), LoadTimestamp(idx))
  }

  /** These readings, in range themselves, take the sum out of range. */
  predicate Overflows(s: State, t: nat, idx: nat) {
    && MayRead(s, t, idx) && t <= INT64_MAX && idx < |s.mem.timestamp|
    && s.cons.meter.latencySum + (t - s.mem.timestamp[idx].value) > INT64_MAX
  }

  lemma MayReadMeans(s: State, t: nat, idx: nat)
    requires s.cons.pc == CReading
    ensures MayRead(s, t, idx) <==> s.cons.view.clock <= t && s.cons.view.timestamp <= idx < |s.mem.timestamp|
  {}

  /** The entries the consumer may load, and what their timestamps are worth. */
  lemma ReadChoices(s: State)
    requires Inv(s) && s.cons.pc == CReading
    ensures |s.samples| == Acks(s) && |s.mem.timestamp| == Acks(s) + 2
    ensures s.cons.view.timestamp == if ReadySeen(s) then Acks(s) + 1 else Acks(s)
    ensures Acks(s) > 0 ==> s.samples[Acks(s) - 1].ns <= s.mem.timestamp[Acks(s) + 1].value
    ensures Acks(s) > 0 ==> s.mem.timestamp[Acks(s)].value <= s.mem.timestamp[Acks(s) + 1].value
  {
    AcknowledgingMeansParked(s);
    assert ReadyEntry(s.mem, s.cons.view.ready);
    if Acks(s) > 0 { assert AckedAt(s, Acks(s) - 1) && SampleAt(s, Acks(s) - 1); }
  }

  lemma SumBelowNextTimestamp(s: State)
    requires Inv(s) && s.cons.pc == CReading && s.cons.meter == AccountAll(s.cons.start, s.samples)
    ensures |s.mem.timestamp| == Acks(s) + 2
    ensures 0 <= s.cons.meter.latencySum <= s.mem.timestamp[Acks(s) + 1].value
  {
    ReadChoices(s);
    InvMeansSpaced(s);
    MatchedAreOrdered(s);
    forall k | 0 <= k < |s.samples| ensures Fresh(s.samples[k], k) { assert SampleAt(s, k); }
    assert Matched(s) == s.samples;
    SumBelowLastSample(s.cons.start, s.samples);
  }

  lemma OverflowsIff(s: State)
    requires Inv(s) && s.cons.pc == CReading && s.cons.view.clock <= INT64_MAX
    requires s.cons.meter == AccountAll(s.cons.start, s.samples)
    ensures s.cons.view.timestamp < |s.mem.timestamp|
    ensures (exists t: nat, idx: nat :: Overflows(s, t, idx)) <==>
              !ReadySeen(s) && s.cons.meter.latencySum > s.mem.timestamp[s.cons.view.timestamp].value
  {
    ReadChoices(s);
    SumBelowNextTimestamp(s);
    var sum, known := s.cons.meter.latencySum, s.cons.view.timestamp;
    if !ReadySeen(s) && sum > s.mem.timestamp[known].value {
      MayReadMeans(s, INT64_MAX, known);
      assert Overflows(s, INT64_MAX, known);
    }
    forall t: nat, idx: nat | Overflows(s, t, idx) ensures !ReadySeen(s) && sum > s.mem.timestamp[known].value {
      MayReadMeans(s, t, idx);
      assert idx == known || idx == Acks(s) + 1;
    }
  }

  /** Exactly when the message about to be read may take the sum of latencies out of
      range, all clock readings in range: when the consumer left its inner loop without
      seeing `ready`, and the sum so far is larger than the timestamp it still knows. */
  lemma SumMayOverflowIff(rounds: nat, es: seq<Event>)
    requires Run(Init(rounds), es) && ReadingsAtMost(es, INT64_MAX)
    requires After(Init(rounds), es).cons.pc == CReading
    ensures var s := After(Init(rounds), es);
      && s.cons.view.timestamp < |s.mem.timestamp|
      && ((exists t: nat, idx: nat :: Overflows(s, t, idx)) <==>
            !ReadySeen(s) && s.cons.meter.latencySum > s.mem.timestamp[s.cons.view.timestamp].value)
  {
    RunKeepsInv(Init(rounds), es);
    MeterFollowsSamples(Init(rounds), es);
    ReadingsBoundState(Init(rounds), es, INT64_MAX);
    OverflowsIff(After(Init(rounds), es));
  }

  // ---------- it does happen ----------

  /** The first round has been counted, from clock 0 to `INT64_MAX`. */
  function FirstCounted(): State {
    var max := INT64_MAX as nat;
    Init(2).(mem := Memory([Entry(0, BOTTOM), Entry(0, View(1, 0, 0, 0))],
                           [Entry(false, BOTTOM), Entry(true, View(1, 1, 0, 0)), Entry(false, View(1, 2, 0, max))],
                           [Entry(false, BOTTOM)]),
             prod := Producer(PPolling, 0, 0, View(1, 1, 0, 0)),
             cons := Consumer(CTesting, max, 1, 0, 0, Meter(1, max, 0, []), View(1, 2, 0, max)),
             sent := 1, received := 1, samples := [Sample(1, 0, max, 0)])
  }

  /** Its trigger is taken and the clock sampled at the largest value. */
  function FirstSampled(): State {
    var s, max := Handed(2, 0), INT64_MAX as nat;
    s.(cons := s.cons.(pc := CLoading, ns := max, view := View(1, 1, 0, max)))
  }

  lemma FirstSampledIsReachable()
    ensures Leads(Init(2), FirstSampled())
  {
    HandedIsReachable(2, 0);
    ReachesLeads(Init(2), Handed(2, 0));
    var s := Onto(Init(2), Handed(2, 0), WaitReady(1));
    s := Onto(Init(2), s, SampleClock(INT64_MAX));
  }

  /** Its timestamp has been loaded. */
  function FirstLoaded(): State {
    var s := FirstSampled();
    s.(cons := s.cons.(pc := CClearing, slot := 1))
  }

  lemma FirstLoadedIsReachable()
    ensures Leads(Init(2), FirstLoaded())
  {
    FirstSampledIsReachable();
    var s := Onto(Init(2), FirstSampled(), LoadTimestamp(1));
  }

  lemma FirstCountedIsReachable()
    ensures Leads(Init(2), FirstCounted())
  {
    FirstLoadedIsReachable();
    var s := Onto(Init(2), FirstLoaded(), ClearReady);
    s := Onto(Init(2), s, Count(0));
  }

  /** The second round is raised, and the consumer cut off before it saw that. */
  lemma SecondIsCutOff() returns (s: State)
    ensures Leads(Init(2), s) && s.cons.pc == CReading && s.cons.meter == Meter(1, INT64_MAX, 0, [])
    ensures s.cons.view == View(1, 2, 1, INT64_MAX) && |s.mem.timestamp| == 3 && s.mem.timestamp[1].value == 0
  {
    FirstCountedIsReachable();
    s := Onto(Init(2), FirstCounted(), PollReady(2));
    s := Onto(Init(2), s, TestExit(0));
    s := Onto(Init(2), s, ReadClock(INT64_MAX));
    s := Onto(Init(2), s, StoreTimestamp);
    s := Onto(Init(2), s, RaiseReady);
    s := Onto(Init(2), s, SendTrigger);
    s := CutOffConsumer(s);
  }

  lemma CutOffConsumer(before: State) returns (s: State)
    requires Leads(Init(2), before) && before.cons == FirstCounted().cons && before.channel == 1
    requires |before.mem.exit| == 1 && !before.mem.exit[0].value
    requires |before.mem.ready| == 4 && before.mem.ready[2] == FirstCounted().mem.ready[2]
    requires |before.mem.timestamp| == 3 && before.mem.timestamp[1].value == 0
    ensures Leads(Init(2), s) && s.mem.timestamp == before.mem.timestamp
    ensures s.cons.pc == CReading && s.cons.meter == before.cons.meter
    ensures s.cons.view == View(1, 2, 1, INT64_MAX)
  {
    s := Onto(Init(2), before, LoopTest(0));
    s := Onto(Init(2), s, Receive(true));
    s := Onto(Init(2), s, WaitReady(2));
    s := Onto(Init(2), s, ExternalExit);
    s := Onto(Init(2), s, WaitExit(1));
  }

  /** A reachable state whose next message takes the sum to twice the largest value. */
  lemma TheSumCanOverflow() returns (s: State)
    ensures Leads(Init(2), s) && s.cons.pc == CReading && Overflows(s, INT64_MAX, 1)
  {
    s := SecondIsCutOff();
    MayReadMeans(s, INT64_MAX, 1);
  }
}
