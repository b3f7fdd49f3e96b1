/** The two threads, seen from outside: an atomic rendezvous per round. */
module Rendezvous {
  import opened Windows
  import opened Handshake
  import opened Invariant
  import opened Delivery
  import opened Spacing

  datatype Spec = Spec(rounds: nat, log: seq<Meeting>, finished: bool)

  /** One round as a single action.  The timestamp is taken after the clock sample
      of the round before, the new sample after the timestamp. */
  ghost predicate Meet(a: Spec, b: Spec, m: Meeting) {
    && !a.finished && |a.log| < a.rounds
    && m.ts <= m.ns
    && (a.log != [] ==> a.log[|a.log| - 1].ns <= m.ts)
    && b == a.(log := a.log + [m])
  }

  ghost predicate Finish(a: Spec, b: Spec) {
    !a.finished && |a.log| == a.rounds && b == a.(finished := true)
  }

  ghost predicate SpecStep(a: Spec, b: Spec) {
    a == b || Finish(a, b) || exists m :: Meet(a, b, m)
  }

  /** The rendezvous takes place when the consumer loads `timestamp`. */
  function Log(s: State): seq<Meeting> {
    Meetings(s.samples)
    + if s.cons.pc == CClearing || s.cons.pc == CCounting then [Meeting(s.cons.msgTs, s.cons.ns)] else []
  }

  function Abs(s: State): Spec {
    Spec(s.rounds, Log(s), s.prod.pc == PDone)
  }

  lemma OthersStutter(s: State, e: Event)
    requires Enabled(s, e) && !e.LoadTimestamp? && !e.StoreExit?
    ensures Abs(Step(s, e)) == Abs(s)
  {
    assert e.Count? ==> Log(Step(s, e)) == Log(s);
  }

  /** The meeting that the coming load of `timestamp` completes. */
  lemma LoadMeets(s: State, e: Event)
    requires Sound(s) && e.LoadTimestamp? && Enabled(s, e)
    ensures Meet(Abs(s), Abs(Step(s, e)), Meeting(s.mem.timestamp[e.idx].value, s.cons.ns))
  {
    AcknowledgingMeansParked(s);
    AcknowledgingUnaware(s);
    var a := Acks(s);
    if a > 0 { assert AckedAt(s, a - 1); }
  }

  lemma StoreExitFinishes(s: State, e: Event)
    requires Sound(s) && e.StoreExit? && Enabled(s, e)
    ensures Finish(Abs(s), Abs(Step(s, e)))
  {
    ExitKnownOnlyAtTheEnd(s);
    assert !Acknowledging(s.cons.pc) by {
      if Acknowledging(s.cons.pc) { AcknowledgingMeansParked(s); }
    }
  }

  /** Loading `timestamp` is the rendezvous, storing `should_exit` the end; every
      other step, stale loads and spins included, changes nothing. */
  lemma StepRefines(s: State, e: Event)
    requires Sound(s) && Enabled(s, e) && !e.ExternalExit?
    ensures SpecStep(Abs(s), Abs(Step(s, e)))
    ensures !e.LoadTimestamp? && !e.StoreExit? ==> Abs(Step(s, e)) == Abs(s)
    ensures e.LoadTimestamp? ==>
              Meet(Abs(s), Abs(Step(s, e)), Meeting(s.mem.timestamp[e.idx].value, s.cons.ns))
    ensures e.StoreExit? ==> Finish(Abs(s), Abs(Step(s, e)))
  {
    match e
    case LoadTimestamp(_) => LoadMeets(s, e);
    case StoreExit => StoreExitFinishes(s, e);
    case _ => OthersStutter(s, e);
  }

  /** The specification run that a run of the threads follows. */
  ghost function AbsTrace(s: State, es: seq<Event>): seq<Spec>
    requires Run(s, es)
    decreases |es|
  {
    [Abs(s)] + if es == [] then [] else AbsTrace(Step(s, es[0]), es[1..])
  }

  ghost predicate SpecRun(tr: seq<Spec>) {
    |tr| > 0 && forall k :: 0 <= k < |tr| - 1 ==> SpecStep(tr[k], tr[k + 1])
  }

  lemma PrependStep(a: Spec, tr: seq<Spec>)
    requires SpecRun(tr) && SpecStep(a, tr[0])
    ensures SpecRun([a] + tr)
  {
    var all := [a] + tr;
    forall k | 0 <= k < |all| - 1 ensures SpecStep(all[k], all[k + 1]) {
      if k > 0 { assert all[k] == tr[k - 1] && all[k + 1] == tr[k]; }
    }
  }

  lemma SoundStep(s: State, e: Event)
    requires Sound(s) && Enabled(s, e) && !e.ExternalExit?
    ensures Sound(Step(s, e))
  {
    StepKeepsInv(s, e);
  }

  /** The run's abstract trace is a specification run from `s` to its end. */
  ghost predicate Follows(s: State, es: seq<Event>)
    requires Run(s, es)
  {
    var tr := AbsTrace(s, es);
    SpecRun(tr) && |tr| == |es| + 1 && tr[0] == Abs(s) && tr[|es|] == Abs(After(s, es))
  }

  lemma FollowsOn(s: State, es: seq<Event>)
    requires Run(s, es) && es != []
    requires SpecStep(Abs(s), Abs(Step(s, es[0]))) && Follows(Step(s, es[0]), es[1..])
    ensures Follows(s, es)
  {
    PrependStep(Abs(s), AbsTrace(Step(s, es[0]), es[1..]));
  }

  lemma SpecStepOf(s: State, e: Event)
    requires Sound(s) && Enabled(s, e) && !e.ExternalExit?
    ensures SpecStep(Abs(s), Abs(Step(s, e))) && Sound(Step(s, e))
  {
    StepRefines(s, e);
    SoundStep(s, e);
  }

  lemma {:induction false} SoundRunRefines(s: State, es: seq<Event>)
    requires Sound(s) && Run(s, es) && NoExternalExit(es)
    ensures Follows(s, es)
    decreases |es|
  {
    if es != [] {
      SpecStepOf(s, es[0]);
      SoundRunRefines(Step(s, es[0]), es[1..]);
      FollowsOn(s, es);
    }
  }

  /** Every run of the two threads is, step by step, a run of the specification
      from its initial state. */
  lemma ThreadsRefineRendezvous(rounds: nat, es: seq<Event>)
    requires Run(Init(rounds), es) && NoExternalExit(es)
    ensures Follows(Init(rounds), es) && Abs(Init(rounds)) == Spec(rounds, [], false)
  {
    InvHoldsInitially(rounds);
    SoundRunRefines(Init(rounds), es);
  }

  // ---------- what the specification promises ----------

  ghost predicate SpecInv(a: Spec) {
    && Disjoint(a.log) && |a.log| <= a.rounds
    && (a.finished ==> |a.log| == a.rounds)
  }

  lemma SpecStepKeepsInv(a: Spec, b: Spec)
    requires SpecInv(a) && SpecStep(a, b)
    ensures SpecInv(b)
  {}

  lemma {:induction false} SpecRunKeepsInv(tr: seq<Spec>, k: nat)
    requires SpecRun(tr) && SpecInv(tr[0]) && k < |tr|
    ensures SpecInv(tr[k]) && tr[k].rounds == tr[0].rounds
  {
    if k > 0 {
      SpecRunKeepsInv(tr, k - 1);
      SpecStepKeepsInv(tr[k - 1], tr[k]);
    }
  }

  /** The latency intervals of successive samples never overlap. */
  lemma LatencyIntervalsAreDisjoint(rounds: nat, es: seq<Event>)
    requires Run(Init(rounds), es) && NoExternalExit(es)
    ensures var s := After(Init(rounds), es);
      && Disjoint(Log(s)) && Ordered(s.samples) && |Log(s)| <= rounds
      && (s.cons.pc == CCounting ==>
            forall time :: Ordered(s.samples + [Sample(s.cons.slot, s.cons.msgTs, s.cons.ns, time)]))
  {
    ThreadsRefineRendezvous(rounds, es);
    SpecRunKeepsInv(AbsTrace(Init(rounds), es), |es|);
    RoundsNeverChange(Init(rounds), es);
    LogOrdersSamples(After(Init(rounds), es));
  }

  lemma LogOrdersSamples(s: State)
    requires Disjoint(Log(s))
    ensures Ordered(s.samples)
    ensures s.cons.pc == CCounting ==>
              forall time :: Ordered(s.samples + [Sample(s.cons.slot, s.cons.msgTs, s.cons.ns, time)])
  {
    assert Meetings(s.samples) == Log(s)[..|s.samples|];
    if s.cons.pc == CCounting {
      forall time ensures Ordered(s.samples + [Sample(s.cons.slot, s.cons.msgTs, s.cons.ns, time)]) {
        assert Meetings(s.samples + [Sample(s.cons.slot, s.cons.msgTs, s.cons.ns, time)]) == Log(s);
      }
    }
  }

  // ---------- the statistics of a run ----------

  /** The accumulators hold what accounting for the samples one by one gives. */
  lemma {:induction false} MeterFollowsSamples(s: State, es: seq<Event>)
    requires Run(s, es)
    requires s.cons.meter == AccountAll(s.cons.start, s.samples)
    requires s.cons.pc == CConnecting ==> s.samples == []
    ensures var t := After(s, es);
      t.cons.meter == AccountAll(t.cons.start, t.samples)
    decreases |es|
  {
    if es != [] {
      var t := Step(s, es[0]);
      if es[0].Count? { assert t.samples[..|s.samples|] == s.samples; }
      MeterFollowsSamples(t, es[1..]);
    }
  }

  /** All monotonic clock readings of a run are at most `max`. */
  ghost predicate ReadingsAtMost(es: seq<Event>, max: nat) {
    forall k :: 0 <= k < |es| ==>
      (es[k].ReadClock? ==> es[k].t <= max) && (es[k].SampleClock? ==> es[k].t <= max)
  }

  ghost predicate StateAtMost(s: State, max: nat) {
    && s.prod.now <= max && s.cons.ns <= max && s.cons.msgTs <= max
    && s.prod.view.clock <= max && s.cons.view.clock <= max
    && (forall k :: 0 <= k < |s.mem.timestamp| ==>
          s.mem.timestamp[k].value <= max && s.mem.timestamp[k].view.clock <= max)
    && (forall k :: 0 <= k < |s.mem.ready| ==> s.mem.ready[k].view.clock <= max)
    && (forall k :: 0 <= k < |s.samples| ==> s.samples[k].ns <= max)
  }

  lemma ProducerStepKeepsAtMost(s: State, e: Event, max: nat)
    requires ByProducer(e) && ProducerEnabled(s, e) && StateAtMost(s, max) && (e.ReadClock? ==> e.t <= max)
    ensures StateAtMost(ProducerStep(s, e), max)
  {}

  lemma ConsumerStepKeepsAtMost(s: State, e: Event, max: nat)
    requires ByConsumer(e) && ConsumerEnabled(s, e) && StateAtMost(s, max) && (e.SampleClock? ==> e.t <= max)
    ensures StateAtMost(ConsumerStep(s, e), max)
  {}

  lemma StepKeepsAtMost(s: State, e: Event, max: nat)
    requires Enabled(s, e) && StateAtMost(s, max)
    requires (e.ReadClock? ==> e.t <= max) && (e.SampleClock? ==> e.t <= max)
    ensures StateAtMost(Step(s, e), max)
  {
    if ByProducer(e) {
      ProducerStepKeepsAtMost(s, e, max);
    } else if ByConsumer(e) {
      ConsumerStepKeepsAtMost(s, e, max);
    }
  }

  lemma {:induction false} ReadingsBoundState(s: State, es: seq<Event>, max: nat)
    requires Run(s, es) && ReadingsAtMost(es, max) && StateAtMost(s, max)
    ensures StateAtMost(After(s, es), max)
    decreases |es|
  {
    if es != [] {
      forall k | 0 <= k < |es[1..]|
        ensures (es[1..][k].ReadClock? ==> es[1..][k].t <= max) && (es[1..][k].SampleClock? ==> es[1..][k].t <= max)
      {
        assert es[1..][k] == es[k + 1];
      }
      StepKeepsAtMost(s, es[0], max);
      ReadingsBoundState(Step(s, es[0]), es[1..], max);
    }
  }

  /** However many rounds are run, and whoever raises the exit, the latency, the sum so
      far and, for a message of its round, the new sum stay in the range of `int64_t`
      as long as the clock readings do.  Without external exit every message is that of
      its round. */
  lemma AccountingFitsInt64(rounds: nat, es: seq<Event>, time: int)
    requires Run(Init(rounds), es) && ReadingsAtMost(es, INT64_MAX)
    requires Enabled(After(Init(rounds), es), Count(time))
    ensures var s := After(Init(rounds), es);
      var m, x := s.cons.meter, Pending(s, time);
      && m.counter + 1 <= rounds && (rounds <= INT64_MAX ==> m.counter + 1 <= INT64_MAX)
      && -INT64_MAX <= x.Latency() <= INT64_MAX
      && 0 <= m.latencySum <= INT64_MAX
      && (Fresh(x, |s.samples|) ==> 0 <= x.Latency() && 0 <= m.latencySum + x.Latency() <= INT64_MAX)
      && (NoExternalExit(es) ==> Fresh(x, |s.samples|))
  {
    var s := After(Init(rounds), es);
    RunKeepsInv(Init(rounds), es);
    RoundsNeverChange(Init(rounds), es);
    CutMeansExternalExit(Init(rounds), es);
    MeterFollowsSamples(Init(rounds), es);
    ReadingsBoundState(Init(rounds), es, INT64_MAX);
    CountFits(s, time);
  }

  lemma CountFits(s: State, time: int)
    requires Inv(s) && s.cons.pc == CCounting && StateAtMost(s, INT64_MAX)
    requires s.cons.meter == AccountAll(s.cons.start, s.samples)
    ensures var m, x := s.cons.meter, Pending(s, time);
      && m.counter + 1 <= s.rounds
      && -INT64_MAX <= x.Latency() <= INT64_MAX
      && 0 <= m.latencySum <= INT64_MAX
      && (Fresh(x, |s.samples|) ==> 0 <= x.Latency() && 0 <= m.latencySum + x.Latency() <= INT64_MAX)
      && (!s.cut ==> Fresh(x, |s.samples|))
  {
    CountedSoFarAreOrdered(s, time);
    SumBelowLastSample(s.cons.start, s.samples);
    CounterAtMost(s.cons.start, s.samples);
    if Fresh(Pending(s, time), |s.samples|) {
      AccountNeverOverflows(s.cons.start, s.samples, Pending(s, time));
    }
    CountedBelowRounds(s);
  }

  lemma CountedBelowRounds(s: State)
    requires Inv(s) && s.cons.pc == CCounting
    ensures |s.samples| + 1 <= s.rounds
  {}

  /** The latencies of `w` are within the time it spans. */
  ghost predicate WithinSpan(w: seq<Sample>) {
    |w| > 0 ==> 0 <= Sum(w) <= w[|w| - 1].ns - w[0].ts
  }

  /** The printed lines of any run, external exits included, cut its samples into
      windows, whose sums and counts and the live accumulators add up to the totals, and
      every printed average lies within its window; without an external exit no
      window's sum exceeds the time it spans, the live one included. */
  lemma ReportsPartitionSamples(rounds: nat, es: seq<Event>)
      returns (ws: seq<seq<Sample>>, rest: seq<Sample>)
    requires Run(Init(rounds), es)
    ensures var s := After(Init(rounds), es);
      Windowing(s.cons.start, s.samples, ws, rest) && MeterMatches(s.cons.meter, s.cons.start, ws, rest)
    ensures var s := After(Init(rounds), es);
      && SumOfSums(ws) + s.cons.meter.latencySum == Sum(s.samples)
      && SumOfCounts(ws) + s.cons.meter.counter == |s.samples|
    ensures forall k :: 0 <= k < |ws| ==>
              Bracketed(After(Init(rounds), es).cons.meter.reports[k].avgLatency, ws[k])
    ensures NoExternalExit(es) ==> WithinSpan(rest) && forall k :: 0 <= k < |ws| ==> WithinSpan(ws[k])
  {
    var s := After(Init(rounds), es);
    MeterFollowsSamples(Init(rounds), es);
    ws, rest := MeterReportsWindows(s.cons.start, s.samples);
    WindowsAddUp(ws);
    SumAppend(Concat(ws), rest);
    forall k | 0 <= k < |ws| ensures Bracketed(s.cons.meter.reports[k].avgLatency, ws[k]) {
      AverageWithinWindow(s.cons.meter.reports[k], Begin(s.cons.start, ws, k), ws[k]);
    }
    if NoExternalExit(es) {
      LatencyIntervalsAreDisjoint(rounds, es);
      WindowsWithinSpan(ws, rest);
    }
  }

  lemma OrderedWithinSpan(w: seq<Sample>)
    requires Ordered(w)
    ensures WithinSpan(w)
  {
    if w != [] { SumWithinSpan(w); }
  }

  lemma RestIsSlice(front: seq<Sample>, rest: seq<Sample>)
    requires Ordered(front + rest)
    ensures Ordered(rest)
  {
    OrderedPart(front + rest, |front|, |front + rest|);
    assert (front + rest)[|front|..|front + rest|] == rest;
  }

  lemma WindowsWithinSpan(ws: seq<seq<Sample>>, rest: seq<Sample>)
    requires Ordered(Concat(ws) + rest)
    ensures WithinSpan(rest) && forall k :: 0 <= k < |ws| ==> WithinSpan(ws[k])
  {
    forall k | 0 <= k < |ws| ensures WithinSpan(ws[k]) {
      WindowIsSlice(ws, rest, k);
      OrderedWithinSpan(ws[k]);
    }
    RestIsSlice(Concat(ws), rest);
    OrderedWithinSpan(rest);
  }

  lemma {:induction false} WindowIsSlice(ws: seq<seq<Sample>>, rest: seq<Sample>, k: nat)
    requires k < |ws| && Ordered(Concat(ws) + rest)
    ensures Ordered(ws[k])
    decreases |ws|
  {
    var last := ws[|ws| - 1];
    var all := Concat(ws) + rest;
    if k == |ws| - 1 {
      var from := |Concat(ws[..k])|;
      OrderedPart(all, from, from + |last|);
      assert all[from..from + |last|] == last;
    } else {
      assert Concat(ws[..|ws| - 1]) + (last + rest) == all;
      WindowIsSlice(ws[..|ws| - 1], last + rest, k);
    }
  }
}
