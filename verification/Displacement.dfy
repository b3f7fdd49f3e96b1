/** What every run keeps, wherever clearing stores are placed. */
module Displacement {
  import opened Windows
  import opened Handshake
  import opened Invariant
  import opened Delivery
  import opened Loss
  import opened Progress
  import opened ExternalExit
  import opened Spacing
  import opened Placement

  // ---------- after a displaced store ----------

  /** The newest entry of `ready` is the producer's `true`, which nobody will ever
      clear; the producer can only leave. */
  ghost predicate ReadyStuck(s: State) {
    && |s.mem.exit| > 1 && (forall k :: 0 <= k < |s.mem.exit| ==> s.mem.exit[k].value == (k > 0))
    && |s.mem.timestamp| > 0 && |s.mem.ready| > 0 && s.prod.view.ready == |s.mem.ready| - 1
    && s.mem.ready[|s.mem.ready| - 1].value && s.mem.ready[|s.mem.ready| - 1].view.ready < |s.mem.ready|
    && (s.prod.pc == PPolling || s.prod.pc == PPollingExit
        || (Knows(s.prod.view) && (s.prod.pc == PTesting || s.prod.pc == PFinishing || s.prod.pc == PDone)))
    && s.prod.i <= s.rounds && (s.prod.pc == PPolling || s.prod.pc == PPollingExit ==> s.prod.i < s.rounds)
    && s.prod.view.exit < |s.mem.exit| && s.mem.ready[|s.mem.ready| - 1].view.exit < |s.mem.exit|
  }

  /** The consumer was cut off and can only count and leave. */
  ghost predicate OnItsWayOut(s: State) {
    && s.cut && Knows(s.cons.view) && s.cons.view.exit < |s.mem.exit|
    && (s.cons.pc == CCounting || s.cons.pc == CTesting || s.cons.pc == CDone)
    && (s.cons.pc == CCounting ==> LoggedOf(s, |s.samples|))
    && SamplesInv(s) && Spaced(s)
    && s.channel == 0 && s.lost == 0 && s.sent == s.received == Acks(s) && s.received <= s.rounds
  }

  ghost predicate Displaced(s: State) { ReadyStuck(s) && OnItsWayOut(s) }

  lemma ShiftedSamples(s: State, t: State, pos: nat)
    requires SamplesInv(s) && t.samples == s.samples && t.cut == s.cut
    requires t.mem.timestamp == ShiftAll(s.mem.timestamp, pos) && s.cons.pc == CClearing
    ensures SamplesInv(t)
  {
    forall k | 0 <= k < |t.samples| ensures SampleAt(t, k) { assert SampleAt(s, k); }
  }

  lemma ClearDisplaces(s: State, pos: nat)
    requires Inv(s) && s.cons.pc == CClearing && pos + 1 == |s.mem.ready| && CutOff(s)
    requires MayInsert(s.cons.view.ready, |s.mem.ready|, pos)
    ensures Displaced(ClearAt(s, pos))
  {
    var t := ClearAt(s, pos);
    AcknowledgingMeansParked(s);
    assert ReadyEntry(s.mem, pos);
    forall k | 0 <= k < |t.mem.exit| ensures t.mem.exit[k].value == (k > 0) { assert ExitEntry(s.mem, k); }
    ShiftedSamples(s, t, pos);
    InvMeansSpaced(s);
  }

  /** What the consumer's part depends on. */
  lemma WayOutFrame(s: State, t: State)
    requires OnItsWayOut(s) && t.cut && t.cons == s.cons && t.samples == s.samples && t.rounds == s.rounds
    requires t.mem.timestamp == s.mem.timestamp && t.mem.ready == s.mem.ready && |s.mem.exit| <= |t.mem.exit|
    requires t.channel == s.channel && t.lost == s.lost && t.sent == s.sent && t.received == s.received
    ensures OnItsWayOut(t)
  {
    forall k | 0 <= k < |t.samples| ensures SampleAt(t, k) { assert SampleAt(s, k); }
  }

  lemma StuckProducerStep(s: State, e: Event)
    requires ReadyStuck(s) && ByProducer(e) && ProducerEnabled(s, e)
    ensures ReadyStuck(ProducerStep(s, e))
    ensures var t := ProducerStep(s, e);
      && t.cut == s.cut && t.cons == s.cons && t.samples == s.samples && t.rounds == s.rounds
      && t.mem.timestamp == s.mem.timestamp && t.mem.ready == s.mem.ready && |s.mem.exit| <= |t.mem.exit|
      && t.channel == s.channel && t.lost == s.lost && t.sent == s.sent && t.received == s.received
  {}

  lemma DisplacedProducerStep(s: State, e: Event)
    requires Displaced(s) && ByProducer(e) && ProducerEnabled(s, e)
    ensures Displaced(ProducerStep(s, e)) && ProducerStep(s, e).samples == s.samples
  {
    StuckProducerStep(s, e);
    WayOutFrame(s, ProducerStep(s, e));
  }

  lemma DisplacedConsumerStep(s: State, e: Event)
    requires Displaced(s) && ByConsumer(e) && ConsumerEnabled(s, e)
    ensures Displaced(ConsumerStep(s, e))
    ensures s.cons.pc != CCounting ==> ConsumerStep(s, e).samples == s.samples
  {
    var t := ConsumerStep(s, e);
    forall k | 0 <= k < |t.samples| ensures SampleAt(t, k) {
      if k < |s.samples| { assert SampleAt(s, k); }
    }
  }

  lemma DisplacedEnvironmentStep(s: State, e: Event)
    requires Displaced(s) && e.ExternalExit?
    ensures Displaced(Step(s, e)) && Step(s, e).samples == s.samples
  {
    WayOutFrame(s, Step(s, e));
  }

  // ---------- every run ----------

  ghost predicate PlacedInv(s: State) { Inv(s) || Displaced(s) }

  lemma PerformKeepsInv(s: State, a: Act)
    requires PlacedInv(s) && Can(s, a)
    ensures PlacedInv(Perform(s, a))
  {
    match a
    case Ordinary(e) =>
      if Inv(s) {
        StepKeepsInv(s, e);
      } else if ByProducer(e) {
        DisplacedProducerStep(s, e);
      } else if ByConsumer(e) {
        DisplacedConsumerStep(s, e);
      } else {
        DisplacedEnvironmentStep(s, e);
      }
    case Clear(pos) =>
      OnlyOneOtherPlace(s, pos);
      if pos == |s.mem.ready| {
        ClearAtTheEnd(s);
        StepKeepsInv(s, ClearReady);
      } else {
        ClearDisplaces(s, pos);
      }
  }

  lemma {:induction false} PlacedRunKeepsInv(s: State, acts: seq<Act>)
    requires PlacedInv(s) && PlacedRun(s, acts)
    ensures PlacedInv(PlacedAfter(s, acts))
    decreases |acts|
  {
    if acts != [] {
      PerformKeepsInv(s, acts[0]);
      PlacedRunKeepsInv(Perform(s, acts[0]), acts[1..]);
    }
  }

  /** Triggers are conserved, and at most one is in flight, lost or waiting to be
      acknowledged at any time, whoever raises the exit; so at most one is ever lost. */
  lemma TriggersAreConserved(rounds: nat, s: State)
    requires PlacedLeads(Init(rounds), s)
    ensures s.sent == s.received + s.channel + s.lost
    ensures Acks(s) <= s.received
    ensures s.channel + s.lost + (s.received - Acks(s)) <= 1
  {
    PlacedLeadsKeepsInv(rounds, s);
    if Inv(s) { SentWithinOneRound(s); }
  }

  lemma DisplacingFalls(s: State, pos: nat)
    requires Can(s, Clear(pos))
    ensures Measure(ClearAt(s, pos)) == Measure(s) - 1
  {}

  lemma PlacedBounds(s: State)
    requires PlacedInv(s)
    ensures s.received <= s.rounds && s.prod.i <= s.rounds
    ensures ProducerRest(s) >= 0 && ConsumerRest(s) >= 0 && s.channel >= 0
  {
    if Inv(s) { ReceivedWithinRounds(s); MeasureIsNatural(s); }
  }

  /** Progress along every run: only spins and external exits leave the measure be. */
  lemma PerformDecreasesMeasure(s: State, a: Act)
    requires PlacedInv(s) && Can(s, a)
    ensures PlacedInv(Perform(s, a)) && Measure(Perform(s, a)) >= 0 && Perform(s, a).rounds == s.rounds
    ensures if a.Ordinary? && (Spin(s, a.e) || a.e.ExternalExit?) then Measure(Perform(s, a)) == Measure(s)
            else Measure(Perform(s, a)) < Measure(s)
  {
    PerformKeepsInv(s, a);
    PlacedBounds(s);
    PlacedBounds(Perform(s, a));
    match a
    case Ordinary(e) => MeasureFalls(s, e);
    case Clear(pos) => DisplacingFalls(s, pos);
  }

  /** A cut-off consumer that has counted its last sample. */
  ghost predicate Gone(s: State) {
    PlacedInv(s) && CutOff(s) && (s.cons.pc == CTesting || s.cons.pc == CDone)
  }

  lemma GoneStaysGone(s: State, a: Act)
    requires Gone(s) && Can(s, a)
    ensures Gone(Perform(s, a)) && Perform(s, a).samples == s.samples
  {
    PerformKeepsInv(s, a);
    if Inv(s) {
      LeavingStep(s, a.e);
    } else if ByProducer(a.e) {
      DisplacedProducerStep(s, a.e);
    } else if ByConsumer(a.e) {
      DisplacedConsumerStep(s, a.e);
    } else {
      DisplacedEnvironmentStep(s, a.e);
    }
  }

  lemma {:induction false} GoneForEver(s: State, acts: seq<Act>)
    requires Gone(s) && PlacedRun(s, acts)
    ensures PlacedAfter(s, acts).samples == s.samples
    decreases |acts|
  {
    if acts != [] {
      GoneStaysGone(s, acts[0]);
      GoneForEver(Perform(s, acts[0]), acts[1..]);
    }
  }

  lemma PlacedLeadsKeepsInv(rounds: nat, s: State)
    requires PlacedLeads(Init(rounds), s)
    ensures PlacedInv(s)
  {
    var acts :| PlacedRun(Init(rounds), acts) && PlacedAfter(Init(rounds), acts) == s;
    InvHoldsInitially(rounds);
    PlacedRunKeepsInv(Init(rounds), acts);
  }

  /** The producer's two stores have one place only, whoever raises the exit and
      wherever a clearing store went. */
  lemma ProducerStoresGoLast(rounds: nat, s: State, pos: nat)
    requires PlacedLeads(Init(rounds), s)
    ensures Enabled(s, RaiseReady) && MayInsert(s.prod.view.ready, |s.mem.ready|, pos) ==> pos == |s.mem.ready|
    ensures Enabled(s, StoreTimestamp) && MayInsert(s.prod.view.timestamp, |s.mem.timestamp|, pos) ==>
              pos == |s.mem.timestamp|
  {
    PlacedLeadsKeepsInv(rounds, s);
  }

  /** In every run, wherever clearing stores are placed, at most one counted sample is
      not that of its own round; someone else has then raised the exit, it is the last
      one counted in any continuation, and its timestamp is that of the round before
      or was taken after its own clock sample. */
  lemma OnlyTheLastSampleMayBeStale(rounds: nat, s: State, t: State, k: nat)
    requires PlacedLeads(Init(rounds), s) && PlacedLeads(s, t)
    requires k < |s.samples| && !Fresh(s.samples[k], k)
    ensures k == |s.samples| - 1 && t.samples == s.samples && s.cut
    ensures s.samples[k].slot < |s.mem.timestamp| && s.samples[k].ts == s.mem.timestamp[s.samples[k].slot].value
    ensures s.samples[k].slot == k || (s.samples[k].slot == k + 1 && s.samples[k].ns < s.samples[k].ts)
  {
    PlacedLeadsKeepsInv(rounds, s);
    assert SampleAt(s, k);
    var acts :| PlacedRun(s, acts) && PlacedAfter(s, acts) == t;
    GoneForEver(s, acts);
  }

  /** In every run, wherever clearing stores are placed, the latency intervals of the
      samples that are those of their rounds, all or all but the last, are disjoint. */
  lemma MatchedSamplesAreDisjoint(rounds: nat, s: State)
    requires PlacedLeads(Init(rounds), s)
    ensures Ordered(Matched(s)) && |s.samples| <= |Matched(s)| + 1
  {
    PlacedLeadsKeepsInv(rounds, s);
    if Inv(s) { InvMeansSpaced(s); }
    MatchedAreOrdered(s);
  }
}
