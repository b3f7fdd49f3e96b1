/** Runs in which only the producer stores `should_exit`: every timestamp is
    delivered once, in order, in its own round. */
module Delivery {
  import opened Handshake
  import opened Invariant

  /** Nobody but the producer stores `should_exit`. */
  ghost predicate NoExternalExit(es: seq<Event>) {
    forall k :: 0 <= k < |es| ==> !es[k].ExternalExit?
  }

  lemma {:induction false} CutMeansExternalExit(s: State, es: seq<Event>)
    requires Run(s, es)
    ensures After(s, es).cut <==> s.cut || !NoExternalExit(es)
    decreases |es|
  {
    if es != [] {
      CutMeansExternalExit(Step(s, es[0]), es[1..]);
      assert !NoExternalExit(es[1..]) ==> !NoExternalExit(es) by {
        if k :| 0 <= k < |es[1..]| && es[1..][k].ExternalExit? { assert es[k + 1].ExternalExit?; }
      }
      if NoExternalExit(es[1..]) && !es[0].ExternalExit? {
        forall k | 0 <= k < |es| ensures !es[k].ExternalExit? {
          if k > 0 { assert es[k] == es[1..][k - 1]; }
        }
      }
    }
  }

  lemma {:induction false} RoundsNeverChange(s: State, es: seq<Event>)
    requires Run(s, es)
    ensures After(s, es).rounds == s.rounds
    decreases |es|
  {
    if es != [] { RoundsNeverChange(Step(s, es[0]), es[1..]); }
  }

  /** A state of the two threads on their own. */
  ghost predicate Sound(s: State) { Inv(s) && !s.cut }

  /** Some run leads from `s` to `t`, external exits included. */
  ghost predicate Leads(s: State, t: State) {
    exists es :: Run(s, es) && After(s, es) == t
  }

  lemma LeadsKeepsInv(rounds: nat, s: State)
    requires Leads(Init(rounds), s)
    ensures Inv(s) && s.rounds == rounds
  {
    var es :| Run(Init(rounds), es) && After(Init(rounds), es) == s;
    InvHoldsInitially(rounds);
    RunKeepsInv(Init(rounds), es);
    RoundsNeverChange(Init(rounds), es);
  }

  /** Some run without external exit leads from `s` to `t`. */
  ghost predicate Reaches(s: State, t: State) {
    exists es :: Run(s, es) && NoExternalExit(es) && After(s, es) == t
  }

  lemma LeadsFurther(s: State, t: State, e: Event)
    requires Leads(s, t) && Enabled(t, e)
    ensures Leads(s, Step(t, e))
  {
    var es :| Run(s, es) && After(s, es) == t;
    RunOneMore(s, es, e);
  }

  lemma ReachesFurther(s: State, t: State, e: Event)
    requires Reaches(s, t) && Enabled(t, e) && !e.ExternalExit?
    ensures Reaches(s, Step(t, e))
  {
    var es :| Run(s, es) && NoExternalExit(es) && After(s, es) == t;
    RunOneMore(s, es, e);
    assert NoExternalExit(es + [e]);
  }

  lemma ReachesLeads(s: State, t: State)
    requires Reaches(s, t)
    ensures Leads(s, t)
  {
    var es :| Run(s, es) && NoExternalExit(es) && After(s, es) == t;
  }

  lemma ReachesItself(s: State)
    ensures Reaches(s, s) && Leads(s, s)
  {
    assert Run(s, []) && NoExternalExit([]) && After(s, []) == s;
  }

  lemma SoundStaysSound(s: State, t: State)
    requires Sound(s) && Reaches(s, t)
    ensures Sound(t) && t.rounds == s.rounds
  {
    var es :| Run(s, es) && NoExternalExit(es) && After(s, es) == t;
    RunKeepsInv(s, es);
    CutMeansExternalExit(s, es);
    RoundsNeverChange(s, es);
  }

  lemma ReachableIsSound(rounds: nat, s: State)
    requires Reaches(Init(rounds), s)
    ensures Sound(s) && s.rounds == rounds
  {
    InvHoldsInitially(rounds);
    SoundStaysSound(Init(rounds), s);
  }

  /** No thread can know of an exit before the producer is done. */
  lemma ExitKnownOnlyAtTheEnd(s: State)
    requires Sound(s)
    ensures Knows(s.prod.view) || Knows(s.cons.view) ==> s.prod.pc == PDone
    ensures s.prod.pc == PDone || s.prod.pc == PFinishing ==>
              && s.prod.i == s.rounds && |s.mem.timestamp| == s.rounds + 1
              && |s.mem.ready| == 2 * s.rounds + 1
  {}

  /** Nor does the consumer before it has acknowledged every round. */
  lemma AcknowledgingUnaware(s: State)
    requires Sound(s) && Acknowledging(s.cons.pc)
    ensures !Knows(s.cons.view) && !Knows(s.prod.view)
  {
    AcknowledgingMeansParked(s);
  }

  /** The `k`-th counted sample was loaded from the `k`-th published entry. */
  ghost predicate InOrder(s: State) {
    forall k :: 0 <= k < |s.samples| ==>
      s.samples[k].slot == k + 1 && k < |Published(s)| && s.samples[k].ts == Published(s)[k] <= s.samples[k].ns
  }

  /** Every counted sample carries the timestamp published in its own round: never
      a stale one, never the next one, never one twice. */
  lemma TimestampsDeliveredInOrder(rounds: nat, s: State)
    requires Reaches(Init(rounds), s)
    ensures |s.samples| <= |Published(s)| <= rounds
    ensures InOrder(s)
  {
    ReachableIsSound(rounds, s);
    SampleCountBelowPublished(s);
    SamplesAreFresh(s);
  }

  lemma SampleCountBelowPublished(s: State)
    requires Inv(s)
    ensures |s.samples| <= |s.mem.timestamp| - 1 <= s.rounds
  {}

  lemma SamplesAreFresh(s: State)
    requires Sound(s)
    ensures forall k :: 0 <= k < |s.samples| ==>
              Fresh(s.samples[k], k) && k + 1 < |s.mem.timestamp|
              && s.samples[k].ts == s.mem.timestamp[k + 1].value
  {
    forall k | 0 <= k < |s.samples|
      ensures Fresh(s.samples[k], k) && s.samples[k].ts == s.mem.timestamp[s.samples[k].slot].value
    {
      assert SampleAt(s, k);
    }
  }

  /** When the consumer loads `timestamp`, one entry only may be returned: the one
      stored in the round it is about to acknowledge.  The producer of that round
      is still spinning on `ready`. */
  lemma LoadReturnsCurrentRound(rounds: nat, s: State, idx: nat)
    requires Reaches(Init(rounds), s) && Enabled(s, LoadTimestamp(idx))
    ensures idx == |s.mem.timestamp| - 1 == s.received == Acks(s) + 1
    ensures s.prod.i == Acks(s) && (s.prod.pc == PPolling || s.prod.pc == PPollingExit)
  {
    ReachableIsSound(rounds, s);
    AcknowledgingMeansParked(s);
    AcknowledgingUnaware(s);
  }

  /** After a trigger the consumer's first look at `ready` may well be stale: both
      its own last `false` and the new `true` may be returned, and nothing else. */
  lemma TriggerDoesNotSynchronise(rounds: nat, s: State, idx: nat)
    requires Reaches(Init(rounds), s) && s.cons.pc == CWaiting
    ensures |s.mem.ready| >= 2
    ensures Enabled(s, WaitReady(idx)) <==> idx == |s.mem.ready| - 2 || idx == |s.mem.ready| - 1
    ensures !s.mem.ready[|s.mem.ready| - 2].value && s.mem.ready[|s.mem.ready| - 1].value
  {
    ReachableIsSound(rounds, s);
    AcknowledgingMeansParked(s);
    assert ReadyEntry(s.mem, |s.mem.ready| - 2) && ReadyEntry(s.mem, |s.mem.ready| - 1);
  }

  /** Nor does the producer learn at once of the clearing: in its spin it may go on
      loading its own `true`, or load the newest entry, and nothing else. */
  lemma ClearingIsSeenAnyTime(rounds: nat, s: State, idx: nat)
    requires Reaches(Init(rounds), s) && s.prod.pc == PPolling
    ensures Enabled(s, PollReady(idx)) <==> idx == 2 * s.prod.i + 1 || idx == |s.mem.ready| - 1
    ensures |s.mem.ready| == 2 * s.prod.i + 2 || |s.mem.ready| == 2 * s.prod.i + 3
    ensures s.mem.ready[2 * s.prod.i + 1].value
    ensures |s.mem.ready| == 2 * s.prod.i + 3 ==> !s.mem.ready[|s.mem.ready| - 1].value
  {
    ReachableIsSound(rounds, s);
    assert ReadyEntry(s.mem, 2 * s.prod.i + 1) && ReadyEntry(s.mem, |s.mem.ready| - 1);
  }

  /** The stores to `ready` alternate, starting from `false`. */
  lemma ReadyAlternates(rounds: nat, es: seq<Event>)
    requires Run(Init(rounds), es)
    ensures var ready := After(Init(rounds), es).mem.ready;
      forall k :: 0 <= k < |ready| ==> (ready[k].value <==> k % 2 == 1)
  {
    RunKeepsInv(Init(rounds), es);
    var m := After(Init(rounds), es).mem;
    forall k | 0 <= k < |m.ready| ensures m.ready[k].value <==> k % 2 == 1 { assert ReadyEntry(m, k); }
  }

  /** Where coherence would let a thread with newest known entry `known` place a
      store in a history of length `len`. */
  predicate MayInsert(known: nat, len: nat, pos: nat) { known < pos <= len }

  lemma ClearingGoesLast(s: State, pos: nat)
    requires Sound(s) && s.cons.pc == CClearing && MayInsert(s.cons.view.ready, |s.mem.ready|, pos)
    ensures pos == |s.mem.ready|
  {
    AcknowledgingUnaware(s);
    AcknowledgingMeansParked(s);
  }

  lemma ProducerKnowsNewest(s: State)
    requires Sound(s)
    ensures s.prod.pc == PRaising ==> s.prod.view.ready + 1 == |s.mem.ready|
    ensures s.prod.view.timestamp + 1 == |s.mem.timestamp|
    ensures s.prod.pc == PFinishing ==> |s.mem.exit| == 1
  {}

  /** Each store is made by a thread that knows the newest entry, so the end of the
      modification order is the only place it can take. */
  lemma StoresGoLast(rounds: nat, s: State, pos: nat)
    requires Reaches(Init(rounds), s)
    ensures Enabled(s, RaiseReady) && MayInsert(s.prod.view.ready, |s.mem.ready|, pos) ==> pos == |s.mem.ready|
    ensures Enabled(s, ClearReady) && MayInsert(s.cons.view.ready, |s.mem.ready|, pos) ==> pos == |s.mem.ready|
    ensures Enabled(s, StoreTimestamp) && MayInsert(s.prod.view.timestamp, |s.mem.timestamp|, pos) ==>
              pos == |s.mem.timestamp|
    ensures Enabled(s, StoreExit) && MayInsert(s.prod.view.exit, |s.mem.exit|, pos) ==> pos == |s.mem.exit|
  {
    ReachableIsSound(rounds, s);
    ProducerKnowsNewest(s);
    if Enabled(s, ClearReady) && MayInsert(s.cons.view.ready, |s.mem.ready|, pos) { ClearingGoesLast(s, pos); }
  }

  /** Between the consumer's seeing `ready` and its clearing it, no step stores
      `timestamp`, and none stores `ready` but the clearing itself. */
  lemma TimestampStableWhileSeen(rounds: nat, s: State, e: Event)
    requires Reaches(Init(rounds), s) && Enabled(s, e)
    requires s.cons.pc == CReading || s.cons.pc == CLoading || s.cons.pc == CClearing
    ensures Step(s, e).mem.timestamp == s.mem.timestamp
    ensures e != ClearReady ==> Step(s, e).mem.ready == s.mem.ready
  {
    ReachableIsSound(rounds, s);
    AcknowledgingMeansParked(s);
  }

  /** A run in which both threads finish has counted every round, in order; the
      relaxed `should_exit` cuts off none, and no trigger was lost. */
  lemma FinishedRunsAreComplete(rounds: nat, s: State)
    requires Reaches(Init(rounds), s) && s.prod.pc == PDone && s.cons.pc == CDone
    ensures |s.samples| == |Published(s)| == rounds == s.received
    ensures s.lost == 0 && s.channel == 0
    ensures forall k :: 0 <= k < rounds ==> s.samples[k].ts == Published(s)[k]
  {
    ReachableIsSound(rounds, s);
    ExitKnownOnlyAtTheEnd(s);
    TimestampsDeliveredInOrder(rounds, s);
  }
}
