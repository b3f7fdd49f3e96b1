/** What every step of the handshake keeps, whatever is lost, whoever fails and
    whoever raises `should_exit`. */
module Invariant {
  import opened Windows
  import opened Handshake

  /** Rounds the consumer has acknowledged by clearing `ready`. */
  function Acks(s: State): nat {
    if s.mem.ready == [] then 0 else (|s.mem.ready| - 1) / 2
  }

  /** A thread that has read `should_exit` as true, or learned of such a store. */
  predicate Knows(v: View) { v.exit > 0 }

  predicate InMemory(m: Memory, v: View) {
    v.timestamp < |m.timestamp| && v.ready < |m.ready| && v.exit < |m.exit|
  }

  ghost predicate TimestampEntry(m: Memory, k: nat)
    requires k < |m.timestamp|
  {
    InMemory(m, m.timestamp[k].view) && m.timestamp[k].view.timestamp == k
  }

  /** Entry `k` of `ready`: the values alternate, and the `true` of round `r`, at
      `2 * r + 1`, carries the timestamp of round `r`, entry `r + 1`. */
  ghost predicate ReadyEntry(m: Memory, k: nat)
    requires k < |m.ready|
  {
    var view := m.ready[k].view;
    && InMemory(m, view) && view.ready == k
    && m.ready[k].value == (k % 2 == 1)
    && view.timestamp <= (k + 1) / 2
    && (k % 2 == 1 ==> view.timestamp == (k + 1) / 2 && m.timestamp[view.timestamp].value <= view.clock)
  }

  ghost predicate ExitEntry(m: Memory, k: nat)
    requires k < |m.exit|
  {
    m.exit[k].value == (k > 0) && m.exit[k].view == BOTTOM
  }

  /** The modification orders and the views attached to their entries. */
  ghost predicate MemoryInv(m: Memory) {
    && |m.timestamp| > 0 && |m.ready| > 0 && |m.exit| > 0
    && (forall k :: 0 <= k < |m.timestamp| ==> TimestampEntry(m, k))
    && (forall k :: 0 <= k < |m.ready| ==> ReadyEntry(m, k))
    && (forall k :: 0 <= k < |m.exit| ==> ExitEntry(m, k))
  }

  /** The clock the consumer sampled in its `k`-th acknowledged round. */
  function AckClock(s: State, k: nat): int {
    if k < |s.samples| then s.samples[k].ns else s.cons.ns
  }

  predicate BetweenRounds(pc: ProducerPc) {
    !pc.PRaising? && !pc.PSending? && !pc.PPolling? && !pc.PPollingExit?
  }

  /** Between two rounds: every round so far is published, and acknowledged unless
      the producer left the last one because of an exit. */
  ghost predicate Settled(s: State) {
    var p, m := s.prod, s.mem;
    && |m.timestamp| == p.i + 1 && s.sent == p.i
    && if Knows(p.view) then 2 * p.i <= |m.ready| <= 2 * p.i + 1 && 2 * p.i <= p.view.ready + 1
       else |m.ready| == 2 * p.i + 1 && p.view.ready == 2 * p.i
            && (p.i > 0 ==> AckClock(s, p.i - 1) <= p.view.clock)
  }

  /** Inside round `i`, with `raised` and `sentOff` telling how far it is. */
  ghost predicate InRound(s: State, raised: bool, sentOff: bool) {
    var p, m := s.prod, s.mem;
    && p.i < s.rounds
    && |m.timestamp| == p.i + 2
    && m.timestamp[p.i + 1].value <= p.view.clock
    && p.view.ready == (if raised then 2 * p.i + 1 else 2 * p.i)
    && s.sent == (if sentOff then p.i + 1 else p.i)
    && (|m.ready| == p.view.ready + 1 || (sentOff && |m.ready| == p.view.ready + 2))
  }

  ghost predicate ProducerInv(s: State) {
    var p, m := s.prod, s.mem;
    && InMemory(m, p.view)
    && p.i <= s.rounds
    && p.view.timestamp == |m.timestamp| - 1
    && match p.pc
       case PBinding => Settled(s) && p.i == 0
       case PBindFailed => Settled(s) && p.i == 0
       case PTesting => Settled(s)
       case PReading => Settled(s) && p.i < s.rounds && !Knows(p.view)
       case PStoring => Settled(s) && p.i < s.rounds && !Knows(p.view) && p.now == p.view.clock
       case PRaising => InRound(s, false, false)
       case PSending => InRound(s, true, false)
       case PPolling => InRound(s, true, true)
       case PPollingExit => InRound(s, true, true)
       case PFinishing => Settled(s) && (p.i == s.rounds || Knows(p.view))
       case PDone => Settled(s) && |m.exit| > 1
  }

  predicate Acknowledging(pc: ConsumerPc) {
    pc.CWaiting? || pc.CWaitingExit? || pc.CReading? || pc.CLoading? || pc.CClearing?
  }

  /** The consumer's view is that of its last acknowledgement. */
  ghost predicate Behind(s: State) {
    s.cons.view.ready == 2 * Acks(s) && s.cons.view.timestamp == Acks(s)
  }

  /** The consumer has seen the round it is about to acknowledge. */
  ghost predicate Seen(s: State) {
    s.cons.view.ready == 2 * Acks(s) + 1 && s.cons.view.timestamp == Acks(s) + 1
  }

  /** The consumer has learned of an exit that was not the producer's. */
  predicate CutOff(s: State) { s.cut && Knows(s.cons.view) }

  ghost predicate ConsumerInv(s: State) {
    var c, m, a := s.cons, s.mem, Acks(s);
    && InMemory(m, c.view)
    && s.received == (if Acknowledging(c.pc) then a + 1 else a)
    && a == (if c.pc == CCounting then |s.samples| + 1 else |s.samples|)
    && match c.pc
       case CConnecting => Behind(s) && !Knows(c.view)
       case CFailed => Behind(s) || Knows(c.view)
       case CTesting => Behind(s) || Knows(c.view)
       case CReceiving => Behind(s) && !Knows(c.view)
       case CWaiting => Behind(s)
       case CWaitingExit => Behind(s)
       case CReading => (Seen(s) && TimestampBefore(m, a + 1, c.view.clock)) || (Behind(s) && CutOff(s))
       case CLoading =>
         && c.ns == c.view.clock
         && ((Seen(s) && TimestampBefore(m, a + 1, c.ns)) || (Behind(s) && CutOff(s)))
       case CClearing =>
         && c.ns <= c.view.clock && LoggedOf(s, a)
         && c.view.timestamp <= a + 1 && 2 * a <= c.view.ready && (Seen(s) || CutOff(s))
       case CCounting => LoggedOf(s, a - 1) && (Behind(s) || CutOff(s))
       case CDone => Knows(c.view)
  }

  ghost predicate TimestampBefore(m: Memory, k: nat, clock: nat) {
    k < |m.timestamp| && m.timestamp[k].value <= clock
  }

  /** What the consumer's locals say of round `k`: the entry loaded is that of the
      round or, only when cut off, the one before. */
  ghost predicate LoggedOf(s: State, k: nat) {
    var c, m := s.cons, s.mem;
    && k <= c.slot <= k + 1 && c.slot < |m.timestamp|
    && c.msgTs == m.timestamp[c.slot].value
    && (CutOff(s) || (c.slot == k + 1 && c.msgTs <= c.ns))
  }

  ghost predicate Fresh(x: Sample, k: nat) {
    x.slot == k + 1 && x.ts <= x.ns
  }

  /** Sample `k` was loaded from the entry of its round or the one before. */
  ghost predicate SampleAt(s: State, k: nat)
    requires k < |s.samples|
  {
    var x, ts := s.samples[k], s.mem.timestamp;
    && k <= x.slot <= k + 1 && x.slot < |ts| && x.ts == ts[x.slot].value
    && (Fresh(x, k)
        || (k == |s.samples| - 1 && CutOff(s) && (s.cons.pc == CTesting || s.cons.pc == CDone)))
  }

  /** All counted samples but the last are fresh; the last is too, unless the
      consumer was cut off, and then it will count no more. */
  ghost predicate SamplesInv(s: State) {
    forall k :: 0 <= k < |s.samples| ==> SampleAt(s, k)
  }

  /** Round `r` was acknowledged after its clock sample and before the next
      timestamp was taken. */
  ghost predicate AckedAt(s: State, r: nat) {
    && 2 * r + 2 < |s.mem.ready| && AckClock(s, r) <= s.mem.ready[2 * r + 2].view.clock
    && (r + 2 < |s.mem.timestamp| ==> AckClock(s, r) <= s.mem.timestamp[r + 2].value)
  }

  /** Clock readings respect the order of the rounds. */
  ghost predicate ClockInv(s: State) {
    forall r :: 0 <= r < Acks(s) ==> AckedAt(s, r)
  }

  /** Triggers are conserved, and `should_exit` is stored by the producer only at
      its end. */
  ghost predicate CountInv(s: State) {
    && s.sent == s.received + s.channel + s.lost
    && (|s.mem.exit| > 1 ==> s.cut || s.prod.pc == PDone)
    && (s.prod.pc == PDone ==> s.cut || (s.prod.i == s.rounds && |s.mem.ready| == 2 * s.rounds + 1))
    && (s.cut ==> |s.mem.exit| > 1)
  }

  ghost predicate Inv(s: State) {
    MemoryInv(s.mem) && ProducerInv(s) && ConsumerInv(s) && SamplesInv(s) && ClockInv(s) && CountInv(s)
  }

  // ---------- memory ----------

  /** `m'` has all entries of `m`. */
  ghost predicate Extends(m: Memory, m': Memory) {
    m.timestamp <= m'.timestamp && m.ready <= m'.ready && m.exit <= m'.exit
  }

  lemma EntriesSurvive(m: Memory, m': Memory)
    requires MemoryInv(m) && Extends(m, m')
    ensures forall k :: 0 <= k < |m.timestamp| ==> TimestampEntry(m', k)
    ensures forall k :: 0 <= k < |m.ready| ==> ReadyEntry(m', k)
    ensures forall k :: 0 <= k < |m.exit| ==> ExitEntry(m', k)
  {
    forall k | 0 <= k < |m.timestamp| ensures TimestampEntry(m', k) { assert TimestampEntry(m, k); }
    forall k | 0 <= k < |m.ready| ensures ReadyEntry(m', k) { assert ReadyEntry(m, k); }
    forall k | 0 <= k < |m.exit| ensures ExitEntry(m', k) { assert ExitEntry(m, k); }
  }

  lemma ReleaseTimestampKeepsMemory(m: Memory, v: View, value: nat)
    requires MemoryInv(m) && InMemory(m, v)
    ensures MemoryInv(ReleaseTimestamp(m, v, value).0)
  {
    EntriesSurvive(m, ReleaseTimestamp(m, v, value).0);
  }

  lemma ReleaseReadyKeepsMemory(m: Memory, v: View, value: bool)
    requires MemoryInv(m) && InMemory(m, v)
    requires value == (|m.ready| % 2 == 1) && v.timestamp <= (|m.ready| + 1) / 2
    requires value ==> v.timestamp == (|m.ready| + 1) / 2 && m.timestamp[v.timestamp].value <= v.clock
    ensures MemoryInv(ReleaseReady(m, v, value).0)
  {
    EntriesSurvive(m, ReleaseReady(m, v, value).0);
  }

  lemma RelaxedExitKeepsMemory(m: Memory)
    requires MemoryInv(m)
    ensures MemoryInv(RelaxedExit(m))
  {
    EntriesSurvive(m, RelaxedExit(m));
  }

  // ---------- the two threads together ----------

  /** While the consumer handles a trigger, the producer is parked: its round is
      published and raised, and nothing else is in flight or lost. */
  ghost predicate Parked(s: State) {
    && |s.mem.ready| == 2 * Acks(s) + 2 && |s.mem.timestamp| == Acks(s) + 2
    && s.channel == 0 && s.lost == 0 && s.sent == Acks(s) + 1
    && if Knows(s.prod.view) && BetweenRounds(s.prod.pc) then s.prod.i == Acks(s) + 1
       else (s.prod.pc == PPolling || s.prod.pc == PPollingExit) && s.prod.i == Acks(s)
  }

  lemma AcknowledgingMeansParked(s: State)
    requires Inv(s) && Acknowledging(s.cons.pc)
    ensures Parked(s)
  {}

  // ---------- steps of the producer ----------

  lemma ProducerStepKeepsMemory(s: State, e: Event)
    requires MemoryInv(s.mem) && ProducerInv(s) && ByProducer(e) && ProducerEnabled(s, e)
    ensures MemoryInv(ProducerStep(s, e).mem) && Extends(s.mem, ProducerStep(s, e).mem)
  {
    match e
    case StoreTimestamp => ReleaseTimestampKeepsMemory(s.mem, s.prod.view, s.prod.now);
    case RaiseReady => ReleaseReadyKeepsMemory(s.mem, s.prod.view, true);
    case StoreExit => RelaxedExitKeepsMemory(s.mem);
    case _ =>
  }

  lemma ProducerLocalStepKeepsProducer(s: State, e: Event)
    requires ProducerInv(s) && (e.Bind? || e.RoundsOver? || e.ReadClock? || e.SendTrigger?) && ProducerEnabled(s, e)
    ensures ProducerInv(ProducerStep(s, e))
  {}

  lemma ProducerStoreKeepsProducer(s: State, e: Event)
    requires ProducerInv(s) && (e.StoreTimestamp? || e.RaiseReady? || e.StoreExit?) && ProducerEnabled(s, e)
    ensures ProducerInv(ProducerStep(s, e))
  {}

  lemma ProducerExitLoadKeepsProducer(s: State, e: Event)
    requires ProducerInv(s) && (e.TestExit? || e.PollExit?) && ProducerEnabled(s, e)
    requires ExitEntry(s.mem, e.idx)
    ensures ProducerInv(ProducerStep(s, e))
  {}

  lemma PollReadyKeepsProducer(s: State, e: Event)
    requires ProducerInv(s) && e.PollReady? && ProducerEnabled(s, e)
    requires ReadyEntry(s.mem, e.idx)
    requires |s.mem.ready| == 2 * s.prod.i + 3 ==> AckedAt(s, s.prod.i)
    ensures ProducerInv(ProducerStep(s, e))
  {
    var s', i := ProducerStep(s, e), s.prod.i;
    if e.idx == 2 * i + 1 {
      assert s'.prod.view.ready == 2 * i + 1 && s'.prod.pc == PPollingExit;
    } else {
      assert e.idx == 2 * i + 2 && s'.prod.pc == PTesting;
      assert AckClock(s', i) == AckClock(s, i);
    }
  }

  lemma ProducerStepKeepsProducer(s: State, e: Event)
    requires MemoryInv(s.mem) && ProducerInv(s) && ClockInv(s) && ByProducer(e) && ProducerEnabled(s, e)
    ensures ProducerInv(ProducerStep(s, e))
  {
    match e
    case StoreTimestamp => ProducerStoreKeepsProducer(s, e);
    case RaiseReady => ProducerStoreKeepsProducer(s, e);
    case StoreExit => ProducerStoreKeepsProducer(s, e);
    case TestExit(idx) => assert ExitEntry(s.mem, idx); ProducerExitLoadKeepsProducer(s, e);
    case PollExit(idx) => assert ExitEntry(s.mem, idx); ProducerExitLoadKeepsProducer(s, e);
    case PollReady(idx) =>
      assert ReadyEntry(s.mem, idx);
      assert |s.mem.ready| == 2 * s.prod.i + 3 ==> Acks(s) == s.prod.i + 1;
      PollReadyKeepsProducer(s, e);
    case _ => ProducerLocalStepKeepsProducer(s, e);
  }

  /** What the consumer's part depends on. */
  lemma ConsumerFrame(s: State, s': State)
    requires ConsumerInv(s) && Extends(s.mem, s'.mem) && (s.cut ==> s'.cut)
    requires s'.cons == s.cons && s'.received == s.received && s'.samples == s.samples && Acks(s') == Acks(s)
    ensures ConsumerInv(s')
  {}

  lemma SamplesFrame(s: State, s': State)
    requires SamplesInv(s) && Extends(s.mem, s'.mem) && (s.cut ==> s'.cut)
    requires s'.cons == s.cons && s'.samples == s.samples
    ensures SamplesInv(s')
  {
    forall k | 0 <= k < |s'.samples| ensures SampleAt(s', k) { assert SampleAt(s, k); }
  }

  lemma ProducerStepKeepsConsumer(s: State, e: Event)
    requires ProducerInv(s) && ConsumerInv(s) && SamplesInv(s) && ByProducer(e) && ProducerEnabled(s, e)
    requires Extends(s.mem, ProducerStep(s, e).mem) && |s.mem.ready| > 0
    ensures ConsumerInv(ProducerStep(s, e)) && SamplesInv(ProducerStep(s, e))
    ensures Acks(ProducerStep(s, e)) == Acks(s)
  {
    ConsumerFrame(s, ProducerStep(s, e));
    SamplesFrame(s, ProducerStep(s, e));
  }

  lemma ProducerStepKeepsClock(s: State, e: Event)
    requires ProducerInv(s) && ClockInv(s) && ByProducer(e) && ProducerEnabled(s, e)
    requires Extends(s.mem, ProducerStep(s, e).mem) && Acks(ProducerStep(s, e)) == Acks(s)
    ensures ClockInv(ProducerStep(s, e))
  {
    var s' := ProducerStep(s, e);
    forall r | 0 <= r < Acks(s') ensures AckedAt(s', r) { assert AckedAt(s, r); }
  }

  lemma ProducerStepKeepsCount(s: State, e: Event)
    requires ProducerInv(s) && CountInv(s) && ByProducer(e) && ProducerEnabled(s, e)
    requires e.TestExit? || e.PollExit? ==> ExitEntry(s.mem, e.idx)
    ensures CountInv(ProducerStep(s, e))
  {}

  lemma ProducerStepKeepsInv(s: State, e: Event)
    requires Inv(s) && ByProducer(e) && ProducerEnabled(s, e)
    ensures Inv(ProducerStep(s, e))
  {
    if e.TestExit? || e.PollExit? { assert ExitEntry(s.mem, e.idx); }
    ProducerStepKeepsMemory(s, e);
    ProducerStepKeepsProducer(s, e);
    ProducerStepKeepsConsumer(s, e);
    ProducerStepKeepsClock(s, e);
    ProducerStepKeepsCount(s, e);
  }

  // ---------- steps of the consumer ----------

  lemma ConsumerStepKeepsMemory(s: State, e: Event)
    requires MemoryInv(s.mem) && ConsumerInv(s) && ByConsumer(e) && ConsumerEnabled(s, e)
    requires Acknowledging(s.cons.pc) ==> Parked(s)
    ensures MemoryInv(ConsumerStep(s, e).mem) && Extends(s.mem, ConsumerStep(s, e).mem)
  {
    if e.ClearReady? { ReleaseReadyKeepsMemory(s.mem, s.cons.view, false); }
  }

  lemma WaitReadyKeepsConsumer(s: State, e: Event)
    requires MemoryInv(s.mem) && ConsumerInv(s) && e.WaitReady? && ConsumerEnabled(s, e) && Parked(s)
    ensures ConsumerInv(ConsumerStep(s, e))
  {
    var s', a := ConsumerStep(s, e), Acks(s);
    assert ReadyEntry(s.mem, e.idx);
    if e.idx == 2 * a + 1 {
      assert Seen(s') && TimestampBefore(s'.mem, a + 1, s'.cons.view.clock);
    } else {
      assert e.idx == 2 * a && Behind(s');
    }
  }

  lemma LoadTimestampKeepsConsumer(s: State, e: Event)
    requires ConsumerInv(s) && e.LoadTimestamp? && ConsumerEnabled(s, e) && Parked(s)
    requires TimestampEntry(s.mem, e.idx)
    ensures ConsumerInv(ConsumerStep(s, e))
  {}

  lemma ClearReadyKeepsConsumer(s: State)
    requires ConsumerInv(s) && ConsumerEnabled(s, ClearReady) && Parked(s)
    ensures ConsumerInv(ConsumerStep(s, ClearReady)) && Acks(ConsumerStep(s, ClearReady)) == Acks(s) + 1
  {}

  lemma ConsumerExitLoadKeepsConsumer(s: State, e: Event)
    requires ConsumerInv(s) && CountInv(s) && (e.LoopTest? || e.WaitExit?) && ConsumerEnabled(s, e)
    requires e.WaitExit? ==> Parked(s)
    requires ExitEntry(s.mem, e.idx)
    ensures ConsumerInv(ConsumerStep(s, e))
  {}

  lemma ConsumerLocalStepKeepsConsumer(s: State, e: Event)
    requires e.Connect? || e.Receive? || e.ReceiveFails? || e.SampleClock? || e.Count?
    requires ConsumerInv(s) && ConsumerEnabled(s, e)
    ensures ConsumerInv(ConsumerStep(s, e))
  {}

  lemma ConsumerStepKeepsConsumer(s: State, e: Event)
    requires MemoryInv(s.mem) && ConsumerInv(s) && CountInv(s) && ByConsumer(e) && ConsumerEnabled(s, e)
    requires Acknowledging(s.cons.pc) ==> Parked(s)
    ensures ConsumerInv(ConsumerStep(s, e))
  {
    match e
    case WaitReady(_) => WaitReadyKeepsConsumer(s, e);
    case LoadTimestamp(idx) => assert TimestampEntry(s.mem, idx); LoadTimestampKeepsConsumer(s, e);
    case ClearReady => ClearReadyKeepsConsumer(s);
    case LoopTest(idx) => assert ExitEntry(s.mem, idx); ConsumerExitLoadKeepsConsumer(s, e);
    case WaitExit(idx) => assert ExitEntry(s.mem, idx); ConsumerExitLoadKeepsConsumer(s, e);
    case _ => ConsumerLocalStepKeepsConsumer(s, e);
  }

  /** What the producer's part depends on. */
  lemma ProducerFrame(s: State, s': State)
    requires ProducerInv(s) && Extends(s.mem, s'.mem)
    requires s'.prod == s.prod && s'.rounds == s.rounds && s'.sent == s.sent
    requires |s'.mem.timestamp| == |s.mem.timestamp| && |s'.mem.ready| == |s.mem.ready|
    requires Settled(s) && !Knows(s.prod.view) && s.prod.i > 0 ==>
               AckClock(s', s.prod.i - 1) == AckClock(s, s.prod.i - 1)
    ensures ProducerInv(s')
  {}

  lemma ClearReadyKeepsProducer(s: State)
    requires ProducerInv(s) && ConsumerEnabled(s, ClearReady) && Parked(s)
    ensures ProducerInv(ConsumerStep(s, ClearReady))
  {}

  lemma ConsumerStepKeepsProducer(s: State, e: Event)
    requires ProducerInv(s) && ConsumerInv(s) && ByConsumer(e) && ConsumerEnabled(s, e)
    requires Acknowledging(s.cons.pc) ==> Parked(s)
    ensures ProducerInv(ConsumerStep(s, e))
  {
    if e.ClearReady? {
      ClearReadyKeepsProducer(s);
    } else {
      ProducerFrame(s, ConsumerStep(s, e));
    }
  }

  lemma CountKeepsSamples(s: State, e: Event)
    requires ConsumerInv(s) && SamplesInv(s) && e.Count? && ConsumerEnabled(s, e)
    ensures SamplesInv(ConsumerStep(s, e))
  {
    var s' := ConsumerStep(s, e);
    forall k | 0 <= k < |s'.samples| ensures SampleAt(s', k) {
      if k < |s.samples| { assert SampleAt(s, k); }
    }
  }

  lemma ConsumerStepKeepsSamples(s: State, e: Event)
    requires ConsumerInv(s) && SamplesInv(s) && ByConsumer(e) && ConsumerEnabled(s, e)
    requires e.LoopTest? ==> ExitEntry(s.mem, e.idx)
    requires Extends(s.mem, ConsumerStep(s, e).mem)
    ensures SamplesInv(ConsumerStep(s, e))
  {
    var s' := ConsumerStep(s, e);
    if e.Count? {
      CountKeepsSamples(s, e);
    } else {
      forall k | 0 <= k < |s'.samples| ensures SampleAt(s', k) { assert SampleAt(s, k); }
    }
  }

  lemma ConsumerStepKeepsClock(s: State, e: Event)
    requires ConsumerInv(s) && ClockInv(s) && ByConsumer(e) && ConsumerEnabled(s, e)
    requires Acknowledging(s.cons.pc) ==> Parked(s)
    requires Extends(s.mem, ConsumerStep(s, e).mem)
    ensures ClockInv(ConsumerStep(s, e))
  {
    var s' := ConsumerStep(s, e);
    forall r | 0 <= r < Acks(s') ensures AckedAt(s', r) {
      if r < Acks(s) {
        assert AckedAt(s, r);
        assert AckClock(s', r) == AckClock(s, r);
      }
    }
  }

  lemma ConsumerStepKeepsCount(s: State, e: Event)
    requires CountInv(s) && ByConsumer(e) && ConsumerEnabled(s, e)
    requires Acknowledging(s.cons.pc) ==> Parked(s)
    ensures CountInv(ConsumerStep(s, e))
  {}

  lemma ConsumerStepKeepsInv(s: State, e: Event)
    requires Inv(s) && ByConsumer(e) && ConsumerEnabled(s, e)
    ensures Inv(ConsumerStep(s, e))
  {
    if Acknowledging(s.cons.pc) { AcknowledgingMeansParked(s); }
    if e.LoopTest? { assert ExitEntry(s.mem, e.idx); }
    ConsumerStepKeepsMemory(s, e);
    ConsumerStepKeepsProducer(s, e);
    ConsumerStepKeepsConsumer(s, e);
    ConsumerStepKeepsSamples(s, e);
    ConsumerStepKeepsClock(s, e);
    ConsumerStepKeepsCount(s, e);
  }

  // ---------- every step, every run ----------

  /** The environment touches neither thread nor its histories, but for `should_exit`. */
  lemma EnvironmentFrame(s: State, s': State)
    requires ProducerInv(s) && ConsumerInv(s) && SamplesInv(s) && ClockInv(s)
    requires s'.prod == s.prod && s'.cons == s.cons && s'.samples == s.samples && s'.rounds == s.rounds
    requires s'.sent == s.sent && s'.received == s.received && (s.cut ==> s'.cut)
    requires s'.mem.timestamp == s.mem.timestamp && s'.mem.ready == s.mem.ready && s.mem.exit <= s'.mem.exit
    ensures ProducerInv(s') && ConsumerInv(s') && SamplesInv(s') && ClockInv(s')
  {
    ConsumerFrame(s, s');
    SamplesFrame(s, s');
    ProducerFrame(s, s');
    forall r | 0 <= r < Acks(s') ensures AckedAt(s', r) { assert AckedAt(s, r); }
  }

  lemma EnvironmentKeepsInv(s: State, e: Event)
    requires Inv(s) && (e.Lose? || e.ExternalExit?) && Enabled(s, e)
    ensures Inv(Step(s, e))
  {
    if e.ExternalExit? { RelaxedExitKeepsMemory(s.mem); }
    EnvironmentFrame(s, Step(s, e));
  }

  lemma InvHoldsInitially(rounds: nat)
    ensures Inv(Init(rounds))
  {}

  /** Every step of either thread or of the environment keeps the invariant. */
  lemma StepKeepsInv(s: State, e: Event)
    requires Inv(s) && Enabled(s, e)
    ensures Inv(Step(s, e))
  {
    if ByProducer(e) {
      ProducerStepKeepsInv(s, e);
    } else if ByConsumer(e) {
      ConsumerStepKeepsInv(s, e);
    } else {
      EnvironmentKeepsInv(s, e);
    }
  }

  lemma {:induction false} RunKeepsInv(s: State, es: seq<Event>)
    requires Inv(s) && Run(s, es)
    ensures Inv(After(s, es))
    decreases |es|
  {
    if es != [] {
      StepKeepsInv(s, es[0]);
      RunKeepsInv(Step(s, es[0]), es[1..]);
    }
  }
}
