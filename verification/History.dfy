/** What a run has done, told from its events alone: which stores each location has
    seen, where each thread stands in its program, and what has been counted. */
module History {
  import opened Windows
  import opened Handshake

  // Everything here is about the first `n` events of `es`.

  function CountIf(es: seq<Event>, n: nat, p: Event -> bool): nat
    requires n <= |es|
  {
    if n == 0 then 0 else CountIf(es, n - 1, p) + if p(es[n - 1]) then 1 else 0
  }

  predicate IsSend(e: Event) { e.SendTrigger? }

  predicate IsReceipt(e: Event) { e.Receive? && e.got }

  predicate IsLoss(e: Event) { e.Lose? }

  predicate IsExternalExit(e: Event) { e.ExternalExit? }

  predicate IsCount(e: Event) { e.Count? }

  predicate StoresTimestamp(e: Event) { e.StoreTimestamp? }

  predicate StoresReady(e: Event) { e.RaiseReady? || e.ClearReady? }

  predicate StoresExit(e: Event) { e.StoreExit? || e.ExternalExit? }

  // ---------- what the threads have read ----------

  function LastRead(es: seq<Event>, n: nat): nat
    requires n <= |es|
  {
    if n == 0 then 0 else if es[n - 1].ReadClock? then es[n - 1].t else LastRead(es, n - 1)
  }

  function LastSampled(es: seq<Event>, n: nat): nat
    requires n <= |es|
  {
    if n == 0 then 0 else if es[n - 1].SampleClock? then es[n - 1].t else LastSampled(es, n - 1)
  }

  function LastLoaded(es: seq<Event>, n: nat): nat
    requires n <= |es|
  {
    if n == 0 then 0 else if es[n - 1].LoadTimestamp? then es[n - 1].idx else LastLoaded(es, n - 1)
  }

  function StartTime(es: seq<Event>, n: nat): int
    requires n <= |es|
  {
    if n == 0 then 0 else if es[n - 1].Connect? && es[n - 1].ok then es[n - 1].now else StartTime(es, n - 1)
  }

  // ---------- the values stored ----------

  function Timestamps(es: seq<Event>, n: nat): (h: seq<nat>)
    requires n <= |es|
    ensures |h| == 1 + CountIf(es, n, StoresTimestamp)
  {
    if n == 0 then [0]
    else Timestamps(es, n - 1) + if es[n - 1].StoreTimestamp? then [LastRead(es, n - 1)] else []
  }

  function Readies(es: seq<Event>, n: nat): (h: seq<bool>)
    requires n <= |es|
    ensures |h| == 1 + CountIf(es, n, StoresReady)
  {
    if n == 0 then [false]
    else Readies(es, n - 1) + if StoresReady(es[n - 1]) then [es[n - 1].RaiseReady?] else []
  }

  /** The value an index of `ready` stands for; there is one for every load of a run. */
  predicate ReadyIs(es: seq<Event>, n: nat, idx: nat)
    requires n <= |es|
  {
    idx < |Readies(es, n)| && Readies(es, n)[idx]
  }

  // ---------- where the threads are ----------

  function ProducerPlace(es: seq<Event>, n: nat): ProducerPc
    requires n <= |es|
  {
    if n == 0 then PBinding else
    match es[n - 1]
    case Bind(ok) => if ok then PTesting else PBindFailed
    case RoundsOver => PFinishing
    case TestExit(idx) => if idx > 0 then PFinishing else PReading
    case ReadClock(_) => PStoring
    case StoreTimestamp => PRaising
    case RaiseReady => PSending
    case SendTrigger => PPolling
    case PollReady(idx) => if ReadyIs(es, n - 1, idx) then PPollingExit else PTesting
    case PollExit(idx) => if idx > 0 then PTesting else PPolling
    case StoreExit => PDone
    case _ => ProducerPlace(es, n - 1)
  }

  /** The rounds the producer has left: `ready` found cleared, or the exit raised. */
  function RoundsEnded(es: seq<Event>, n: nat): nat
    requires n <= |es|
  {
    if n == 0 then 0
    else RoundsEnded(es, n - 1)
         + match es[n - 1]
           case PollReady(idx) => if ReadyIs(es, n - 1, idx) then 0 else 1
           case PollExit(idx) => if idx > 0 then 1 else 0
           case _ => 0
  }

  function ConsumerPlace(es: seq<Event>, n: nat): ConsumerPc
    requires n <= |es|
  {
    if n == 0 then CConnecting else
    match es[n - 1]
    case Connect(ok, _) => if ok then CTesting else CFailed
    case LoopTest(idx) => if idx > 0 then CDone else CReceiving
    case Receive(got) => if got then CWaiting else CTesting
    case ReceiveFails => CFailed
    case WaitReady(idx) => if ReadyIs(es, n - 1, idx) then CReading else CWaitingExit
    case WaitExit(idx) => if idx > 0 then CReading else CWaiting
    case SampleClock(_) => CLoading
    case LoadTimestamp(_) => CClearing
    case ClearReady => CCounting
    case Count(_) => CTesting
    case _ => ConsumerPlace(es, n - 1)
  }

  /** The messages counted: entry loaded and its value, clock sampled, wall clock read. */
  function Counted(es: seq<Event>, n: nat): (xs: seq<Sample>)
    requires n <= |es|
    ensures |xs| == CountIf(es, n, IsCount)
  {
    if n == 0 then []
    else Counted(es, n - 1) + if es[n - 1].Count? then [Message(es, n - 1, es[n - 1].time)] else []
  }

  function Message(es: seq<Event>, n: nat, time: int): Sample
    requires n <= |es|
  {
    var slot, all := LastLoaded(es, n), Timestamps(es, n);
    Sample(slot, if slot < |all| then all[slot] else 0, LastSampled(es, n), time)
  }

  // ---------- the state machine does just that ----------

  function Values<T>(h: seq<Entry<T>>): seq<T> {
    seq(|h|, k requires 0 <= k < |h| => h[k].value)
  }

  ghost predicate MemoryRecorded(m: Memory, es: seq<Event>, n: nat)
    requires n <= |es|
  {
    && Values(m.timestamp) == Timestamps(es, n)
    && Values(m.ready) == Readies(es, n)
    && |m.exit| == 1 + CountIf(es, n, StoresExit)
    && forall k :: 0 <= k < |m.exit| ==> m.exit[k].value == (k > 0)
  }

  ghost predicate ProducerRecorded(p: Producer, es: seq<Event>, n: nat)
    requires n <= |es|
  {
    p.pc == ProducerPlace(es, n) && p.i == RoundsEnded(es, n) && p.now == LastRead(es, n)
  }

  ghost predicate ConsumerRecorded(c: Consumer, es: seq<Event>, n: nat)
    requires n <= |es|
  {
    && c.pc == ConsumerPlace(es, n) && c.ns == LastSampled(es, n) && c.slot == LastLoaded(es, n)
    && c.start == StartTime(es, n) && c.slot < |Timestamps(es, n)| && c.msgTs == Timestamps(es, n)[c.slot]
  }

  ghost predicate ChannelRecorded(s: State, es: seq<Event>, n: nat)
    requires n <= |es|
  {
    && s.sent == CountIf(es, n, IsSend) && s.received == CountIf(es, n, IsReceipt)
    && s.lost == CountIf(es, n, IsLoss) && s.channel == s.sent - s.received - s.lost
    && s.cut == (CountIf(es, n, IsExternalExit) > 0)
  }

  ghost predicate Recorded(s: State, es: seq<Event>, n: nat)
    requires n <= |es|
  {
    && MemoryRecorded(s.mem, es, n) && ProducerRecorded(s.prod, es, n) && ConsumerRecorded(s.cons, es, n)
    && ChannelRecorded(s, es, n) && s.samples == Counted(es, n)
  }

  lemma ValuesAppend<T>(h: seq<Entry<T>>, e: Entry<T>)
    ensures Values(h + [e]) == Values(h) + [e.value]
  {}

  lemma ValuesAt<T>(h: seq<Entry<T>>, k: nat)
    requires k < |h|
    ensures |Values(h)| == |h| && Values(h)[k] == h[k].value
  {}

  lemma ReadyRecorded(m: Memory, es: seq<Event>, n: nat, idx: nat)
    requires n <= |es| && MemoryRecorded(m, es, n) && idx < |m.ready|
    ensures ReadyIs(es, n, idx) == m.ready[idx].value
  {
    ValuesAt(m.ready, idx);
  }

  lemma ProducerRecordsMemory(s: State, es: seq<Event>, n: nat)
    requires n < |es| && ByProducer(es[n]) && ProducerEnabled(s, es[n])
    requires MemoryRecorded(s.mem, es, n) && s.prod.now == LastRead(es, n)
    ensures MemoryRecorded(ProducerStep(s, es[n]).mem, es, n + 1)
  {
    var view := s.prod.view;
    ValuesAppend(s.mem.timestamp, Entry(s.prod.now, view.(timestamp := |s.mem.timestamp|)));
    ValuesAppend(s.mem.ready, Entry(true, view.(ready := |s.mem.ready|)));
  }

  lemma ProducerRecords(s: State, es: seq<Event>, n: nat)
    requires n < |es| && ByProducer(es[n]) && ProducerEnabled(s, es[n])
    requires MemoryRecorded(s.mem, es, n) && ProducerRecorded(s.prod, es, n)
    ensures ProducerRecorded(ProducerStep(s, es[n]).prod, es, n + 1)
  {
    if es[n].PollReady? { ReadyRecorded(s.mem, es, n, es[n].idx); }
  }

  lemma ConsumerRecordsMemory(s: State, es: seq<Event>, n: nat)
    requires n < |es| && ByConsumer(es[n]) && ConsumerEnabled(s, es[n]) && MemoryRecorded(s.mem, es, n)
    ensures MemoryRecorded(ConsumerStep(s, es[n]).mem, es, n + 1)
  {
    ValuesAppend(s.mem.ready, Entry(false, s.cons.view.(ready := |s.mem.ready|)));
  }

  lemma ConsumerRecords(s: State, es: seq<Event>, n: nat)
    requires n < |es| && ByConsumer(es[n]) && ConsumerEnabled(s, es[n])
    requires MemoryRecorded(s.mem, es, n) && ConsumerRecorded(s.cons, es, n)
    ensures ConsumerRecorded(ConsumerStep(s, es[n]).cons, es, n + 1)
  {
    if es[n].WaitReady? { ReadyRecorded(s.mem, es, n, es[n].idx); }
    if es[n].LoadTimestamp? { ValuesAt(s.mem.timestamp, es[n].idx); }
  }

  /** What an event of one thread leaves alone in the record of the other. */
  lemma OthersRecordNothing(s: State, es: seq<Event>, n: nat)
    requires n < |es|
    ensures !ByProducer(es[n]) && ProducerRecorded(s.prod, es, n) ==> ProducerRecorded(s.prod, es, n + 1)
    ensures !ByConsumer(es[n]) && ConsumerRecorded(s.cons, es, n) ==> ConsumerRecorded(s.cons, es, n + 1)
  {}

  lemma ProducerRecordsChannel(s: State, es: seq<Event>, n: nat)
    requires n < |es| && ByProducer(es[n]) && ProducerEnabled(s, es[n]) && ChannelRecorded(s, es, n)
    ensures ChannelRecorded(ProducerStep(s, es[n]), es, n + 1)
    ensures ProducerStep(s, es[n]).samples == s.samples && !es[n].Count?
  {}

  lemma ConsumerRecordsChannel(s: State, es: seq<Event>, n: nat)
    requires n < |es| && ByConsumer(es[n]) && ConsumerEnabled(s, es[n]) && ChannelRecorded(s, es, n)
    ensures ChannelRecorded(ConsumerStep(s, es[n]), es, n + 1)
  {}

  lemma ConsumerRecordsSamples(s: State, es: seq<Event>, n: nat)
    requires n < |es| && ByConsumer(es[n]) && ConsumerEnabled(s, es[n])
    requires ConsumerRecorded(s.cons, es, n) && s.samples == Counted(es, n)
    ensures ConsumerStep(s, es[n]).samples == Counted(es, n + 1)
  {}

  lemma EnvironmentRecords(s: State, es: seq<Event>, n: nat)
    requires n < |es| && (es[n].Lose? || es[n].ExternalExit?) && Enabled(s, es[n]) && Recorded(s, es, n)
    ensures Recorded(Step(s, es[n]), es, n + 1)
  {}

  lemma StepRecords(s: State, es: seq<Event>, n: nat)
    requires n < |es| && Enabled(s, es[n]) && Recorded(s, es, n)
    ensures Recorded(Step(s, es[n]), es, n + 1)
  {
    OthersRecordNothing(s, es, n);
    if ByProducer(es[n]) {
      ProducerRecordsMemory(s, es, n);
      ProducerRecords(s, es, n);
      ProducerRecordsChannel(s, es, n);
    } else if ByConsumer(es[n]) {
      ConsumerRecordsMemory(s, es, n);
      ConsumerRecords(s, es, n);
      ConsumerRecordsChannel(s, es, n);
      ConsumerRecordsSamples(s, es, n);
    } else {
      EnvironmentRecords(s, es, n);
    }
  }

  lemma {:induction false} PrefixRecorded(rounds: nat, es: seq<Event>, n: nat)
    requires Run(Init(rounds), es) && n <= |es|
    ensures Run(Init(rounds), es[..n]) && Recorded(After(Init(rounds), es[..n]), es, n)
  {
    if n > 0 {
      PrefixRecorded(rounds, es, n - 1);
      RunPrefix(Init(rounds), es, n - 1);
      StepRecords(After(Init(rounds), es[..n - 1]), es, n - 1);
    }
  }

  /** After every run the values in memory, the place and locals of both threads, the
      channel and the samples are those its events tell. */
  lemma StateIsTheHistory(rounds: nat, es: seq<Event>)
    requires Run(Init(rounds), es)
    ensures Recorded(After(Init(rounds), es), es, |es|)
  {
    PrefixRecorded(rounds, es, |es|);
    assert es[..|es|] == es;
  }

  // ---------- single events, in every continuation ----------

  lemma {:induction false} CountedHas(es: seq<Event>, n: nat, k: nat)
    requires n <= |es| && k < n && es[k].Count?
    ensures CountIf(es, k, IsCount) < |Counted(es, n)|
    ensures Counted(es, n)[CountIf(es, k, IsCount)] == Message(es, k, es[k].time)
  {
    if k < n - 1 { CountedHas(es, n - 1, k); }
  }

  /** The sample of each `Count` event has the wall clock it read, the monotonic clock
      sampled last, the entry loaded last, and takes its place in the order of counting. */
  lemma EachCountIsASample(rounds: nat, es: seq<Event>, k: nat)
    requires Run(Init(rounds), es) && k < |es| && es[k].Count?
    ensures var xs, j := After(Init(rounds), es).samples, CountIf(es, k, IsCount);
      && |xs| == CountIf(es, |es|, IsCount) && j < |xs|
      && xs[j].time == es[k].time && xs[j].ns == LastSampled(es, k) && xs[j].slot == LastLoaded(es, k)
  {
    StateIsTheHistory(rounds, es);
    CountedHas(es, |es|, k);
  }

  lemma {:induction false} StartStays(rounds: nat, es: seq<Event>, k: nat, n: nat)
    requires Run(Init(rounds), es) && k < n <= |es| && es[k].Connect?
    ensures ConsumerPlace(es, n) != CConnecting
    ensures es[k].ok ==> StartTime(es, n) == es[k].now
    ensures !es[k].ok ==> ConsumerPlace(es, n) == CFailed
  {
    if k < n - 1 {
      StartStays(rounds, es, k, n - 1);
      PrefixRecorded(rounds, es, n - 1);
      RunPrefix(Init(rounds), es, n - 1);
    }
  }

  /** The first window starts at the wall clock read after a successful connect; after
      a failed one the consumer is gone for good. */
  lemma ConnectDecides(rounds: nat, es: seq<Event>, k: nat)
    requires Run(Init(rounds), es) && k < |es| && es[k].Connect?
    ensures var c := After(Init(rounds), es).cons;
      if es[k].ok then c.start == es[k].now && c.pc != CConnecting else c.pc == CFailed
  {
    StateIsTheHistory(rounds, es);
    StartStays(rounds, es, k, |es|);
  }
}
