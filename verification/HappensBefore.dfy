/** The runs of the state machine, described without threads' views: by the program
    order, by what synchronises with what, and by coherence, as in ISO C++23, section
    6.9.2.2 [intro.races]. */
module HappensBefore {
  import opened Handshake
  import opened History

  // ---------- what an event touches ----------

  datatype Place = Timestamp | Ready | Exit | Clock

  /** The entry of `l`, in modification order, that event `n` loads or stores; for the
      clock, the reading taken.  An event that touches nothing has 0, the initial entry. */
  function Touch(es: seq<Event>, n: nat, l: Place): nat
    requires n < |es|
  {
    match l
    case Timestamp =>
      if es[n].LoadTimestamp? then es[n].idx
      else if StoresTimestamp(es[n]) then 1 + CountIf(es, n, StoresTimestamp) else 0
    case Ready =>
      if es[n].PollReady? || es[n].WaitReady? then es[n].idx
      else if StoresReady(es[n]) then 1 + CountIf(es, n, StoresReady) else 0
    case Exit =>
      if LoadsExit(es[n]) then es[n].idx
      else if StoresExit(es[n]) then 1 + CountIf(es, n, StoresExit) else 0
    case Clock =>
      if ReadsClock(es[n]) then es[n].t else 0
  }

  predicate LoadsExit(e: Event) { e.TestExit? || e.PollExit? || e.LoopTest? || e.WaitExit? }

  predicate LoadsReady(e: Event) { e.PollReady? || e.WaitReady? }

  predicate ReadsClock(e: Event) { e.ReadClock? || e.SampleClock? }

  // ---------- happens before ----------

  predicate SameThread(e: Event, f: Event) {
    (ByProducer(e) && ByProducer(f)) || (ByConsumer(e) && ByConsumer(f))
  }

  /** A release store of `timestamp` or `ready`, and an acquire load that returns it. */
  predicate Synchronises(es: seq<Event>, m: nat, n: nat)
    requires m < |es| && n < |es|
  {
    (StoresReady(es[m]) && LoadsReady(es[n]) && Touch(es, m, Ready) == Touch(es, n, Ready))
    || (StoresTimestamp(es[m]) && es[n].LoadTimestamp? && Touch(es, m, Timestamp) == Touch(es, n, Timestamp))
  }

  predicate Direct(es: seq<Event>, m: nat, n: nat)
    requires m < |es| && n < |es|
  {
    m < n && (SameThread(es[m], es[n]) || Synchronises(es, m, n))
  }

  /** The transitive closure: program order and synchronisation, chained. */
  ghost predicate Before(es: seq<Event>, j: nat, n: nat)
    requires n < |es|
    decreases n
  {
    exists m :: j <= m < n && Direct(es, m, n) && (j == m || Before(es, j, m))
  }

  // ---------- which events may come next ----------

  /** Loads return an entry there is, and nothing older than what happens before; the
      clock does not run backwards along happens-before. */
  ghost predicate Coherent(es: seq<Event>, n: nat, l: Place)
    requires n < |es|
  {
    forall j :: 0 <= j < n && Before(es, j, n) ==> Touch(es, j, l) <= Touch(es, n, l)
  }

  /** The place in the program, the number of rounds, and the channel allow event `n`. */
  predicate InOrder(rounds: nat, es: seq<Event>, n: nat)
    requires n < |es|
  {
    var p, c := ProducerPlace(es, n), ConsumerPlace(es, n);
    var channel := CountIf(es, n, IsSend) - CountIf(es, n, IsReceipt) - CountIf(es, n, IsLoss);
    match es[n]
    case Bind(_) => p == PBinding
    case RoundsOver => p == PTesting && RoundsEnded(es, n) >= rounds
    case TestExit(_) => p == PTesting && RoundsEnded(es, n) < rounds
    case ReadClock(_) => p == PReading
    case StoreTimestamp => p == PStoring
    case RaiseReady => p == PRaising
    case SendTrigger => p == PSending
    case PollReady(_) => p == PPolling
    case PollExit(_) => p == PPollingExit
    case StoreExit => p == PFinishing
    case Connect(_, _) => c == CConnecting
    case LoopTest(_) => c == CTesting
    case Receive(got) => c == CReceiving && (got ==> channel > 0)
    case ReceiveFails => c == CReceiving
    case WaitReady(_) => c == CWaiting
    case WaitExit(_) => c == CWaitingExit
    case SampleClock(_) => c == CReading
    case LoadTimestamp(_) => c == CLoading
    case ClearReady => c == CClearing
    case Count(_) => c == CCounting
    case Lose => channel > 0
    case ExternalExit => true
  }

  /** The memory allows event `n`. */
  ghost predicate MemoryAllows(es: seq<Event>, n: nat)
    requires n < |es|
  {
    && (LoadsExit(es[n]) ==> es[n].idx <= CountIf(es, n, StoresExit) && Coherent(es, n, Exit))
    && (LoadsReady(es[n]) ==> es[n].idx <= CountIf(es, n, StoresReady) && Coherent(es, n, Ready))
    && (es[n].LoadTimestamp? ==> es[n].idx <= CountIf(es, n, StoresTimestamp) && Coherent(es, n, Timestamp))
    && (ReadsClock(es[n]) ==> Coherent(es, n, Clock))
  }

  ghost predicate Allowed(rounds: nat, es: seq<Event>, n: nat)
    requires n < |es|
  {
    InOrder(rounds, es, n) && MemoryAllows(es, n)
  }

  // ---------- views sum up what happens before ----------

  function At(v: View, l: Place): nat {
    match l case Timestamp => v.timestamp case Ready => v.ready case Exit => v.exit case Clock => v.clock
  }

  ghost predicate Summed(es: seq<Event>, S: set<nat>, l: Place, x: nat)
    requires forall j :: j in S ==> j < |es|
  {
    (forall j :: j in S ==> Touch(es, j, l) <= x) && (x == 0 || exists j :: j in S && Touch(es, j, l) == x)
  }

  /** In every place `v` is at the newest entry touched by the events of `S`. */
  ghost predicate Sums(es: seq<Event>, S: set<nat>, v: View)
    requires forall j :: j in S ==> j < |es|
  {
    forall l: Place :: Summed(es, S, l, At(v, l))
  }

  ghost predicate By(e: Event, producer: bool) { if producer then ByProducer(e) else ByConsumer(e) }

  /** The events that happen before event `n`. */
  ghost function Past(es: seq<Event>, n: nat): (S: set<nat>)
    requires n < |es|
    ensures forall j :: j in S <==> 0 <= j < n && Before(es, j, n)
  {
    set j | 0 <= j < n && Before(es, j, n)
  }

  ghost predicate IsKnown(es: seq<Event>, n: nat, producer: bool, j: nat)
    requires n <= |es|
  {
    exists m :: j <= m < n && By(es[m], producer) && (j == m || Before(es, j, m))
  }

  /** The events among the first `n` that a thread has done, or that happen before one. */
  ghost function Known(es: seq<Event>, n: nat, producer: bool): (S: set<nat>)
    requires n <= |es|
    ensures forall j :: j in S <==> 0 <= j < n && IsKnown(es, n, producer, j)
  {
    set j | 0 <= j < n && IsKnown(es, n, producer, j)
  }

  ghost predicate IsSynced(es: seq<Event>, n: nat, j: nat)
    requires n < |es|
  {
    exists m :: j <= m < n && Synchronises(es, m, n) && (j == m || Before(es, j, m))
  }

  /** What event `n` learns from the release store it acquires. */
  ghost function Synced(es: seq<Event>, n: nat): (S: set<nat>)
    requires n < |es|
    ensures forall j :: j in S <==> 0 <= j < n && IsSynced(es, n, j)
  {
    set j | 0 <= j < n && IsSynced(es, n, j)
  }

  lemma PastSplits(es: seq<Event>, n: nat, producer: bool)
    requires n < |es| && By(es[n], producer)
    ensures Past(es, n) == Known(es, n, producer) + Synced(es, n)
  {
    forall j | 0 <= j < n
      ensures Before(es, j, n) <==> IsKnown(es, n, producer, j) || IsSynced(es, n, j)
    {
      if Before(es, j, n) {
        var m :| j <= m < n && Direct(es, m, n) && (j == m || Before(es, j, m));
        assert By(es[m], producer) || Synchronises(es, m, n);
      }
      if IsKnown(es, n, producer, j) {
        var m :| j <= m < n && By(es[m], producer) && (j == m || Before(es, j, m));
        assert Direct(es, m, n);
      }
      if IsSynced(es, n, j) {
        var m :| j <= m < n && Synchronises(es, m, n) && (j == m || Before(es, j, m));
        assert Direct(es, m, n);
      }
    }
  }

  /** What a thread knows grows by each of its own events and what that one learns. */
  lemma KnownGrows(es: seq<Event>, n: nat, producer: bool)
    requires n < |es|
    ensures Known(es, n + 1, producer) ==
              Known(es, n, producer) + if By(es[n], producer) then Past(es, n) + {n} else {}
  {
    forall j | 0 <= j <= n
      ensures IsKnown(es, n + 1, producer, j) <==>
                (j < n && IsKnown(es, n, producer, j)) || (By(es[n], producer) && (j == n || Before(es, j, n)))
    {
      if IsKnown(es, n + 1, producer, j) {
        var m :| j <= m < n + 1 && By(es[m], producer) && (j == m || Before(es, j, m));
        assert m == n || IsKnown(es, n, producer, j);
      }
      if j < n && IsKnown(es, n, producer, j) {
        var m :| j <= m < n && By(es[m], producer) && (j == m || Before(es, j, m));
        assert j <= m < n + 1;
      }
    }
  }

  lemma SumsUnion(es: seq<Event>, S: set<nat>, T: set<nat>, v: View, w: View)
    requires forall j :: j in S || j in T ==> j < |es|
    requires Sums(es, S, v) && Sums(es, T, w)
    ensures Sums(es, S + T, Join(v, w))
  {
    forall l: Place ensures Summed(es, S + T, l, At(Join(v, w), l)) {
      assert Summed(es, S, l, At(v, l)) && Summed(es, T, l, At(w, l));
    }
  }

  /** The view after event `n` itself. */
  function TouchView(v: View, es: seq<Event>, n: nat): View
    requires n < |es|
  {
    View(Max(v.timestamp, Touch(es, n, Timestamp)), Max(v.ready, Touch(es, n, Ready)),
         Max(v.exit, Touch(es, n, Exit)), Max(v.clock, Touch(es, n, Clock)))
  }

  lemma SumsTouch(es: seq<Event>, S: set<nat>, v: View, n: nat)
    requires (forall j :: j in S ==> j < |es|) && n < |es| && Sums(es, S, v)
    ensures Sums(es, S + {n}, TouchView(v, es, n))
  {
    forall l: Place ensures Summed(es, S + {n}, l, At(TouchView(v, es, n), l)) {
      assert Summed(es, S, l, At(v, l));
    }
  }

  lemma NothingSums(es: seq<Event>)
    ensures Sums(es, {}, BOTTOM)
  {}

  // ---------- stores and their entries ----------

  lemma {:induction false} CountGrows(es: seq<Event>, m: nat, n: nat, p: Event -> bool)
    requires m < n <= |es|
    ensures CountIf(es, n, p) >= CountIf(es, m, p) + if p(es[m]) then 1 else 0
    decreases n
  {
    if m < n - 1 { CountGrows(es, m, n - 1, p); }
  }

  /** Every entry but the first was stored by some event. */
  lemma {:induction false} StoreOf(es: seq<Event>, n: nat, p: Event -> bool, idx: nat) returns (m: nat)
    requires n <= |es| && 0 < idx <= CountIf(es, n, p)
    ensures m < n && p(es[m]) && 1 + CountIf(es, m, p) == idx
    decreases n
  {
    if p(es[n - 1]) && CountIf(es, n, p) == idx {
      m := n - 1;
    } else {
      m := StoreOf(es, n - 1, p, idx);
    }
  }

  lemma StoreIsUnique(es: seq<Event>, m: nat, k: nat, p: Event -> bool)
    requires m < |es| && k < |es| && p(es[m]) && p(es[k]) && CountIf(es, m, p) == CountIf(es, k, p)
    ensures m == k
  {
    if m < k { CountGrows(es, m, k, p); }
    if k < m { CountGrows(es, k, m, p); }
  }

  /** The entry that event `k` stored carries what happens before it. */
  ghost predicate EntrySummed(m: Memory, es: seq<Event>, k: nat)
    requires k < |es|
  {
    && (StoresReady(es[k]) ==>
          var idx := Touch(es, k, Ready);
          idx < |m.ready| && Sums(es, Past(es, k) + {k}, m.ready[idx].view) && m.ready[idx].view.ready == idx)
    && (StoresTimestamp(es[k]) ==>
          var idx := Touch(es, k, Timestamp);
          && idx < |m.timestamp| && Sums(es, Past(es, k) + {k}, m.timestamp[idx].view)
          && m.timestamp[idx].view.timestamp == idx)
  }

  ghost predicate EntriesSummed(m: Memory, es: seq<Event>, n: nat)
    requires n <= |es|
  {
    && |m.ready| > 0 && m.ready[0].view == BOTTOM && |m.timestamp| > 0 && m.timestamp[0].view == BOTTOM
    && forall k :: 0 <= k < n ==> EntrySummed(m, es, k)
  }

  /** What an acquire load learns is what the entry it returns carries. */
  lemma ReadySynced(m: Memory, es: seq<Event>, n: nat)
    requires n < |es| && LoadsReady(es[n]) && es[n].idx <= CountIf(es, n, StoresReady)
    requires MemoryRecorded(m, es, n) && EntriesSummed(m, es, n)
    ensures es[n].idx < |m.ready| && Sums(es, Synced(es, n), m.ready[es[n].idx].view)
    ensures m.ready[es[n].idx].view.ready == es[n].idx
  {
    var idx := es[n].idx;
    assert |Values(m.ready)| == |m.ready|;
    if idx == 0 {
      assert Synced(es, n) == {};
    } else {
      var k := StoreOf(es, n, StoresReady, idx);
      assert EntrySummed(m, es, k) && Synchronises(es, k, n);
      forall i | 0 <= i < n && Synchronises(es, i, n) ensures i == k { StoreIsUnique(es, i, k, StoresReady); }
      assert Synced(es, n) == Past(es, k) + {k};
    }
  }

  lemma TimestampSynced(m: Memory, es: seq<Event>, n: nat)
    requires n < |es| && es[n].LoadTimestamp? && es[n].idx <= CountIf(es, n, StoresTimestamp)
    requires MemoryRecorded(m, es, n) && EntriesSummed(m, es, n)
    ensures es[n].idx < |m.timestamp| && Sums(es, Synced(es, n), m.timestamp[es[n].idx].view)
    ensures m.timestamp[es[n].idx].view.timestamp == es[n].idx
  {
    var idx := es[n].idx;
    assert |Values(m.timestamp)| == |m.timestamp|;
    if idx == 0 {
      assert Synced(es, n) == {};
    } else {
      var k := StoreOf(es, n, StoresTimestamp, idx);
      assert EntrySummed(m, es, k) && Synchronises(es, k, n);
      forall i | 0 <= i < n && Synchronises(es, i, n) ensures i == k { StoreIsUnique(es, i, k, StoresTimestamp); }
      assert Synced(es, n) == Past(es, k) + {k};
    }
  }

  lemma OthersLearnNothing(es: seq<Event>, n: nat)
    requires n < |es| && !LoadsReady(es[n]) && !es[n].LoadTimestamp?
    ensures Synced(es, n) == {}
  {}

  // ---------- the threads ----------

  ghost predicate ViewsExact(s: State, es: seq<Event>, n: nat)
    requires n <= |es|
  {
    && Sums(es, Known(es, n, true), s.prod.view) && Sums(es, Known(es, n, false), s.cons.view)
    && EntriesSummed(s.mem, es, n)
  }

  /** A view is at most `idx` in `l` exactly when nothing known touched a later entry. */
  lemma SummedBelow(es: seq<Event>, S: set<nat>, l: Place, x: nat, idx: nat)
    requires (forall j :: j in S ==> j < |es|) && Summed(es, S, l, x)
    ensures x <= idx <==> forall j :: j in S ==> Touch(es, j, l) <= idx
  {}

  /** Coherence, seen from the thread's view: with nothing learnt, or only from an entry
      of `l` itself. */
  lemma CoherentIff(es: seq<Event>, n: nat, l: Place, producer: bool, v: View)
    requires n < |es| && By(es[n], producer) && Sums(es, Known(es, n, producer), v)
    requires forall j :: j in Synced(es, n) ==> Touch(es, j, l) <= Touch(es, n, l)
    ensures Coherent(es, n, l) <==> At(v, l) <= Touch(es, n, l)
  {
    PastSplits(es, n, producer);
    SummedBelow(es, Known(es, n, producer), l, At(v, l), Touch(es, n, l));
    assert Coherent(es, n, l) <==> forall j :: j in Past(es, n) ==> Touch(es, j, l) <= Touch(es, n, l);
  }

  lemma ReadyAllowedIff(m: Memory, es: seq<Event>, n: nat, producer: bool, v: View)
    requires n < |es| && By(es[n], producer) && Sums(es, Known(es, n, producer), v)
    requires MemoryRecorded(m, es, n) && EntriesSummed(m, es, n) && LoadsReady(es[n])
    ensures MemoryAllows(es, n) <==> MayLoadReady(m, v, es[n].idx)
  {
    assert |Values(m.ready)| == |m.ready|;
    if es[n].idx <= CountIf(es, n, StoresReady) {
      ReadySynced(m, es, n);
      assert Summed(es, Synced(es, n), Ready, At(m.ready[es[n].idx].view, Ready));
      CoherentIff(es, n, Ready, producer, v);
    }
  }

  lemma TimestampAllowedIff(m: Memory, es: seq<Event>, n: nat, producer: bool, v: View)
    requires n < |es| && By(es[n], producer) && Sums(es, Known(es, n, producer), v)
    requires MemoryRecorded(m, es, n) && EntriesSummed(m, es, n) && es[n].LoadTimestamp?
    ensures MemoryAllows(es, n) <==> MayLoadTimestamp(m, v, es[n].idx)
  {
    assert |Values(m.timestamp)| == |m.timestamp|;
    if es[n].idx <= CountIf(es, n, StoresTimestamp) {
      TimestampSynced(m, es, n);
      assert Summed(es, Synced(es, n), Timestamp, At(m.timestamp[es[n].idx].view, Timestamp));
      CoherentIff(es, n, Timestamp, producer, v);
    }
  }

  lemma RelaxedAllowedIff(m: Memory, es: seq<Event>, n: nat, producer: bool, v: View)
    requires n < |es| && By(es[n], producer) && Sums(es, Known(es, n, producer), v)
    requires MemoryRecorded(m, es, n) && !LoadsReady(es[n]) && !es[n].LoadTimestamp?
    ensures LoadsExit(es[n]) ==> (MemoryAllows(es, n) <==> MayLoadExit(m, v, es[n].idx))
    ensures ReadsClock(es[n]) ==> (MemoryAllows(es, n) <==> v.clock <= es[n].t)
    ensures !LoadsExit(es[n]) && !ReadsClock(es[n]) ==> MemoryAllows(es, n)
  {
    OthersLearnNothing(es, n);
    CoherentIff(es, n, Exit, producer, v);
    CoherentIff(es, n, Clock, producer, v);
  }

  /** The memory allows what the thread's view does. */
  lemma MemoryAllowsIff(m: Memory, es: seq<Event>, n: nat, producer: bool, v: View)
    requires n < |es| && By(es[n], producer) && Sums(es, Known(es, n, producer), v)
    requires MemoryRecorded(m, es, n) && EntriesSummed(m, es, n)
    ensures LoadsExit(es[n]) ==> (MemoryAllows(es, n) <==> MayLoadExit(m, v, es[n].idx))
    ensures LoadsReady(es[n]) ==> (MemoryAllows(es, n) <==> MayLoadReady(m, v, es[n].idx))
    ensures es[n].LoadTimestamp? ==> (MemoryAllows(es, n) <==> MayLoadTimestamp(m, v, es[n].idx))
    ensures ReadsClock(es[n]) ==> (MemoryAllows(es, n) <==> v.clock <= es[n].t)
    ensures !LoadsExit(es[n]) && !LoadsReady(es[n]) && !es[n].LoadTimestamp? && !ReadsClock(es[n]) ==>
              MemoryAllows(es, n)
  {
    if LoadsReady(es[n]) {
      ReadyAllowedIff(m, es, n, producer, v);
    } else if es[n].LoadTimestamp? {
      TimestampAllowedIff(m, es, n, producer, v);
    } else {
      RelaxedAllowedIff(m, es, n, producer, v);
    }
  }

  /** The state machine enables exactly what program order, channel and memory allow. */
  lemma EnabledIsAllowed(rounds: nat, s: State, es: seq<Event>, n: nat)
    requires n < |es| && s.rounds == rounds && Recorded(s, es, n) && ViewsExact(s, es, n)
    ensures Enabled(s, es[n]) <==> Allowed(rounds, es, n)
  {
    if ByProducer(es[n]) {
      MemoryAllowsIff(s.mem, es, n, true, s.prod.view);
    } else if ByConsumer(es[n]) {
      MemoryAllowsIff(s.mem, es, n, false, s.cons.view);
    }
  }

  lemma ProducerView(s: State, es: seq<Event>, n: nat)
    requires n < |es| && ByProducer(es[n]) && ProducerEnabled(s, es[n]) && MemoryRecorded(s.mem, es, n)
    requires s.prod.view.ready < |s.mem.ready| && s.prod.view.timestamp < |s.mem.timestamp|
    requires s.prod.view.exit < |s.mem.exit|
    ensures ProducerStep(s, es[n]).prod.view ==
              if es[n].PollReady? then Join(TouchView(s.prod.view, es, n), s.mem.ready[es[n].idx].view)
              else TouchView(s.prod.view, es, n)
  {
    assert |Values(s.mem.ready)| == |s.mem.ready| && |Values(s.mem.timestamp)| == |s.mem.timestamp|;
  }

  lemma ConsumerView(s: State, es: seq<Event>, n: nat)
    requires n < |es| && ByConsumer(es[n]) && ConsumerEnabled(s, es[n]) && MemoryRecorded(s.mem, es, n)
    requires s.cons.view.ready < |s.mem.ready|
    ensures ConsumerStep(s, es[n]).cons.view ==
              if es[n].WaitReady? then Join(TouchView(s.cons.view, es, n), s.mem.ready[es[n].idx].view)
              else if es[n].LoadTimestamp? then Join(TouchView(s.cons.view, es, n), s.mem.timestamp[es[n].idx].view)
              else TouchView(s.cons.view, es, n)
  {
    assert |Values(s.mem.ready)| == |s.mem.ready|;
  }

  // ---------- every run ----------

  /** A view that is known in all places but the clock is in memory. */
  ghost predicate InRange(m: Memory, v: View) {
    v.timestamp < |m.timestamp| && v.ready < |m.ready| && v.exit < |m.exit|
  }

  ghost predicate AllInRange(s: State) {
    && InRange(s.mem, s.prod.view) && InRange(s.mem, s.cons.view)
    && (forall k :: 0 <= k < |s.mem.ready| ==> InRange(s.mem, s.mem.ready[k].view))
    && (forall k :: 0 <= k < |s.mem.timestamp| ==> InRange(s.mem, s.mem.timestamp[k].view))
  }

  lemma ProducerStaysInRange(s: State, e: Event)
    requires AllInRange(s) && ByProducer(e) && ProducerEnabled(s, e)
    ensures AllInRange(ProducerStep(s, e))
  {}

  lemma ConsumerStaysInRange(s: State, e: Event)
    requires AllInRange(s) && ByConsumer(e) && ConsumerEnabled(s, e)
    ensures AllInRange(ConsumerStep(s, e))
  {}

  lemma EntriesKept(m: Memory, m': Memory, es: seq<Event>, n: nat)
    requires n <= |es| && EntriesSummed(m, es, n) && m.timestamp <= m'.timestamp && m.ready <= m'.ready
    ensures EntriesSummed(m', es, n)
  {
    forall k | 0 <= k < n ensures EntrySummed(m', es, k) { assert EntrySummed(m, es, k); }
  }

  lemma ProducerViewSums(s: State, es: seq<Event>, n: nat)
    requires n < |es| && ByProducer(es[n]) && ProducerEnabled(s, es[n]) && MemoryRecorded(s.mem, es, n)
    requires InRange(s.mem, s.prod.view) && ViewsExact(s, es, n)
    ensures Sums(es, Known(es, n + 1, true), ProducerStep(s, es[n]).prod.view)
    ensures !es[n].PollReady? ==>
              Sums(es, Past(es, n) + {n}, ProducerStep(s, es[n]).prod.view)
  {
    ProducerView(s, es, n);
    PastSplits(es, n, true);
    KnownGrows(es, n, true);
    SumsTouch(es, Known(es, n, true), s.prod.view, n);
    if es[n].PollReady? {
      assert |Values(s.mem.ready)| == |s.mem.ready|;
      ReadySynced(s.mem, es, n);
      SumsUnion(es, Known(es, n, true) + {n}, Synced(es, n), TouchView(s.prod.view, es, n),
                s.mem.ready[es[n].idx].view);
      assert Known(es, n, true) + {n} + Synced(es, n) == Known(es, n + 1, true);
    } else {
      OthersLearnNothing(es, n);
      assert Known(es, n, true) + {n} == Known(es, n + 1, true) == Past(es, n) + {n};
    }
  }

  lemma ConsumerViewSums(s: State, es: seq<Event>, n: nat)
    requires n < |es| && ByConsumer(es[n]) && ConsumerEnabled(s, es[n]) && MemoryRecorded(s.mem, es, n)
    requires InRange(s.mem, s.cons.view) && ViewsExact(s, es, n)
    ensures Sums(es, Known(es, n + 1, false), ConsumerStep(s, es[n]).cons.view)
    ensures es[n].ClearReady? ==> Sums(es, Past(es, n) + {n}, ConsumerStep(s, es[n]).cons.view)
  {
    ConsumerView(s, es, n);
    PastSplits(es, n, false);
    KnownGrows(es, n, false);
    SumsTouch(es, Known(es, n, false), s.cons.view, n);
    if es[n].WaitReady? {
      assert |Values(s.mem.ready)| == |s.mem.ready|;
      ReadySynced(s.mem, es, n);
      SumsUnion(es, Known(es, n, false) + {n}, Synced(es, n), TouchView(s.cons.view, es, n),
                s.mem.ready[es[n].idx].view);
    } else if es[n].LoadTimestamp? {
      assert |Values(s.mem.timestamp)| == |s.mem.timestamp|;
      TimestampSynced(s.mem, es, n);
      SumsUnion(es, Known(es, n, false) + {n}, Synced(es, n), TouchView(s.cons.view, es, n),
                s.mem.timestamp[es[n].idx].view);
    } else {
      OthersLearnNothing(es, n);
    }
    assert Known(es, n, false) + {n} + Synced(es, n) == Known(es, n + 1, false);
    assert Synced(es, n) == {} ==> Known(es, n, false) + {n} == Past(es, n) + {n};
  }

  lemma ProducerStepExact(s: State, es: seq<Event>, n: nat)
    requires n < |es| && ByProducer(es[n]) && ProducerEnabled(s, es[n]) && MemoryRecorded(s.mem, es, n)
    requires AllInRange(s) && ViewsExact(s, es, n)
    ensures ViewsExact(ProducerStep(s, es[n]), es, n + 1)
  {
    var t := ProducerStep(s, es[n]);
    ProducerViewSums(s, es, n);
    KnownGrows(es, n, false);
    EntriesKept(s.mem, t.mem, es, n);
    assert |Values(s.mem.ready)| == |s.mem.ready| && |Values(s.mem.timestamp)| == |s.mem.timestamp|;
    assert EntrySummed(t.mem, es, n);
  }

  lemma ConsumerStepExact(s: State, es: seq<Event>, n: nat)
    requires n < |es| && ByConsumer(es[n]) && ConsumerEnabled(s, es[n]) && MemoryRecorded(s.mem, es, n)
    requires AllInRange(s) && ViewsExact(s, es, n)
    ensures ViewsExact(ConsumerStep(s, es[n]), es, n + 1)
  {
    var t := ConsumerStep(s, es[n]);
    ConsumerViewSums(s, es, n);
    KnownGrows(es, n, true);
    EntriesKept(s.mem, t.mem, es, n);
    assert |Values(s.mem.ready)| == |s.mem.ready|;
    assert EntrySummed(t.mem, es, n);
  }

  lemma EnvironmentStepExact(s: State, es: seq<Event>, n: nat)
    requires n < |es| && (es[n].Lose? || es[n].ExternalExit?) && Enabled(s, es[n])
    requires AllInRange(s) && ViewsExact(s, es, n)
    ensures ViewsExact(Step(s, es[n]), es, n + 1) && AllInRange(Step(s, es[n]))
  {
    KnownGrows(es, n, true);
    KnownGrows(es, n, false);
    EntriesKept(s.mem, Step(s, es[n]).mem, es, n);
    assert EntrySummed(Step(s, es[n]).mem, es, n);
  }

  /** All that is kept along a run. */
  ghost predicate Exact(rounds: nat, s: State, es: seq<Event>, n: nat)
    requires n <= |es|
  {
    s.rounds == rounds && Recorded(s, es, n) && AllInRange(s) && ViewsExact(s, es, n)
  }

  lemma StepStaysExact(rounds: nat, s: State, es: seq<Event>, n: nat)
    requires n < |es| && Exact(rounds, s, es, n) && Enabled(s, es[n])
    ensures Exact(rounds, Step(s, es[n]), es, n + 1)
  {
    StepRecords(s, es, n);
    if ByProducer(es[n]) {
      ProducerStaysInRange(s, es[n]);
      ProducerStepExact(s, es, n);
    } else if ByConsumer(es[n]) {
      ConsumerStaysInRange(s, es[n]);
      ConsumerStepExact(s, es, n);
    } else {
      EnvironmentStepExact(s, es, n);
    }
  }

  lemma ExactAtFirst(rounds: nat, es: seq<Event>)
    ensures Exact(rounds, Init(rounds), es, 0)
  {
    NothingSums(es);
    assert Known(es, 0, true) == {} == Known(es, 0, false);
  }

  /** The state after the first `n` events is told by them. */
  ghost predicate ExactAfter(rounds: nat, es: seq<Event>, n: nat)
    requires n <= |es| && Run(Init(rounds), es[..n])
  {
    Exact(rounds, After(Init(rounds), es[..n]), es, n)
  }

  lemma PrefixGoesOn(es: seq<Event>, s: State, n: nat)
    requires n < |es| && Run(s, es[..n + 1])
    ensures Run(s, es[..n]) && Enabled(After(s, es[..n]), es[n])
    ensures After(s, es[..n + 1]) == Step(After(s, es[..n]), es[n])
  {
    var front := es[..n + 1];
    RunPrefix(s, front, n);
    assert front[..n] == es[..n] && front[..n + 1] == front;
  }

  lemma {:induction false} PrefixExact(rounds: nat, es: seq<Event>, n: nat)
    requires n <= |es| && Run(Init(rounds), es[..n])
    ensures ExactAfter(rounds, es, n)
  {
    if n == 0 {
      ExactAtFirst(rounds, es);
    } else {
      PrefixGoesOn(es, Init(rounds), n - 1);
      PrefixExact(rounds, es, n - 1);
      StepStaysExact(rounds, After(Init(rounds), es[..n - 1]), es, n - 1);
    }
  }

  lemma {:induction false} AllowedIsRun(rounds: nat, es: seq<Event>, n: nat)
    requires n <= |es| && forall k :: 0 <= k < n ==> Allowed(rounds, es, k)
    ensures Run(Init(rounds), es[..n])
  {
    if n > 0 {
      AllowedIsRun(rounds, es, n - 1);
      PrefixExact(rounds, es, n - 1);
      EnabledIsAllowed(rounds, After(Init(rounds), es[..n - 1]), es, n - 1);
      RunOneMore(Init(rounds), es[..n - 1], es[n - 1]);
      assert es[..n] == es[..n - 1] + [es[n - 1]];
    }
  }

  /** The runs of the state machine are exactly the sequences of events in which each
      is in program order, finds its trigger in the channel, loads an entry that has
      been stored, and is coherent with all that happens before it. */
  lemma RunsAreTheCoherentHistories(rounds: nat, es: seq<Event>)
    ensures Run(Init(rounds), es) <==> forall n :: 0 <= n < |es| ==> Allowed(rounds, es, n)
  {
    assert es[..|es|] == es;
    if Run(Init(rounds), es) {
      forall n | 0 <= n < |es| ensures Allowed(rounds, es, n) {
        RunPrefix(Init(rounds), es, n);
        PrefixExact(rounds, es, n);
        EnabledIsAllowed(rounds, After(Init(rounds), es[..n]), es, n);
      }
    } else if forall n :: 0 <= n < |es| ==> Allowed(rounds, es, n) {
      AllowedIsRun(rounds, es, |es|);
    }
  }

  /** After every run each thread's view is exactly what its own events and all that
      happens before them have touched last. */
  lemma ViewsAreTheKnownPast(rounds: nat, es: seq<Event>)
    requires Run(Init(rounds), es)
    ensures var s := After(Init(rounds), es);
      Sums(es, Known(es, |es|, true), s.prod.view) && Sums(es, Known(es, |es|, false), s.cons.view)
  {
    assert es[..|es|] == es;
    PrefixExact(rounds, es, |es|);
  }
}
