/** Infinite runs: exactly when each thread finishes under fair scheduling. */
module Fairness {
  import opened Handshake
  import opened Invariant
  import opened Delivery
  import opened Loss
  import opened Progress
  import opened Placement
  import opened Displacement
  import opened Release

  /** What happens at an instant: nothing, one step, or a clearing store at `pos`. */
  datatype Move = Idle | Do(e: Event) | ClearReadyAt(pos: nat)

  type States = nat -> State
  type Moves = nat -> Move

  ghost predicate MoveAt(st: States, mv: Moves, n: nat) {
    match mv(n)
    case Idle => st(n + 1) == st(n)
    case Do(e) => Enabled(st(n), e) && st(n + 1) == Step(st(n), e)
    case ClearReadyAt(pos) => Can(st(n), Clear(pos)) && st(n + 1) == ClearAt(st(n), pos)
  }

  /** An infinite run, whatever is lost, whoever fails and whoever raises the exit. */
  ghost predicate Trace(rounds: nat, st: States, mv: Moves) {
    st(0) == Init(rounds) && forall n: nat :: MoveAt(st, mv, n)
  }

  // ---------- fairness ----------

  predicate ProducerMove(m: Move) { m.Do? && ByProducer(m.e) }

  predicate ConsumerMove(m: Move) { (m.Do? && ByConsumer(m.e)) || m.ClearReadyAt? }

  /** The thread has returned, with or without an error. */
  predicate ProducerOver(pc: ProducerPc) { pc == PDone || pc == PBindFailed }

  predicate ConsumerOver(pc: ConsumerPc) { pc == CDone || pc == CFailed }

  ghost predicate ProducerRunsFrom(st: States, mv: Moves, n: nat) {
    exists m: nat :: m >= n && (ProducerOver(st(m).prod.pc) || ProducerMove(mv(m)))
  }

  ghost predicate ConsumerRunsFrom(st: States, mv: Moves, n: nat) {
    exists m: nat :: m >= n && (ConsumerOver(st(m).cons.pc) || ConsumerMove(mv(m)))
  }

  /** Neither thread is kept from running for ever. */
  ghost predicate Scheduled(st: States, mv: Moves) {
    forall n: nat :: ProducerRunsFrom(st, mv, n) && ConsumerRunsFrom(st, mv, n)
  }

  /** The places where a thread waits for something to become visible. */
  datatype Wait = ReadyCleared | ExitPolled | ReadyRaised | ExitRaised | TriggerArrived

  predicate LooksAt(m: Move, w: Wait) {
    m.Do? &&
    match w
    case ReadyCleared => m.e.PollReady?
    case ExitPolled => m.e.PollExit?
    case ReadyRaised => m.e.WaitReady?
    case ExitRaised => m.e.LoopTest?
    case TriggerArrived => m.e.Receive?
  }

  /** The look finds the newest store, or the trigger in flight. */
  predicate Finds(s: State, m: Move, w: Wait) {
    LooksAt(m, w) &&
    match w
    case ReadyCleared => m.e.idx + 1 == |s.mem.ready|
    case ExitPolled => m.e.idx + 1 == |s.mem.exit|
    case ReadyRaised => m.e.idx + 1 == |s.mem.ready|
    case ExitRaised => m.e.idx + 1 == |s.mem.exit|
    case TriggerArrived => m.e.got || s.channel == 0
  }

  ghost predicate LooksFrom(mv: Moves, w: Wait, n: nat) {
    exists m: nat :: m >= n && LooksAt(mv(m), w)
  }

  ghost predicate FindsFrom(st: States, mv: Moves, w: Wait, n: nat) {
    exists m: nat :: m >= n && Finds(st(m), mv(m), w)
  }

  ghost predicate Often(mv: Moves, w: Wait) {
    forall n: nat :: LooksFrom(mv, w, n)
  }

  ghost predicate FindsOften(st: States, mv: Moves, w: Wait) {
    forall n: nat :: FindsFrom(st, mv, w, n)
  }

  /** Stores become visible and triggers arrive in finite time: a thread that keeps
      looking finds, again and again, what is there. */
  ghost predicate Visible(st: States, mv: Moves) {
    forall w: Wait :: Often(mv, w) ==> FindsOften(st, mv, w)
  }

  // ---------- settling ----------

  lemma MoveDecreasesMeasure(st: States, mv: Moves, n: nat)
    requires MoveAt(st, mv, n) && PlacedInv(st(n))
    ensures PlacedInv(st(n + 1)) && st(n + 1).rounds == st(n).rounds
    ensures Measure(st(n + 1)) <= Measure(st(n))
    ensures mv(n).ClearReadyAt? || (mv(n).Do? && !Spin(st(n), mv(n).e) && !mv(n).e.ExternalExit?) ==>
              Measure(st(n + 1)) < Measure(st(n))
  {
    match mv(n)
    case Idle =>
    case Do(e) => PerformDecreasesMeasure(st(n), Ordinary(e));
    case ClearReadyAt(pos) => PerformDecreasesMeasure(st(n), Clear(pos));
  }

  lemma {:induction false} InvAlways(rounds: nat, st: States, mv: Moves, n: nat)
    requires Trace(rounds, st, mv)
    ensures PlacedInv(st(n)) && st(n).rounds == rounds && Measure(st(n)) >= 0
  {
    if n == 0 {
      InvHoldsInitially(rounds);
    } else {
      InvAlways(rounds, st, mv, n - 1);
      assert MoveAt(st, mv, n - 1);
      MoveDecreasesMeasure(st, mv, n - 1);
    }
    PlacedBounds(st(n));
  }

  lemma MeasureNext(rounds: nat, st: States, mv: Moves, n: nat)
    requires Trace(rounds, st, mv)
    ensures Measure(st(n + 1)) <= Measure(st(n))
  {
    InvAlways(rounds, st, mv, n);
    assert MoveAt(st, mv, n);
    MoveDecreasesMeasure(st, mv, n);
  }

  lemma {:induction false} MeasureNeverGrows(rounds: nat, st: States, mv: Moves, n: nat, m: nat)
    requires Trace(rounds, st, mv) && n <= m
    ensures Measure(st(m)) <= Measure(st(n))
    decreases m - n
  {
    if n < m {
      MeasureNeverGrows(rounds, st, mv, n, m - 1);
      MeasureNext(rounds, st, mv, m - 1);
    }
  }

  ghost predicate Quiet(st: States, n: nat) {
    forall m: nat :: m >= n ==> Measure(st(m)) == Measure(st(n))
  }

  lemma {:induction false} Settles(rounds: nat, st: States, mv: Moves, n: nat) returns (q: nat)
    requires Trace(rounds, st, mv)
    ensures q >= n && Quiet(st, q)
    decreases Measure(st(n))
  {
    InvAlways(rounds, st, mv, n);
    if Quiet(st, n) {
      q := n;
    } else {
      var m: nat :| m >= n && Measure(st(m)) != Measure(st(n));
      MeasureNeverGrows(rounds, st, mv, n, m);
      InvAlways(rounds, st, mv, m);
      q := Settles(rounds, st, mv, m);
    }
  }

  /** Once the measure has settled every step of a thread is a spin. */
  lemma OnlySpins(rounds: nat, st: States, mv: Moves, q: nat, m: nat)
    requires Trace(rounds, st, mv) && Quiet(st, q) && m >= q && !mv(m).Idle?
    ensures mv(m).Do? && Enabled(st(m), mv(m).e) && st(m + 1) == Step(st(m), mv(m).e)
    ensures Spin(st(m), mv(m).e) || mv(m).e.ExternalExit?
  {
    InvAlways(rounds, st, mv, m);
    assert MoveAt(st, mv, m);
    MoveDecreasesMeasure(st, mv, m);
    assert Measure(st(m + 1)) == Measure(st(q)) == Measure(st(m));
  }

  predicate Polling(pc: ProducerPc) { pc == PPolling || pc == PPollingExit }

  predicate Looping(pc: ConsumerPc) { pc == CTesting || pc == CReceiving }

  predicate Awaiting(pc: ConsumerPc) { pc == CWaiting || pc == CWaitingExit }

  /** What spins leave alone. */
  ghost predicate Same(s: State, t: State) {
    && t.mem.timestamp == s.mem.timestamp && t.mem.ready == s.mem.ready
    && t.channel == s.channel && t.received == s.received && t.lost == s.lost && t.prod.i == s.prod.i
    && (t.prod.pc == s.prod.pc || (Polling(s.prod.pc) && Polling(t.prod.pc)))
    && (t.cons.pc == s.cons.pc || (Looping(s.cons.pc) && Looping(t.cons.pc))
        || (Awaiting(s.cons.pc) && Awaiting(t.cons.pc)))
  }

  lemma SpinChangesNothing(s: State, e: Event)
    requires Enabled(s, e) && (Spin(s, e) || e.ExternalExit?)
    ensures Same(s, Step(s, e))
  {}

  lemma QuietStepSame(rounds: nat, st: States, mv: Moves, q: nat, m: nat)
    requires Trace(rounds, st, mv) && Quiet(st, q) && m >= q
    ensures Same(st(m), st(m + 1))
  {
    assert MoveAt(st, mv, m);
    if !mv(m).Idle? {
      OnlySpins(rounds, st, mv, q, m);
      SpinChangesNothing(st(m), mv(m).e);
    }
  }

  lemma {:induction false} QuietMeansSame(rounds: nat, st: States, mv: Moves, q: nat, m: nat)
    requires Trace(rounds, st, mv) && Quiet(st, q) && m >= q
    ensures Same(st(q), st(m))
    decreases m
  {
    if m > q {
      QuietMeansSame(rounds, st, mv, q, m - 1);
      QuietStepSame(rounds, st, mv, q, m - 1);
    }
  }

  // ---------- a thread that is not done keeps looking ----------

  lemma OthersLeaveThreadAlone(rounds: nat, st: States, mv: Moves, q: nat, m: nat)
    requires Trace(rounds, st, mv) && Quiet(st, q) && m >= q
    ensures !ConsumerMove(mv(m)) ==> st(m + 1).cons == st(m).cons
    ensures !ProducerMove(mv(m)) ==> st(m + 1).prod == st(m).prod
  {
    assert MoveAt(st, mv, m);
    if !mv(m).Idle? { OnlySpins(rounds, st, mv, q, m); }
  }

  lemma FirstConsumerMove(rounds: nat, st: States, mv: Moves, q: nat, n: nat, last: nat) returns (m: nat)
    requires Trace(rounds, st, mv) && Quiet(st, q) && q <= n <= last && ConsumerMove(mv(last))
    ensures n <= m <= last && ConsumerMove(mv(m)) && st(m).cons == st(n).cons
  {
    m := n;
    while !ConsumerMove(mv(m))
      invariant n <= m <= last && st(m).cons == st(n).cons
      decreases last - m
    {
      OthersLeaveThreadAlone(rounds, st, mv, q, m);
      m := m + 1;
    }
  }

  lemma FirstProducerMove(rounds: nat, st: States, mv: Moves, q: nat, n: nat, last: nat) returns (m: nat)
    requires Trace(rounds, st, mv) && Quiet(st, q) && q <= n <= last && ProducerMove(mv(last))
    ensures n <= m <= last && ProducerMove(mv(m)) && st(m).prod == st(n).prod
  {
    m := n;
    while !ProducerMove(mv(m))
      invariant n <= m <= last && st(m).prod == st(n).prod
      decreases last - m
    {
      OthersLeaveThreadAlone(rounds, st, mv, q, m);
      m := m + 1;
    }
  }

  /** The consumer's next step from instant `n` on, its locals untouched until then. */
  lemma NextConsumerMove(rounds: nat, st: States, mv: Moves, q: nat, n: nat) returns (m: nat)
    requires Trace(rounds, st, mv) && Scheduled(st, mv) && Quiet(st, q) && n >= q
    requires !ConsumerOver(st(q).cons.pc)
    ensures m >= n && ConsumerMove(mv(m)) && st(m).cons == st(n).cons
  {
    assert ConsumerRunsFrom(st, mv, n);
    var last: nat :| last >= n && (ConsumerOver(st(last).cons.pc) || ConsumerMove(mv(last)));
    QuietMeansSame(rounds, st, mv, q, last);
    m := FirstConsumerMove(rounds, st, mv, q, n, last);
  }

  lemma NextProducerMove(rounds: nat, st: States, mv: Moves, q: nat, n: nat) returns (m: nat)
    requires Trace(rounds, st, mv) && Scheduled(st, mv) && Quiet(st, q) && n >= q
    requires !ProducerOver(st(q).prod.pc)
    ensures m >= n && ProducerMove(mv(m)) && st(m).prod == st(n).prod
  {
    assert ProducerRunsFrom(st, mv, n);
    var last: nat :| last >= n && (ProducerOver(st(last).prod.pc) || ProducerMove(mv(last)));
    QuietMeansSame(rounds, st, mv, q, last);
    m := FirstProducerMove(rounds, st, mv, q, n, last);
  }

  lemma ConsumerSpinShape(s: State, e: Event)
    requires ByConsumer(e) && ConsumerEnabled(s, e) && Spin(s, e)
    ensures Looping(s.cons.pc) || Awaiting(s.cons.pc)
    ensures s.cons.pc == CWaiting ==> e.WaitReady?
    ensures s.cons.pc == CWaitingExit ==> ConsumerStep(s, e).cons.pc == CWaiting
    ensures s.cons.pc == CTesting ==> e.LoopTest? && ConsumerStep(s, e).cons.pc == CReceiving
    ensures s.cons.pc == CReceiving ==> e.Receive? && ConsumerStep(s, e).cons.pc == CTesting
  {}

  lemma ConsumerSpins(rounds: nat, st: States, mv: Moves, q: nat, m: nat)
    requires Trace(rounds, st, mv) && Quiet(st, q) && m >= q && ConsumerMove(mv(m))
    ensures Looping(st(m).cons.pc) || Awaiting(st(m).cons.pc)
    ensures st(m).cons.pc == CWaiting ==> LooksAt(mv(m), ReadyRaised)
    ensures st(m).cons.pc == CWaitingExit ==> st(m + 1).cons.pc == CWaiting
    ensures st(m).cons.pc == CTesting ==> LooksAt(mv(m), ExitRaised) && st(m + 1).cons.pc == CReceiving
    ensures st(m).cons.pc == CReceiving ==> LooksAt(mv(m), TriggerArrived) && st(m + 1).cons.pc == CTesting
  {
    OnlySpins(rounds, st, mv, q, m);
    ConsumerSpinShape(st(m), mv(m).e);
  }

  lemma ProducerSpinShape(s: State, e: Event)
    requires ByProducer(e) && ProducerEnabled(s, e) && Spin(s, e)
    ensures Polling(s.prod.pc)
    ensures s.prod.pc == PPolling ==> e.PollReady? && ProducerStep(s, e).prod.pc == PPollingExit
    ensures s.prod.pc == PPollingExit ==> e.PollExit? && ProducerStep(s, e).prod.pc == PPolling
  {}

  lemma ProducerSpins(rounds: nat, st: States, mv: Moves, q: nat, m: nat)
    requires Trace(rounds, st, mv) && Quiet(st, q) && m >= q && ProducerMove(mv(m))
    ensures Polling(st(m).prod.pc)
    ensures st(m).prod.pc == PPolling ==> LooksAt(mv(m), ReadyCleared) && st(m + 1).prod.pc == PPollingExit
    ensures st(m).prod.pc == PPollingExit ==> LooksAt(mv(m), ExitPolled) && st(m + 1).prod.pc == PPolling
  {
    OnlySpins(rounds, st, mv, q, m);
    ProducerSpinShape(st(m), mv(m).e);
  }

  lemma ConsumerWaitsInALoop(rounds: nat, st: States, mv: Moves, q: nat)
    requires Trace(rounds, st, mv) && Scheduled(st, mv) && Quiet(st, q) && !ConsumerOver(st(q).cons.pc)
    ensures Awaiting(st(q).cons.pc) || Looping(st(q).cons.pc)
  {
    var m := NextConsumerMove(rounds, st, mv, q, q);
    ConsumerSpins(rounds, st, mv, q, m);
  }

  /** The place that `pc` looks at. */
  predicate LookedAtFrom(pc: ConsumerPc, w: Wait) {
    (w == ReadyRaised && Awaiting(pc)) || ((w == ExitRaised || w == TriggerArrived) && Looping(pc))
  }

  /** Of two steps in a row, one looks at `w`. */
  lemma OneOfTwoLooks(rounds: nat, st: States, mv: Moves, q: nat, m: nat, k: nat, w: Wait)
    requires Trace(rounds, st, mv) && Quiet(st, q) && q <= m < k
    requires ConsumerMove(mv(m)) && ConsumerMove(mv(k)) && st(k).cons.pc == st(m + 1).cons.pc
    requires LookedAtFrom(st(m).cons.pc, w)
    ensures LooksAt(mv(m), w) || LooksAt(mv(k), w)
  {
    ConsumerSpins(rounds, st, mv, q, m);
    ConsumerSpins(rounds, st, mv, q, k);
  }

  lemma ConsumerLooksAgain(rounds: nat, st: States, mv: Moves, q: nat, n: nat, w: Wait) returns (m: nat)
    requires Trace(rounds, st, mv) && Scheduled(st, mv) && Quiet(st, q) && n >= q
    requires LookedAtFrom(st(q).cons.pc, w)
    ensures m >= n && LooksAt(mv(m), w)
  {
    var first := NextConsumerMove(rounds, st, mv, q, n);
    QuietMeansSame(rounds, st, mv, q, first);
    var second := NextConsumerMove(rounds, st, mv, q, first + 1);
    OneOfTwoLooks(rounds, st, mv, q, first, second, w);
    m := if LooksAt(mv(first), w) then first else second;
  }

  /** A consumer that is not done looks again at whatever its loop looks at. */
  lemma ConsumerLooksOften(rounds: nat, st: States, mv: Moves, q: nat, w: Wait)
    requires Trace(rounds, st, mv) && Scheduled(st, mv) && Quiet(st, q)
    requires LookedAtFrom(st(q).cons.pc, w)
    ensures Often(mv, w)
  {
    forall n: nat ensures LooksFrom(mv, w, n) {
      var m := ConsumerLooksAgain(rounds, st, mv, q, n + q, w);
    }
  }

  lemma ProducerIsPolling(rounds: nat, st: States, mv: Moves, q: nat)
    requires Trace(rounds, st, mv) && Scheduled(st, mv) && Quiet(st, q) && !ProducerOver(st(q).prod.pc)
    ensures Polling(st(q).prod.pc)
  {
    var m := NextProducerMove(rounds, st, mv, q, q);
    ProducerSpins(rounds, st, mv, q, m);
  }

  lemma ProducerLooksAgain(rounds: nat, st: States, mv: Moves, q: nat, n: nat, w: Wait) returns (m: nat)
    requires Trace(rounds, st, mv) && Scheduled(st, mv) && Quiet(st, q) && n >= q
    requires !ProducerOver(st(q).prod.pc) && (w == ReadyCleared || w == ExitPolled)
    ensures m >= n && LooksAt(mv(m), w)
  {
    m := NextProducerMove(rounds, st, mv, q, n);
    ProducerSpins(rounds, st, mv, q, m);
    if !LooksAt(mv(m), w) {
      var k := NextProducerMove(rounds, st, mv, q, m + 1);
      ProducerSpins(rounds, st, mv, q, k);
      m := k;
    }
  }

  lemma ProducerLooksOften(rounds: nat, st: States, mv: Moves, q: nat, w: Wait)
    requires Trace(rounds, st, mv) && Scheduled(st, mv) && Quiet(st, q)
    requires !ProducerOver(st(q).prod.pc) && (w == ReadyCleared || w == ExitPolled)
    ensures Often(mv, w)
  {
    forall n: nat ensures LooksFrom(mv, w, n) {
      var m := ProducerLooksAgain(rounds, st, mv, q, n + q, w);
    }
  }

  /** What is looked at often is found, and what is found once settled is a spin. */
  lemma FoundAfter(rounds: nat, st: States, mv: Moves, q: nat, n: nat, w: Wait) returns (m: nat)
    requires Trace(rounds, st, mv) && Visible(st, mv) && Quiet(st, q) && Often(mv, w) && n >= q
    ensures m >= n && Finds(st(m), mv(m), w)
    ensures Enabled(st(m), mv(m).e) && Spin(st(m), mv(m).e) && Same(st(q), st(m)) && PlacedInv(st(m))
  {
    assert FindsOften(st, mv, w);
    assert FindsFrom(st, mv, w, n);
    m :| m >= n && Finds(st(m), mv(m), w);
    OnlySpins(rounds, st, mv, q, m);
    QuietMeansSame(rounds, st, mv, q, m);
    InvAlways(rounds, st, mv, m);
  }

  // ---------- who waits for ever, and for what ----------

  lemma AwaitingFindsRaised(s: State, e: Event)
    requires PlacedInv(s) && e.WaitReady? && Enabled(s, e) && e.idx + 1 == |s.mem.ready|
    ensures !Spin(s, e)
  {
    AcknowledgingMeansParked(s);
    assert ReadyEntry(s.mem, e.idx);
  }

  /** Nobody waits for `ready` in the inner loop for ever. */
  lemma NotAwaitingForEver(rounds: nat, st: States, mv: Moves, q: nat)
    requires Trace(rounds, st, mv) && Scheduled(st, mv) && Visible(st, mv) && Quiet(st, q)
    ensures !Awaiting(st(q).cons.pc)
  {
    if Awaiting(st(q).cons.pc) {
      ConsumerLooksOften(rounds, st, mv, q, ReadyRaised);
      var m := FoundAfter(rounds, st, mv, q, q, ReadyRaised);
      AwaitingFindsRaised(st(m), mv(m).e);
    }
  }

  lemma {:induction false} ExitOnlyGrows(rounds: nat, st: States, mv: Moves, n: nat, m: nat)
    requires Trace(rounds, st, mv) && n <= m
    ensures |st(n).mem.exit| <= |st(m).mem.exit|
    decreases m - n
  {
    if n < m {
      ExitOnlyGrows(rounds, st, mv, n, m - 1);
      assert MoveAt(st, mv, m - 1);
    }
  }

  ghost predicate NeverRaised(st: States) {
    forall n: nat :: |st(n).mem.exit| == 1
  }

  lemma NewestExitIsFalse(s: State)
    requires PlacedInv(s) && |s.mem.exit| > 0 && !s.mem.exit[|s.mem.exit| - 1].value
    ensures |s.mem.exit| == 1
  {
    if Inv(s) { assert ExitEntry(s.mem, |s.mem.exit| - 1); }
  }

  /** Who keeps looking at `should_exit` and waits for ever has never been told. */
  lemma WaitingMeansNeverRaised(rounds: nat, st: States, mv: Moves, q: nat, w: Wait)
    requires Trace(rounds, st, mv) && Visible(st, mv) && Quiet(st, q) && Often(mv, w)
    requires w == ExitRaised || w == ExitPolled
    ensures NeverRaised(st)
  {
    forall n: nat ensures |st(n).mem.exit| == 1 {
      var m := FoundAfter(rounds, st, mv, q, n + q, w);
      NewestExitIsFalse(st(m));
      ExitOnlyGrows(rounds, st, mv, n, m);
      InvAlways(rounds, st, mv, n);
    }
  }

  /** A consumer polling for ever: no exit is ever raised and no trigger in flight. */
  lemma LoopingForEver(rounds: nat, st: States, mv: Moves, q: nat)
    requires Trace(rounds, st, mv) && Scheduled(st, mv) && Visible(st, mv) && Quiet(st, q)
    requires !ConsumerOver(st(q).cons.pc)
    ensures Looping(st(q).cons.pc) && NeverRaised(st) && st(q).channel == 0
  {
    ConsumerWaitsInALoop(rounds, st, mv, q);
    NotAwaitingForEver(rounds, st, mv, q);
    ConsumerLooksOften(rounds, st, mv, q, ExitRaised);
    WaitingMeansNeverRaised(rounds, st, mv, q, ExitRaised);
    ConsumerLooksOften(rounds, st, mv, q, TriggerArrived);
    var k := FoundAfter(rounds, st, mv, q, q, TriggerArrived);
    assert !mv(k).e.got;
  }

  /** `ready` is raised, and whoever looks finds it so. */
  predicate ReadyIsUp(s: State) {
    |s.mem.ready| > 0 && s.mem.ready[|s.mem.ready| - 1].value
  }

  /** A producer polling for ever: `ready` stays raised and no exit is ever. */
  lemma PollingForEver(rounds: nat, st: States, mv: Moves, q: nat)
    requires Trace(rounds, st, mv) && Scheduled(st, mv) && Visible(st, mv) && Quiet(st, q)
    requires !ProducerOver(st(q).prod.pc)
    ensures Polling(st(q).prod.pc) && ReadyIsUp(st(q)) && NeverRaised(st)
  {
    ProducerIsPolling(rounds, st, mv, q);
    ProducerLooksOften(rounds, st, mv, q, ReadyCleared);
    var m := FoundAfter(rounds, st, mv, q, q, ReadyCleared);
    assert st(m).mem.ready[mv(m).e.idx].value;
    ProducerLooksOften(rounds, st, mv, q, ExitPolled);
    WaitingMeansNeverRaised(rounds, st, mv, q, ExitPolled);
  }

  /** The trigger of a raised round is lost, or nobody is left to take it. */
  predicate Stranded(s: State) {
    s.lost == 1 || (s.cons.pc == CFailed && Acks(s) < s.rounds)
  }

  lemma RaisedRoundHasTrigger(s: State)
    requires PlacedInv(s) && |s.mem.exit| == 1 && Polling(s.prod.pc) && ReadyIsUp(s)
    requires ConsumerOver(s.cons.pc) || (Looping(s.cons.pc) && s.channel == 0)
    ensures Stranded(s)
  {
    assert ReadyEntry(s.mem, |s.mem.ready| - 1);
  }

  lemma PollingMeansStranded(rounds: nat, st: States, mv: Moves, q: nat)
    requires Trace(rounds, st, mv) && Scheduled(st, mv) && Visible(st, mv) && Quiet(st, q)
    requires !ProducerOver(st(q).prod.pc)
    ensures Stranded(st(q))
  {
    InvAlways(rounds, st, mv, q);
    PollingForEver(rounds, st, mv, q);
    if !ConsumerOver(st(q).cons.pc) { LoopingForEver(rounds, st, mv, q); }
    RaisedRoundHasTrigger(st(q));
  }

  lemma LoopingMeansLeftAlone(rounds: nat, st: States, mv: Moves, q: nat)
    requires Trace(rounds, st, mv) && Scheduled(st, mv) && Visible(st, mv) && Quiet(st, q)
    requires !ConsumerOver(st(q).cons.pc)
    ensures st(q).prod.pc == PBindFailed || st(q).lost == 1
  {
    InvAlways(rounds, st, mv, q);
    LoopingForEver(rounds, st, mv, q);
    if st(q).prod.pc != PBindFailed {
      assert |st(q).mem.exit| == 1;
      PollingMeansStranded(rounds, st, mv, q);
    }
  }

  // ---------- the same along a run ----------

  /** Without an exit from outside there is one place only for the clearing store. */
  lemma UncutMoveIsStep(st: States, mv: Moves, n: nat)
    requires MoveAt(st, mv, n) && PlacedInv(st(n)) && !st(n + 1).cut && !mv(n).Idle?
    ensures var e := if mv(n).Do? then mv(n).e else ClearReady;
      Enabled(st(n), e) && !e.ExternalExit? && st(n + 1) == Step(st(n), e)
  {
    if mv(n).ClearReadyAt? {
      OnlyOneOtherPlace(st(n), mv(n).pos);
      ClearAtTheEnd(st(n));
    }
  }

  lemma NextIsReached(rounds: nat, st: States, mv: Moves, n: nat, m: nat)
    requires Trace(rounds, st, mv) && Reaches(st(n), st(m)) && !st(m + 1).cut
    ensures Reaches(st(n), st(m + 1))
  {
    InvAlways(rounds, st, mv, m);
    assert MoveAt(st, mv, m);
    if !mv(m).Idle? {
      UncutMoveIsStep(st, mv, m);
      ReachesFurther(st(n), st(m), if mv(m).Do? then mv(m).e else ClearReady);
    }
  }

  lemma CutStays(rounds: nat, st: States, mv: Moves, n: nat)
    requires Trace(rounds, st, mv) && st(n).cut
    ensures st(n + 1).cut
  {
    assert MoveAt(st, mv, n);
  }

  lemma {:induction false} TraceReaches(rounds: nat, st: States, mv: Moves, n: nat, m: nat)
    requires Trace(rounds, st, mv) && n <= m && !st(m).cut
    ensures Reaches(st(n), st(m))
    decreases m - n
  {
    if n == m {
      ReachesItself(st(n));
    } else {
      if st(m - 1).cut { CutStays(rounds, st, mv, m - 1); }
      TraceReaches(rounds, st, mv, n, m - 1);
      NextIsReached(rounds, st, mv, n, m - 1);
    }
  }

  lemma {:induction false} OverForEver(rounds: nat, st: States, mv: Moves, n: nat, m: nat)
    requires Trace(rounds, st, mv) && n <= m
    ensures ProducerOver(st(n).prod.pc) ==> st(m).prod.pc == st(n).prod.pc
    ensures ConsumerOver(st(n).cons.pc) ==> st(m).cons.pc == st(n).cons.pc
    decreases m - n
  {
    if n < m {
      OverForEver(rounds, st, mv, n, m - 1);
      assert MoveAt(st, mv, m - 1);
    }
  }

  // ---------- exactly which fair runs finish ----------

  ghost predicate ProducerFinishes(st: States) { exists n: nat :: st(n).prod.pc == PDone }

  ghost predicate ConsumerFinishes(st: States) { exists n: nat :: st(n).cons.pc == CDone }

  ghost predicate EverCut(st: States) { exists n: nat :: st(n).cut }

  ghost predicate NothingLost(st: States) { forall n: nat :: st(n).lost == 0 }

  ghost predicate BindSucceeds(st: States) { forall n: nat :: st(n).prod.pc != PBindFailed }

  ghost predicate ConsumerNeverFails(st: States) { forall n: nat :: st(n).cons.pc != CFailed }

  /** If the consumer fails, then only after acknowledging every round. */
  ghost predicate ConsumerFailsLate(st: States) {
    forall n: nat :: st(n).cons.pc == CFailed ==> Acks(st(n)) == st(n).rounds
  }

  function Later(n: nat, m: nat): nat { if n < m then m else n }

  lemma ProducerDoneMeans(rounds: nat, st: States, mv: Moves, n: nat, m: nat)
    requires Trace(rounds, st, mv) && st(n).prod.pc == PDone
    ensures st(m).prod.pc != PBindFailed
    ensures !EverCut(st) ==> st(m).lost == 0 && (st(m).cons.pc == CFailed ==> Acks(st(m)) == st(m).rounds)
  {
    var k := Later(n, m);
    OverForEver(rounds, st, mv, n, k);
    OverForEver(rounds, st, mv, m, k);
    InvAlways(rounds, st, mv, m);
    if !EverCut(st) {
      TraceReaches(rounds, st, mv, 0, m);
      TraceReaches(rounds, st, mv, m, k);
      assert ProducerCanFinish(st(m));
      ProducerCanFinishIff(rounds, st(m));
    }
  }

  /** Exactly when the producer of a fair run finishes: its socket is bound, and
      someone raises the exit, or no trigger is lost and the consumer, if it fails,
      fails after the last acknowledgement. */
  lemma ProducerFinishesIff(rounds: nat, st: States, mv: Moves)
    requires Trace(rounds, st, mv) && Scheduled(st, mv) && Visible(st, mv)
    ensures ProducerFinishes(st) <==>
              BindSucceeds(st) && (EverCut(st) || (NothingLost(st) && ConsumerFailsLate(st)))
  {
    if ProducerFinishes(st) {
      var n: nat :| st(n).prod.pc == PDone;
      forall m: nat
        ensures st(m).prod.pc != PBindFailed
        ensures !EverCut(st) ==> st(m).lost == 0 && (st(m).cons.pc == CFailed ==> Acks(st(m)) == st(m).rounds)
      {
        ProducerDoneMeans(rounds, st, mv, n, m);
      }
    } else if BindSucceeds(st) {
      var q := Settles(rounds, st, mv, 0);
      PollingForEver(rounds, st, mv, q);
      PollingMeansStranded(rounds, st, mv, q);
      NeverRaisedMeansNeverCut(rounds, st, mv);
    }
  }

  lemma NeverRaisedMeansNeverCut(rounds: nat, st: States, mv: Moves)
    requires Trace(rounds, st, mv) && NeverRaised(st)
    ensures !EverCut(st)
  {
    forall n: nat ensures !st(n).cut {
      InvAlways(rounds, st, mv, n);
      assert |st(n).mem.exit| == 1;
    }
  }

  lemma ConsumerDoneMeans(rounds: nat, st: States, mv: Moves, n: nat, m: nat)
    requires Trace(rounds, st, mv) && st(n).cons.pc == CDone
    ensures st(m).cons.pc != CFailed
    ensures !EverCut(st) ==> st(m).lost == 0 && st(m).prod.pc != PBindFailed
  {
    var k := Later(n, m);
    OverForEver(rounds, st, mv, n, k);
    OverForEver(rounds, st, mv, m, k);
    if !EverCut(st) {
      TraceReaches(rounds, st, mv, 0, m);
      TraceReaches(rounds, st, mv, m, k);
      if st(m).lost > 0 { LossFreezesTheProtocol(rounds, st(m), st(k)); }
      if st(m).prod.pc == PBindFailed { BindFailureStrandsConsumer(rounds, st(m), st(k)); }
    }
  }

  /** Exactly when the consumer of a fair run finishes: it does not fail, and someone
      raises the exit, or no trigger is lost and the producer is bound. */
  lemma ConsumerFinishesIff(rounds: nat, st: States, mv: Moves)
    requires Trace(rounds, st, mv) && Scheduled(st, mv) && Visible(st, mv)
    ensures ConsumerFinishes(st) <==>
              ConsumerNeverFails(st) && (EverCut(st) || (NothingLost(st) && BindSucceeds(st)))
  {
    if ConsumerFinishes(st) {
      var n: nat :| st(n).cons.pc == CDone;
      forall m: nat
        ensures st(m).cons.pc != CFailed
        ensures !EverCut(st) ==> st(m).lost == 0 && st(m).prod.pc != PBindFailed
      {
        ConsumerDoneMeans(rounds, st, mv, n, m);
      }
    } else if ConsumerNeverFails(st) {
      var q := Settles(rounds, st, mv, 0);
      LoopingForEver(rounds, st, mv, q);
      LoopingMeansLeftAlone(rounds, st, mv, q);
      NeverRaisedMeansNeverCut(rounds, st, mv);
    }
  }

  /** Exactly when both threads of a fair run finish: neither fails, and no trigger
      is lost unless someone raises the exit. */
  lemma BothFinishIff(rounds: nat, st: States, mv: Moves)
    requires Trace(rounds, st, mv) && Scheduled(st, mv) && Visible(st, mv)
    ensures (exists n: nat :: Finished(st(n))) <==>
              BindSucceeds(st) && ConsumerNeverFails(st) && (EverCut(st) || NothingLost(st))
  {
    ProducerFinishesIff(rounds, st, mv);
    ConsumerFinishesIff(rounds, st, mv);
    if ProducerFinishes(st) && ConsumerFinishes(st) {
      var n: nat :| st(n).prod.pc == PDone;
      var m: nat :| st(m).cons.pc == CDone;
      OverForEver(rounds, st, mv, n, Later(n, m));
      OverForEver(rounds, st, mv, m, Later(n, m));
      assert Finished(st(Later(n, m)));
    }
    forall n: nat | Finished(st(n)) ensures ProducerFinishes(st) && ConsumerFinishes(st) {}
  }

  /** A producer that never gets to its end and has not failed polls for ever, with
      `ready` raised and stranded, and nobody ever raises the exit. */
  lemma StrandedForEver(rounds: nat, st: States, mv: Moves) returns (q: nat)
    requires Trace(rounds, st, mv) && Scheduled(st, mv) && Visible(st, mv)
    requires BindSucceeds(st) && !ProducerFinishes(st)
    ensures NeverRaised(st)
    ensures forall n: nat :: n >= q ==> Polling(st(n).prod.pc) && ReadyIsUp(st(n)) && Stranded(st(n))
  {
    q := Settles(rounds, st, mv, 0);
    PollingForEver(rounds, st, mv, q);
    forall n: nat | n >= q ensures Polling(st(n).prod.pc) && ReadyIsUp(st(n)) && Stranded(st(n)) {
      assert Quiet(st, n) by {
        forall m: nat | m >= n ensures Measure(st(m)) == Measure(st(n)) {
          assert Measure(st(m)) == Measure(st(q)) == Measure(st(n));
        }
      }
      PollingForEver(rounds, st, mv, n);
      PollingMeansStranded(rounds, st, mv, n);
    }
  }

  /** Every fair run in which nothing is lost, nobody fails and nobody else raises the
      exit finishes with every round counted. */
  lemma FairRunsFinish(rounds: nat, st: States, mv: Moves) returns (n: nat)
    requires Trace(rounds, st, mv) && Scheduled(st, mv) && Visible(st, mv)
    requires BindSucceeds(st) && ConsumerNeverFails(st) && NothingLost(st) && !EverCut(st)
    ensures Finished(st(n)) && |st(n).samples| == rounds
  {
    BothFinishIff(rounds, st, mv);
    n :| Finished(st(n));
    TraceReaches(rounds, st, mv, 0, n);
    FinishedRunsAreComplete(rounds, st(n));
  }

  // ---------- fair runs exist ----------

  ghost function StateAt(s: State, es: seq<Event>, n: nat): State {
    var front := es[..if n <= |es| then n else |es|];
    if Run(s, front) then After(s, front) else s
  }

  ghost function MoveOf(es: seq<Event>, n: nat): Move {
    if n < |es| then Do(es[n]) else Idle
  }

  /** A finite run after which both threads are over, and then nothing, is fair. */
  lemma IdleAfter(rounds: nat, es: seq<Event>) returns (st: States, mv: Moves)
    requires Run(Init(rounds), es)
    requires ProducerOver(After(Init(rounds), es).prod.pc) && ConsumerOver(After(Init(rounds), es).cons.pc)
    ensures Trace(rounds, st, mv) && Scheduled(st, mv) && Visible(st, mv)
    ensures forall n: nat :: st(n) == StateAt(Init(rounds), es, n) && mv(n) == MoveOf(es, n)
  {
    st, mv := (n: nat) => StateAt(Init(rounds), es, n), (n: nat) => MoveOf(es, n);
    forall n: nat ensures MoveAt(st, mv, n) {
      if n < |es| { RunPrefix(Init(rounds), es, n); }
    }
    assert es[..|es|] == es;
    forall n: nat ensures ProducerRunsFrom(st, mv, n) && ConsumerRunsFrom(st, mv, n) {
      var m := n + |es|;
      assert st(m) == After(Init(rounds), es);
    }
    forall w: Wait ensures !Often(mv, w) {
      assert !LooksFrom(mv, w, |es|);
    }
  }

  /** The assumptions of `FairRunsFinish` can be met for any number of rounds. */
  lemma FairRunsExist(rounds: nat) returns (st: States, mv: Moves)
    ensures Trace(rounds, st, mv) && Scheduled(st, mv) && Visible(st, mv)
    ensures BindSucceeds(st) && ConsumerNeverFails(st) && NothingLost(st) && !EverCut(st)
  {
    InvHoldsInitially(rounds);
    var es := HealthyCanFinish(Init(rounds));
    st, mv := IdleAfter(rounds, es);
    forall n: nat ensures Healthy(st(n)) {
      HealthyAlong(rounds, st, mv, es, n);
    }
  }

  /** Whatever has happened so far, fairness can still be had: every finite run is the
      beginning of a fair infinite one. */
  lemma EveryRunBeginsAFairOne(rounds: nat, es: seq<Event>) returns (st: States, mv: Moves)
    requires Run(Init(rounds), es)
    ensures Trace(rounds, st, mv) && Scheduled(st, mv) && Visible(st, mv)
    ensures forall n: nat :: n < |es| ==> mv(n) == Do(es[n])
  {
    var s := After(Init(rounds), es);
    InvHoldsInitially(rounds);
    RunKeepsInv(Init(rounds), es);
    RunOneMore(Init(rounds), es, ExternalExit);
    StepKeepsInv(s, ExternalExit);
    var later := LeaveFrom(Step(s, ExternalExit));
    RunAppend(Init(rounds), es + [ExternalExit], later);
    st, mv := IdleAfter(rounds, es + [ExternalExit] + later);
  }

  lemma {:induction false} HealthyAlong(rounds: nat, st: States, mv: Moves, es: seq<Event>, n: nat)
    requires Trace(rounds, st, mv) && AllBenign(es) && forall m: nat :: mv(m) == MoveOf(es, m)
    ensures Healthy(st(n))
  {
    if n == 0 {
      InvHoldsInitially(rounds);
    } else {
      HealthyAlong(rounds, st, mv, es, n - 1);
      assert MoveAt(st, mv, n - 1);
      if n - 1 < |es| { BenignStepKeepsHealthy(st(n - 1), es[n - 1]); }
    }
  }
}
