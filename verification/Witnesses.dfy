/** Concrete runs behind the failures: each of them is reached, for any number of
    rounds, and there is a fair run that never ends. */
module Witnesses {
  import opened Handshake
  import opened Invariant
  import opened Delivery
  import opened Exactness
  import opened ExternalExit
  import opened Fairness
  import Ownership
  import Accounting

  // ---------- the handshake ----------

  /** The only trigger is lost while the consumer has just connected. */
  function Lost(rounds: nat): State {
    Triggered(rounds, 7).(cons := Init(rounds).cons.(pc := CTesting), channel := 0, lost := 1)
  }

  lemma ATriggerCanBeLost(rounds: nat)
    requires rounds > 0
    ensures Reaches(Init(rounds), Lost(rounds)) && Lost(rounds).lost == 1
  {
    TriggeredIsReachable(rounds, 7);
    var s := Next(Init(rounds), Triggered(rounds, 7), Connect(true, 0));
    s := Next(Init(rounds), s, Lose);
  }

  /** The consumer returns an error with its round unacknowledged. */
  lemma TheConsumerCanFailEarly(rounds: nat) returns (s: State)
    requires rounds > 0
    ensures Reaches(Init(rounds), s) && s.cons.pc == CFailed && Acks(s) < rounds && s.prod.pc == PPolling
  {
    TriggeredIsReachable(rounds, 7);
    s := Next(Init(rounds), Triggered(rounds, 7), Connect(true, 0));
    s := Next(Init(rounds), s, LoopTest(0));
    s := Next(Init(rounds), s, ReceiveFails);
  }

  /** The consumer has cleared `ready`, and the producer's next look still finds `true`. */
  lemma TheClearingCanBeOverlooked(rounds: nat) returns (s: State)
    requires rounds > 0
    ensures Reaches(Init(rounds), s) && s.cons.pc == CCounting && s.prod.pc == PPolling
    ensures |s.mem.ready| == 3 && !s.mem.ready[2].value
    ensures Enabled(s, PollReady(1)) && Step(s, PollReady(1)).prod.pc == PPollingExit
  {
    HandedIsReachable(rounds, 7);
    s := Next(Init(rounds), Handed(rounds, 7), WaitReady(1));
    s := Next(Init(rounds), s, SampleClock(7));
    s := Next(Init(rounds), s, LoadTimestamp(1));
    s := ClearTheRound(rounds, s);
  }

  lemma ClearTheRound(rounds: nat, before: State) returns (s: State)
    requires Reaches(Init(rounds), before) && before.cons.pc == CClearing
    requires before.prod == Triggered(rounds, 7).prod && before.mem == Triggered(rounds, 7).mem
    ensures Reaches(Init(rounds), s) && s == Step(before, ClearReady)
    ensures |s.mem.ready| == 3 && !s.mem.ready[2].value && s.cons.pc == CCounting && s.prod.pc == PPolling
    ensures Enabled(s, PollReady(1)) && Step(s, PollReady(1)).prod.pc == PPollingExit
  {
    s := Next(Init(rounds), before, ClearReady);
  }

  lemma TheBindCanFail(rounds: nat) returns (s: State)
    ensures Reaches(Init(rounds), s) && s.prod.pc == PBindFailed && s.cons.pc == CTesting
  {
    ReachesItself(Init(rounds));
    s := Next(Init(rounds), Init(rounds), Bind(false));
    s := Next(Init(rounds), s, Connect(true, 0));
  }

  /** Under release/acquire any number of messages can be counted after the exit is
      raised, even from the start: nobody needs to see it. */
  lemma AnyNumberCountedAfterExit(rounds: nat, n: nat) returns (s: State, t: State)
    requires n <= rounds
    ensures Leads(Init(rounds), s) && |s.mem.exit| > 1 && s.samples == []
    ensures Reaches(s, t) && |t.samples| == n
  {
    var es := EveryLogIsPlayed(rounds, seq(n, _ => Windows.Meeting(0, 0)));
    RaiseCanGoUnseen(Init(rounds), es);
    s, t := Raise(Init(rounds)), Raise(After(Init(rounds), es));
    ReachesItself(Init(rounds));
    LeadsFurther(Init(rounds), Init(rounds), ExternalExit);
  }

  // ---------- a fair run that never ends ----------

  /** Both threads go round their loops, from `s` on, four steps a turn. */
  function Around(s: State, k: nat): State {
    if k % 4 == 1 then s.(prod := s.prod.(pc := PPollingExit))
    else if k % 4 == 3 then s.(cons := s.cons.(pc := CReceiving))
    else s
  }

  function AroundEvent(k: nat): Event {
    if k % 4 == 0 then PollReady(1) else if k % 4 == 1 then PollExit(0)
    else if k % 4 == 2 then LoopTest(0) else Receive(false)
  }

  lemma AroundStep(rounds: nat, k: nat)
    ensures Enabled(Around(Lost(rounds), k), AroundEvent(k))
    ensures Around(Lost(rounds), k + 1) == Step(Around(Lost(rounds), k), AroundEvent(k))
  {
    assert (k + 1) % 4 == if k % 4 == 3 then 0 else k % 4 + 1;
  }

  ghost function StuckState(rounds: nat, es: seq<Event>, n: nat): State {
    if n < |es| then StateAt(Init(rounds), es, n) else Around(Lost(rounds), n - |es|)
  }

  function StuckMove(es: seq<Event>, n: nat): Move {
    Do(if n < |es| then es[n] else AroundEvent(n - |es|))
  }

  lemma StuckStep(rounds: nat, es: seq<Event>, n: nat)
    requires Run(Init(rounds), es) && After(Init(rounds), es) == Lost(rounds)
    ensures var s, e := StuckState(rounds, es, n), StuckMove(es, n).e;
      Enabled(s, e) && StuckState(rounds, es, n + 1) == Step(s, e)
  {
    if n < |es| {
      assert es[..|es|] == es;
      RunPrefix(Init(rounds), es, n);
      assert n + 1 == |es| ==> StuckState(rounds, es, n + 1) == After(Init(rounds), es);
    } else {
      AroundStep(rounds, n - |es|);
    }
  }

  /** The instant from `n` on at which the turn is at its step `r`. */
  function Turn(es: seq<Event>, n: nat, r: nat): nat { |es| + 4 * n + r }

  lemma TurnRemainder(n: nat, r: nat)
    requires r < 4
    ensures (4 * n + r) % 4 == r
  {}

  lemma TurnHasStep(rounds: nat, es: seq<Event>, n: nat, r: nat)
    requires r < 4
    ensures StuckMove(es, Turn(es, n, r)) == Do(AroundEvent(r))
    ensures StuckState(rounds, es, Turn(es, n, r)) == Around(Lost(rounds), r)
  {
    TurnRemainder(n, r);
    assert Turn(es, n, r) - |es| == 4 * n + r;
  }

  /** The infinite run made of the prefix `es` and the turns. */
  ghost predicate StuckRun(rounds: nat, es: seq<Event>, st: States, mv: Moves) {
    && (forall k: nat :: st(k) == StuckState(rounds, es, k))
    && (forall k: nat :: mv(k) == StuckMove(es, k))
  }

  lemma StuckFinds(rounds: nat, es: seq<Event>, st: States, mv: Moves, w: Wait, n: nat)
    requires StuckRun(rounds, es, st, mv) && w != ReadyRaised
    ensures FindsFrom(st, mv, w, n)
  {
    var r := match w case ReadyCleared => 0 case ExitPolled => 1 case ExitRaised => 2 case _ => 3;
    TurnHasStep(rounds, es, n, r);
    assert Finds(st(Turn(es, n, r)), mv(Turn(es, n, r)), w);
  }

  lemma StuckNeverAwaits(rounds: nat, es: seq<Event>, st: States, mv: Moves)
    requires StuckRun(rounds, es, st, mv)
    ensures !Often(mv, ReadyRaised)
  {
    forall m: nat | m >= |es| ensures !LooksAt(mv(m), ReadyRaised) {}
    assert !LooksFrom(mv, ReadyRaised, |es|);
  }

  lemma StuckIsScheduled(rounds: nat, es: seq<Event>, st: States, mv: Moves, n: nat)
    requires StuckRun(rounds, es, st, mv)
    ensures ProducerRunsFrom(st, mv, n) && ConsumerRunsFrom(st, mv, n)
  {
    TurnHasStep(rounds, es, n, 0);
    TurnHasStep(rounds, es, n, 2);
    assert ProducerMove(mv(Turn(es, n, 0))) && ConsumerMove(mv(Turn(es, n, 2)));
  }

  lemma StuckIsNeverOver(rounds: nat, es: seq<Event>, st: States, mv: Moves, n: nat)
    requires StuckRun(rounds, es, st, mv) && Trace(rounds, st, mv)
    ensures !ProducerOver(st(n).prod.pc) && !ConsumerOver(st(n).cons.pc)
  {
    TurnHasStep(rounds, es, n, 0);
    OverForEver(rounds, st, mv, n, Turn(es, n, 0));
    assert st(Turn(es, n, 0)) == Lost(rounds);
  }

  /** A fair run, with nobody failing and no exit from outside, in which neither
      thread ever finishes: its trigger is lost. */
  lemma FairRunsCanBeStuck(rounds: nat) returns (st: States, mv: Moves)
    requires rounds > 0
    ensures Trace(rounds, st, mv) && Scheduled(st, mv) && Visible(st, mv)
    ensures BindSucceeds(st) && ConsumerNeverFails(st) && !ProducerFinishes(st) && !ConsumerFinishes(st)
  {
    ATriggerCanBeLost(rounds);
    var es :| Run(Init(rounds), es) && NoExternalExit(es) && After(Init(rounds), es) == Lost(rounds);
    st, mv := (n: nat) => StuckState(rounds, es, n), (n: nat) => StuckMove(es, n);
    forall n: nat ensures MoveAt(st, mv, n) { StuckStep(rounds, es, n); }
    assert st(0) == Init(rounds);
    forall n: nat ensures ProducerRunsFrom(st, mv, n) && ConsumerRunsFrom(st, mv, n) {
      StuckIsScheduled(rounds, es, st, mv, n);
    }
    StuckNeverAwaits(rounds, es, st, mv);
    forall w: Wait, n: nat | w != ReadyRaised ensures FindsFrom(st, mv, w, n) {
      StuckFinds(rounds, es, st, mv, w, n);
    }
    forall n: nat ensures !ProducerOver(st(n).prod.pc) && !ConsumerOver(st(n).cons.pc) {
      StuckIsNeverOver(rounds, es, st, mv, n);
    }
  }

  // ---------- handles ----------

  /** Connecting twice leaks the first connection, whatever happens afterwards. */
  lemma ConnectingTwiceLeaks(ops: seq<Ownership.Op>)
    ensures var twice := [Ownership.CreateClient(0, true), Ownership.Connect(0, true), Ownership.Connect(0, true)];
      Accounting.Leaked(Ownership.ExecAll(Ownership.EMPTY, twice + ops), 1)
  {
    var twice := [Ownership.CreateClient(0, true), Ownership.Connect(0, true), Ownership.Connect(0, true)];
    TwiceLeaks();
    Accounting.ExecAllKeepsInv(Ownership.EMPTY, twice);
    Accounting.ExecAllAppend(Ownership.EMPTY, twice, ops);
    Accounting.LeaksStay(Ownership.ExecAll(Ownership.EMPTY, twice), ops, 1);
  }

  lemma TwiceLeaks()
    ensures var twice := [Ownership.CreateClient(0, true), Ownership.Connect(0, true), Ownership.Connect(0, true)];
      Accounting.Leaked(Ownership.ExecAll(Ownership.EMPTY, twice), 1)
  {
    var w0 := Ownership.EMPTY;
    var a, b, c := Ownership.CreateClient(0, true), Ownership.Connect(0, true), Ownership.Connect(0, true);
    var w1 := Ownership.Exec(w0, a);
    var w2 := Ownership.Exec(w1, b);
    var w3 := Ownership.Exec(w2, c);
    assert [a, b, c][1..] == [b, c] && [b, c][1..] == [c] && [c][1..] == [];
    assert Ownership.ExecAll(w0, [a, b, c]) == Ownership.ExecAll(w1, [b, c]) == Ownership.ExecAll(w2, [c]) == w3;
    assert w3.overwritten == [1] && w3.created == 3 && w3.destroyed == [];
  }
}
