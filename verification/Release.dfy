/** What the tests of `should_exit` in the waiting loops are for: once it is raised,
    neither thread needs the other any more. */
module Release {
  import opened Handshake
  import opened Invariant
  import opened Delivery
  import opened Progress
  import opened Placement
  import opened Displacement

  /** `should_exit` has been stored, by whomever. */
  predicate Raised(s: State) { |s.mem.exit| > 1 }

  lemma RaisedIsSeen(s: State)
    requires PlacedInv(s) && Raised(s)
    ensures s.mem.exit[|s.mem.exit| - 1].value
    ensures s.prod.view.exit < |s.mem.exit| && s.cons.view.exit < |s.mem.exit|
    ensures s.prod.view.ready < |s.mem.ready| && (Inv(s) ==> s.cons.view.ready < |s.mem.ready|)
    ensures |s.mem.timestamp| > 0 && (Inv(s) ==> s.cons.view.timestamp < |s.mem.timestamp|)
    ensures s.mem.ready[|s.mem.ready| - 1].view.exit < |s.mem.exit|
  {
    if Inv(s) { assert ExitEntry(s.mem, |s.mem.exit| - 1) && ReadyEntry(s.mem, |s.mem.ready| - 1); }
  }

  function ProducerLeaves(s: State): seq<Event>
    requires Raised(s) && |s.mem.ready| > 0
  {
    var newestReady, newestExit := |s.mem.ready| - 1, |s.mem.exit| - 1;
    match s.prod.pc
    case PBinding => [Bind(true)]
    case PTesting => if s.prod.i >= s.rounds then [RoundsOver] else [TestExit(newestExit)]
    case PReading => [ReadClock(s.prod.view.clock)]
    case PStoring => [StoreTimestamp]
    case PRaising => [RaiseReady]
    case PSending => [SendTrigger]
    case PPolling =>
      if s.mem.ready[newestReady].value then [PollReady(newestReady), PollExit(newestExit)]
      else [PollReady(newestReady)]
    case PPollingExit => [PollExit(newestExit)]
    case PFinishing => [StoreExit]
    case _ => []
  }

  function ConsumerLeaves(s: State): seq<Event>
    requires Raised(s) && |s.mem.ready| > 0 && |s.mem.timestamp| > 0
  {
    match s.cons.pc
    case CConnecting => [Connect(true, 0)]
    case CTesting => [LoopTest(|s.mem.exit| - 1)]
    case CReceiving => [Receive(false), LoopTest(|s.mem.exit| - 1)]
    case CWaiting => [WaitReady(|s.mem.ready| - 1)]
    case CWaitingExit => [WaitExit(|s.mem.exit| - 1)]
    case CReading => [SampleClock(s.cons.view.clock)]
    case CLoading => [LoadTimestamp(|s.mem.timestamp| - 1)]
    case CClearing => [ClearReady]
    case CCounting => [Count(0)]
    case _ => []
  }

  /** Steps without fault that leave less to do. */
  ghost predicate Onward(s: State, es: seq<Event>) {
    && Run(s, es) && NoExternalExit(es)
    && var t := After(s, es);
       && PlacedInv(t) && Raised(t) && 0 <= Measure(t) < Measure(s)
       && (t.prod.pc == PBindFailed <==> s.prod.pc == PBindFailed)
       && (t.cons.pc == CFailed <==> s.cons.pc == CFailed)
  }

  lemma BenignStepFailsNobody(s: State, e: Event)
    requires Enabled(s, e) && Benign(e) && Raised(s)
    ensures var t := Step(s, e);
      && Raised(t)
      && (t.prod.pc == PBindFailed <==> s.prod.pc == PBindFailed)
      && (t.cons.pc == CFailed <==> s.cons.pc == CFailed)
  {}

  lemma OneOnward(s: State, e: Event)
    requires PlacedInv(s) && Raised(s) && Enabled(s, e) && Benign(e) && !Spin(s, e)
    ensures Onward(s, [e])
  {
    PerformDecreasesMeasure(s, Ordinary(e));
    BenignStepFailsNobody(s, e);
    assert After(s, [e]) == Step(s, e);
  }

  lemma StepThenOnward(s: State, e: Event, f: Event)
    requires Enabled(s, e) && !e.ExternalExit? && Onward(Step(s, e), [f]) && Measure(Step(s, e)) <= Measure(s)
    requires Step(s, e).prod.pc == PBindFailed <==> s.prod.pc == PBindFailed
    requires Step(s, e).cons.pc == CFailed <==> s.cons.pc == CFailed
    ensures Onward(s, [e, f])
  {
    assert [e, f][1..] == [f] && [f][0] == f;
  }

  lemma TwoOnward(s: State, e: Event, f: Event)
    requires PlacedInv(s) && Raised(s) && Enabled(s, e) && Benign(e)
    requires Enabled(Step(s, e), f) && Benign(f) && !Spin(Step(s, e), f)
    ensures Onward(s, [e, f])
  {
    PerformDecreasesMeasure(s, Ordinary(e));
    BenignStepFailsNobody(s, e);
    OneOnward(Step(s, e), f);
    StepThenOnward(s, e, f);
  }

  lemma OneOrTwoOnward(s: State, es: seq<Event>)
    requires PlacedInv(s) && Raised(s) && 1 <= |es| <= 2 && Enabled(s, es[0]) && Benign(es[0])
    requires |es| == 1 ==> !Spin(s, es[0])
    requires |es| == 2 ==> Enabled(Step(s, es[0]), es[1]) && Benign(es[1]) && !Spin(Step(s, es[0]), es[1])
    ensures Onward(s, es)
  {
    if |es| == 1 {
      OneOnward(s, es[0]);
      assert es == [es[0]];
    } else {
      TwoOnward(s, es[0], es[1]);
      assert es == [es[0], es[1]];
    }
  }

  lemma ProducerLeavesByItself(s: State)
    requires Raised(s) && s.mem.exit[|s.mem.exit| - 1].value && ProducerLeaves.requires(s)
    requires s.prod.view.exit < |s.mem.exit| && s.prod.view.ready < |s.mem.ready|
    requires s.mem.ready[|s.mem.ready| - 1].view.exit < |s.mem.exit|
    requires ProducerLeaves(s) != []
    ensures var es := ProducerLeaves(s);
      && ByProducer(es[0]) && ProducerEnabled(s, es[0]) && Benign(es[0])
      && (|es| == 1 ==> !Spin(s, es[0]))
      && (|es| != 1 ==> |es| == 2 && es[1] == PollExit(|s.mem.exit| - 1)
                        && ProducerEnabled(ProducerStep(s, es[0]), es[1])
                        && ProducerStep(s, es[0]).mem == s.mem)
  {}

  lemma ProducerGoesOnward(s: State)
    requires PlacedInv(s) && Raised(s) && ProducerLeaves(s) != []
    ensures Onward(s, ProducerLeaves(s))
  {
    RaisedIsSeen(s);
    ProducerLeavesByItself(s);
    OneOrTwoOnward(s, ProducerLeaves(s));
  }

  lemma ConsumerLeavesByItself(s: State)
    requires Raised(s) && s.mem.exit[|s.mem.exit| - 1].value && ConsumerLeaves.requires(s)
    requires s.cons.view.exit < |s.mem.exit|
    requires s.cons.pc == CWaiting ==> s.cons.view.ready < |s.mem.ready|
    requires s.cons.pc == CLoading ==> s.cons.view.timestamp < |s.mem.timestamp|
    requires s.cons.pc == CWaiting ==> s.mem.ready[|s.mem.ready| - 1].value
    requires ConsumerLeaves(s) != []
    ensures var es := ConsumerLeaves(s);
      && ByConsumer(es[0]) && ConsumerEnabled(s, es[0]) && Benign(es[0])
      && (|es| == 1 ==> !Spin(s, es[0]))
      && (|es| != 1 ==> |es| == 2 && es[1] == LoopTest(|s.mem.exit| - 1)
                        && ConsumerEnabled(ConsumerStep(s, es[0]), es[1])
                        && ConsumerStep(s, es[0]).mem == s.mem)
  {}

  lemma ConsumerGoesOnward(s: State)
    requires PlacedInv(s) && Raised(s) && ConsumerLeaves(s) != []
    ensures Onward(s, ConsumerLeaves(s))
  {
    RaisedIsSeen(s);
    if s.cons.pc == CWaiting {
      AcknowledgingMeansParked(s);
      assert ReadyEntry(s.mem, |s.mem.ready| - 1);
    }
    ConsumerLeavesByItself(s);
    OneOrTwoOnward(s, ConsumerLeaves(s));
  }

  lemma NoExitAppend(es: seq<Event>, fs: seq<Event>)
    requires NoExternalExit(es) && NoExternalExit(fs)
    ensures NoExternalExit(es + fs)
  {}

  lemma {:induction false} LeaveFrom(s: State) returns (es: seq<Event>)
    requires PlacedInv(s) && Raised(s)
    ensures Run(s, es) && NoExternalExit(es)
    ensures After(s, es).prod.pc == if s.prod.pc == PBindFailed then PBindFailed else PDone
    ensures After(s, es).cons.pc == if s.cons.pc == CFailed then CFailed else CDone
    decreases Measure(s)
  {
    PlacedBounds(s);
    RaisedIsSeen(s);
    var now := if ProducerLeaves(s) != [] then ProducerLeaves(s) else ConsumerLeaves(s);
    if now == [] {
      es := [];
    } else {
      if ProducerLeaves(s) != [] { ProducerGoesOnward(s); } else { ConsumerGoesOnward(s); }
      var later := LeaveFrom(After(s, now));
      RunAppend(s, now, later);
      NoExitAppend(now, later);
      es := now + later;
    }
  }

  /** Once the exit is raised every thread that has not failed can finish, without
      help from outside: after a lost trigger, and whatever became of the other. */
  lemma RaisedExitFreesBoth(rounds: nat, s: State) returns (t: State)
    requires PlacedLeads(Init(rounds), s) && Raised(s)
    ensures Reaches(s, t)
    ensures t.prod.pc == if s.prod.pc == PBindFailed then PBindFailed else PDone
    ensures t.cons.pc == if s.cons.pc == CFailed then CFailed else CDone
  {
    PlacedLeadsKeepsInv(rounds, s);
    var es := LeaveFrom(s);
    t := After(s, es);
  }

  lemma LeadsThrough(s: State, e: Event, t: State)
    requires Enabled(s, e) && Leads(Step(s, e), t)
    ensures Leads(s, t)
  {
    var es :| Run(Step(s, e), es) && After(Step(s, e), es) == t;
    assert ([e] + es)[1..] == es;
    assert Run(s, [e] + es);
  }

  lemma HelpArrives(s: State) returns (t: State)
    requires Inv(s) && s.prod.pc != PBindFailed && s.cons.pc != CFailed
    ensures Leads(s, t) && Finished(t)
  {
    var raised := Step(s, ExternalExit);
    StepKeepsInv(s, ExternalExit);
    var es := LeaveFrom(raised);
    t := After(raised, es);
    LeadsThrough(s, ExternalExit, t);
  }

  /** With the help of an exit from outside, exactly the runs without a failed thread
      can be completed. */
  lemma CanFinishWithHelpIff(rounds: nat, s: State)
    requires Leads(Init(rounds), s)
    ensures (exists t :: Leads(s, t) && Finished(t)) <==> s.prod.pc != PBindFailed && s.cons.pc != CFailed
  {
    LeadsKeepsInv(rounds, s);
    if s.prod.pc != PBindFailed && s.cons.pc != CFailed {
      var t := HelpArrives(s);
    }
    forall t | Leads(s, t) && Finished(t) ensures s.prod.pc != PBindFailed && s.cons.pc != CFailed {
      var fs :| Run(s, fs) && After(s, fs) == t;
      if s.prod.pc == PBindFailed || s.cons.pc == CFailed { FaultsAreForever(s, fs); }
    }
  }
}
