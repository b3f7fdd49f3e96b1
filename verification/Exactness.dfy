/** The rendezvous specification promises no more than the threads can do: every
    log it allows is the log of a run, and already of one without stale loads. */
module Exactness {
  import opened Windows
  import opened Handshake
  import opened Invariant
  import opened Delivery
  import opened Rendezvous
  import opened ExternalExit

  /** Both threads are at their loop tests, every round so far is counted, and no
      clock has been read past `clock`. */
  ghost predicate AtRest(s: State, clock: nat) {
    && Sound(s) && s.prod.pc == PTesting && s.cons.pc == CTesting
    && s.prod.i == |s.samples| == s.received && s.channel == 0
    && s.prod.view.clock <= clock && s.cons.view.clock <= clock
  }

  /** An interleaving run that loses nothing and that nobody disturbs. */
  ghost predicate Plain(s: State, es: seq<Event>) {
    InterleavingRun(s, es) && NoExternalExit(es)
  }

  lemma PlainStep(s: State, e: Event)
    requires Sound(s) && Enabled(s, e) && Newest(s, e) && !e.ExternalExit?
    ensures Plain(s, [e]) && Run(s, [e]) && After(s, [e]) == Step(s, e) && Sound(Step(s, e))
  {
    assert [e][1..] == [];
    StepKeepsInv(s, e);
  }

  lemma {:induction false} PlainAppend(s: State, es: seq<Event>, fs: seq<Event>)
    requires Plain(s, es) && Run(s, es) && Plain(After(s, es), fs)
    ensures Plain(s, es + fs) && Run(s, es + fs) && Run(After(s, es), fs)
    ensures After(s, es + fs) == After(After(s, es), fs)
    decreases |es|
  {
    InterleavingIsRun(After(s, es), fs);
    RunAppend(s, es, fs);
    if es == [] {
      assert es + fs == fs;
    } else {
      assert (es + fs)[1..] == es[1..] + fs;
      forall k | 0 <= k < |es[1..]| ensures !es[1..][k].ExternalExit? { assert es[1..][k] == es[k + 1]; }
      PlainAppend(Step(s, es[0]), es[1..], fs);
    }
  }

  /** A plain run of one more step. */
  lemma Then(s: State, es: seq<Event>, e: Event) returns (fs: seq<Event>)
    requires Plain(s, es) && Run(s, es) && Sound(After(s, es))
    requires Enabled(After(s, es), e) && Newest(After(s, es), e) && !e.ExternalExit?
    ensures Plain(s, fs) && Run(s, fs) && After(s, fs) == Step(After(s, es), e) && Sound(After(s, fs))
  {
    PlainStep(After(s, es), e);
    PlainAppend(s, es, [e]);
    fs := es + [e];
  }

  /** The round is published at clock `ts`, the consumer where it was. */
  ghost predicate PublishedAt(s: State, t: State, ts: nat) {
    && Sound(t) && t.prod.pc == PPolling && t.prod.i == s.prod.i && t.rounds == s.rounds
    && t.cons == s.cons && t.samples == s.samples && t.received == s.received && t.channel == 1
    && t.prod.view.clock == ts
    && |t.mem.timestamp| == |s.mem.timestamp| + 1 && |t.mem.ready| == |s.mem.ready| + 1
    && t.mem.timestamp[|s.mem.timestamp|].value == ts && t.mem.timestamp[|s.mem.timestamp|].view.clock == ts
    && t.mem.ready[|s.mem.ready|].view.clock == ts
  }

  lemma UnawareAtRest(s: State)
    requires Sound(s) && s.prod.pc != PDone
    ensures |s.mem.exit| == 1 && !s.mem.exit[0].value && s.prod.view.exit == 0 && s.cons.view.exit == 0
  {
    assert ExitEntry(s.mem, 0);
  }

  lemma PublishRound(s: State, clock: nat, ts: nat) returns (es: seq<Event>)
    requires AtRest(s, clock) && clock <= ts && s.prod.i < s.rounds
    ensures Plain(s, es) && Run(s, es) && PublishedAt(s, After(s, es), ts)
  {
    UnawareAtRest(s);
    es := Then(s, [], TestExit(0));
    es := Then(s, es, ReadClock(ts));
    es := Then(s, es, StoreTimestamp);
    es := Then(s, es, RaiseReady);
    es := Then(s, es, SendTrigger);
  }

  /** The consumer has seen `ready` and stands before its clock sample. */
  ghost predicate SeenAt(t: State, u: State, ts: nat) {
    && Sound(u) && u.cons.pc == CReading && u.cons.view.clock <= Max(t.cons.view.clock, ts)
    && u.prod == t.prod && u.mem == t.mem && u.samples == t.samples && u.rounds == t.rounds
    && u.received == t.received + 1
  }

  /** The consumer has taken the trigger. */
  ghost predicate ReceivedAt(t: State, r: State) {
    && Sound(r) && r.cons.pc == CWaiting && r.cons.view.clock == t.cons.view.clock
    && r.prod == t.prod && r.mem == t.mem && r.samples == t.samples && r.rounds == t.rounds
    && r.received == t.received + 1
  }

  lemma ReceiveRound(s: State, t: State, ts: nat) returns (es: seq<Event>)
    requires PublishedAt(s, t, ts) && t.cons.pc == CTesting
    ensures Plain(t, es) && Run(t, es) && ReceivedAt(t, After(t, es))
  {
    UnawareAtRest(t);
    es := Then(t, [], LoopTest(0));
    es := Then(t, es, Receive(true));
  }

  lemma NewestReadyIsTrue(r: State)
    requires Sound(r) && r.cons.pc == CWaiting
    ensures |r.mem.ready| > 0 && r.mem.ready[|r.mem.ready| - 1].value && r.cons.view.ready < |r.mem.ready|
  {
    AcknowledgingMeansParked(r);
    assert ReadyEntry(r.mem, |r.mem.ready| - 1);
  }

  lemma SeeReadyEffect(t: State, r: State, ts: nat)
    requires ReceivedAt(t, r)
    requires |t.mem.ready| > 0 && t.mem.ready[|t.mem.ready| - 1].view.clock == ts
    ensures var e := WaitReady(|r.mem.ready| - 1);
      && ConsumerEnabled(r, e)
      && var u := ConsumerStep(r, e);
         u.cons.pc == CReading && u.cons.view.clock <= Max(t.cons.view.clock, ts)
         && u.(cons := r.cons) == r
  {
    NewestReadyIsTrue(r);
  }

  lemma SeeReady(t: State, r: State, ts: nat) returns (es: seq<Event>)
    requires ReceivedAt(t, r)
    requires |t.mem.ready| > 0 && t.mem.ready[|t.mem.ready| - 1].view.clock == ts
    ensures Plain(r, es) && Run(r, es) && SeenAt(t, After(r, es), ts)
  {
    SeeReadyEffect(t, r, ts);
    var e := WaitReady(|r.mem.ready| - 1);
    PlainStep(r, e);
    es := [e];
  }

  lemma SeeRound(s: State, t: State, clock: nat, ts: nat) returns (es: seq<Event>)
    requires AtRest(s, clock) && clock <= ts && PublishedAt(s, t, ts)
    ensures Plain(t, es) && Run(t, es) && SeenAt(t, After(t, es), ts)
  {
    var a := ReceiveRound(s, t, ts);
    assert |t.mem.ready| - 1 == |s.mem.ready|;
    var b := SeeReady(t, After(t, a), ts);
    PlainAppend(t, a, b);
    es := a + b;
  }

  /** The round `s` was about to begin is published, raised and seen. */
  ghost predicate Ready(s: State, u: State, ts: nat) {
    && Sound(u) && u.cons.pc == CReading && u.cons.view.clock <= ts
    && u.prod.pc == PPolling && u.prod.i == s.prod.i && u.prod.view.clock <= ts
    && u.samples == s.samples && u.rounds == s.rounds
    && |u.mem.ready| == 2 * s.prod.i + 2
    && |u.mem.timestamp| > 0 && u.mem.timestamp[|u.mem.timestamp| - 1].value == ts
    && u.mem.timestamp[|u.mem.timestamp| - 1].view.clock == ts
  }

  lemma SeenMeansReady(s: State, t: State, u: State, clock: nat, ts: nat)
    requires AtRest(s, clock) && clock <= ts && PublishedAt(s, t, ts) && SeenAt(t, u, ts)
    ensures Ready(s, u, ts)
  {
    AcknowledgingMeansParked(u);
    assert u.received == s.received + 1 == Acks(u) + 1;
  }

  lemma MakeReady(s: State, clock: nat, ts: nat) returns (es: seq<Event>)
    requires AtRest(s, clock) && clock <= ts && s.prod.i < s.rounds
    ensures Plain(s, es) && Run(s, es) && Ready(s, After(s, es), ts)
  {
    var a := PublishRound(s, clock, ts);
    var t := After(s, a);
    var b := SeeRound(s, t, clock, ts);
    SeenMeansReady(s, t, After(t, b), clock, ts);
    PlainAppend(s, a, b);
    es := a + b;
  }

  /** The meeting has been loaded. */
  ghost predicate LoadedAt(s: State, v: State, m: Meeting) {
    && Sound(v) && v.cons.pc == CClearing && v.cons.msgTs == m.ts && v.cons.ns == m.ns
    && v.cons.view.clock <= m.ns
    && v.prod.pc == PPolling && v.prod.i == s.prod.i && v.prod.view.clock <= m.ns
    && v.samples == s.samples && v.rounds == s.rounds && |v.mem.ready| == 2 * s.prod.i + 2
  }

  /** The clock has been sampled. */
  ghost predicate SampledAt(u: State, x: State, ns: nat) {
    && Sound(x) && x.cons.pc == CLoading && x.cons.ns == ns && x.cons.view.clock == ns
    && x.prod == u.prod && x.mem == u.mem && x.samples == u.samples && x.rounds == u.rounds
  }

  lemma SampleRound(u: State, ns: nat) returns (es: seq<Event>)
    requires Sound(u) && u.cons.pc == CReading && u.cons.view.clock <= ns
    ensures Plain(u, es) && Run(u, es) && SampledAt(u, After(u, es), ns)
  {
    es := Then(u, [], SampleClock(ns));
  }

  lemma LoadEffect(x: State)
    requires x.cons.pc == CLoading && x.cons.view.timestamp < |x.mem.timestamp|
    ensures var idx := |x.mem.timestamp| - 1;
      && ConsumerEnabled(x, LoadTimestamp(idx))
      && var v := ConsumerStep(x, LoadTimestamp(idx));
         && v.(cons := x.cons) == x && v.cons.pc == CClearing && v.cons.ns == x.cons.ns
         && v.cons.msgTs == x.mem.timestamp[idx].value
         && v.cons.view.clock == Max(x.cons.view.clock, x.mem.timestamp[idx].view.clock)
  {}

  lemma LoadSampled(s: State, u: State, x: State, m: Meeting) returns (es: seq<Event>)
    requires Ready(s, u, m.ts) && SampledAt(u, x, m.ns) && m.ts <= m.ns
    ensures Plain(x, es) && Run(x, es) && LoadedAt(s, After(x, es), m)
  {
    LoadEffect(x);
    var e := LoadTimestamp(|x.mem.timestamp| - 1);
    PlainStep(x, e);
    es := [e];
  }

  lemma LoadRound(s: State, u: State, m: Meeting) returns (es: seq<Event>)
    requires Ready(s, u, m.ts) && m.ts <= m.ns
    ensures Plain(u, es) && Run(u, es) && LoadedAt(s, After(u, es), m)
  {
    var a := SampleRound(u, m.ns);
    var b := LoadSampled(s, u, After(u, a), m);
    PlainAppend(u, a, b);
    es := a + b;
  }

  ghost predicate TakenAt(s: State, v: State, m: Meeting) {
    && Sound(v) && v.cons.pc == CCounting && v.cons.msgTs == m.ts && v.cons.ns == m.ns
    && v.cons.view.clock <= m.ns
    && v.prod.pc == PPolling && v.prod.i == s.prod.i && v.prod.view.clock <= m.ns
    && v.samples == s.samples && v.rounds == s.rounds && |v.mem.ready| == 2 * s.prod.i + 3
    && v.mem.ready[|v.mem.ready| - 1].view.clock <= m.ns
  }

  lemma TakeRound(s: State, u: State, m: Meeting) returns (es: seq<Event>)
    requires Ready(s, u, m.ts) && m.ts <= m.ns
    ensures Plain(u, es) && Run(u, es) && TakenAt(s, After(u, es), m)
  {
    var a := LoadRound(s, u, m);
    PlainStep(After(u, a), ClearReady);
    PlainAppend(u, a, [ClearReady]);
    es := a + [ClearReady];
  }

  lemma NewestReadyIsFalse(v: State)
    requires Sound(v) && v.prod.pc == PPolling && |v.mem.ready| == 2 * v.prod.i + 3
    ensures !v.mem.ready[|v.mem.ready| - 1].value && v.prod.view.ready < |v.mem.ready|
  {
    assert ReadyEntry(v.mem, |v.mem.ready| - 1);
  }

  /** The producer sees `ready` cleared. */
  lemma PollCleared(v: State, clock: nat) returns (es: seq<Event>)
    requires Sound(v) && v.cons.pc == CCounting && v.prod.pc == PPolling && v.prod.view.clock <= clock
    requires |v.mem.ready| > 0 && |v.mem.ready| == 2 * v.prod.i + 3
    requires v.mem.ready[|v.mem.ready| - 1].view.clock <= clock
    ensures Plain(v, es) && Run(v, es)
    ensures var x := After(v, es);
      && Sound(x) && x.prod.pc == PTesting && x.prod.i == v.prod.i + 1 && x.prod.view.clock <= clock
      && x.cons == v.cons && x.samples == v.samples && x.rounds == v.rounds && x.mem == v.mem
  {
    NewestReadyIsFalse(v);
    var e := PollReady(|v.mem.ready| - 1);
    PlainStep(v, e);
    assert ProducerStep(v, e).prod.pc == PTesting;
    es := [e];
  }

  lemma CountRound(x: State, clock: nat) returns (es: seq<Event>)
    requires Sound(x) && x.prod.pc == PTesting && x.cons.pc == CCounting
    requires x.prod.view.clock <= clock && x.cons.view.clock <= clock
    ensures Plain(x, es) && Run(x, es) && AtRest(After(x, es), clock)
    ensures Log(After(x, es)) == Log(x) && After(x, es).rounds == x.rounds
  {
    UnawareAtRest(x);
    OthersStutter(x, Count(0));
    es := Then(x, [], Count(0));
  }

  lemma EndRound(s: State, v: State, m: Meeting) returns (es: seq<Event>)
    requires TakenAt(s, v, m)
    ensures Plain(v, es) && Run(v, es) && AtRest(After(v, es), m.ns)
    ensures Log(After(v, es)) == Log(v) && After(v, es).rounds == v.rounds
  {
    var a := PollCleared(v, m.ns);
    var b := CountRound(After(v, a), m.ns);
    PlainAppend(v, a, b);
    es := a + b;
  }

  lemma TakenLog(s: State, v: State, m: Meeting)
    requires TakenAt(s, v, m) && s.cons.pc == CTesting
    ensures Log(v) == Log(s) + [m]
  {}

  /** One meeting, played out by the two threads. */
  lemma PlayRound(s: State, clock: nat, m: Meeting) returns (es: seq<Event>)
    requires AtRest(s, clock) && clock <= m.ts <= m.ns && s.prod.i < s.rounds
    ensures Plain(s, es) && Run(s, es) && AtRest(After(s, es), m.ns)
    ensures Log(After(s, es)) == Log(s) + [m] && After(s, es).rounds == s.rounds
  {
    var a := MakeReady(s, clock, m.ts);
    var u := After(s, a);
    var b := TakeRound(s, u, m);
    var v := After(u, b);
    TakenLog(s, v, m);
    var c := EndRound(s, v, m);
    PlainAppend(u, b, c);
    PlainAppend(s, a, b + c);
    es := a + (b + c);
  }

  lemma StartRun(rounds: nat) returns (es: seq<Event>)
    ensures Plain(Init(rounds), es) && Run(Init(rounds), es) && AtRest(After(Init(rounds), es), 0)
    ensures Log(After(Init(rounds), es)) == [] && After(Init(rounds), es).rounds == rounds
  {
    InvHoldsInitially(rounds);
    es := Then(Init(rounds), [], Bind(true));
    es := Then(Init(rounds), es, Connect(true, 0));
  }

  function LastClock(log: seq<Meeting>): nat {
    if log == [] then 0 else log[|log| - 1].ns
  }

  /** `es` is a plain run that plays out `log` and leaves both threads at rest. */
  ghost predicate Plays(rounds: nat, es: seq<Event>, log: seq<Meeting>) {
    && Plain(Init(rounds), es) && Run(Init(rounds), es)
    && var s := After(Init(rounds), es);
       Log(s) == log && AtRest(s, LastClock(log)) && s.rounds == rounds
  }

  lemma PlayOneMore(rounds: nat, front: seq<Meeting>, m: Meeting, before: seq<Event>) returns (es: seq<Event>)
    requires |front| < rounds && LastClock(front) <= m.ts <= m.ns && Plays(rounds, before, front)
    ensures Plays(rounds, es, front + [m])
  {
    var s := After(Init(rounds), before);
    assert |Log(s)| == |s.samples|;
    var last := PlayRound(s, LastClock(front), m);
    PlainAppend(Init(rounds), before, last);
    es := before + last;
  }

  lemma {:induction false} EveryLogIsPlayed(rounds: nat, log: seq<Meeting>) returns (es: seq<Event>)
    requires Disjoint(log) && |log| <= rounds
    ensures Plays(rounds, es, log)
    decreases |log|
  {
    if log == [] {
      es := StartRun(rounds);
    } else {
      var front, m := log[..|log| - 1], log[|log| - 1];
      assert front != [] ==> log[|front| - 1].ns <= m.ts;
      var before := EveryLogIsPlayed(rounds, front);
      es := PlayOneMore(rounds, front, m, before);
      assert log == front + [m];
    }
  }

  /** A run of the specification from its initial state. */
  ghost predicate SpecRunFrom(rounds: nat, tr: seq<Spec>) {
    SpecRun(tr) && tr[0] == Spec(rounds, [], false)
  }

  /** The logs of the release/acquire system, of plain interleaving and of the
      specification are the same: the ordered sequences of disjoint meetings, at
      most one a round. */
  lemma LogsAreExactlyTheDisjointOnes(rounds: nat, log: seq<Meeting>)
    ensures (exists es :: Run(Init(rounds), es) && NoExternalExit(es) && Log(After(Init(rounds), es)) == log)
            <==> Disjoint(log) && |log| <= rounds
    ensures (exists es :: Plain(Init(rounds), es) && Run(Init(rounds), es) && Log(After(Init(rounds), es)) == log)
            <==> Disjoint(log) && |log| <= rounds
    ensures (exists tr: seq<Spec> :: SpecRunFrom(rounds, tr) && tr[|tr| - 1].log == log)
            <==> Disjoint(log) && |log| <= rounds
  {
    if Disjoint(log) && |log| <= rounds {
      var es := EveryLogIsPlayed(rounds, log);
      ThreadsRefineRendezvous(rounds, es);
      assert SpecRunFrom(rounds, AbsTrace(Init(rounds), es));
    }
    forall tr: seq<Spec> | SpecRunFrom(rounds, tr) && tr[|tr| - 1].log == log ensures Disjoint(log) && |log| <= rounds {
      SpecRunKeepsInv(tr, |tr| - 1);
    }
    forall es | Run(Init(rounds), es) && NoExternalExit(es) && Log(After(Init(rounds), es)) == log
      ensures Disjoint(log) && |log| <= rounds
    {
      LatencyIntervalsAreDisjoint(rounds, es);
    }
  }
}
