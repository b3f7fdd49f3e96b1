/** Plain interleaving, told from the events alone: every load returns the store made
    last. */
module Interleaving {
  import opened Handshake
  import opened ExternalExit
  import opened History

  /** Event `n`, if it is a load, returns the newest entry at that moment. */
  predicate LoadsNewest(es: seq<Event>, n: nat)
    requires n < |es|
  {
    match es[n]
    case TestExit(idx) => idx == CountIf(es, n, StoresExit)
    case PollExit(idx) => idx == CountIf(es, n, StoresExit)
    case LoopTest(idx) => idx == CountIf(es, n, StoresExit)
    case WaitExit(idx) => idx == CountIf(es, n, StoresExit)
    case PollReady(idx) => idx == CountIf(es, n, StoresReady)
    case WaitReady(idx) => idx == CountIf(es, n, StoresReady)
    case LoadTimestamp(idx) => idx == CountIf(es, n, StoresTimestamp)
    case _ => true
  }

  ghost predicate NewestAt(s: State, es: seq<Event>, n: nat)
    requires n < |es|
  {
    Run(s, es[..n]) && Newest(After(s, es[..n]), es[n])
  }

  lemma NewestLater(s: State, es: seq<Event>, n: nat)
    requires es != [] && Enabled(s, es[0]) && n < |es| - 1
    ensures NewestAt(s, es, n + 1) <==> NewestAt(Step(s, es[0]), es[1..], n)
  {
    assert es[..n + 1][1..] == es[1..][..n] && es[..n + 1][0] == es[0] && es[1..][n] == es[n + 1];
  }

  lemma {:induction false} InterleavingPointwise(s: State, es: seq<Event>)
    requires Run(s, es)
    ensures InterleavingRun(s, es) <==> forall n :: 0 <= n < |es| ==> NewestAt(s, es, n)
    decreases |es|
  {
    if es != [] {
      var t, rest := Step(s, es[0]), es[1..];
      InterleavingPointwise(t, rest);
      assert es[..0] == [];
      assert NewestAt(s, es, 0) <==> Newest(s, es[0]);
      forall n | 0 <= n < |rest| ensures NewestAt(s, es, n + 1) <==> NewestAt(t, rest, n) { NewestLater(s, es, n); }
      assert (forall n :: 0 <= n < |es| ==> NewestAt(s, es, n)) ==>
          forall n :: 0 <= n < |rest| ==> NewestAt(t, rest, n) by {
        if forall n :: 0 <= n < |es| ==> NewestAt(s, es, n) {
          forall n | 0 <= n < |rest| ensures NewestAt(t, rest, n) { assert NewestAt(s, es, n + 1); }
        }
      }
      if (forall n :: 0 <= n < |rest| ==> NewestAt(t, rest, n)) && Newest(s, es[0]) {
        forall n | 0 <= n < |es| ensures NewestAt(s, es, n) {
          if n > 0 { assert NewestAt(t, rest, n - 1); }
        }
      }
    }
  }

  lemma NewestIsLastStored(s: State, es: seq<Event>, n: nat)
    requires n < |es| && MemoryRecorded(s.mem, es, n)
    ensures Newest(s, es[n]) <==> LoadsNewest(es, n)
  {
    assert |Values(s.mem.timestamp)| == |s.mem.timestamp| && |Values(s.mem.ready)| == |s.mem.ready|;
  }

  lemma NewestAtIsLastStored(rounds: nat, es: seq<Event>, n: nat)
    requires Run(Init(rounds), es) && n < |es|
    ensures NewestAt(Init(rounds), es, n) <==> LoadsNewest(es, n)
  {
    PrefixRecorded(rounds, es, n);
    NewestIsLastStored(After(Init(rounds), es[..n]), es, n);
  }

  /** The runs of plain interleaving are those in which every load returns the last
      store to its location. */
  lemma InterleavingMeansLastStore(rounds: nat, es: seq<Event>)
    ensures InterleavingRun(Init(rounds), es) <==>
              Run(Init(rounds), es) && forall n :: 0 <= n < |es| ==> LoadsNewest(es, n)
  {
    if InterleavingRun(Init(rounds), es) { InterleavingIsRun(Init(rounds), es); }
    if Run(Init(rounds), es) {
      InterleavingPointwise(Init(rounds), es);
      forall n | 0 <= n < |es| ensures NewestAt(Init(rounds), es, n) <==> LoadsNewest(es, n) {
        NewestAtIsLastStored(rounds, es, n);
      }
    }
  }
}
