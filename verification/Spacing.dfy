/** The latency intervals of the samples that are those of their rounds, in every run,
    external exits included. */
module Spacing {
  import opened Windows
  import opened Handshake
  import opened Invariant

  /** The message the consumer is about to count. */
  function Pending(s: State, time: int): Sample {
    Sample(s.cons.slot, s.cons.msgTs, s.cons.ns, time)
  }

  /** A sample that is that of its round comes after the one before, the message about
      to be counted included. */
  ghost predicate Spaced(s: State) {
    && (forall k :: 0 <= k < |s.samples| - 1 && Fresh(s.samples[k + 1], k + 1) ==>
          s.samples[k].ns <= s.samples[k + 1].ts)
    && (s.cons.pc == CClearing || s.cons.pc == CCounting ==>
          |s.samples| > 0 && Fresh(Pending(s, 0), |s.samples|) ==>
            s.samples[|s.samples| - 1].ns <= s.cons.msgTs)
  }

  lemma InvMeansSpaced(s: State)
    requires Inv(s)
    ensures Spaced(s)
  {
    forall k | 0 <= k < |s.samples| - 1 && Fresh(s.samples[k + 1], k + 1)
      ensures s.samples[k].ns <= s.samples[k + 1].ts
    {
      assert SampleAt(s, k + 1) && AckedAt(s, k);
    }
    if (s.cons.pc == CClearing || s.cons.pc == CCounting) && |s.samples| > 0 {
      assert AckedAt(s, |s.samples| - 1);
    }
  }

  /** The samples that are those of their rounds: all, or all but the last. */
  ghost function Matched(s: State): seq<Sample> {
    var n := |s.samples|;
    if n > 0 && !Fresh(s.samples[n - 1], n - 1) then s.samples[..n - 1] else s.samples
  }

  lemma MatchedAreOrdered(s: State)
    requires SamplesInv(s) && Spaced(s)
    ensures Ordered(Matched(s))
  {
    var xs := Matched(s);
    forall k | 0 <= k < |xs| ensures Fresh(xs[k], k) { assert SampleAt(s, k); }
    forall k | 0 <= k < |xs| - 1 ensures xs[k].ns <= xs[k + 1].ts {
      assert Fresh(s.samples[k + 1], k + 1);
    }
    AdjacentOrdered(xs);
  }

  /** Before a message is counted every sample is that of its round. */
  lemma CountedSoFarAreOrdered(s: State, time: int)
    requires Inv(s) && s.cons.pc == CCounting
    ensures Ordered(s.samples)
    ensures Fresh(Pending(s, time), |s.samples|) ==> Ordered(s.samples + [Pending(s, time)])
  {
    InvMeansSpaced(s);
    MatchedAreOrdered(s);
    forall k | 0 <= k < |s.samples| ensures Fresh(s.samples[k], k) { assert SampleAt(s, k); }
    assert Matched(s) == s.samples;
    if Fresh(Pending(s, time), |s.samples|) {
      var xs := s.samples + [Pending(s, time)];
      forall k | 0 <= k < |xs| - 1 ensures xs[k].ns <= xs[k + 1].ts {
        if k + 1 < |s.samples| { assert Fresh(s.samples[k + 1], k + 1); }
      }
      AdjacentOrdered(xs);
    }
  }
}
