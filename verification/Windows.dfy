/** The latency statistics of the consumer loop: three accumulators that are
    printed and reset whenever at least one whole second has passed. */
module Windows {

  const NANOS_PER_SECOND: int := 1_000_000_000

  /** One counted message.  `slot` is the entry of the modification order of
      `timestamp` that the load returned, `ts` the value found there, `ns` the
      monotonic clock sampled just before, `time` the wall clock read just after. */
  datatype Sample = Sample(slot: nat, ts: nat, ns: nat, time: int) {
    function Latency(): int { ns - ts }
  }

  /** What one line of output shows. */
  datatype Report = Report(throughput: int, avgLatency: int)

  /** The consumer's local variables, and the lines it has printed. */
  datatype Meter = Meter(counter: nat, latencySum: int, lastTime: int, reports: seq<Report>)

  /** Integer division of the source language: it truncates toward zero. */
  function TruncDiv(a: int, b: int): int
    requires b > 0
  {
    if a >= 0 then a / b else -(-a / b)
  }

  /** `q` is the quotient of `a` by `b` without its fraction: the multiple of `b` next to
      `a` on the side of zero. */
  ghost predicate IsQuotient(q: int, a: int, b: int) {
    if a >= 0 then q * b <= a < (q + 1) * b else (q - 1) * b < a <= q * b
  }

  lemma TruncDivIsQuotient(a: int, b: int)
    requires b > 0
    ensures IsQuotient(TruncDiv(a, b), a, b)
  {
    if a < 0 {
      var d := -a / b;
      assert d * b <= -a < d * b + b;
      assert (-d) * b == -(d * b) && (-d - 1) * b == -(d * b) - b;
    }
  }

  lemma QuotientIsUnique(q: int, p: int, a: int, b: int)
    requires b > 0 && IsQuotient(q, a, b) && IsQuotient(p, a, b)
    ensures q == p
  {
    if q < p { ScaleMonotone(b, q + 1, p); } else if p < q { ScaleMonotone(b, p + 1, q); }
  }

  /** `duration_cast<seconds>` of a nanosecond difference. */
  function WholeSeconds(later: int, earlier: int): int {
    TruncDiv(later - earlier, NANOS_PER_SECOND)
  }

  function Account(m: Meter, x: Sample): Meter {
    var counter := m.counter + 1;
    var latencySum := m.latencySum + x.Latency();
    var seconds := WholeSeconds(x.time, m.lastTime);
    if seconds >= 1 then
      Meter(0, 0, x.time, m.reports + [Report(TruncDiv(counter, seconds), TruncDiv(latencySum, counter))])
    else
      Meter(counter, latencySum, m.lastTime, m.reports)
  }

  function AccountAll(start: int, xs: seq<Sample>): Meter {
    if xs == [] then Meter(0, 0, start, [])
    else Account(AccountAll(start, xs[..|xs| - 1]), xs[|xs| - 1])
  }

  lemma {:induction false} CounterAtMost(start: int, xs: seq<Sample>)
    ensures AccountAll(start, xs).counter <= |xs|
  {
    if xs != [] { CounterAtMost(start, xs[..|xs| - 1]); }
  }

  // ---------- the windows, described without accumulators ----------

  function Sum(xs: seq<Sample>): int {
    if xs == [] then 0 else Sum(xs[..|xs| - 1]) + (xs[|xs| - 1].ns - xs[|xs| - 1].ts)
  }

  function Concat(ws: seq<seq<Sample>>): seq<Sample> {
    if ws == [] then [] else Concat(ws[..|ws| - 1]) + ws[|ws| - 1]
  }

  /** The sums of the windows, added up. */
  function SumOfSums(ws: seq<seq<Sample>>): int {
    if ws == [] then 0 else SumOfSums(ws[..|ws| - 1]) + Sum(ws[|ws| - 1])
  }

  /** The numbers of samples in the windows, added up. */
  function SumOfCounts(ws: seq<seq<Sample>>): nat {
    if ws == [] then 0 else SumOfCounts(ws[..|ws| - 1]) + |ws[|ws| - 1]|
  }

  lemma {:induction false} SumAppend(xs: seq<Sample>, ys: seq<Sample>)
    ensures Sum(xs + ys) == Sum(xs) + Sum(ys)
  {
    if ys == [] {
      assert xs + ys == xs;
    } else {
      assert (xs + ys)[..|xs + ys| - 1] == xs + ys[..|ys| - 1];
      SumAppend(xs, ys[..|ys| - 1]);
    }
  }

  /** Whatever the cut, the windows add up to the totals. */
  lemma {:induction false} WindowsAddUp(ws: seq<seq<Sample>>)
    ensures Sum(Concat(ws)) == SumOfSums(ws) && |Concat(ws)| == SumOfCounts(ws)
  {
    if ws != [] {
      WindowsAddUp(ws[..|ws| - 1]);
      SumAppend(Concat(ws[..|ws| - 1]), ws[|ws| - 1]);
    }
  }

  /** When window `j` begins: at the start, or when the window before it ended. */
  function Begin(start: int, ws: seq<seq<Sample>>, j: nat): int
    requires j <= |ws|
    requires forall k :: 0 <= k < |ws| ==> |ws[k]| > 0
  {
    if j == 0 then start else ws[j - 1][|ws[j - 1]| - 1].time
  }

  /** No sample of `xs` is a whole second past `begin`. */
  ghost predicate AllWithin(begin: int, xs: seq<Sample>) {
    forall k :: 0 <= k < |xs| ==> xs[k].time - begin < NANOS_PER_SECOND
  }

  /** A closed window ends with its first sample at least a second past `begin`. */
  ghost predicate Closes(begin: int, w: seq<Sample>) {
    |w| > 0 && AllWithin(begin, w[..|w| - 1]) && w[|w| - 1].time - begin >= NANOS_PER_SECOND
  }

  /** `ws` and `rest` cut `xs` into closed windows and a partial one. */
  ghost predicate Windowing(start: int, xs: seq<Sample>, ws: seq<seq<Sample>>, rest: seq<Sample>) {
    && (forall k :: 0 <= k < |ws| ==> |ws[k]| > 0)
    && (forall k :: 0 <= k < |ws| ==> Closes(Begin(start, ws, k), ws[k]))
    && AllWithin(Begin(start, ws, |ws|), rest)
    && Concat(ws) + rest == xs
  }

  /** The line printed for window `w`: over the whole seconds it lasted, messages per
      second and the average latency, both without their fractions. */
  ghost predicate ReportOf(r: Report, begin: int, w: seq<Sample>) {
    |w| > 0 && exists seconds ::
      && IsQuotient(seconds, w[|w| - 1].time - begin, NANOS_PER_SECOND) && seconds >= 1
      && IsQuotient(r.throughput, |w|, seconds) && IsQuotient(r.avgLatency, Sum(w), |w|)
  }

  /** What is printed for a window is determined by the window. */
  lemma ReportIsUnique(r: Report, q: Report, begin: int, w: seq<Sample>)
    requires |w| > 0 && ReportOf(r, begin, w) && ReportOf(q, begin, w)
    ensures r == q
  {
    var span := w[|w| - 1].time - begin;
    var i :| IsQuotient(i, span, NANOS_PER_SECOND) && i >= 1
             && IsQuotient(r.throughput, |w|, i) && IsQuotient(r.avgLatency, Sum(w), |w|);
    var j :| IsQuotient(j, span, NANOS_PER_SECOND) && j >= 1
             && IsQuotient(q.throughput, |w|, j) && IsQuotient(q.avgLatency, Sum(w), |w|);
    QuotientIsUnique(i, j, span, NANOS_PER_SECOND);
    QuotientIsUnique(r.throughput, q.throughput, |w|, i);
    QuotientIsUnique(r.avgLatency, q.avgLatency, Sum(w), |w|);
  }

  ghost predicate MeterMatches(m: Meter, start: int, ws: seq<seq<Sample>>, rest: seq<Sample>)
    requires forall k :: 0 <= k < |ws| ==> |ws[k]| > 0
  {
    && m.counter == |rest|
    && m.latencySum == Sum(rest)
    && m.lastTime == Begin(start, ws, |ws|)
    && |m.reports| == |ws|
    && forall k :: 0 <= k < |ws| ==> ReportOf(m.reports[k], Begin(start, ws, k), ws[k])
  }

  lemma CloseWindow(start: int, xs: seq<Sample>, x: Sample, ws: seq<seq<Sample>>, rest: seq<Sample>)
    requires Windowing(start, xs, ws, rest)
    requires Closes(Begin(start, ws, |ws|), rest + [x])
    ensures Windowing(start, xs + [x], ws + [rest + [x]], [])
    ensures forall k :: 0 <= k <= |ws| ==> Begin(start, ws + [rest + [x]], k) == Begin(start, ws, k)
  {
    var ws' := ws + [rest + [x]];
    assert ws'[..|ws|] == ws;
    assert Concat(ws') + [] == Concat(ws) + rest + [x];
    forall k | 0 <= k <= |ws| ensures Begin(start, ws', k) == Begin(start, ws, k) {}
    forall k | 0 <= k < |ws'| ensures Closes(Begin(start, ws', k), ws'[k]) {
      if k < |ws| { assert Closes(Begin(start, ws, k), ws[k]); }
    }
  }

  /** The line printed when `x` closes the window, and what is left of the meter. */
  lemma CloseReports(m: Meter, x: Sample, rest: seq<Sample>)
    requires m.counter == |rest| && m.latencySum == Sum(rest)
    requires WholeSeconds(x.time, m.lastTime) >= 1
    ensures var m' := Account(m, x);
      && m'.counter == 0 && m'.latencySum == 0 && m'.lastTime == x.time
      && |m'.reports| == |m.reports| + 1 && m'.reports[..|m.reports|] == m.reports
      && ReportOf(m'.reports[|m.reports|], m.lastTime, rest + [x])
  {
    var w := rest + [x];
    assert w[..|rest|] == rest;
    assert Sum(w) == m.latencySum + x.Latency();
    var seconds := WholeSeconds(x.time, m.lastTime);
    TruncDivIsQuotient(x.time - m.lastTime, NANOS_PER_SECOND);
    TruncDivIsQuotient(|w|, seconds);
    TruncDivIsQuotient(Sum(w), |w|);
  }

  /** What holds of every line and its window still does with one more of each. */
  lemma KeptLines(p: (Report, int, seq<Sample>) -> bool, before: seq<Report>, after: seq<Report>,
                  start: int, ws: seq<seq<Sample>>, w: seq<Sample>)
    requires |w| > 0 && forall k :: 0 <= k < |ws| ==> |ws[k]| > 0
    requires |before| == |ws| && |after| == |ws| + 1 && after[..|ws|] == before
    requires forall k :: 0 <= k < |ws| ==> p(before[k], Begin(start, ws, k), ws[k])
    requires p(after[|ws|], Begin(start, ws, |ws|), w)
    requires forall k :: 0 <= k <= |ws| ==> Begin(start, ws + [w], k) == Begin(start, ws, k)
    ensures forall k :: 0 <= k <= |ws| ==> p(after[k], Begin(start, ws + [w], k), (ws + [w])[k])
  {
    forall k | 0 <= k < |ws| ensures p(after[k], Begin(start, ws + [w], k), (ws + [w])[k]) {
      assert after[k] == after[..|ws|][k] == before[k];
    }
  }

  lemma AccountExtendsWindowing(m: Meter, start: int, xs: seq<Sample>, x: Sample,
                                ws: seq<seq<Sample>>, rest: seq<Sample>)
      returns (ws': seq<seq<Sample>>, rest': seq<Sample>)
    requires Windowing(start, xs, ws, rest) && MeterMatches(m, start, ws, rest)
    ensures Windowing(start, xs + [x], ws', rest') && MeterMatches(Account(m, x), start, ws', rest')
  {
    var w := rest + [x];
    assert w[..|w| - 1] == rest;
    SecondsSplit(x.time, m.lastTime);
    if WholeSeconds(x.time, m.lastTime) >= 1 {
      ws', rest' := ws + [w], [];
      CloseWindow(start, xs, x, ws, rest);
      CloseReports(m, x, rest);
      KeptLines(ReportOf, m.reports, Account(m, x).reports, start, ws, w);
    } else {
      ws', rest' := ws, w;
      assert Concat(ws) + w == xs + [x];
    }
  }

  lemma SecondsSplit(later: int, earlier: int)
    ensures IsQuotient(WholeSeconds(later, earlier), later - earlier, NANOS_PER_SECOND)
    ensures WholeSeconds(later, earlier) >= 1 <==> later - earlier >= NANOS_PER_SECOND
  {
    TruncDivIsQuotient(later - earlier, NANOS_PER_SECOND);
  }

  /** The accumulators of the loop describe the windows exactly: the samples are
      cut into closed windows and a partial one, one line was printed per closed
      window with its own count and sum, and the live accumulators are the count
      and sum of the partial window. */
  lemma {:induction false} MeterReportsWindows(start: int, xs: seq<Sample>)
      returns (ws: seq<seq<Sample>>, rest: seq<Sample>)
    ensures Windowing(start, xs, ws, rest)
    ensures MeterMatches(AccountAll(start, xs), start, ws, rest)
  {
    if xs == [] {
      ws, rest := [], [];
    } else {
      var front := xs[..|xs| - 1];
      ws, rest := MeterReportsWindows(start, front);
      assert front + [xs[|xs| - 1]] == xs;
      ws, rest := AccountExtendsWindowing(AccountAll(start, front), start, front, xs[|xs| - 1], ws, rest);
    }
  }

  lemma ShortenRest(start: int, xs: seq<Sample>, x: Sample, ws: seq<seq<Sample>>, rest: seq<Sample>)
    requires Windowing(start, xs + [x], ws, rest + [x])
    ensures Windowing(start, xs, ws, rest)
    ensures x.time - Begin(start, ws, |ws|) < NANOS_PER_SECOND
  {
    var w := rest + [x];
    assert w[|rest|] == x && w[..|rest|] == rest;
    assert xs == (xs + [x])[..|xs|] == (Concat(ws) + w)[..|xs|] == Concat(ws) + rest;
  }

  lemma ReopenLast(start: int, xs: seq<Sample>, x: Sample, ws: seq<seq<Sample>>, rest: seq<Sample>)
    requires Windowing(start, xs + [x], ws + [rest + [x]], [])
    ensures Windowing(start, xs, ws, rest)
    ensures x.time - Begin(start, ws, |ws|) >= NANOS_PER_SECOND
  {
    var w := rest + [x];
    var all := ws + [w];
    assert w[|rest|] == x && w[..|rest|] == rest;
    assert all[|ws|] == w && all[..|ws|] == ws;
    assert Concat(all) + [] == Concat(ws) + w;
    assert xs == (xs + [x])[..|xs|] == (Concat(ws) + w)[..|xs|] == Concat(ws) + rest;
    assert Closes(Begin(start, all, |ws|), all[|ws|]);
    forall k | 0 <= k < |ws| ensures |ws[k]| > 0 { assert all[k] == ws[k]; }
    forall k | 0 <= k <= |ws| ensures Begin(start, ws, k) == Begin(start, all, k) {}
    forall k | 0 <= k < |ws| ensures Closes(Begin(start, ws, k), ws[k]) {
      assert all[k] == ws[k] && Closes(Begin(start, all, k), all[k]);
    }
  }

  /** Where the last sample is: in the partial window, or at the end of a closed one. */
  lemma LastSample(xs: seq<Sample>, x: Sample, ws: seq<seq<Sample>>, rest: seq<Sample>)
    requires Concat(ws) + rest == xs + [x]
    requires forall k :: 0 <= k < |ws| ==> |ws[k]| > 0
    ensures rest != [] ==> rest == rest[..|rest| - 1] + [x]
    ensures rest == [] ==>
              |ws| > 0 && var w := ws[|ws| - 1]; ws == ws[..|ws| - 1] + [w[..|w| - 1] + [x]]
  {
    var all := xs + [x];
    assert all[|xs|] == x;
    if rest != [] {
      assert rest[|rest| - 1] == all[|xs|];
    } else {
      var w := ws[|ws| - 1];
      assert Concat(ws) == all;
      assert w[|w| - 1] == all[|xs|];
      assert w == w[..|w| - 1] + [x];
    }
  }

  /** The cut without its last sample `x`; the clock of `x` tells where `x` was. */
  lemma DropLast(start: int, xs: seq<Sample>, x: Sample, ws: seq<seq<Sample>>, rest: seq<Sample>)
      returns (ws': seq<seq<Sample>>, rest': seq<Sample>)
    requires Windowing(start, xs + [x], ws, rest)
    ensures Windowing(start, xs, ws', rest')
    ensures if x.time - Begin(start, ws', |ws'|) < NANOS_PER_SECOND then ws == ws' && rest == rest' + [x]
            else ws == ws' + [rest' + [x]] && rest == []
  {
    LastSample(xs, x, ws, rest);
    if rest != [] {
      ws', rest' := ws, rest[..|rest| - 1];
      ShortenRest(start, xs, x, ws', rest');
    } else {
      var w := ws[|ws| - 1];
      ws', rest' := ws[..|ws| - 1], w[..|w| - 1];
      ReopenLast(start, xs, x, ws', rest');
    }
  }

  /** There is only one way to cut a sequence of samples into windows. */
  lemma {:induction false} WindowingIsUnique(start: int, xs: seq<Sample>,
                                             ws: seq<seq<Sample>>, rest: seq<Sample>,
                                             vs: seq<seq<Sample>>, tail: seq<Sample>)
    requires Windowing(start, xs, ws, rest) && Windowing(start, xs, vs, tail)
    ensures ws == vs && rest == tail
    decreases |xs|
  {
    if xs == [] {
      ConcatNotShorter(ws);
      ConcatNotShorter(vs);
    } else {
      var front, x := xs[..|xs| - 1], xs[|xs| - 1];
      assert xs == front + [x];
      var ws', rest' := DropLast(start, front, x, ws, rest);
      var vs', tail' := DropLast(start, front, x, vs, tail);
      WindowingIsUnique(start, front, ws', rest', vs', tail');
    }
  }

  lemma ConcatNotShorter(ws: seq<seq<Sample>>)
    requires forall k :: 0 <= k < |ws| ==> |ws[k]| > 0
    ensures |Concat(ws)| >= |ws|
  {
    if ws != [] {
      ConcatNotShorter(ws[..|ws| - 1]);
    }
  }

  /** Three messages in two seconds, three nanoseconds in all; a nanosecond short of a
      second, which prints nothing; and a negative sum. */
  lemma PrintedLines()
    ensures Account(Meter(2, 0, 0, []), Sample(1, 0, 3, 2_000_000_000)) ==
              Meter(0, 0, 2_000_000_000, [Report(1, 1)])
    ensures Account(Meter(2, 0, 0, []), Sample(1, 0, 3, 999_999_999)) == Meter(3, 3, 0, [])
    ensures Account(Meter(1, 0, 0, []), Sample(1, 3, 0, 1_000_000_000)) ==
              Meter(0, 0, 1_000_000_000, [Report(2, -1)])
  {
    var x, y := Sample(1, 0, 3, 2_000_000_000), Sample(1, 3, 0, 1_000_000_000);
    assert WholeSeconds(x.time, 0) == 2 && WholeSeconds(999_999_999, 0) == 0 && WholeSeconds(y.time, 0) == 1;
    assert TruncDiv(3, 2) == 1 && TruncDiv(3, 3) == 1 && TruncDiv(2, 1) == 2 && TruncDiv(-3, 2) == -1;
  }

  // ---------- bounds ----------

  /** A latency interval: the timestamp handed over and the clock sampled for it. */
  datatype Meeting = Meeting(ts: nat, ns: nat)

  function Meetings(xs: seq<Sample>): seq<Meeting> {
    seq(|xs|, k requires 0 <= k < |xs| => Meeting(xs[k].ts, xs[k].ns))
  }

  /** Each interval is well formed and ends before the next begins. */
  ghost predicate Disjoint(log: seq<Meeting>) {
    && (forall k :: 0 <= k < |log| ==> log[k].ts <= log[k].ns)
    && (forall j, k :: 0 <= j < k < |log| ==> log[j].ns <= log[k].ts)
  }

  ghost predicate Ordered(xs: seq<Sample>) { Disjoint(Meetings(xs)) }

  lemma OrderedAt(xs: seq<Sample>, k: nat)
    requires Ordered(xs) && k < |xs|
    ensures xs[k].ts <= xs[k].ns && forall j :: 0 <= j < k ==> xs[j].ns <= xs[k].ts
  {
    assert Meetings(xs)[k] == Meeting(xs[k].ts, xs[k].ns);
    assert forall j :: 0 <= j < k ==> Meetings(xs)[j].ns == xs[j].ns;
  }

  /** Well-formed intervals, each after the one before, are ordered. */
  lemma {:induction false} AdjacentOrdered(xs: seq<Sample>)
    requires forall k :: 0 <= k < |xs| ==> xs[k].ts <= xs[k].ns
    requires forall k :: 0 <= k < |xs| - 1 ==> xs[k].ns <= xs[k + 1].ts
    ensures Ordered(xs)
  {
    if |xs| > 1 {
      var front, last := xs[..|xs| - 1], |xs| - 1;
      AdjacentOrdered(front);
      OrderedAt(front, last - 1);
      assert xs[last - 1].ns <= xs[last - 1 + 1].ts;
      forall j | 0 <= j < last ensures xs[j].ns <= xs[last].ts { assert front[j] == xs[j]; }
      assert Meetings(front) == Meetings(xs)[..last];
    }
  }

  lemma OrderedPart(xs: seq<Sample>, from: nat, to: nat)
    requires Ordered(xs) && from <= to <= |xs|
    ensures Ordered(xs[from..to])
  {
    assert Meetings(xs[from..to]) == Meetings(xs)[from..to];
  }

  /** Disjoint intervals: their total length is at most the span they cover. */
  lemma {:induction false} SumWithinSpan(xs: seq<Sample>)
    requires Ordered(xs) && |xs| > 0
    ensures 0 <= Sum(xs) <= xs[|xs| - 1].ns - xs[0].ts
  {
    var front := xs[..|xs| - 1];
    OrderedAt(xs, |xs| - 1);
    if front != [] {
      OrderedPart(xs, 0, |front|);
      assert xs[0..|front|] == front;
      SumWithinSpan(front);
      assert front[|front| - 1].ns <= xs[|xs| - 1].ts;
    }
  }

  const INT64_MAX: int := 0x7FFF_FFFF_FFFF_FFFF

  /** Every value the accounting code computes fits in `int64_t`, for any number of
      samples, when the intervals are disjoint and the clock readings fit: the
      latency, and the running sum before and after a window is closed. */
  lemma AccountNeverOverflows(start: int, xs: seq<Sample>, x: Sample)
    requires Ordered(xs + [x])
    requires forall k :: 0 <= k < |xs| ==> xs[k].ns <= INT64_MAX
    requires x.ns <= INT64_MAX
    ensures 0 <= x.Latency() <= INT64_MAX
    ensures 0 <= AccountAll(start, xs).latencySum <= INT64_MAX
    ensures 0 <= AccountAll(start, xs).latencySum + x.Latency() <= INT64_MAX
  {
    var ws, rest := MeterReportsWindows(start, xs);
    SuffixWithinSpan(xs, x, |Concat(ws)|);
    assert rest == xs[|Concat(ws)|..];
  }

  lemma SuffixSum(xs: seq<Sample>, from: nat)
    requires Ordered(xs) && from <= |xs|
    ensures 0 <= Sum(xs[from..]) && (from < |xs| ==> Sum(xs[from..]) <= xs[|xs| - 1].ns)
  {
    OrderedPart(xs, from, |xs|);
    assert xs[from..] == xs[from..|xs|];
    if from < |xs| { SumWithinSpan(xs[from..]); }
  }

  /** The running sum of disjoint intervals is at most the last clock sample. */
  lemma SumBelowLastSample(start: int, xs: seq<Sample>)
    requires Ordered(xs)
    ensures 0 <= AccountAll(start, xs).latencySum
    ensures AccountAll(start, xs).latencySum <= if xs == [] then 0 else xs[|xs| - 1].ns
  {
    var ws, rest := MeterReportsWindows(start, xs);
    SuffixSum(xs, |Concat(ws)|);
    assert rest == xs[|Concat(ws)|..];
  }

  lemma SuffixWithinSpan(xs: seq<Sample>, x: Sample, from: nat)
    requires from <= |xs| && Ordered(xs + [x])
    requires forall k :: 0 <= k < |xs| ==> xs[k].ns <= INT64_MAX
    requires x.ns <= INT64_MAX
    ensures 0 <= x.Latency() <= INT64_MAX
    ensures 0 <= Sum(xs[from..]) <= INT64_MAX && 0 <= Sum(xs[from..]) + x.Latency() <= INT64_MAX
  {
    var all := xs + [x];
    var rest, w := xs[from..], all[from..];
    assert all[|xs|] == x;
    assert forall k :: 0 <= k < |xs| ==> all[k] == xs[k];
    assert w[..|rest|] == rest;
    OrderedAt(all, |xs|);
    OrderedPart(all, from, |all|);
    OrderedPart(all, from, |xs|);
    assert all[from..|all|] == w && all[from..|xs|] == rest;
    SumWithinSpan(w);
    if rest != [] { SumWithinSpan(rest); }
  }

  lemma {:induction false} SumBetween(xs: seq<Sample>, lo: int, hi: int)
    requires forall k :: 0 <= k < |xs| ==> lo <= xs[k].Latency() <= hi
    ensures lo * |xs| <= Sum(xs) <= hi * |xs|
  {
    if xs != [] {
      var n := |xs| - 1;
      SumBetween(xs[..n], lo, hi);
      assert lo * (n + 1) == lo * n + lo && hi * (n + 1) == hi * n + hi;
    }
  }

  lemma ScaleMonotone(n: int, x: int, y: int)
    requires n > 0 && x <= y
    ensures x * n <= y * n
  {}

  lemma QuotientBetween(q: int, a: int, n: int, lo: int, hi: int)
    requires n > 0 && lo * n <= a <= hi * n && IsQuotient(q, a, n)
    ensures lo <= q <= hi
  {
    QuotientAbove(q, a, n, hi);
    QuotientBelow(q, a, n, lo);
  }

  lemma QuotientAbove(q: int, a: int, n: int, hi: int)
    requires n > 0 && a <= hi * n && IsQuotient(q, a, n)
    ensures q <= hi
  {
    if q > hi { ScaleMonotone(n, hi + 1, q); ScaleMonotone(n, hi, q - 1); }
  }

  lemma QuotientBelow(q: int, a: int, n: int, lo: int)
    requires n > 0 && lo * n <= a && IsQuotient(q, a, n)
    ensures lo <= q
  {
    if q < lo { ScaleMonotone(n, q + 1, lo); ScaleMonotone(n, q, lo - 1); }
  }

  lemma {:induction false} Extremes(w: seq<Sample>) returns (i: nat, j: nat)
    requires |w| > 0
    ensures i < |w| && j < |w|
    ensures forall k :: 0 <= k < |w| ==> w[i].Latency() <= w[k].Latency() <= w[j].Latency()
  {
    i, j := 0, 0;
    if |w| > 1 {
      var front := w[..|w| - 1];
      i, j := Extremes(front);
      assert forall k :: 0 <= k < |front| ==> front[k] == w[k];
      if w[|w| - 1].Latency() < w[i].Latency() { i := |w| - 1; }
      if w[|w| - 1].Latency() > w[j].Latency() { j := |w| - 1; }
    }
  }

  /** The average lies between two latencies of the window. */
  ghost predicate Bracketed(average: int, w: seq<Sample>) {
    exists i, j :: 0 <= i < |w| && 0 <= j < |w| && w[i].Latency() <= average <= w[j].Latency()
  }

  /** The printed average of a closed window lies between the smallest and the
      largest latency in it, truncation and negative latencies included. */
  lemma AverageWithinWindow(r: Report, begin: int, w: seq<Sample>)
    requires |w| > 0 && ReportOf(r, begin, w)
    ensures Bracketed(r.avgLatency, w)
  {
    var i, j := Extremes(w);
    SumBetween(w, w[i].Latency(), w[j].Latency());
    QuotientBetween(r.avgLatency, Sum(w), |w|, w[i].Latency(), w[j].Latency());
  }
}
