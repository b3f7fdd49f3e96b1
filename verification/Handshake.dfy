/** The two benchmark threads over the three shared atomics, as a state machine.

    Each step is one atomic action of one thread.  Memory follows the
    release/acquire fragment of ISO C++23, sections 6.9.2.2 and 33.5.4: every
    location keeps the history of its stores in modification order, every thread
    a view, i.e. for each location the oldest entry it may still load. */
module Handshake {
  import opened Windows

  // ---------- memory ----------

  /** For each location the newest entry known, and the largest clock reading
      that happens before. */
  datatype View = View(timestamp: nat, ready: nat, exit: nat, clock: nat)

  const BOTTOM: View := View(0, 0, 0, 0)

  function Max(a: nat, b: nat): nat { if a < b then b else a }

  function Join(v: View, w: View): View {
    View(Max(v.timestamp, w.timestamp), Max(v.ready, w.ready), Max(v.exit, w.exit), Max(v.clock, w.clock))
  }

  /** A store: the value, and the view a release store attaches to it. */
  datatype Entry<T> = Entry(value: T, view: View)

  /** The atomics of `SharedData`: one history per location, oldest store first. */
  datatype Memory = Memory(timestamp: seq<Entry<nat>>, ready: seq<Entry<bool>>, exit: seq<Entry<bool>>)

  /** The atomics as `main` leaves them before it starts the threads. */
  const INITIAL_MEMORY: Memory :=
    Memory([Entry(0, BOTTOM)], [Entry(false, BOTTOM)], [Entry(false, BOTTOM)])

  // A load may return any entry not older than the view.

  predicate MayLoadTimestamp(m: Memory, v: View, idx: nat) { v.timestamp <= idx < |m.timestamp| }

  predicate MayLoadReady(m: Memory, v: View, idx: nat) { v.ready <= idx < |m.ready| }

  predicate MayLoadExit(m: Memory, v: View, idx: nat) { v.exit <= idx < |m.exit| }

  // An acquire load joins the view attached to the entry; a relaxed one does not.

  function AcquireTimestamp(m: Memory, v: View, idx: nat): View
    requires MayLoadTimestamp(m, v, idx)
  {
    Join(v.(timestamp := idx), m.timestamp[idx].view)
  }

  function AcquireReady(m: Memory, v: View, idx: nat): View
    requires MayLoadReady(m, v, idx)
  {
    Join(v.(ready := idx), m.ready[idx].view)
  }

  // A release store attaches the storing thread's view; a relaxed one attaches none.

  function ReleaseTimestamp(m: Memory, v: View, value: nat): (Memory, View) {
    var v' := v.(timestamp := |m.timestamp|);
    (m.(timestamp := m.timestamp + [Entry(value, v')]), v')
  }

  function ReleaseReady(m: Memory, v: View, value: bool): (Memory, View) {
    var v' := v.(ready := |m.ready|);
    (m.(ready := m.ready + [Entry(value, v')]), v')
  }

  function RelaxedExit(m: Memory): Memory {
    m.(exit := m.exit + [Entry(true, BOTTOM)])
  }

  // ---------- threads ----------

  datatype ProducerPc =
    | PBinding | PBindFailed
    | PTesting                          // the condition of the `for` loop
    | PReading | PStoring | PRaising | PSending
    | PPolling | PPollingExit           // the two operands of the spin condition
    | PFinishing | PDone

  datatype ConsumerPc =
    | CConnecting | CFailed
    | CTesting                          // the condition of the outer `while`
    | CReceiving
    | CWaiting | CWaitingExit           // the two operands of the inner spin condition
    | CReading | CLoading | CClearing | CCounting
    | CDone

  /** `i` and `now` are the locals `i` and `current_time`. */
  datatype Producer = Producer(pc: ProducerPc, i: nat, now: nat, view: View)

  /** `ns` and `msgTs` are the locals of that name, `slot` the entry `msgTs` came
      from; `start` is the first value of `last_time`, `meter` the statistics. */
  datatype Consumer = Consumer(pc: ConsumerPc, ns: nat, slot: nat, msgTs: nat, start: int, meter: Meter, view: View)

  /** `channel` counts triggers in flight; `sent`, `received` and `lost` count what
      happened to all of them.  `samples` logs the counted messages, `cut` records
      that someone other than the producer has stored `should_exit`. */
  datatype State = State(rounds: nat, mem: Memory, prod: Producer, cons: Consumer,
                         channel: nat, sent: nat, received: nat, lost: nat,
                         samples: seq<Sample>, cut: bool)

  function Init(rounds: nat): State {
    State(rounds, INITIAL_MEMORY,
          Producer(PBinding, 0, 0, BOTTOM),
          Consumer(CConnecting, 0, 0, 0, 0, Meter(0, 0, 0, []), BOTTOM),
          0, 0, 0, 0, [], false)
  }

  /** One atomic action.  An `idx` is the entry a load returns, a `t` a reading of
      the monotonic clock, `now` and `time` readings of the wall clock. */
  datatype Event =
    // producer
    | Bind(ok: bool)
    | RoundsOver
    | TestExit(idx: nat)
    | ReadClock(t: nat)
    | StoreTimestamp
    | RaiseReady
    | SendTrigger
    | PollReady(idx: nat)
    | PollExit(idx: nat)
    | StoreExit
    // consumer
    | Connect(ok: bool, now: int)
    | LoopTest(idx: nat)
    | Receive(got: bool)
    | ReceiveFails
    | WaitReady(idx: nat)
    | WaitExit(idx: nat)
    | SampleClock(t: nat)
    | LoadTimestamp(idx: nat)
    | ClearReady
    | Count(time: int)
    // environment
    | Lose
    | ExternalExit

  predicate ByProducer(e: Event) {
    e.Bind? || e.RoundsOver? || e.TestExit? || e.ReadClock? || e.StoreTimestamp? || e.RaiseReady?
    || e.SendTrigger? || e.PollReady? || e.PollExit? || e.StoreExit?
  }

  predicate ByConsumer(e: Event) {
    !ByProducer(e) && !e.Lose? && !e.ExternalExit?
  }

  predicate ProducerEnabled(s: State, e: Event)
    requires ByProducer(e)
  {
    var p := s.prod;
    match e
    case Bind(_) => p.pc == PBinding
    case RoundsOver => p.pc == PTesting && p.i >= s.rounds
    case TestExit(idx) => p.pc == PTesting && p.i < s.rounds && MayLoadExit(s.mem, p.view, idx)
    case ReadClock(t) => p.pc == PReading && p.view.clock <= t
    case StoreTimestamp => p.pc == PStoring
    case RaiseReady => p.pc == PRaising
    case SendTrigger => p.pc == PSending
    case PollReady(idx) => p.pc == PPolling && MayLoadReady(s.mem, p.view, idx)
    case PollExit(idx) => p.pc == PPollingExit && MayLoadExit(s.mem, p.view, idx)
    case StoreExit => p.pc == PFinishing
  }

  predicate ConsumerEnabled(s: State, e: Event)
    requires ByConsumer(e)
  {
    var c := s.cons;
    match e
    case Connect(_, _) => c.pc == CConnecting
    case LoopTest(idx) => c.pc == CTesting && MayLoadExit(s.mem, c.view, idx)
    case Receive(got) => c.pc == CReceiving && (got ==> s.channel > 0)
    case ReceiveFails => c.pc == CReceiving
    case WaitReady(idx) => c.pc == CWaiting && MayLoadReady(s.mem, c.view, idx)
    case WaitExit(idx) => c.pc == CWaitingExit && MayLoadExit(s.mem, c.view, idx)
    case SampleClock(t) => c.pc == CReading && c.view.clock <= t
    case LoadTimestamp(idx) => c.pc == CLoading && MayLoadTimestamp(s.mem, c.view, idx)
    case ClearReady => c.pc == CClearing
    case Count(_) => c.pc == CCounting
  }

  predicate Enabled(s: State, e: Event) {
    if ByProducer(e) then ProducerEnabled(s, e)
    else if ByConsumer(e) then ConsumerEnabled(s, e)
    else e.Lose? ==> s.channel > 0
  }

  function ProducerStep(s: State, e: Event): State
    requires ByProducer(e) && ProducerEnabled(s, e)
  {
    var p := s.prod;
    match e
    case Bind(ok) =>
      s.(prod := p.(pc := if ok then PTesting else PBindFailed))
    case RoundsOver =>
      s.(prod := p.(pc := PFinishing))
    case TestExit(idx) =>
      s.(prod := p.(pc := if s.mem.exit[idx].value then PFinishing else PReading,
                    view := p.view.(exit := idx)))
    case ReadClock(t) =>
      s.(prod := p.(pc := PStoring, now := t, view := p.view.(clock := t)))
    case StoreTimestamp =>
      var (mem, view) := ReleaseTimestamp(s.mem, p.view, p.now);
      s.(mem := mem, prod := p.(pc := PRaising, view := view))
    case RaiseReady =>
      var (mem, view) := ReleaseReady(s.mem, p.view, true);
      s.(mem := mem, prod := p.(pc := PSending, view := view))
    case SendTrigger =>
      s.(prod := p.(pc := PPolling), channel := s.channel + 1, sent := s.sent + 1)
    case PollReady(idx) =>
      var view := AcquireReady(s.mem, p.view, idx);
      s.(prod := if s.mem.ready[idx].value then p.(pc := PPollingExit, view := view)
                 else p.(pc := PTesting, i := p.i + 1, view := view))
    case PollExit(idx) =>
      var view := p.view.(exit := idx);
      s.(prod := if s.mem.exit[idx].value then p.(pc := PTesting, i := p.i + 1, view := view)
                 else p.(pc := PPolling, view := view))
    case StoreExit =>
      s.(mem := RelaxedExit(s.mem), prod := p.(pc := PDone, view := p.view.(exit := |s.mem.exit|)))
  }

  function ConsumerStep(s: State, e: Event): State
    requires ByConsumer(e) && ConsumerEnabled(s, e)
  {
    var c := s.cons;
    match e
    case Connect(ok, now) =>
      s.(cons := if ok then c.(pc := CTesting, start := now, meter := Meter(0, 0, now, []))
                 else c.(pc := CFailed))
    case LoopTest(idx) =>
      s.(cons := c.(pc := if s.mem.exit[idx].value then CDone else CReceiving,
                    view := c.view.(exit := idx)))
    case Receive(got) =>
      if got then s.(cons := c.(pc := CWaiting), channel := s.channel - 1, received := s.received + 1)
      else s.(cons := c.(pc := CTesting))
    case ReceiveFails =>
      s.(cons := c.(pc := CFailed))
    case WaitReady(idx) =>
      s.(cons := c.(pc := if s.mem.ready[idx].value then CReading else CWaitingExit,
                    view := AcquireReady(s.mem, c.view, idx)))
    case WaitExit(idx) =>
      s.(cons := c.(pc := if s.mem.exit[idx].value then CReading else CWaiting,
                    view := c.view.(exit := idx)))
    case SampleClock(t) =>
      s.(cons := c.(pc := CLoading, ns := t, view := c.view.(clock := t)))
    case LoadTimestamp(idx) =>
      s.(cons := c.(pc := CClearing, slot := idx, msgTs := s.mem.timestamp[idx].value,
                    view := AcquireTimestamp(s.mem, c.view, idx)))
    case ClearReady =>
      var (mem, view) := ReleaseReady(s.mem, c.view, false);
      s.(mem := mem, cons := c.(pc := CCounting, view := view))
    case Count(time) =>
      var x := Sample(c.slot, c.msgTs, c.ns, time);
      s.(cons := c.(pc := CTesting, meter := Account(c.meter, x)), samples := s.samples + [x])
  }

  function Step(s: State, e: Event): State
    requires Enabled(s, e)
  {
    if ByProducer(e) then ProducerStep(s, e)
    else if ByConsumer(e) then ConsumerStep(s, e)
    else if e.Lose? then s.(channel := s.channel - 1, lost := s.lost + 1)
    else s.(mem := RelaxedExit(s.mem), cut := true)
  }

  // ---------- runs ----------

  ghost predicate Run(s: State, es: seq<Event>)
    decreases |es|
  {
    es == [] || (Enabled(s, es[0]) && Run(Step(s, es[0]), es[1..]))
  }

  ghost function After(s: State, es: seq<Event>): State
    requires Run(s, es)
    decreases |es|
  {
    if es == [] then s else After(Step(s, es[0]), es[1..])
  }

  lemma {:induction false} RunAppend(s: State, es: seq<Event>, fs: seq<Event>)
    requires Run(s, es) && Run(After(s, es), fs)
    ensures Run(s, es + fs) && After(s, es + fs) == After(After(s, es), fs)
    decreases |es|
  {
    if es == [] {
      assert es + fs == fs;
    } else {
      assert (es + fs)[1..] == es[1..] + fs;
      RunAppend(Step(s, es[0]), es[1..], fs);
    }
  }

  lemma RunOneMore(s: State, es: seq<Event>, e: Event)
    requires Run(s, es) && Enabled(After(s, es), e)
    ensures Run(s, es + [e]) && After(s, es + [e]) == Step(After(s, es), e)
  {
    var t := After(s, es);
    assert [e][1..] == [];
    assert Run(t, [e]);
    RunAppend(s, es, [e]);
  }

  lemma {:induction false} RunPrefix(s: State, es: seq<Event>, n: nat)
    requires Run(s, es) && n < |es|
    ensures Run(s, es[..n]) && Run(s, es[..n + 1])
    ensures Enabled(After(s, es[..n]), es[n]) && After(s, es[..n + 1]) == Step(After(s, es[..n]), es[n])
    decreases n
  {
    if n == 0 {
      assert es[..1] == [es[0]];
    } else {
      RunPrefix(Step(s, es[0]), es[1..], n - 1);
      assert es[..n][1..] == es[1..][..n - 1];
      assert es[..n + 1][1..] == es[1..][..n];
    }
  }

  /** The stores made to `timestamp` by the producer, in order. */
  function Published(s: State): seq<nat> {
    seq(if |s.mem.timestamp| == 0 then 0 else |s.mem.timestamp| - 1,
        k requires 0 <= k < |s.mem.timestamp| - 1 => s.mem.timestamp[k + 1].value)
  }
}
