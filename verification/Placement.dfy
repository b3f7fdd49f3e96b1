/** Once somebody else has raised `should_exit`, a consumer that was cut off may clear
    `ready` without knowing the producer's last `true`.  Its store may then take a
    place before that entry in the modification order.  All such runs are here. */
module Placement {
  import opened Handshake
  import opened Invariant
  import opened Delivery
  import opened ExternalExit

  /** A view after entry `pos` of `ready` has moved up by one. */
  function Shift(v: View, pos: nat): View {
    if v.ready >= pos then v.(ready := v.ready + 1) else v
  }

  function ShiftAll<T>(h: seq<Entry<T>>, pos: nat): seq<Entry<T>> {
    seq(|h|, k requires 0 <= k < |h| => Entry(h[k].value, Shift(h[k].view, pos)))
  }

  /** The clearing store at place `pos` of the modification order of `ready`. */
  function ClearAt(s: State, pos: nat): State
    requires pos <= |s.mem.ready|
  {
    var view, ready := s.cons.view.(ready := pos), ShiftAll(s.mem.ready, pos);
    s.(mem := Memory(ShiftAll(s.mem.timestamp, pos), ready[..pos] + [Entry(false, view)] + ready[pos..],
                     ShiftAll(s.mem.exit, pos)),
       prod := s.prod.(view := Shift(s.prod.view, pos)),
       cons := s.cons.(pc := CCounting, view := view))
  }

  /** A step of the threads as before, or a clearing store placed anywhere coherence
      allows it. */
  datatype Act = Ordinary(e: Event) | Clear(pos: nat)

  predicate Can(s: State, a: Act) {
    match a
    case Ordinary(e) => Enabled(s, e)
    case Clear(pos) => s.cons.pc == CClearing && MayInsert(s.cons.view.ready, |s.mem.ready|, pos)
  }

  function Perform(s: State, a: Act): State
    requires Can(s, a)
  {
    match a
    case Ordinary(e) => Step(s, e)
    case Clear(pos) => ClearAt(s, pos)
  }

  ghost predicate PlacedRun(s: State, acts: seq<Act>)
    decreases |acts|
  {
    acts == [] || (Can(s, acts[0]) && PlacedRun(Perform(s, acts[0]), acts[1..]))
  }

  ghost function PlacedAfter(s: State, acts: seq<Act>): State
    requires PlacedRun(s, acts)
    decreases |acts|
  {
    if acts == [] then s else PlacedAfter(Perform(s, acts[0]), acts[1..])
  }

  /** Some run with clearing stores in any place leads from `s` to `t`. */
  ghost predicate PlacedLeads(s: State, t: State) {
    exists acts :: PlacedRun(s, acts) && PlacedAfter(s, acts) == t
  }

  // ---------- where the store may go ----------

  /** At the end it is the step of the state machine. */
  lemma ClearAtTheEnd(s: State)
    requires Inv(s) && s.cons.pc == CClearing
    ensures ClearAt(s, |s.mem.ready|) == Step(s, ClearReady)
  {
    var pos, t := |s.mem.ready|, Step(s, ClearReady);
    forall k | 0 <= k < |s.mem.timestamp| ensures Shift(s.mem.timestamp[k].view, pos) == s.mem.timestamp[k].view {
      assert TimestampEntry(s.mem, k);
    }
    forall k | 0 <= k < |s.mem.ready| ensures Shift(s.mem.ready[k].view, pos) == s.mem.ready[k].view {
      assert ReadyEntry(s.mem, k);
    }
    forall k | 0 <= k < |s.mem.exit| ensures Shift(s.mem.exit[k].view, pos) == s.mem.exit[k].view {
      assert ExitEntry(s.mem, k);
    }
    assert ShiftAll(s.mem.timestamp, pos) == s.mem.timestamp;
    assert ShiftAll(s.mem.ready, pos) == s.mem.ready;
    assert ShiftAll(s.mem.exit, pos) == s.mem.exit;
  }

  /** The only other place is just before the producer's `true`, open exactly to a
      consumer whose last look at `ready` found it `false`; such a one was cut off. */
  lemma OnlyOneOtherPlace(s: State, pos: nat)
    requires Inv(s) && s.cons.pc == CClearing
    ensures s.cons.view.ready < |s.mem.ready|
    ensures MayInsert(s.cons.view.ready, |s.mem.ready|, pos) <==>
              pos == |s.mem.ready| || (pos + 1 == |s.mem.ready| && !s.mem.ready[s.cons.view.ready].value)
    ensures !s.mem.ready[s.cons.view.ready].value ==> CutOff(s) && !Seen(s)
  {
    AcknowledgingMeansParked(s);
    assert ReadyEntry(s.mem, s.cons.view.ready);
  }

  // ---------- the runs of the state machine are among these ----------

  lemma {:induction false} RunIsPlacedRun(s: State, es: seq<Event>) returns (acts: seq<Act>)
    requires Run(s, es)
    ensures PlacedRun(s, acts) && PlacedAfter(s, acts) == After(s, es)
    decreases |es|
  {
    acts := [];
    if es != [] {
      var later := RunIsPlacedRun(Step(s, es[0]), es[1..]);
      acts := [Ordinary(es[0])] + later;
      assert acts[1..] == later;
    }
  }

  lemma LeadsIsPlaced(s: State, t: State)
    requires Leads(s, t)
    ensures PlacedLeads(s, t)
  {
    var es :| Run(s, es) && After(s, es) == t;
    var acts := RunIsPlacedRun(s, es);
  }

  lemma {:induction false} PlacedAppend(s: State, acts: seq<Act>, a: Act)
    requires PlacedRun(s, acts) && Can(PlacedAfter(s, acts), a)
    ensures PlacedRun(s, acts + [a]) && PlacedAfter(s, acts + [a]) == Perform(PlacedAfter(s, acts), a)
    decreases |acts|
  {
    if acts == [] {
      assert acts + [a] == [a] && [a][1..] == [];
    } else {
      assert (acts + [a])[1..] == acts[1..] + [a];
      PlacedAppend(Perform(s, acts[0]), acts[1..], a);
    }
  }

  /** A displaced store does happen, and then `ready` no longer alternates: its newest
      entry stays `true` although the consumer has cleared it. */
  lemma ClearingCanGoUnseen() returns (s: State)
    ensures PlacedLeads(Init(1), s) && s.cons.pc == CCounting
    ensures |s.mem.ready| == 3 && !s.mem.ready[1].value && s.mem.ready[2].value
  {
    var u := LoadAfterCut(1, 7, 0);
    LeadsIsPlaced(Init(1), u);
    var acts :| PlacedRun(Init(1), acts) && PlacedAfter(Init(1), acts) == u;
    PlacedAppend(Init(1), acts, Clear(1));
    s := Perform(u, Clear(1));
  }
}
