/** Who owns which native handle: the pure account of wrappers, clients and the
    native library, over arbitrary programs. */
module Ownership {

  /** A native pointer. */
  datatype Ptr = Null | To(handle: nat)

  datatype Kind = Store | KvEntry | Watcher | Subscription | Message | Options | KeysList

  /** The handles of a client: connection, the embedded options, JetStream context. */
  datatype ClientRec = ClientRec(conn: Ptr, opts: Ptr, js: Ptr)

  datatype WrapperRec = WrapperRec(kind: Kind, ptr: Ptr)

  /** A member variable that holds a pointer. */
  datatype Slot = Conn(c: nat) | Opts(c: nat) | Js(c: nat) | Wrapped(w: nat)

  /** Handles are numbered as the native library creates them; `destroyed` logs its
      destroy calls, `overwritten` the handles lost to a store over them. */
  datatype World = World(created: nat, destroyed: seq<nat>, overwritten: seq<nat>,
                         clients: map<nat, ClientRec>, wrappers: map<nat, WrapperRec>)

  const EMPTY: World := World(0, [], [], map[], map[])

  predicate HasSlot(w: World, s: Slot) {
    if s.Wrapped? then s.w in w.wrappers else s.c in w.clients
  }

  function Held(w: World, s: Slot): Ptr {
    if !HasSlot(w, s) then Null else
    match s
    case Conn(c) => w.clients[c].conn
    case Opts(c) => w.clients[c].opts
    case Js(c) => w.clients[c].js
    case Wrapped(x) => w.wrappers[x].ptr
  }

  function Put(w: World, s: Slot, p: Ptr): World
    requires HasSlot(w, s)
  {
    match s
    case Conn(c) => w.(clients := w.clients[c := w.clients[c].(conn := p)])
    case Opts(c) => w.(clients := w.clients[c := w.clients[c].(opts := p)])
    case Js(c) => w.(clients := w.clients[c := w.clients[c].(js := p)])
    case Wrapped(x) => w.(wrappers := w.wrappers[x := w.wrappers[x].(ptr := p)])
  }

  // ---------- what happens to one slot ----------

  /** The handle behind a pointer, if there is one. */
  function Behind(p: Ptr): seq<nat> {
    match p
    case Null => []
    case To(h) => [h]
  }

  /** Destroy the handle, if there is one, and null the pointer. */
  function Destroy(w: World, s: Slot): World
    requires HasSlot(w, s)
  {
    Put(w.(destroyed := w.destroyed + Behind(Held(w, s))), s, Null)
  }

  /** Copy the pointer and null its source. */
  function Take(w: World, to: Slot, from: Slot): World
    requires HasSlot(w, to) && HasSlot(w, from)
  {
    Put(Put(w, to, Held(w, from)), from, Null)
  }

  /** The native library creates a handle and stores it into the slot. */
  function Acquire(w: World, s: Slot): World
    requires HasSlot(w, s)
  {
    Put(w.(created := w.created + 1, overwritten := w.overwritten + Behind(Held(w, s))), s, To(w.created))
  }

  /** Move assignment of a wrapper. */
  function AssignSlot(w: World, to: Slot, from: Slot): World
    requires HasSlot(w, to) && HasSlot(w, from)
  {
    if to == from then w else Take(Destroy(w, to), to, from)
  }

  // ---------- clients ----------

  function Cleanup(w: World, c: nat): World
    requires c in w.clients
  {
    Destroy(Destroy(Destroy(w, Conn(c)), Opts(c)), Js(c))
  }

  /** The destructor body, then the implicit destruction of the member `opts`. */
  function DestroyClient(w: World, c: nat): World
    requires c in w.clients
  {
    var w' := Destroy(Cleanup(w, c), Opts(c));
    w'.(clients := w'.clients - {c})
  }

  function AddClient(w: World, c: nat): World {
    w.(clients := w.clients[c := ClientRec(Null, Null, Null)])
  }

  /** Move construction: `js` stays behind. */
  function MoveClient(w: World, c: nat, from: nat): World
    requires c !in w.clients && from in w.clients
  {
    Take(Take(AddClient(w, c), Conn(c), Conn(from)), Opts(c), Opts(from))
  }

  /** Move assignment; the final null assignment to the source's options included. */
  function AssignClient(w: World, c: nat, from: nat): World
    requires c in w.clients && from in w.clients
  {
    if c == from then w
    else Destroy(AssignSlot(Take(Cleanup(w, c), Conn(c), Conn(from)), Opts(c), Opts(from)), Opts(from))
  }

  // ---------- programs ----------

  /** A factory may return no wrapper at all: an error, or the empty optional of
      `KvWatcher::next`.  A wrapper may also be constructed from a null pointer. */
  datatype Outcome = NoWrapper | NullPointer | NewHandle

  /** `ok` and `outcome` are what the native library answers. */
  datatype Op =
    | CreateClient(c: nat, ok: bool)
    | Connect(c: nat, ok: bool)
    | JetStream(c: nat, ok: bool)
    | MoveConstructClient(c: nat, from: nat)
    | MoveAssignClient(c: nat, from: nat)
    | DropClient(c: nat)
    | MakeWrapper(w: nat, kind: Kind, outcome: Outcome)
    | MoveConstructWrapper(w: nat, source: Slot)
    | MoveAssignWrapper(to: Slot, source: Slot)
    | DropWrapper(w: nat)

  /** The slots that are wrapper objects of their own: not a bare pointer member. */
  predicate IsWrapper(w: World, s: Slot) {
    HasSlot(w, s) && (s.Opts? || s.Wrapped?)
  }

  function KindOf(w: World, s: Slot): Kind
    requires IsWrapper(w, s)
  {
    if s.Opts? then Options else w.wrappers[s.w].kind
  }

  /** The names are in scope, new names are new, and the types agree. */
  predicate Possible(w: World, op: Op) {
    match op
    case CreateClient(c, _) => c !in w.clients
    case Connect(c, _) => c in w.clients
    case JetStream(c, _) => c in w.clients
    case MoveConstructClient(c, from) => c !in w.clients && from in w.clients
    case MoveAssignClient(c, from) => c in w.clients && from in w.clients
    case DropClient(c) => c in w.clients
    case MakeWrapper(x, _, _) => x !in w.wrappers
    case MoveConstructWrapper(x, source) => x !in w.wrappers && IsWrapper(w, source)
    case MoveAssignWrapper(to, source) =>
      IsWrapper(w, to) && IsWrapper(w, source) && KindOf(w, to) == KindOf(w, source)
    case DropWrapper(x) => x in w.wrappers
  }

  function AddWrapper(w: World, x: nat, kind: Kind): World {
    w.(wrappers := w.wrappers[x := WrapperRec(kind, Null)])
  }

  function Exec(w: World, op: Op): World
    requires Possible(w, op)
  {
    match op
    case CreateClient(c, ok) => if ok then Acquire(AddClient(w, c), Opts(c)) else w
    case Connect(c, ok) => if ok then Acquire(w, Conn(c)) else w
    case JetStream(c, ok) => if ok then Acquire(w, Js(c)) else w
    case MoveConstructClient(c, from) => MoveClient(w, c, from)
    case MoveAssignClient(c, from) => AssignClient(w, c, from)
    case DropClient(c) => DestroyClient(w, c)
    case MakeWrapper(x, kind, outcome) =>
      if outcome.NewHandle? then Acquire(AddWrapper(w, x, kind), Wrapped(x))
      else if outcome.NullPointer? then AddWrapper(w, x, kind)
      else w
    case MoveConstructWrapper(x, source) =>
      Take(AddWrapper(w, x, KindOf(w, source)), Wrapped(x), source)
    case MoveAssignWrapper(to, source) => AssignSlot(w, to, source)
    case DropWrapper(x) =>
      var w' := Destroy(w, Wrapped(x));
      w'.(wrappers := w'.wrappers - {x})
  }

  /** Runs a program, passing over what is not possible. */
  function ExecAll(w: World, ops: seq<Op>): World
    decreases |ops|
  {
    if ops == [] then w
    else ExecAll(if Possible(w, ops[0]) then Exec(w, ops[0]) else w, ops[1..])
  }

  // ---------- the invariant ----------

  /** A handle has been destroyed, or overwritten, or is held; never two of these,
      and never twice or in two places. */
  ghost predicate Lost(w: World, h: nat) { h in w.destroyed || h in w.overwritten }

  ghost predicate NoDuplicates(s: seq<nat>) {
    forall i, j :: 0 <= i < j < |s| ==> s[i] != s[j]
  }

  ghost predicate HeldOnce(w: World) {
    forall s, t :: Held(w, s).To? && Held(w, s) == Held(w, t) ==> s == t
  }

  ghost predicate HeldAreLive(w: World) {
    forall s :: Held(w, s).To? ==> Held(w, s).handle < w.created && !Lost(w, Held(w, s).handle)
  }

  ghost predicate LostAreOld(w: World) {
    && (forall h :: h in w.destroyed ==> h < w.created && h !in w.overwritten)
    && (forall h :: h in w.overwritten ==> h < w.created)
  }

  ghost predicate Owned(w: World, h: nat) { exists s :: Held(w, s) == To(h) }

  ghost predicate NoneForgotten(w: World) {
    forall h: nat :: h < w.created && !Lost(w, h) ==> Owned(w, h)
  }

  ghost predicate WorldInv(w: World) {
    && HeldOnce(w) && HeldAreLive(w) && LostAreOld(w) && NoneForgotten(w)
    && NoDuplicates(w.destroyed) && NoDuplicates(w.overwritten)
  }

  // ---------- each slot operation keeps it ----------

  lemma PutHeld(w: World, s: Slot, p: Ptr)
    requires HasSlot(w, s)
    ensures forall t :: HasSlot(Put(w, s, p), t) <==> HasSlot(w, t)
    ensures forall t :: Held(Put(w, s, p), t) == if t == s then p else Held(w, t)
  {}

  lemma DestroyKeepsInv(w: World, s: Slot)
    requires WorldInv(w) && HasSlot(w, s)
    ensures WorldInv(Destroy(w, s)) && Held(Destroy(w, s), s) == Null
    ensures forall t :: HasSlot(Destroy(w, s), t) <==> HasSlot(w, t)
    ensures forall t :: t != s ==> Held(Destroy(w, s), t) == Held(w, t)
  {
    var mid, w' := w.(destroyed := w.destroyed + Behind(Held(w, s))), Destroy(w, s);
    PutHeld(mid, s, Null);
    assert forall t :: Held(mid, t) == Held(w, t);
    forall k: nat | k < w'.created && !Lost(w', k) ensures Owned(w', k) {
      assert Owned(w, k);
      var t :| Held(w, t) == To(k);
      assert Held(w', t) == To(k);
    }
  }

  lemma TakeKeepsInv(w: World, to: Slot, from: Slot)
    requires WorldInv(w) && HasSlot(w, to) && HasSlot(w, from) && to != from && Held(w, to) == Null
    ensures WorldInv(Take(w, to, from))
    ensures forall t :: HasSlot(Take(w, to, from), t) <==> HasSlot(w, t)
    ensures forall t :: Held(Take(w, to, from), t) ==
                        if t == to then Held(w, from) else if t == from then Null else Held(w, t)
  {
    var w' := Take(w, to, from);
    PutHeld(w, to, Held(w, from));
    PutHeld(Put(w, to, Held(w, from)), from, Null);
    forall k: nat | k < w'.created && !Lost(w', k) ensures Owned(w', k) {
      assert Owned(w, k);
      var t :| Held(w, t) == To(k);
      assert Held(w', if t == from then to else t) == To(k);
    }
  }

  lemma AcquireKeepsInv(w: World, s: Slot)
    requires WorldInv(w) && HasSlot(w, s)
    ensures WorldInv(Acquire(w, s))
    ensures forall t :: Held(Acquire(w, s), t) == if t == s then To(w.created) else Held(w, t)
  {
    var w' := Acquire(w, s);
    var mid := w.(created := w.created + 1, overwritten := w.overwritten + Behind(Held(w, s)));
    PutHeld(mid, s, To(w.created));
    assert forall t :: Held(mid, t) == Held(w, t);
    forall k: nat | k < w'.created && !Lost(w', k) ensures Owned(w', k) {
      if k == w.created {
        assert Held(w', s) == To(k);
      } else {
        assert Owned(w, k);
        var t :| Held(w, t) == To(k);
        assert Held(w', t) == To(k);
      }
    }
  }

  /** Worlds that hold the same in every slot and have the same logs. */
  lemma SameHoldings(w: World, w': World)
    requires WorldInv(w) && w'.created == w.created && w'.destroyed == w.destroyed && w'.overwritten == w.overwritten
    requires forall s :: Held(w', s) == Held(w, s)
    ensures WorldInv(w')
  {
    forall k: nat | k < w'.created && !Lost(w', k) ensures Owned(w', k) {
      assert Owned(w, k);
      var t :| Held(w, t) == To(k);
      assert Held(w', t) == To(k);
    }
  }
}
