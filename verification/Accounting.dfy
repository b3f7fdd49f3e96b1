/** No program over the wrappers and clients destroys a handle twice, and every
    handle is accounted for. */
module Accounting {
  import opened Ownership

  // ---------- clients, slot by slot ----------

  lemma CleanupEffect(w: World, c: nat)
    requires WorldInv(w) && c in w.clients
    ensures WorldInv(Cleanup(w, c))
    ensures forall t :: HasSlot(Cleanup(w, c), t) <==> HasSlot(w, t)
    ensures forall t :: Held(Cleanup(w, c), t) ==
                        if t == Conn(c) || t == Opts(c) || t == Js(c) then Null else Held(w, t)
  {
    DestroyKeepsInv(w, Conn(c));
    DestroyKeepsInv(Destroy(w, Conn(c)), Opts(c));
    DestroyKeepsInv(Destroy(Destroy(w, Conn(c)), Opts(c)), Js(c));
  }

  lemma AddClientHeld(w: World, c: nat)
    requires c !in w.clients
    ensures forall t :: Held(AddClient(w, c), t) == Held(w, t)
  {}

  /** Moving a client out takes its connection and options; its JetStream context
      stays with it. */
  lemma MoveClientEffect(w: World, c: nat, from: nat)
    requires WorldInv(w) && c !in w.clients && from in w.clients
    ensures var w' := MoveClient(w, c, from);
      && WorldInv(w') && w'.destroyed == w.destroyed && w'.overwritten == w.overwritten
      && forall t :: Held(w', t) ==
           match t
           case Conn(k) => if k == c then Held(w, Conn(from)) else if k == from then Null else Held(w, t)
           case Opts(k) => if k == c then Held(w, Opts(from)) else if k == from then Null else Held(w, t)
           case _ => Held(w, t)
  {
    var w1 := AddClient(w, c);
    AddClientHeld(w, c);
    SameHoldings(w, w1);
    TakeKeepsInv(w1, Conn(c), Conn(from));
    TakeKeepsInv(Take(w1, Conn(c), Conn(from)), Opts(c), Opts(from));
  }

  lemma AssignSlotEffect(w: World, to: Slot, from: Slot)
    requires WorldInv(w) && HasSlot(w, to) && HasSlot(w, from) && to != from
    ensures var w' := AssignSlot(w, to, from);
      && WorldInv(w')
      && (forall t :: HasSlot(w', t) <==> HasSlot(w, t))
      && forall t :: Held(w', t) == if t == to then Held(w, from) else if t == from then Null else Held(w, t)
  {
    DestroyKeepsInv(w, to);
    TakeKeepsInv(Destroy(w, to), to, from);
  }

  lemma DestroyNullIsNothing(w: World, s: Slot)
    requires HasSlot(w, s) && Held(w, s) == Null
    ensures Destroy(w, s) == w
  {
    match s
    case Conn(c) => assert w.clients[c := w.clients[c].(conn := Null)] == w.clients;
    case Opts(c) => assert w.clients[c := w.clients[c].(opts := Null)] == w.clients;
    case Js(c) => assert w.clients[c := w.clients[c].(js := Null)] == w.clients;
    case Wrapped(x) => assert w.wrappers[x := w.wrappers[x].(ptr := Null)] == w.wrappers;
  }

  /** Move assignment of a client: the target's three handles are destroyed, the
      connection and options change owner, each client keeps no second copy, and
      the JetStream context stays with the source. */
  lemma AssignClientEffect(w: World, c: nat, from: nat)
    requires WorldInv(w) && c in w.clients && from in w.clients && c != from
    ensures var w' := AssignClient(w, c, from);
      && WorldInv(w') && w'.destroyed == Cleanup(w, c).destroyed
      && forall t :: Held(w', t) ==
           match t
           case Conn(k) => if k == c then Held(w, Conn(from)) else if k == from then Null else Held(w, t)
           case Opts(k) => if k == c then Held(w, Opts(from)) else if k == from then Null else Held(w, t)
           case Js(k) => if k == c then Null else Held(w, t)
           case _ => Held(w, t)
  {
    var w1 := Cleanup(w, c);
    CleanupEffect(w, c);
    var w2 := Take(w1, Conn(c), Conn(from));
    TakeKeepsInv(w1, Conn(c), Conn(from));
    var w3 := AssignSlot(w2, Opts(c), Opts(from));
    AssignSlotEffect(w2, Opts(c), Opts(from));
    DestroyNullIsNothing(w2, Opts(c));
    DestroyNullIsNothing(w3, Opts(from));
  }

  /** The explicit destruction of `opts` in `cleanup` leaves nothing for the
      implicit one that follows. */
  lemma ImplicitDestructionIsNothing(w: World, c: nat)
    requires WorldInv(w) && c in w.clients
    ensures Destroy(Cleanup(w, c), Opts(c)) == Cleanup(w, c)
  {
    CleanupEffect(w, c);
    DestroyNullIsNothing(Cleanup(w, c), Opts(c));
  }

  lemma DestroyClientEffect(w: World, c: nat)
    requires WorldInv(w) && c in w.clients
    ensures var w' := DestroyClient(w, c);
      && WorldInv(w') && w'.destroyed == Cleanup(w, c).destroyed
      && forall t :: Held(w', t) == if t == Conn(c) || t == Opts(c) || t == Js(c) then Null else Held(w, t)
  {
    CleanupEffect(w, c);
    ImplicitDestructionIsNothing(w, c);
    SameHoldings(Cleanup(w, c), DestroyClient(w, c));
  }

  // ---------- every operation, every program ----------

  lemma AddWrapperHeld(w: World, x: nat, kind: Kind)
    requires WorldInv(w) && x !in w.wrappers
    ensures WorldInv(AddWrapper(w, x, kind))
    ensures forall t :: Held(AddWrapper(w, x, kind), t) == Held(w, t)
  {
    SameHoldings(w, AddWrapper(w, x, kind));
  }

  lemma DropWrapperKeepsInv(w: World, x: nat)
    requires WorldInv(w) && x in w.wrappers
    ensures WorldInv(Exec(w, DropWrapper(x)))
  {
    var w' := Destroy(w, Wrapped(x));
    DestroyKeepsInv(w, Wrapped(x));
    SameHoldings(w', w'.(wrappers := w'.wrappers - {x}));
  }

  lemma ExecKeepsInv(w: World, op: Op)
    requires WorldInv(w) && Possible(w, op)
    ensures WorldInv(Exec(w, op))
  {
    match op
    case CreateClient(c, ok) =>
      AddClientHeld(w, c);
      SameHoldings(w, AddClient(w, c));
      AcquireKeepsInv(AddClient(w, c), Opts(c));
    case Connect(c, ok) => AcquireKeepsInv(w, Conn(c));
    case JetStream(c, ok) => AcquireKeepsInv(w, Js(c));
    case MoveConstructClient(c, from) => MoveClientEffect(w, c, from);
    case MoveAssignClient(c, from) => if c != from { AssignClientEffect(w, c, from); }
    case DropClient(c) => DestroyClientEffect(w, c);
    case MakeWrapper(x, kind, _) =>
      AddWrapperHeld(w, x, kind);
      AcquireKeepsInv(AddWrapper(w, x, kind), Wrapped(x));
    case MoveConstructWrapper(x, source) =>
      AddWrapperHeld(w, x, KindOf(w, source));
      TakeKeepsInv(AddWrapper(w, x, KindOf(w, source)), Wrapped(x), source);
    case MoveAssignWrapper(to, source) => if to != source { AssignSlotEffect(w, to, source); }
    case DropWrapper(x) => DropWrapperKeepsInv(w, x);
  }

  lemma {:induction false} ExecAllKeepsInv(w: World, ops: seq<Op>)
    requires WorldInv(w)
    ensures WorldInv(ExecAll(w, ops))
    decreases |ops|
  {
    if ops != [] {
      if Possible(w, ops[0]) { ExecKeepsInv(w, ops[0]); }
      ExecAllKeepsInv(if Possible(w, ops[0]) then Exec(w, ops[0]) else w, ops[1..]);
    }
  }

  /** No native handle is destroyed twice, destroyed while still held, or held in
      two places, by any program. */
  lemma NoHandleDestroyedTwice(ops: seq<Op>)
    ensures var w := ExecAll(EMPTY, ops);
      && NoDuplicates(w.destroyed)
      && (forall s :: Held(w, s).To? ==> Held(w, s).handle !in w.destroyed)
      && (forall s, t :: Held(w, s).To? && Held(w, s) == Held(w, t) ==> s == t)
  {
    ExecAllKeepsInv(EMPTY, ops);
  }

  // ---------- exact accounting ----------

  /** The handles `0` to `n - 1`. */
  ghost function Handles(n: nat): (hs: set<nat>)
    ensures |hs| == n && forall h: nat :: h in hs <==> h < n
  {
    if n == 0 then {} else Handles(n - 1) + {n - 1}
  }

  ghost function OwnedHandles(w: World): set<nat> {
    set h | h in Handles(w.created) && Owned(w, h)
  }

  ghost function Elements(s: seq<nat>): set<nat> { set h | h in s }

  lemma {:induction false} ElementsOfDistinct(s: seq<nat>)
    requires NoDuplicates(s)
    ensures |Elements(s)| == |s|
  {
    if s != [] {
      var front, last := s[..|s| - 1], s[|s| - 1];
      ElementsOfDistinct(front);
      assert s == front + [last];
      assert last !in front;
      assert Elements(s) == Elements(front) + {last};
    }
  }

  lemma {:induction false} OccursOnce(s: seq<nat>, h: nat)
    requires NoDuplicates(s)
    ensures multiset(s)[h] == if h in s then 1 else 0
  {
    if s != [] {
      var front, last := s[..|s| - 1], s[|s| - 1];
      OccursOnce(front, h);
      assert s == front + [last];
      assert last !in front;
    }
  }

  lemma DisjointSizes(a: set<nat>, b: set<nat>, c: set<nat>)
    requires a !! b && (a + b) !! c
    ensures |a + b + c| == |a| + |b| + |c|
  {}

  lemma WorldAccounts(w: World)
    requires WorldInv(w)
    ensures w.created == |w.destroyed| + |w.overwritten| + |OwnedHandles(w)|
  {
    var d, o, own := Elements(w.destroyed), Elements(w.overwritten), OwnedHandles(w);
    ElementsOfDistinct(w.destroyed);
    ElementsOfDistinct(w.overwritten);
    forall h | h in own ensures !Lost(w, h) {
      var s :| Held(w, s) == To(h);
      assert Held(w, s).To?;
    }
    assert d !! o && (d + o) !! own;
    forall h: nat ensures h in Handles(w.created) <==> h in d + o + own {
      if h < w.created { assert Lost(w, h) || Owned(w, h); }
    }
    DisjointSizes(d, o, own);
    assert Handles(w.created) == d + o + own;
  }

  /** A call that stores a new handle over one still held. */
  predicate Overwrites(w: World, op: Op) {
    Possible(w, op) && match op
      case Connect(c, ok) => ok && Held(w, Conn(c)).To?
      case JetStream(c, ok) => ok && Held(w, Js(c)).To?
      case _ => false
  }

  function OverwriteCount(w: World, ops: seq<Op>): nat
    decreases |ops|
  {
    if ops == [] then 0
    else (if Overwrites(w, ops[0]) then 1 else 0)
         + OverwriteCount(if Possible(w, ops[0]) then Exec(w, ops[0]) else w, ops[1..])
  }

  lemma ExecOverwrites(w: World, op: Op)
    requires Possible(w, op)
    ensures |Exec(w, op).overwritten| == |w.overwritten| + if Overwrites(w, op) then 1 else 0
    ensures w.overwritten <= Exec(w, op).overwritten
  {}

  lemma {:induction false} ExecAllOverwrites(w: World, ops: seq<Op>)
    ensures |ExecAll(w, ops).overwritten| == |w.overwritten| + OverwriteCount(w, ops)
    decreases |ops|
  {
    if ops != [] {
      if Possible(w, ops[0]) { ExecOverwrites(w, ops[0]); }
      ExecAllOverwrites(if Possible(w, ops[0]) then Exec(w, ops[0]) else w, ops[1..]);
    }
  }

  /** Handles created = destroyed + still owned + overwritten, and the last are as
      many as the `connect` and `jet_stream` calls that stored over a handle. */
  lemma HandlesAreAccountedFor(ops: seq<Op>)
    ensures var w := ExecAll(EMPTY, ops);
      w.created == |w.destroyed| + |OwnedHandles(w)| + OverwriteCount(EMPTY, ops)
  {
    ExecAllKeepsInv(EMPTY, ops);
    ExecAllOverwrites(EMPTY, ops);
    WorldAccounts(ExecAll(EMPTY, ops));
  }

  /** A program that has dropped all its objects has destroyed every handle exactly
      once if and only if it never called `connect` or `jet_stream` over a handle. */
  lemma AllDestroyedOnceIffNoOverwrite(ops: seq<Op>)
    requires var w := ExecAll(EMPTY, ops); w.clients == map[] && w.wrappers == map[]
    ensures var w := ExecAll(EMPTY, ops);
      (forall h: nat :: h < w.created ==> multiset(w.destroyed)[h] == 1) <==> OverwriteCount(EMPTY, ops) == 0
  {
    var w := ExecAll(EMPTY, ops);
    ExecAllKeepsInv(EMPTY, ops);
    ExecAllOverwrites(EMPTY, ops);
    forall h: nat | h < w.created
      ensures Lost(w, h) && multiset(w.destroyed)[h] == if h in w.destroyed then 1 else 0
    {
      assert !Owned(w, h);
      OccursOnce(w.destroyed, h);
    }
    if w.overwritten != [] {
      var h := w.overwritten[0];
      assert h in w.overwritten && multiset(w.destroyed)[h] == 0;
    }
  }

  /** A handle that nobody holds any more and that was never destroyed. */
  ghost predicate Leaked(w: World, h: nat) {
    h < w.created && h !in w.destroyed && !Owned(w, h)
  }

  lemma LeakedMeansOverwritten(w: World, h: nat)
    requires WorldInv(w)
    ensures Leaked(w, h) <==> h in w.overwritten
  {
    forall s | Held(w, s) == To(h) ensures !Lost(w, h) {
      assert Held(w, s).To?;
    }
  }

  ghost function LeakedHandles(w: World): set<nat> {
    set h | h in Handles(w.created) && Leaked(w, h)
  }

  /** The handles a program leaks are as many as its overwriting calls. */
  lemma LeaksAreOverwrites(ops: seq<Op>)
    ensures |LeakedHandles(ExecAll(EMPTY, ops))| == OverwriteCount(EMPTY, ops)
  {
    var w := ExecAll(EMPTY, ops);
    ExecAllKeepsInv(EMPTY, ops);
    ExecAllOverwrites(EMPTY, ops);
    ElementsOfDistinct(w.overwritten);
    forall h: nat ensures h in LeakedHandles(w) <==> h in Elements(w.overwritten) {
      LeakedMeansOverwritten(w, h);
    }
    assert LeakedHandles(w) == Elements(w.overwritten);
  }

  /** Exactly when an operation leaks a handle: a successful `connect` or `jet_stream`
      on a client that already holds one of the kind.  What is leaked stays so. */
  lemma HandleLostIffOverwritten(ops: seq<Op>, op: Op)
    requires Possible(ExecAll(EMPTY, ops), op)
    ensures var w := ExecAll(EMPTY, ops);
      (exists h: nat :: Leaked(Exec(w, op), h) && !Leaked(w, h)) <==> Overwrites(w, op)
    ensures var w := ExecAll(EMPTY, ops);
      forall h: nat :: Leaked(w, h) ==> Leaked(Exec(w, op), h)
  {
    var w := ExecAll(EMPTY, ops);
    ExecAllKeepsInv(EMPTY, ops);
    ExecKeepsInv(w, op);
    ExecOverwrites(w, op);
    var w' := Exec(w, op);
    forall h: nat ensures Leaked(w, h) <==> h in w.overwritten { LeakedMeansOverwritten(w, h); }
    forall h: nat ensures Leaked(w', h) <==> h in w'.overwritten { LeakedMeansOverwritten(w', h); }
    assert w.overwritten <= w'.overwritten;
    if Overwrites(w, op) {
      var h := Held(w, if op.Connect? then Conn(op.c) else Js(op.c)).handle;
      assert w'.overwritten[|w.overwritten|] == h && !Lost(w, h);
      assert Leaked(w', h) && !Leaked(w, h);
    }
  }

  lemma {:induction false} LeaksStay(w: World, ops: seq<Op>, h: nat)
    requires WorldInv(w) && Leaked(w, h)
    ensures Leaked(ExecAll(w, ops), h)
    decreases |ops|
  {
    if ops != [] {
      var op := ops[0];
      if Possible(w, op) {
        ExecKeepsInv(w, op);
        LeakedMeansOverwritten(w, h);
        LeakedMeansOverwritten(Exec(w, op), h);
        ExecOverwrites(w, op);
      }
      LeaksStay(if Possible(w, op) then Exec(w, op) else w, ops[1..], h);
    }
  }

  lemma {:induction false} ExecAllAppend(w: World, ops: seq<Op>, more: seq<Op>)
    ensures ExecAll(w, ops + more) == ExecAll(ExecAll(w, ops), more)
    decreases |ops|
  {
    if ops == [] {
      assert ops + more == more;
    } else {
      assert (ops + more)[1..] == ops[1..] + more;
      ExecAllAppend(if Possible(w, ops[0]) then Exec(w, ops[0]) else w, ops[1..], more);
    }
  }

  /** What a move of a wrapper stores into. */
  function Target(op: Op): Slot
    requires op.MoveAssignWrapper? || op.MoveConstructWrapper?
  {
    if op.MoveAssignWrapper? then op.to else Wrapped(op.w)
  }

  /** A moved-from wrapper is inert, by construction or assignment: the target has its
      handle, what the target had is destroyed, and destroying the source later
      destroys nothing. */
  lemma MovedFromIsInert(w: World, op: Op)
    requires WorldInv(w) && (op.MoveAssignWrapper? || op.MoveConstructWrapper?) && Possible(w, op)
    requires op.source != Target(op)
    ensures var w' := Exec(w, op);
      && HasSlot(w', op.source) && Held(w', op.source) == Null && Held(w', Target(op)) == Held(w, op.source)
      && Destroy(w', op.source) == w'
      && w'.destroyed == w.destroyed + Behind(Held(w, Target(op)))
  {
    if op.MoveAssignWrapper? {
      AssignSlotEffect(w, op.to, op.source);
    } else {
      var w1 := AddWrapper(w, op.w, KindOf(w, op.source));
      AddWrapperHeld(w, op.w, KindOf(w, op.source));
      TakeKeepsInv(w1, Wrapped(op.w), op.source);
    }
    DestroyNullIsNothing(Exec(w, op), op.source);
  }

  // ---------- chains of moves ----------

  /** Moves wrapper `cur` into `y`: an assignment if `y` exists, else a construction. */
  function MoveTo(w: World, cur: nat, y: nat): World
    requires cur in w.wrappers
  {
    if y in w.wrappers then AssignSlot(w, Wrapped(y), Wrapped(cur))
    else Exec(w, MoveConstructWrapper(y, Wrapped(cur)))
  }

  lemma MoveToEffect(w: World, cur: nat, y: nat)
    requires WorldInv(w) && cur in w.wrappers
    ensures var w' := MoveTo(w, cur, y);
      && WorldInv(w') && y in w'.wrappers && cur in w'.wrappers && w'.created == w.created
      && forall t :: Held(w', t) ==
           if t == Wrapped(y) then Held(w, Wrapped(cur)) else if t == Wrapped(cur) then Null else Held(w, t)
  {
    if y !in w.wrappers {
      ExecKeepsInv(w, MoveConstructWrapper(y, Wrapped(cur)));
    } else if y != cur {
      AssignSlotEffect(w, Wrapped(y), Wrapped(cur));
    }
  }

  function Chain(w: World, cur: nat, names: seq<nat>): World
    requires cur in w.wrappers
    decreases |names|
  {
    if names == [] then w
    else
      var w' := MoveTo(w, cur, names[0]);
      assert names[0] in w'.wrappers;
      Chain(w', names[0], names[1..])
  }

  function LastName(cur: nat, names: seq<nat>): nat {
    if names == [] then cur else names[|names| - 1]
  }

  /** Whoever is last in a chain of moves holds what the first held; everyone else
      on the way holds nothing. */
  lemma {:induction false} ChainEffect(w: World, cur: nat, names: seq<nat>)
    requires WorldInv(w) && cur in w.wrappers
    ensures var w', last := Chain(w, cur, names), LastName(cur, names);
      && WorldInv(w') && w'.created == w.created && last in w'.wrappers
      && Held(w', Wrapped(last)) == Held(w, Wrapped(cur))
      && (forall z :: (z == cur || z in names) && z != last ==> Held(w', Wrapped(z)) == Null)
      && (forall z :: z != cur && z !in names ==> Held(w', Wrapped(z)) == Held(w, Wrapped(z)))
    decreases |names|
  {
    if names != [] {
      MoveToEffect(w, cur, names[0]);
      ChainEffect(MoveTo(w, cur, names[0]), names[0], names[1..]);
      assert forall z :: z in names <==> z == names[0] || z in names[1..];
    }
  }

  /** At the end of the chain the handle is destroyed by the last holder, once. */
  lemma ChainEndDestroysOnce(w: World, cur: nat, names: seq<nat>)
    requires WorldInv(w) && cur in w.wrappers && Held(w, Wrapped(cur)).To?
    ensures var w', h := Chain(w, cur, names), Held(w, Wrapped(cur)).handle;
      && h !in w'.destroyed && LastName(cur, names) in w'.wrappers
      && multiset(Exec(w', DropWrapper(LastName(cur, names))).destroyed)[h] == 1
  {
    ChainEffect(w, cur, names);
    var w', last, h := Chain(w, cur, names), LastName(cur, names), Held(w, Wrapped(cur)).handle;
    assert Held(w', Wrapped(last)).To?;
    var end := Exec(w', DropWrapper(last));
    ExecKeepsInv(w', DropWrapper(last));
    assert end.destroyed[|w'.destroyed|] == h;
    OccursOnce(end.destroyed, h);
  }
}
