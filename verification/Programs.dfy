/** What each operation of a program does to the objects and the handles, told from the
    names in scope alone, and how every program can be brought to its end. */
module Programs {
  import opened Ownership
  import opened Accounting
  import opened Wrappers

  /** The world after one more operation. */
  function AfterOp(w: World, op: Op): World { ExecAll(w, [op]) }

  lemma AfterOpIs(w: World, op: Op)
    ensures AfterOp(w, op) == if Possible(w, op) then Exec(w, op) else w
  {
    var v := if Possible(w, op) then Exec(w, op) else w;
    assert ExecAll(w, [op]) == ExecAll(v, [op][1..]) == ExecAll(v, []) == v;
  }

  lemma ProgramsGoOn(ops: seq<Op>, op: Op)
    ensures ExecAll(EMPTY, ops + [op]) == AfterOp(ExecAll(EMPTY, ops), op)
  {
    ExecAllAppend(EMPTY, ops, [op]);
  }

  // ---------- clients ----------

  /** A client is made of its options alone; a name in use, or a failure, changes nothing. */
  lemma CreateDoes(w: World, c: nat, ok: bool)
    ensures AfterOp(w, Op.CreateClient(c, ok)) ==
              if c !in w.clients && ok then
                w.(created := w.created + 1, clients := w.clients[c := ClientRec(Null, To(w.created), Null)])
              else w
  {
    AfterOpIs(w, Op.CreateClient(c, ok));
    if c !in w.clients { CreateClientClosed(w, c, ok); }
  }

  /** A connection made goes into the client, over whatever was there. */
  lemma ConnectDoes(w: World, c: nat, ok: bool)
    ensures AfterOp(w, Connect(c, ok)) ==
              if c in w.clients && ok then
                w.(created := w.created + 1, overwritten := w.overwritten + Behind(w.clients[c].conn),
                   clients := w.clients[c := w.clients[c].(conn := To(w.created))])
              else w
  {
    AfterOpIs(w, Connect(c, ok));
  }

  lemma JetStreamDoes(w: World, c: nat, ok: bool)
    ensures AfterOp(w, JetStream(c, ok)) ==
              if c in w.clients && ok then
                w.(created := w.created + 1, overwritten := w.overwritten + Behind(w.clients[c].js),
                   clients := w.clients[c := w.clients[c].(js := To(w.created))])
              else w
  {
    AfterOpIs(w, JetStream(c, ok));
  }

  /** Connection and options go to the new client, the JetStream context stays. */
  lemma MoveConstructDoes(w: World, c: nat, from: nat)
    ensures AfterOp(w, MoveConstructClient(c, from)) ==
              if c !in w.clients && from in w.clients then
                var r := w.clients[from];
                w.(clients := w.clients[from := ClientRec(Null, Null, r.js)][c := ClientRec(r.conn, r.opts, Null)])
              else w
  {
    AfterOpIs(w, MoveConstructClient(c, from));
    if c !in w.clients && from in w.clients { MoveClientClosed(w, c, from); }
  }

  /** The target's three handles are destroyed, then the same; assignment to itself
      does nothing. */
  lemma MoveAssignDoes(w: World, c: nat, from: nat)
    ensures AfterOp(w, MoveAssignClient(c, from)) ==
              if c in w.clients && from in w.clients && c != from then
                var r, s := w.clients[c], w.clients[from];
                w.(destroyed := w.destroyed + Behind(r.conn) + Behind(r.opts) + Behind(r.js),
                   clients := w.clients[from := ClientRec(Null, Null, s.js)][c := ClientRec(s.conn, s.opts, Null)])
              else w
  {
    AfterOpIs(w, MoveAssignClient(c, from));
    if c in w.clients && from in w.clients && c != from { AssignClientClosed(w, c, from); }
  }

  /** Whatever a client holds, its destructor runs: its three handles are destroyed and
      it is gone. */
  lemma DropDoes(w: World, c: nat)
    ensures AfterOp(w, Op.DropClient(c)) ==
              if c in w.clients then
                var r := w.clients[c];
                w.(destroyed := w.destroyed + Behind(r.conn) + Behind(r.opts) + Behind(r.js),
                   clients := w.clients - {c})
              else w
  {
    AfterOpIs(w, Op.DropClient(c));
    if c in w.clients {
      DestroyAfterCleanup(w, c);
      CleanupClosed(w, c);
      assert w.clients[c := ClientRec(Null, Null, Null)] - {c} == w.clients - {c};
    }
  }

  // ---------- wrappers ----------

  lemma MakeDoes(w: World, x: nat, kind: Kind, outcome: Outcome)
    ensures AfterOp(w, Op.MakeWrapper(x, kind, outcome)) ==
              if x in w.wrappers || outcome == NoWrapper then w
              else if outcome == NullPointer then w.(wrappers := w.wrappers[x := WrapperRec(kind, Null)])
              else w.(created := w.created + 1, wrappers := w.wrappers[x := WrapperRec(kind, To(w.created))])
  {
    AfterOpIs(w, Op.MakeWrapper(x, kind, outcome));
    if x !in w.wrappers { MakeWrapperClosed(w, x, kind, outcome); }
  }

  /** A named wrapper moves into a new one. */
  lemma MoveConstructWrapperDoes(w: World, x: nat, y: nat)
    ensures AfterOp(w, Op.MoveConstructWrapper(x, Wrapped(y))) ==
              if x !in w.wrappers && y in w.wrappers then
                var r := w.wrappers[y];
                w.(wrappers := w.wrappers[y := WrapperRec(r.kind, Null)][x := r])
              else w
  {
    AfterOpIs(w, Op.MoveConstructWrapper(x, Wrapped(y)));
    if x !in w.wrappers && y in w.wrappers {
      MoveConstructClosed(w, x, Wrapped(y));
      assert w.wrappers[y] == WrapperRec(KindOf(w, Wrapped(y)), Held(w, Wrapped(y)));
    }
  }

  /** So do the options of a client. */
  lemma MoveOptionsOutDoes(w: World, x: nat, c: nat)
    ensures AfterOp(w, Op.MoveConstructWrapper(x, Opts(c))) ==
              if x !in w.wrappers && c in w.clients then
                w.(wrappers := w.wrappers[x := WrapperRec(Options, w.clients[c].opts)],
                   clients := w.clients[c := w.clients[c].(opts := Null)])
              else w
  {
    AfterOpIs(w, Op.MoveConstructWrapper(x, Opts(c)));
    if x !in w.wrappers && c in w.clients { MoveConstructClosed(w, x, Opts(c)); }
  }

  /** A connection or JetStream context is no wrapper object. */
  lemma BarePointersDoNotMove(w: World, x: nat, c: nat, s: Slot)
    ensures AfterOp(w, Op.MoveConstructWrapper(x, Conn(c))) == w == AfterOp(w, Op.MoveConstructWrapper(x, Js(c)))
    ensures AfterOp(w, Op.MoveAssignWrapper(s, Conn(c))) == w == AfterOp(w, Op.MoveAssignWrapper(s, Js(c)))
    ensures AfterOp(w, Op.MoveAssignWrapper(Conn(c), s)) == w == AfterOp(w, Op.MoveAssignWrapper(Js(c), s))
  {
    AfterOpIs(w, Op.MoveConstructWrapper(x, Conn(c)));
    AfterOpIs(w, Op.MoveConstructWrapper(x, Js(c)));
    AfterOpIs(w, Op.MoveAssignWrapper(s, Conn(c)));
    AfterOpIs(w, Op.MoveAssignWrapper(s, Js(c)));
    AfterOpIs(w, Op.MoveAssignWrapper(Conn(c), s));
    AfterOpIs(w, Op.MoveAssignWrapper(Js(c), s));
  }

  /** One named wrapper is assigned to another of its kind. */
  lemma AssignNamedDoes(w: World, x: nat, y: nat)
    ensures AfterOp(w, Op.MoveAssignWrapper(Wrapped(x), Wrapped(y))) ==
              if x in w.wrappers && y in w.wrappers && x != y && w.wrappers[x].kind == w.wrappers[y].kind then
                var r, s := w.wrappers[x], w.wrappers[y];
                w.(destroyed := w.destroyed + Behind(r.ptr),
                   wrappers := w.wrappers[y := WrapperRec(s.kind, Null)][x := s])
              else w
  {
    AfterOpIs(w, Op.MoveAssignWrapper(Wrapped(x), Wrapped(y)));
    if x in w.wrappers && y in w.wrappers && x != y && w.wrappers[x].kind == w.wrappers[y].kind {
      MoveAssignClosed(w, Wrapped(x), Wrapped(y));
    }
  }

  /** Options go from a named wrapper into a client. */
  lemma AssignIntoClientDoes(w: World, c: nat, y: nat)
    ensures AfterOp(w, Op.MoveAssignWrapper(Opts(c), Wrapped(y))) ==
              if c in w.clients && y in w.wrappers && w.wrappers[y].kind == Options then
                w.(destroyed := w.destroyed + Behind(w.clients[c].opts),
                   clients := w.clients[c := w.clients[c].(opts := w.wrappers[y].ptr)],
                   wrappers := w.wrappers[y := WrapperRec(Options, Null)])
              else w
  {
    AfterOpIs(w, Op.MoveAssignWrapper(Opts(c), Wrapped(y)));
    if c in w.clients && y in w.wrappers && w.wrappers[y].kind == Options {
      MoveAssignClosed(w, Opts(c), Wrapped(y));
    }
  }

  /** And back. */
  lemma AssignOutOfClientDoes(w: World, x: nat, c: nat)
    ensures AfterOp(w, Op.MoveAssignWrapper(Wrapped(x), Opts(c))) ==
              if c in w.clients && x in w.wrappers && w.wrappers[x].kind == Options then
                w.(destroyed := w.destroyed + Behind(w.wrappers[x].ptr),
                   wrappers := w.wrappers[x := WrapperRec(Options, w.clients[c].opts)],
                   clients := w.clients[c := w.clients[c].(opts := Null)])
              else w
  {
    AfterOpIs(w, Op.MoveAssignWrapper(Wrapped(x), Opts(c)));
    if c in w.clients && x in w.wrappers && w.wrappers[x].kind == Options {
      MoveAssignClosed(w, Wrapped(x), Opts(c));
    }
  }

  /** And from client to client. */
  lemma AssignBetweenClientsDoes(w: World, c: nat, d: nat)
    ensures AfterOp(w, Op.MoveAssignWrapper(Opts(c), Opts(d))) ==
              if c in w.clients && d in w.clients && c != d then
                w.(destroyed := w.destroyed + Behind(w.clients[c].opts),
                   clients := w.clients[d := w.clients[d].(opts := Null)]
                                       [c := w.clients[c].(opts := w.clients[d].opts)])
              else w
  {
    AfterOpIs(w, Op.MoveAssignWrapper(Opts(c), Opts(d)));
    if c in w.clients && d in w.clients && c != d { MoveAssignClosed(w, Opts(c), Opts(d)); }
  }

  lemma DropWrapperDoes(w: World, x: nat)
    ensures AfterOp(w, Op.DropWrapper(x)) ==
              if x in w.wrappers then
                w.(destroyed := w.destroyed + Behind(w.wrappers[x].ptr), wrappers := w.wrappers - {x})
              else w
  {
    AfterOpIs(w, Op.DropWrapper(x));
    if x in w.wrappers {
      var r := WrapperRec(w.wrappers[x].kind, Null);
      assert w.wrappers[x := r] - {x} == w.wrappers - {x};
    }
  }

  // ---------- the end of a program ----------

  ghost predicate NothingLeft(w: World) { w.clients == map[] && w.wrappers == map[] }

  /** From every world the objects can be dropped one by one until none is left, and
      that overwrites nothing. */
  lemma {:induction false} DropEverything(w: World) returns (ops: seq<Op>)
    ensures NothingLeft(ExecAll(w, ops)) && ExecAll(w, ops).created == w.created
    ensures ExecAll(w, ops).overwritten == w.overwritten
    decreases |w.clients| + |w.wrappers|
  {
    if w.clients != map[] {
      var c :| c in w.clients;
      ops := DropOne(w, Op.DropClient(c));
    } else if w.wrappers != map[] {
      var x :| x in w.wrappers;
      ops := DropOne(w, Op.DropWrapper(x));
    } else {
      ops := [];
    }
  }

  lemma DropOne(w: World, op: Op) returns (ops: seq<Op>)
    requires (op.DropClient? && op.c in w.clients) || (op.DropWrapper? && op.w in w.wrappers)
    ensures NothingLeft(ExecAll(w, ops)) && ExecAll(w, ops).created == w.created
    ensures ExecAll(w, ops).overwritten == w.overwritten
    decreases |w.clients| + |w.wrappers|, 0
  {
    if op.DropClient? { DropDoes(w, op.c); } else { DropWrapperDoes(w, op.w); }
    var rest := DropEverything(AfterOp(w, op));
    ExecAllAppend(w, [op], rest);
    ops := [op] + rest;
  }

  /** Every program can be continued so that nothing is left; then every handle has been
      destroyed but those its `connect` and `jet_stream` calls had overwritten. */
  lemma EveryProgramCanEnd(ops: seq<Op>) returns (more: seq<Op>)
    ensures var w := ExecAll(EMPTY, ops + more);
      NothingLeft(w) && w.created == ExecAll(EMPTY, ops).created == |w.destroyed| + OverwriteCount(EMPTY, ops)
  {
    more := DropEverything(ExecAll(EMPTY, ops));
    ExecAllAppend(EMPTY, ops, more);
    var w := ExecAll(EMPTY, ops + more);
    ExecAllKeepsInv(EMPTY, ops + more);
    ExecAllOverwrites(EMPTY, ops);
    WorldAccounts(w);
    forall h: nat ensures !Owned(w, h) {}
    assert OwnedHandles(w) == {};
  }
}
