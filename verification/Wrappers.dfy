/** The move-only wrapper classes as objects that are updated in place, and a heap
    of them that any program may work on. */
module Wrappers {
  import opened Ownership
  import opened Accounting

  /** The native library: it numbers what it creates and logs what it destroys.  It
      does not check that a handle is destroyed only once. */
  class Native {
    var created: nat
    var destroyed: seq<nat>
    ghost var overwritten: seq<nat>

    constructor ()
      ensures created == 0 && destroyed == [] && overwritten == []
    {
      created, destroyed, overwritten := 0, [], [];
    }

    method Create() returns (h: nat)
      modifies this`created
      ensures h == old(created) && created == old(created) + 1
    {
      h := created;
      created := created + 1;
    }

    method Destroy(h: nat)
      modifies this`destroyed
      ensures destroyed == old(destroyed) + [h]
    {
      destroyed := destroyed + [h];
    }
  }

  /** `KvStore`, `KvEntry`, `KvWatcher`, `NatsSubscriptionSync`, `NatsMessageView`
      and `NatsOptions`: one native handle each. */
  class Wrapper {
    const kind: Kind
    var ptr: Ptr

    constructor (k: Kind, p: Ptr)
      ensures kind == k && ptr == p
    {
      kind, ptr := k, p;
    }

    constructor Move(other: Wrapper)
      modifies other
      ensures kind == other.kind && ptr == old(other.ptr) && other.ptr == Null
    {
      kind, ptr := other.kind, other.ptr;
      new;
      other.ptr := Null;
    }

    method Destruct(n: Native)
      modifies this, n`destroyed
      ensures ptr == Null && n.destroyed == old(n.destroyed) + Behind(old(ptr))
    {
      if ptr != Null {
        n.Destroy(ptr.handle);
        ptr := Null;
      }
    }

    method Assign(n: Native, other: Wrapper)
      requires kind == other.kind
      modifies this, other, n`destroyed
      ensures this != other ==>
                && ptr == old(other.ptr) && other.ptr == Null
                && n.destroyed == old(n.destroyed) + Behind(old(ptr))
      ensures this == other ==> ptr == old(ptr) && n.destroyed == old(n.destroyed)
    {
      if this != other {
        if ptr != Null {
          n.Destroy(ptr.handle);
          ptr := Null;
        }
        ptr := other.ptr;
        other.ptr := Null;
      }
    }
  }

  /** `NatsClient`: a connection, embedded options and a JetStream context. */
  class Client {
    var conn: Ptr
    const opts: Wrapper
    var js: Ptr

    constructor FromOptions(o: Wrapper)
      requires o.kind == Options
      modifies o
      ensures fresh(opts) && opts.kind == Options && opts.ptr == old(o.ptr) && o.ptr == Null
      ensures conn == Null && js == Null
    {
      conn, js := Null, Null;
      opts := new Wrapper.Move(o);
    }

    constructor Move(other: Client)
      requires other.opts.kind == Options
      modifies other, other.opts
      ensures fresh(opts) && opts.kind == Options && opts.ptr == old(other.opts.ptr) && other.opts.ptr == Null
      ensures conn == old(other.conn) && js == Null && other.conn == Null && other.js == old(other.js)
    {
      conn, js := other.conn, Null;
      opts := new Wrapper.Move(other.opts);
      new;
      other.conn := Null;
    }

    method Cleanup(n: Native)
      modifies this, opts, n`destroyed
      ensures conn == Null && opts.ptr == Null && js == Null
      ensures n.destroyed == old(n.destroyed + Behind(conn) + Behind(opts.ptr) + Behind(js))
    {
      if conn != Null {
        n.Destroy(conn.handle);
        conn := Null;
      }
      opts.Destruct(n);
      if js != Null {
        n.Destroy(js.handle);
        js := Null;
      }
    }

    /** The destructor body, then the implicit destruction of `opts`. */
    method Destruct(n: Native)
      modifies this, opts, n`destroyed
      ensures conn == Null && opts.ptr == Null && js == Null
      ensures n.destroyed == old(n.destroyed + Behind(conn) + Behind(opts.ptr) + Behind(js))
    {
      Cleanup(n);
      opts.Destruct(n);
    }

    method Assign(n: Native, other: Client)
      requires opts.kind == Options && other.opts.kind == Options
      requires this != other ==> opts != other.opts
      modifies this, opts, other, other.opts, n`destroyed
      ensures this == other ==>
                conn == old(conn) && opts.ptr == old(opts.ptr) && js == old(js) && n.destroyed == old(n.destroyed)
      ensures this != other ==>
                && conn == old(other.conn) && opts.ptr == old(other.opts.ptr) && js == Null
                && other.conn == Null && other.opts.ptr == Null && other.js == old(other.js)
                && n.destroyed == old(n.destroyed + Behind(conn) + Behind(opts.ptr) + Behind(js))
    {
      if this != other {
        Cleanup(n);
        conn := other.conn;
        opts.Assign(n, other.opts);
        other.conn := Null;
        var none := new Wrapper(Options, Null);
        other.opts.Assign(n, none);
        none.Destruct(n);
      }
    }

    /** `ok` is the status the native call returns; `conn` is stored only then. */
    method Connect(n: Native, ok: bool)
      modifies this`conn, n`created, n`overwritten
      ensures if ok then conn == To(old(n.created)) && n.created == old(n.created) + 1
                         && n.overwritten == old(n.overwritten + Behind(conn))
              else conn == old(conn) && n.created == old(n.created) && n.overwritten == old(n.overwritten)
    {
      if ok {
        n.overwritten := n.overwritten + Behind(conn);
        var h := n.Create();
        conn := To(h);
      }
    }

    method JetStream(n: Native, ok: bool)
      modifies this`js, n`created, n`overwritten
      ensures if ok then js == To(old(n.created)) && n.created == old(n.created) + 1
                         && n.overwritten == old(n.overwritten + Behind(js))
              else js == old(js) && n.created == old(n.created) && n.overwritten == old(n.overwritten)
    {
      if ok {
        n.overwritten := n.overwritten + Behind(js);
        var h := n.Create();
        js := To(h);
      }
    }
  }

  /** `NatsClient::create`: the options wrapper, the client and the returned object
      are three stages of moving one handle; the temporaries die on the way. */
  method CreateClientObject(n: Native, ok: bool) returns (c: Client?)
    modifies n`created, n`destroyed
    ensures !ok ==> c == null && n.created == old(n.created)
    ensures ok ==> c != null && fresh(c) && fresh(c.opts) && c.opts.kind == Options
                   && c.conn == Null && c.opts.ptr == To(old(n.created)) && c.js == Null
                   && n.created == old(n.created) + 1
    ensures n.destroyed == old(n.destroyed)
  {
    c := null;
    if ok {
      var h := n.Create();
      var options := new Wrapper(Options, To(h));
      var client := new Client.FromOptions(options);
      c := new Client.Move(client);
      client.Destruct(n);
      options.Destruct(n);
    }
  }

  // ---------- closed forms of the composite operations ----------

  lemma CleanupClosed(w: World, c: nat)
    requires c in w.clients
    ensures var r := w.clients[c];
      Cleanup(w, c) == w.(destroyed := w.destroyed + Behind(r.conn) + Behind(r.opts) + Behind(r.js),
                          clients := w.clients[c := ClientRec(Null, Null, Null)])
  {}

  lemma DestroyAfterCleanup(w: World, c: nat)
    requires c in w.clients
    ensures DestroyClient(w, c) == Cleanup(w, c).(clients := Cleanup(w, c).clients - {c})
  {
    CleanupClosed(w, c);
    DestroyNullIsNothing(Cleanup(w, c), Opts(c));
  }

  lemma MoveClientClosed(w: World, c: nat, from: nat)
    requires c !in w.clients && from in w.clients
    ensures var r := w.clients[from];
      MoveClient(w, c, from) ==
        w.(clients := w.clients[from := ClientRec(Null, Null, r.js)][c := ClientRec(r.conn, r.opts, Null)])
  {
    assert MoveClient(w, c, from).clients.Keys == w.clients.Keys + {c};
  }

  lemma AssignClientClosed(w: World, c: nat, from: nat)
    requires c in w.clients && from in w.clients && c != from
    ensures var r, s := w.clients[c], w.clients[from];
      AssignClient(w, c, from) ==
        w.(destroyed := w.destroyed + Behind(r.conn) + Behind(r.opts) + Behind(r.js),
           clients := w.clients[from := ClientRec(Null, Null, s.js)][c := ClientRec(s.conn, s.opts, Null)])
  {
    CleanupClosed(w, c);
    var w1 := Cleanup(w, c);
    var w2 := Take(w1, Conn(c), Conn(from));
    DestroyNullIsNothing(w2, Opts(c));
    var w3 := AssignSlot(w2, Opts(c), Opts(from));
    DestroyNullIsNothing(w3, Opts(from));
    assert w3.clients == w.clients[from := ClientRec(Null, Null, w.clients[from].js)]
                                  [c := ClientRec(w.clients[from].conn, w.clients[from].opts, Null)];
  }

  lemma CreateClientClosed(w: World, c: nat, ok: bool)
    requires c !in w.clients
    ensures Exec(w, Op.CreateClient(c, ok)) ==
              if ok then w.(created := w.created + 1, clients := w.clients[c := ClientRec(Null, To(w.created), Null)])
              else w
  {
    assert w.overwritten + [] == w.overwritten;
  }

  lemma MakeWrapperClosed(w: World, x: nat, kind: Kind, outcome: Outcome)
    requires x !in w.wrappers
    ensures Exec(w, Op.MakeWrapper(x, kind, outcome)) ==
              match outcome
              case NoWrapper => w
              case NullPointer => w.(wrappers := w.wrappers[x := WrapperRec(kind, Null)])
              case NewHandle =>
                w.(created := w.created + 1, wrappers := w.wrappers[x := WrapperRec(kind, To(w.created))])
  {
    assert w.overwritten + [] == w.overwritten;
  }

  function PutOpts(cs: map<nat, ClientRec>, s: Slot, p: Ptr): map<nat, ClientRec> {
    if s.Opts? && s.c in cs then cs[s.c := cs[s.c].(opts := p)] else cs
  }

  function PutPtr(ws: map<nat, WrapperRec>, s: Slot, p: Ptr): map<nat, WrapperRec> {
    if s.Wrapped? && s.w in ws then ws[s.w := ws[s.w].(ptr := p)] else ws
  }

  lemma MoveAssignClosed(w: World, to: Slot, source: Slot)
    requires IsWrapper(w, to) && IsWrapper(w, source) && to != source
    ensures var p := Held(w, source);
      AssignSlot(w, to, source) ==
        w.(destroyed := w.destroyed + Behind(Held(w, to)),
           clients := PutOpts(PutOpts(w.clients, to, p), source, Null),
           wrappers := PutPtr(PutPtr(w.wrappers, to, p), source, Null))
  {
    var p := Held(w, source);
    assert AssignSlot(w, to, source).clients == PutOpts(PutOpts(w.clients, to, p), source, Null);
    assert AssignSlot(w, to, source).wrappers == PutPtr(PutPtr(w.wrappers, to, p), source, Null);
  }

  lemma MoveConstructClosed(w: World, x: nat, source: Slot)
    requires x !in w.wrappers && IsWrapper(w, source)
    ensures var w', moved := Exec(w, Op.MoveConstructWrapper(x, source)), Put(w, source, Null);
      && w'.clients == moved.clients
      && w'.wrappers == moved.wrappers[x := WrapperRec(KindOf(w, source), Held(w, source))]
      && w'.created == w.created && w'.destroyed == w.destroyed && w'.overwritten == w.overwritten
  {}

  // ---------- the heap ----------

  /** All clients and wrappers of a program, by name, over one native library. */
  class Heap {
    const native: Native
    var clients: map<nat, Client>
    var wrappers: map<nat, Wrapper>
    ghost var repr: set<object>

    /** Different names are different objects. */
    ghost predicate Valid()
      reads this
    {
      && this in repr && native in repr
      && (forall c :: c in clients ==> clients[c] in repr && clients[c].opts in repr && clients[c].opts.kind == Options)
      && (forall x :: x in wrappers ==> wrappers[x] in repr)
      && (forall c, d :: c in clients && d in clients && c != d ==>
            clients[c] != clients[d] && clients[c].opts != clients[d].opts)
      && (forall x, y :: x in wrappers && y in wrappers && x != y ==> wrappers[x] != wrappers[y])
      && (forall c, x :: c in clients && x in wrappers ==> clients[c].opts != wrappers[x])
    }

    ghost function ClientValues(): map<nat, ClientRec>
      requires Valid()
      reads repr
    {
      map c | c in clients :: ClientRec(clients[c].conn, clients[c].opts.ptr, clients[c].js)
    }

    ghost function WrapperValues(): map<nat, WrapperRec>
      requires Valid()
      reads repr
    {
      map x | x in wrappers :: WrapperRec(wrappers[x].kind, wrappers[x].ptr)
    }

    ghost function Value(): World
      requires Valid()
      reads repr
    {
      World(native.created, native.destroyed, native.overwritten, ClientValues(), WrapperValues())
    }

    constructor ()
      ensures Valid() && fresh(repr) && Value() == EMPTY
    {
      var n := new Native();
      native := n;
      clients, wrappers := map[], map[];
      repr := {this, n};
    }

    /** A new client object gets a name. */
    method NameClient(c: nat, made: Client)
      requires Valid() && c !in clients && made !in repr && made.opts !in repr && made.opts.kind == Options
      modifies this`clients, this`repr
      ensures Valid() && repr == old(repr) + {made, made.opts}
      ensures ClientValues() == old(ClientValues())[c := ClientRec(made.conn, made.opts.ptr, made.js)]
      ensures WrapperValues() == old(WrapperValues())
    {
      clients := clients[c := made];
      repr := repr + {made, made.opts};
    }

    /** A new wrapper object gets a name. */
    method NameWrapper(x: nat, made: Wrapper)
      requires Valid() && x !in wrappers && made !in repr
      modifies this`wrappers, this`repr
      ensures Valid() && repr == old(repr) + {made}
      ensures ClientValues() == old(ClientValues())
      ensures WrapperValues() == old(WrapperValues())[x := WrapperRec(made.kind, made.ptr)]
    {
      wrappers := wrappers[x := made];
      repr := repr + {made};
    }

    method CreateClient(c: nat, ok: bool)
      requires Valid() && c !in clients
      modifies this, native
      ensures Valid() && fresh(repr - old(repr))
      ensures Value() == Exec(old(Value()), Op.CreateClient(c, ok))
    {
      CreateClientClosed(Value(), c, ok);
      var made := CreateClientObject(native, ok);
      assert Valid() && ClientValues() == old(ClientValues()) && WrapperValues() == old(WrapperValues());
      if made != null {
        NameClient(c, made);
      }
    }

    method Connect(c: nat, ok: bool)
      requires Valid() && c in clients
      modifies clients[c], native
      ensures Valid()
      ensures Value() == Exec(old(Value()), Op.Connect(c, ok))
    {
      clients[c].Connect(native, ok);
      assert ClientValues() == old(ClientValues())[c := old(ClientValues())[c].(conn := clients[c].conn)];
      assert WrapperValues() == old(WrapperValues());
    }

    method JetStream(c: nat, ok: bool)
      requires Valid() && c in clients
      modifies clients[c], native
      ensures Valid()
      ensures Value() == Exec(old(Value()), Op.JetStream(c, ok))
    {
      clients[c].JetStream(native, ok);
      assert ClientValues() == old(ClientValues())[c := old(ClientValues())[c].(js := clients[c].js)];
      assert WrapperValues() == old(WrapperValues());
    }

    /** Moves connection and options out of a client into a new, still unnamed one. */
    method MoveClientOut(from: nat) returns (made: Client)
      requires Valid() && from in clients
      modifies clients[from], clients[from].opts
      ensures fresh(made) && fresh(made.opts) && made.opts.kind == Options
      ensures var r := old(ClientValues())[from];
        && made.conn == r.conn && made.opts.ptr == r.opts && made.js == Null
        && Valid() && ClientValues() == old(ClientValues())[from := ClientRec(Null, Null, r.js)]
      ensures WrapperValues() == old(WrapperValues())
    {
      made := new Client.Move(clients[from]);
    }

    method MoveConstructClient(c: nat, from: nat)
      requires Valid() && c !in clients && from in clients
      modifies this, clients[from], clients[from].opts
      ensures Valid() && fresh(repr - old(repr))
      ensures Value() == MoveClient(old(Value()), c, from)
    {
      MoveClientClosed(Value(), c, from);
      var made := MoveClientOut(from);
      NameClient(c, made);
    }

    method AssignClients(c: nat, from: nat)
      requires Valid() && c in clients && from in clients && c != from
      modifies clients[c], clients[c].opts, clients[from], clients[from].opts, native`destroyed
      ensures Valid()
      ensures var w := old(Value()); var r, s := w.clients[c], w.clients[from];
        Value() ==
          w.(destroyed := w.destroyed + Behind(r.conn) + Behind(r.opts) + Behind(r.js),
             clients := w.clients[from := ClientRec(Null, Null, s.js)][c := ClientRec(s.conn, s.opts, Null)])
    {
      ghost var s := ClientValues()[from];
      clients[c].Assign(native, clients[from]);
      assert WrapperValues() == old(WrapperValues());
      assert ClientValues()
          == old(ClientValues())[from := ClientRec(Null, Null, s.js)][c := ClientRec(s.conn, s.opts, Null)];
    }

    method MoveAssignClient(c: nat, from: nat)
      requires Valid() && c in clients && from in clients
      modifies clients[c], clients[c].opts, clients[from], clients[from].opts, native
      ensures Valid()
      ensures Value() == AssignClient(old(Value()), c, from)
    {
      if c == from {
        clients[c].Assign(native, clients[from]);
        assert ClientValues() == old(ClientValues()) && WrapperValues() == old(WrapperValues());
      } else {
        AssignClientClosed(Value(), c, from);
        AssignClients(c, from);
      }
    }

    method DestructClient(c: nat)
      requires Valid() && c in clients
      modifies clients[c], clients[c].opts, native`destroyed
      ensures Valid() && WrapperValues() == old(WrapperValues())
      ensures var r := old(ClientValues())[c];
        && native.destroyed == old(native.destroyed) + Behind(r.conn) + Behind(r.opts) + Behind(r.js)
        && ClientValues() == old(ClientValues())[c := ClientRec(Null, Null, Null)]
    {
      clients[c].Destruct(native);
    }

    /** The destructor call: what is left is a client that holds nothing. */
    method EmptyClient(c: nat)
      requires Valid() && c in clients
      modifies clients[c], clients[c].opts, native`destroyed
      ensures Valid() && Value() == Cleanup(old(Value()), c)
    {
      CleanupClosed(Value(), c);
      DestructClient(c);
    }

    method ForgetClient(c: nat)
      requires Valid()
      modifies this`clients
      ensures Valid() && Value() == old(Value()).(clients := old(ClientValues()) - {c})
    {
      clients := clients - {c};
      assert ClientValues() == old(ClientValues()) - {c} && WrapperValues() == old(WrapperValues());
    }

    method DropClient(c: nat)
      requires Valid() && c in clients
      modifies this`clients, clients[c], clients[c].opts, native
      ensures Valid() && repr == old(repr)
      ensures Value() == DestroyClient(old(Value()), c)
    {
      DestroyAfterCleanup(Value(), c);
      EmptyClient(c);
      ForgetClient(c);
    }

    /** A native create call, if the outcome is one, and nothing else. */
    method NativePointer(outcome: Outcome) returns (p: Ptr)
      requires Valid()
      modifies native`created
      ensures p == if outcome == NewHandle then To(old(native.created)) else Null
      ensures native.created == old(native.created) + if outcome == NewHandle then 1 else 0
      ensures ClientValues() == old(ClientValues()) && WrapperValues() == old(WrapperValues())
    {
      p := Null;
      if outcome == NewHandle {
        var h := native.Create();
        p := To(h);
      }
    }

    method MakeWrapper(x: nat, kind: Kind, outcome: Outcome)
      requires Valid() && x !in wrappers
      modifies this, native
      ensures Valid() && fresh(repr - old(repr))
      ensures Value() == Exec(old(Value()), Op.MakeWrapper(x, kind, outcome))
    {
      MakeWrapperClosed(Value(), x, kind, outcome);
      var p := NativePointer(outcome);
      if outcome != NoWrapper {
        var made := new Wrapper(kind, p);
        assert ClientValues() == old(ClientValues()) && WrapperValues() == old(WrapperValues());
        NameWrapper(x, made);
      }
    }

    /** The wrapper object in a slot: a named one, or the options of a client. */
    predicate Has(s: Slot)
      reads this
    {
      (s.Opts? && s.c in clients) || (s.Wrapped? && s.w in wrappers)
    }

    function At(s: Slot): Wrapper
      requires Has(s)
      reads this
    {
      if s.Opts? then clients[s.c].opts else wrappers[s.w]
    }

    /** Moves the handle out of a wrapper into a new, still unnamed one. */
    method MoveOut(source: Slot) returns (made: Wrapper)
      requires Valid() && Has(source)
      modifies At(source)
      ensures fresh(made) && made.kind == At(source).kind && made.ptr == old(At(source).ptr)
      ensures Valid()
      ensures ClientValues() == Put(old(Value()), source, Null).clients
      ensures WrapperValues() == Put(old(Value()), source, Null).wrappers
    {
      made := new Wrapper.Move(At(source));
      if source.Opts? {
        assert ClientValues() == old(ClientValues())[source.c := old(ClientValues())[source.c].(opts := Null)];
        assert WrapperValues() == old(WrapperValues());
      } else {
        assert ClientValues() == old(ClientValues());
        assert WrapperValues() == old(WrapperValues())[source.w := old(WrapperValues())[source.w].(ptr := Null)];
      }
    }

    method MoveConstructWrapper(x: nat, source: Slot)
      requires Valid() && x !in wrappers && Has(source)
      modifies this, At(source)
      ensures Valid() && fresh(repr - old(repr))
      ensures Value() == Exec(old(Value()), Op.MoveConstructWrapper(x, source))
    {
      ghost var w := Value();
      var made := MoveOut(source);
      NameWrapper(x, made);
      MoveConstructClosed(w, x, source);
    }

    method AssignIntoOptions(c: nat, source: Slot)
      requires Valid() && c in clients && Has(source) && source != Opts(c) && At(source).kind == Options
      modifies clients[c].opts, At(source), native`destroyed
      ensures Valid() && native.destroyed == old(native.destroyed + Behind(clients[c].opts.ptr))
      ensures ClientValues() == PutOpts(PutOpts(old(ClientValues()), Opts(c), old(At(source).ptr)), source, Null)
      ensures WrapperValues() == PutPtr(old(WrapperValues()), source, Null)
    {
      WhoseObject(source);
      clients[c].opts.Assign(native, At(source));
    }

    method AssignIntoNamed(x: nat, source: Slot)
      requires Valid() && x in wrappers && Has(source) && source != Wrapped(x) && At(source).kind == wrappers[x].kind
      modifies wrappers[x], At(source), native`destroyed
      ensures Valid() && native.destroyed == old(native.destroyed + Behind(wrappers[x].ptr))
      ensures ClientValues() == PutOpts(old(ClientValues()), source, Null)
      ensures WrapperValues() == PutPtr(PutPtr(old(WrapperValues()), Wrapped(x), old(At(source).ptr)), source, Null)
    {
      WhoseObject(source);
      wrappers[x].Assign(native, At(source));
    }

    method AssignToSelf(s: Slot)
      requires Valid() && Has(s)
      modifies At(s), native`destroyed
      ensures Valid() && Value() == old(Value())
    {
      At(s).Assign(native, At(s));
      assert ClientValues() == old(ClientValues()) && WrapperValues() == old(WrapperValues());
    }

    method MoveAssignOptions(c: nat, source: Slot)
      requires Valid() && c in clients && Has(source) && source != Opts(c) && At(source).kind == Options
      modifies clients[c].opts, At(source), native`destroyed
      ensures Valid() && Value() == AssignSlot(old(Value()), Opts(c), source)
    {
      MoveAssignClosed(Value(), Opts(c), source);
      AssignIntoOptions(c, source);
    }

    method MoveAssignNamed(x: nat, source: Slot)
      requires Valid() && x in wrappers && Has(source) && source != Wrapped(x) && At(source).kind == wrappers[x].kind
      modifies wrappers[x], At(source), native`destroyed
      ensures Valid() && Value() == AssignSlot(old(Value()), Wrapped(x), source)
    {
      MoveAssignClosed(Value(), Wrapped(x), source);
      AssignIntoNamed(x, source);
    }

    method MoveAssignWrapper(to: Slot, source: Slot)
      requires Valid() && Has(to) && Has(source) && At(to).kind == At(source).kind
      modifies At(to), At(source), native
      ensures Valid()
      ensures Value() == AssignSlot(old(Value()), to, source)
    {
      if to == source {
        AssignToSelf(to);
      } else if to.Opts? {
        MoveAssignOptions(to.c, source);
      } else {
        MoveAssignNamed(to.w, source);
      }
    }

    /** An object belongs to one slot only. */
    lemma WhoseObject(s: Slot)
      requires Valid() && Has(s)
      ensures forall c :: c in clients ==> (clients[c].opts == At(s) <==> s == Opts(c))
      ensures forall x :: x in wrappers ==> (wrappers[x] == At(s) <==> s == Wrapped(x))
    {}

    method DestructWrapper(x: nat)
      requires Valid() && x in wrappers
      modifies wrappers[x], native`destroyed
      ensures Valid() && Value() == Destroy(old(Value()), Wrapped(x))
    {
      wrappers[x].Destruct(native);
      assert ClientValues() == old(ClientValues());
      assert WrapperValues() == old(WrapperValues())[x := WrapperRec(wrappers[x].kind, Null)];
    }

    method ForgetWrapper(x: nat)
      requires Valid()
      modifies this`wrappers
      ensures Valid() && Value() == old(Value()).(wrappers := old(WrapperValues()) - {x})
    {
      wrappers := wrappers - {x};
      assert ClientValues() == old(ClientValues()) && WrapperValues() == old(WrapperValues()) - {x};
    }

    method DropWrapper(x: nat)
      requires Valid() && x in wrappers
      modifies this, wrappers[x], native
      ensures Valid() && repr == old(repr)
      ensures Value() == Exec(old(Value()), Op.DropWrapper(x))
    {
      DestructWrapper(x);
      ForgetWrapper(x);
    }

    // ---------- programs ----------

    /** Whether an operation makes sense now: `Possible`, on the objects. */
    predicate CanPerform(op: Op)
      reads this
    {
      match op
      case CreateClient(c, _) => c !in clients
      case Connect(c, _) => c in clients
      case JetStream(c, _) => c in clients
      case MoveConstructClient(c, from) => c !in clients && from in clients
      case MoveAssignClient(c, from) => c in clients && from in clients
      case DropClient(c) => c in clients
      case MakeWrapper(x, _, _) => x !in wrappers
      case MoveConstructWrapper(x, source) => x !in wrappers && Has(source)
      case MoveAssignWrapper(to, source) => Has(to) && Has(source) && At(to).kind == At(source).kind
      case DropWrapper(x) => x in wrappers
    }

    predicate OnClients(op: Op) {
      op.CreateClient? || op.Connect? || op.JetStream? || op.MoveConstructClient? || op.MoveAssignClient?
      || op.DropClient?
    }

    method PerformOnClients(op: Op)
      requires Valid() && OnClients(op) && CanPerform(op)
      modifies repr
      ensures Valid() && fresh(repr - old(repr))
      ensures Possible(old(Value()), op) && Value() == Exec(old(Value()), op)
    {
      match op
      case CreateClient(c, ok) => CreateClient(c, ok);
      case Connect(c, ok) => Connect(c, ok);
      case JetStream(c, ok) => JetStream(c, ok);
      case MoveConstructClient(c, from) => MoveConstructClient(c, from);
      case MoveAssignClient(c, from) => MoveAssignClient(c, from);
      case DropClient(c) => DropClient(c);
    }

    method PerformOnWrappers(op: Op)
      requires Valid() && !OnClients(op) && CanPerform(op)
      modifies repr
      ensures Valid() && fresh(repr - old(repr))
      ensures Possible(old(Value()), op) && Value() == Exec(old(Value()), op)
    {
      match op
      case MakeWrapper(x, kind, outcome) => MakeWrapper(x, kind, outcome);
      case MoveConstructWrapper(x, source) => MoveConstructWrapper(x, source);
      case MoveAssignWrapper(to, source) => MoveAssignWrapper(to, source);
      case DropWrapper(x) => DropWrapper(x);
    }

    /** Runs a program over the objects.  From an empty heap no handle is destroyed
        twice, and the handles created are those destroyed, still held, or lost to
        an overwriting call. */
    method Execute(ops: seq<Op>)
      requires Valid()
      modifies repr
      ensures Valid() && fresh(repr - old(repr))
      ensures Value() == ExecAll(old(Value()), ops)
      ensures old(Value()) == EMPTY ==>
                && NoDuplicates(native.destroyed)
                && native.created == |native.destroyed| + |OwnedHandles(Value())| + OverwriteCount(EMPTY, ops)
    {
      ghost var start := Value();
      for k := 0 to |ops|
        invariant Valid() && fresh(repr - old(repr))
        invariant Value() == ExecAll(start, ops[..k])
      {
        PossibleIsCanPerform(ops[k]);
        ExecAllSnoc(start, ops[..k], ops[k]);
        assert ops[..k + 1] == ops[..k] + [ops[k]];
        if CanPerform(ops[k]) {
          if OnClients(ops[k]) { PerformOnClients(ops[k]); } else { PerformOnWrappers(ops[k]); }
        }
      }
      assert ops[..|ops|] == ops;
      if start == EMPTY {
        NoHandleDestroyedTwice(ops);
        HandlesAreAccountedFor(ops);
      }
    }

    lemma PossibleIsCanPerform(op: Op)
      requires Valid()
      ensures Possible(Value(), op) <==> CanPerform(op)
    {}
  }

  lemma ExecAllSnoc(w: World, ops: seq<Op>, op: Op)
    ensures var v := ExecAll(w, ops);
      ExecAll(w, ops + [op]) == if Possible(v, op) then Exec(v, op) else v
  {
    ExecAllAppend(w, ops, [op]);
    assert [op][1..] == [];
  }
}
