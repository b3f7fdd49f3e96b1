/** `KvKeysList`: a native array of keys that changes owner. */
module KeysLists {
  import opened Ownership
  import opened Accounting

  /** The native arrays of keys, in the order they were filled, and those freed. */
  class KeyArrays {
    var filled: seq<seq<string>>
    var freed: seq<nat>

    constructor ()
      ensures filled == [] && freed == []
    {
      filled, freed := [], [];
    }

    method Fill(keys: seq<string>) returns (h: nat)
      modifies this`filled
      ensures h == |old(filled)| && filled == old(filled) + [keys]
    {
      h := |filled|;
      filled := filled + [keys];
    }

    method Free(h: nat)
      modifies this`freed
      ensures freed == old(freed) + [h]
    {
      freed := freed + [h];
    }
  }

  class KvKeysList {
    var keys: Ptr
    var count: int

    /** `count` is the length of the array behind `keys`. */
    predicate Sound(n: KeyArrays)
      reads this, n
    {
      match keys
      case Null => count == 0
      case To(h) => h < |n.filled| && count == |n.filled[h]|
    }

    /** The keys that the list stands for. */
    function Contents(n: KeyArrays): seq<string>
      requires Sound(n)
      reads this, n
    {
      match keys
      case Null => []
      case To(h) => n.filled[h]
    }

    constructor ()
      ensures keys == Null && count == 0
    {
      keys, count := Null, 0;
    }

    constructor Move(other: KvKeysList)
      modifies other
      ensures keys == old(other.keys) && count == old(other.count)
      ensures other.keys == Null && other.count == 0
    {
      keys, count := other.keys, other.count;
      new;
      other.keys := Null;
      other.count := 0;
    }

    method Destruct(n: KeyArrays)
      modifies this, n`freed
      ensures keys == Null && n.freed == old(n.freed) + Behind(old(keys))
      ensures count == if old(keys) == Null then old(count) else 0
    {
      if keys != Null {
        n.Free(keys.handle);
        keys := Null;
        count := 0;
      }
    }

    method Assign(n: KeyArrays, other: KvKeysList)
      modifies this, other, n`freed
      ensures this != other ==>
                && keys == old(other.keys) && count == old(other.count)
                && other.keys == Null && other.count == 0
                && n.freed == old(n.freed) + Behind(old(keys))
      ensures this == other ==> keys == old(keys) && count == old(count) && n.freed == old(n.freed)
    {
      if this != other {
        if keys != Null {
          n.Free(keys.handle);
          keys := Null;
          count := 0;
        }
        keys, count := other.keys, other.count;
        other.keys := Null;
        other.count := 0;
      }
    }

    /** `keys()`: copies the array into a vector, element by element. */
    method Keys(n: KeyArrays) returns (ks: seq<string>)
      requires Sound(n)
      ensures ks == Contents(n)
    {
      ks := [];
      var i := 0;
      while i < count
        invariant 0 <= i <= count
        invariant ks == Contents(n)[..i]
      {
        ks := ks + [n.filled[keys.handle][i]];
        i := i + 1;
      }
    }
  }

  /** All key lists of a program, by name. */
  class ListHeap {
    const arrays: KeyArrays
    var lists: map<nat, KvKeysList>
    ghost var repr: set<object>

    ghost predicate Valid()
      reads this, repr
    {
      && this in repr && arrays in repr
      && (forall x :: x in lists ==> lists[x] in repr && lists[x].Sound(arrays))
      && (forall x, y :: x in lists && y in lists && x != y ==> lists[x] != lists[y])
    }

    ghost function Value(): World
      requires Valid()
      reads repr
    {
      World(|arrays.filled|, arrays.freed, [], map[], map x | x in lists :: WrapperRec(KeysList, lists[x].keys))
    }

    constructor ()
      ensures Valid() && fresh(repr) && Value() == EMPTY
    {
      var n := new KeyArrays();
      arrays := n;
      lists := map[];
      repr := {this, n};
    }

    /** A new list object gets a name. */
    method Name(x: nat, made: KvKeysList)
      requires Valid() && x !in lists && made !in repr && made.Sound(arrays)
      modifies this`lists, this`repr
      ensures Valid() && repr == old(repr) + {made} && lists == old(lists)[x := made]
      ensures Value() == old(Value()).(wrappers := old(Value()).wrappers[x := WrapperRec(KeysList, made.keys)])
    {
      lists := lists[x := made];
      repr := repr + {made};
      assert Value().wrappers == old(Value()).wrappers[x := WrapperRec(KeysList, made.keys)];
    }

    /** The native call and the local list it fills. */
    method FillLocal(keys: seq<string>) returns (local: KvKeysList)
      requires Valid()
      modifies arrays
      ensures Valid() && fresh(local) && local.Sound(arrays) && local.Contents(arrays) == keys
      ensures local.keys == To(|old(arrays.filled)|) && arrays.filled == old(arrays.filled) + [keys]
      ensures Value() == old(Value()).(created := old(Value()).created + 1)
    {
      var h := arrays.Fill(keys);
      local := new KvKeysList();
      local.keys, local.count := To(h), |keys|;
    }

    /** The return of a local list: it is moved into the result, then destroyed. */
    method ReturnLocal(local: KvKeysList) returns (result: KvKeysList)
      requires Valid() && local !in repr && local.Sound(arrays)
      modifies local, arrays`freed
      ensures Valid() && fresh(result) && result.keys == old(local.keys) && result.count == old(local.count)
      ensures arrays.freed == old(arrays.freed) && Value() == old(Value())
    {
      result := new KvKeysList.Move(local);
      local.Destruct(arrays);
    }

    method FilledList(keys: seq<string>) returns (result: KvKeysList)
      requires Valid()
      modifies arrays
      ensures Valid() && fresh(result) && result.Sound(arrays) && result.Contents(arrays) == keys
      ensures result.keys == To(|old(arrays.filled)|) && arrays.filled == old(arrays.filled) + [keys]
      ensures Value() == old(Value()).(created := old(Value()).created + 1)
    {
      var local := FillLocal(keys);
      result := ReturnLocal(local);
    }

    /** The native call succeeds without an array: its local list stays empty. */
    method EmptyLocal() returns (result: KvKeysList)
      requires Valid()
      modifies arrays`freed
      ensures Valid() && fresh(result) && result.keys == Null && result.count == 0 && Value() == old(Value())
    {
      var local := new KvKeysList();
      result := ReturnLocal(local);
    }

    method FetchArray(x: nat, keys: seq<string>)
      requires Valid() && x !in lists
      modifies this, arrays
      ensures Valid() && fresh(repr - old(repr))
      ensures Value() == Exec(old(Value()), MakeWrapper(x, KeysList, NewHandle))
      ensures x in lists && lists[x].Contents(arrays) == keys
      ensures arrays.filled == old(arrays.filled) + [keys]
    {
      var result := FilledList(keys);
      Name(x, result);
    }

    method FetchNothing(x: nat, ok: bool)
      requires Valid() && x !in lists
      modifies this, arrays`freed
      ensures Valid() && fresh(repr - old(repr))
      ensures Value() == Exec(old(Value()), MakeWrapper(x, KeysList, if ok then NullPointer else NoWrapper))
      ensures x in lists <==> ok
      ensures x in lists ==> lists[x].Contents(arrays) == []
    {
      var result := EmptyLocal();
      if ok { Name(x, result); } else { result.Destruct(arrays); }
    }

    /** `kvs_keys`: the native call fails, succeeds without an array, or fills one with
        `keys`; the local list it filled is moved into the result. */
    method Fetch(x: nat, answer: Outcome, keys: seq<string>)
      requires Valid() && x !in lists
      modifies this, arrays
      ensures Valid() && fresh(repr - old(repr))
      ensures Value() == Exec(old(Value()), MakeWrapper(x, KeysList, answer))
      ensures x in lists <==> answer != NoWrapper
      ensures x in lists ==> lists[x].Contents(arrays) == if answer == NewHandle then keys else []
      ensures arrays.filled == old(arrays.filled) + if answer == NewHandle then [keys] else []
    {
      if answer == NewHandle { FetchArray(x, keys); } else { FetchNothing(x, answer == NullPointer); }
    }

    method MoveOut(cur: nat) returns (made: KvKeysList)
      requires Valid() && cur in lists
      modifies lists[cur]
      ensures Valid() && fresh(made) && made.Sound(arrays) && made.keys == old(lists[cur].keys)
      ensures Value() == Put(old(Value()), Wrapped(cur), Null)
    {
      made := new KvKeysList.Move(lists[cur]);
      assert Value().wrappers == Put(old(Value()), Wrapped(cur), Null).wrappers;
    }

    method AssignToOther(cur: nat, y: nat)
      requires Valid() && cur in lists && y in lists && cur != y
      modifies lists[cur], lists[y], arrays`freed
      ensures Valid() && Value() == AssignSlot(old(Value()), Wrapped(y), Wrapped(cur))
    {
      ghost var w := Value();
      lists[y].Assign(arrays, lists[cur]);
      assert Value().wrappers
          == w.wrappers[y := WrapperRec(KeysList, w.wrappers[cur].ptr)][cur := WrapperRec(KeysList, Null)];
    }

    method AssignTo(cur: nat, y: nat)
      requires Valid() && cur in lists && y in lists
      modifies lists[cur], lists[y], arrays`freed
      ensures Valid() && Value() == AssignSlot(old(Value()), Wrapped(y), Wrapped(cur))
    {
      if cur == y {
        lists[y].Assign(arrays, lists[y]);
        assert Value().wrappers == old(Value()).wrappers;
      } else {
        AssignToOther(cur, y);
      }
    }

    method ConstructFrom(cur: nat, y: nat)
      requires Valid() && cur in lists && y !in lists
      modifies this, lists[cur]
      ensures Valid() && fresh(repr - old(repr)) && y in lists
      ensures Value() == Exec(old(Value()), MoveConstructWrapper(y, Wrapped(cur)))
    {
      ghost var goal := Exec(Value(), MoveConstructWrapper(y, Wrapped(cur)));
      var made := MoveOut(cur);
      Name(y, made);
      assert Value().wrappers == goal.wrappers;
    }

    method MoveInto(cur: nat, y: nat)
      requires Valid() && cur in lists
      modifies repr
      ensures Valid() && fresh(repr - old(repr)) && y in lists
      ensures Value() == MoveTo(old(Value()), cur, y) && arrays.filled == old(arrays.filled)
    {
      if y in lists { AssignTo(cur, y); } else { ConstructFrom(cur, y); }
    }

    method Drop(x: nat)
      requires Valid() && x in lists
      modifies repr
      ensures Valid() && repr == old(repr)
      ensures Value() == Exec(old(Value()), DropWrapper(x)) && arrays.filled == old(arrays.filled)
    {
      ghost var goal := Exec(Value(), DropWrapper(x));
      lists[x].Destruct(arrays);
      lists := lists - {x};
      assert Value().wrappers == goal.wrappers;
    }

    method RunChain(cur: nat, names: seq<nat>) returns (last: nat)
      requires Valid() && cur in lists
      modifies repr
      ensures Valid() && fresh(repr - old(repr)) && last == LastName(cur, names) && last in lists
      ensures Value() == Chain(old(Value()), cur, names) && arrays.filled == old(arrays.filled)
    {
      ghost var start := Value();
      last := cur;
      for k := 0 to |names|
        invariant Valid() && fresh(repr - old(repr)) && last in lists
        invariant last == LastName(cur, names[..k])
        invariant arrays.filled == old(arrays.filled)
        invariant Value() == Chain(start, cur, names[..k])
      {
        ChainSnoc(start, cur, names[..k], names[k]);
        assert names[..k + 1] == names[..k] + [names[k]];
        MoveInto(last, names[k]);
        last := names[k];
      }
      assert names[..|names|] == names;
    }

    lemma HeldIsKeys(x: nat)
      requires Valid() && x in lists
      ensures Held(Value(), Wrapped(x)) == lists[x].keys
    {}

    /** Any chain of moves that starts at a list filled by `kvs_keys`: the current
        owner returns exactly the keys filled in, every other list the chain went
        through returns none, and the array has not been freed. */
    method FollowChain(cur: nat, names: seq<nat>) returns (last: nat)
      requires Valid() && cur in lists && WorldInv(Value())
      modifies repr
      ensures Valid() && fresh(repr - old(repr)) && WorldInv(Value())
      ensures last == LastName(cur, names) && last in lists && Value() == Chain(old(Value()), cur, names)
      ensures arrays.filled == old(arrays.filled)
      ensures lists[last].Contents(arrays) == old(lists[cur].Contents(arrays))
      ensures forall z :: z in lists && (z == cur || z in names) && z != last ==>
                lists[z].Contents(arrays) == []
      ensures lists[last].keys.To? ==> lists[last].keys.handle !in arrays.freed
    {
      ghost var start := Value();
      ChainEffect(start, cur, names);
      HeldIsKeys(cur);
      last := RunChain(cur, names);
      HeldIsKeys(last);
      forall z | z in lists && (z == cur || z in names) && z != last ensures lists[z].keys == Null {
        HeldIsKeys(z);
      }
      assert Held(Value(), Wrapped(last)) == lists[last].keys;
    }

    /** `keys()` on every list of `names` in turn. */
    method KeysOfAll(names: seq<nat>) returns (all: seq<seq<string>>)
      requires Valid() && forall k :: 0 <= k < |names| ==> names[k] in lists
      ensures |all| == |names| && forall k :: 0 <= k < |names| ==> all[k] == lists[names[k]].Contents(arrays)
    {
      all := [];
      for i := 0 to |names|
        invariant |all| == i && forall k :: 0 <= k < i ==> all[k] == lists[names[k]].Contents(arrays)
      {
        var ks := lists[names[i]].Keys(arrays);
        all := all + [ks];
      }
    }

    /** A chain of moves, then `keys()` on the last owner and on every list of it. */
    method FollowAndRead(x: nat, names: seq<nat>) returns (last: nat, ks: seq<string>, all: seq<seq<string>>)
      requires Valid() && x in lists && WorldInv(Value())
      modifies repr
      ensures Valid() && fresh(repr - old(repr)) && arrays.filled == old(arrays.filled)
      ensures last == LastName(x, names) && last in lists && Value() == Chain(old(Value()), x, names)
      ensures ks == old(lists[x].Contents(arrays))
      ensures |all| == |names| + 1
      ensures forall k :: 0 <= k <= |names| ==> all[k] == if ([x] + names)[k] == last then ks else []
    {
      ChainHolds(Value(), x, names);
      last := FollowChain(x, names);
      ks := lists[last].Keys(arrays);
      forall k | 0 <= k < |[x] + names| ensures ([x] + names)[k] in lists {
        assert ([x] + names)[k] in Value().wrappers;
      }
      all := KeysOfAll([x] + names);
    }

    /** The destructor of the last owner frees the array, for the first and only time. */
    method DropLast(ghost start: World, x: nat, ghost names: seq<nat>, last: nat)
      requires Valid() && last in lists && WorldInv(Value()) && WorldInv(start)
      requires x in start.wrappers && Held(start, Wrapped(x)).To?
      requires last == LastName(x, names) && Value() == Chain(start, x, names)
      modifies repr
      ensures Valid() && repr == old(repr) && WorldInv(Value()) && last !in lists
      ensures arrays.filled == old(arrays.filled)
      ensures multiset(arrays.freed)[Held(start, Wrapped(x)).handle] == 1
    {
      ChainEndDestroysOnce(start, x, names);
      ExecKeepsInv(Value(), DropWrapper(last));
      Drop(last);
    }

    /** From `kvs_keys` to the end: whatever chain of moves the list goes through, the
        last owner's `keys()` returns exactly the keys filled in, every other list on
        the way returns none, and when the last owner is gone the array has been freed
        exactly once. */
    method FetchMoveAndDrop(x: nat, keys: seq<string>, names: seq<nat>)
        returns (last: nat, ks: seq<string>, all: seq<seq<string>>)
      requires Valid() && x !in lists && WorldInv(Value())
      modifies repr
      ensures Valid() && fresh(repr - old(repr)) && WorldInv(Value())
      ensures last == LastName(x, names) && last !in lists
      ensures ks == keys
      ensures |all| == |names| + 1
      ensures forall k :: 0 <= k <= |names| ==> all[k] == if ([x] + names)[k] == last then keys else []
      ensures arrays.filled == old(arrays.filled) + [keys]
      ensures multiset(arrays.freed)[|old(arrays.filled)|] == 1
    {
      ExecKeepsInv(Value(), MakeWrapper(x, KeysList, NewHandle));
      Fetch(x, NewHandle, keys);
      ghost var fetched := Value();
      ChainEffect(fetched, x, names);
      last, ks, all := FollowAndRead(x, names);
      DropLast(fetched, x, names, last);
    }
  }

  /** Every name of a chain is in use at its end. */
  lemma {:induction false} ChainHolds(w: World, cur: nat, names: seq<nat>)
    requires cur in w.wrappers
    ensures forall z :: z in w.wrappers || z in names ==> z in Chain(w, cur, names).wrappers
    decreases |names|
  {
    if names != [] {
      ChainHolds(MoveTo(w, cur, names[0]), names[0], names[1..]);
      assert forall z :: z in names <==> z == names[0] || z in names[1..];
    }
  }

  lemma {:induction false} ChainSnoc(w: World, cur: nat, names: seq<nat>, y: nat)
    requires cur in w.wrappers
    ensures LastName(cur, names) in Chain(w, cur, names).wrappers
    ensures Chain(w, cur, names + [y]) == MoveTo(Chain(w, cur, names), LastName(cur, names), y)
    decreases |names|
  {
    if names == [] {
      assert [y][1..] == [];
    } else {
      var w' := MoveTo(w, cur, names[0]);
      assert names[0] in w'.wrappers;
      assert (names + [y])[1..] == names[1..] + [y];
      ChainSnoc(w', names[0], names[1..], y);
    }
  }
}
