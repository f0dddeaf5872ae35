/** `service` in the source's own form: completion objects in a free and an in-use list, and
    linked into the list of a handle by a hook that knows where it is.  Every method is proved
    against the function of the same name in ServicePool. */
module Services {
  import opened Helpers
  import opened ServicePool

  /** `implementation_type`. */
  class Handle {
    var list: seq<Completion>

    constructor ()
      ensures list == []
    {
      list := [];
    }
  }

  /** `completion`; `owner` is the handle whose list the hook `implementation_` is linked into. */
  class Completion {
    var wrapped: bool // `wrapped_` holds a handler
    var owner: Handle?

    constructor ()
      ensures !wrapped && owner == null
    {
      wrapped := false;
      owner := null;
    }
  }

  /** A call that a completion handler makes on the service.  It names handles by their place
      in a table, which grows when the handler constructs a handle, new or by moving. */
  datatype HandlerCall =
    | CallConstruct
    | CallMove(src: nat)
    | CallInitiate(h: nat, o: Outcome)
    | CallDestroy(h: nat)
    | CallAssign(dst: nat, src: nat)
    | CallShutdown

  /** The places that the call names are below `n`. */
  predicate Names(x: HandlerCall, n: nat) {
    match x
    case CallMove(src) => src < n
    case CallInitiate(h, _) => h < n
    case CallDestroy(h) => h < n
    case CallAssign(dst, src) => dst < n && src < n
    case _ => true
  }

  predicate NamesAll(calls: seq<HandlerCall>, n: nat) {
    calls == [] ||
    (Names(calls[0], n) && NamesAll(calls[1..], n + One(calls[0].CallConstruct? || calls[0].CallMove?)))
  }

  /** The event that the call is, when it leaves the table `after`. */
  predicate IsCall(x: HandlerCall, table: seq<Handle>, e: Event<Completion, Handle>, after: seq<Handle>)
    requires Names(x, |table|)
  {
    match x
    case CallConstruct => e.Construct? && after == table + [e.h]
    case CallMove(src) => e.Move? && e.src == table[src] && after == table + [e.dst]
    case CallInitiate(h, o) => e.Init? && e.h == table[h] && e.o == o && after == table
    case CallDestroy(h) => e == Drop(table[h]) && after == table
    case CallAssign(dst, src) => e == Assign(table[dst], table[src]) && after == table
    case CallShutdown => e == Stop && after == table
  }

  /** One event for each call, with the table that it leaves. */
  predicate AreCalls(calls: seq<HandlerCall>, table: seq<Handle>,
                     events: seq<Event<Completion, Handle>>, tables: seq<seq<Handle>>)
    decreases |calls|
  {
    |events| == |calls| == |tables| &&
    (calls == [] ||
      (Names(calls[0], |table|) && IsCall(calls[0], table, events[0], tables[0])
        && AreCalls(calls[1..], tables[0], events[1..], tables[1..])))
  }

  class Service {
    var work: int // the context's count
    var free: seq<Completion>
    var inUse: seq<Completion>
    ghost var handles: set<Handle>
    ghost var all: set<Completion>

    /** Every completion ever allocated is in one of the two lists. */
    ghost predicate Valid()
      reads this, handles, all
    {
      Linked() && forall c :: c in all ==> c in free || c in inUse
    }

    /** The lists and the hooks agree. */
    ghost predicate Linked()
      reads this, handles, all
    {
      && (forall c :: c in free ==> c in all && !c.wrapped && c.owner == null)
      && (forall c :: c in inUse ==> c in all && (c.owner != null ==> c.owner in handles && c in c.owner.list))
      && (forall h, c :: h in handles && c in h.list ==> c in inUse && c.owner == h)
      && (forall h :: h in handles ==> Distinct(h.list))
      && Distinct(free) && Distinct(inUse) && (forall c :: c in free ==> c !in inUse)
    }

    ghost function Lists(): map<Handle, seq<Completion>>
      reads this, handles
    {
      map h | h in handles :: h.list
    }

    ghost function Held(): set<Completion>
      reads this, inUse
    {
      set c | c in inUse && c.wrapped
    }

    ghost function View(): Pool<Completion, Handle>
      reads this, handles, inUse
    {
      Pool(free, inUse, Lists(), Held(), work)
    }

    /** The object invariant is the pool's. */
    lemma ViewInv()
      requires Valid()
      ensures PoolInv(View())
    {
      forall h, h', c | h in handles && h' in handles && c in h.list && c in h'.list
        ensures h == h'
      {
        assert c.owner == h && c.owner == h';
      }
    }

    constructor (work: int)
      ensures Valid() && fresh(all) && View() == Pool([], [], map[], {}, work)
    {
      this.work := work;
      free, inUse, handles, all := [], [], {}, {};
      new;
      assert Lists() == map[] && Held() == {};
    }

    /** `construct`. */
    method Construct() returns (h: Handle)
      requires Valid()
      modifies this
      ensures Valid() && fresh(h) && all == old(all) && handles == old(handles) + {h}
      ensures View() == old(View()).(lists := old(Lists())[h := []])
    {
      h := new Handle();
      handles := handles + {h};
      assert Lists() == old(Lists())[h := []];
      assert Held() == old(Held());
    }

    // ---- acquire ----

    method MaybeAllocate() returns (c: Completion)
      requires Valid()
      modifies `free, `all
      ensures Linked() && (forall d :: d in all ==> d in free || d in inUse || d == c)
      ensures CanAcquire(old(View()), c) && c !in inUse && c !in free && !c.wrapped && c.owner == null
      ensures View() == old(View()).(free := if old(free) != [] then old(free)[1..] else [])
      ensures c in all && fresh(all - old(all)) && all == if old(free) == [] then old(all) + {c} else old(all)
      ensures old(free) == [] ==> fresh(c)
    {
      if free == [] {
        c := new Completion();
        all := all + {c};
      } else {
        c := free[0];
        assert free == [c] + free[1..];
        free := free[1..];
      }
      assert Lists() == old(Lists()) && Held() == old(Held());
    }

    /** `in_use_.push_front`. */
    method EnterUse(c: Completion)
      requires Linked() && c in all && c !in inUse && c !in free && !c.wrapped && c.owner == null
      requires forall d :: d in all ==> d in free || d in inUse || d == c
      modifies `inUse
      ensures Valid() && inUse == [c] + old(inUse) && Lists() == old(Lists()) && Held() == old(Held())
    {
      inUse := [c] + inUse;
    }

    /** `impl.list_.push_front`. */
    method Link(c: Completion, h: Handle)
      requires Valid() && h in handles && c in inUse && c.owner == null
      modifies h`list, c`owner
      ensures Valid() && Lists() == old(Lists())[h := [c] + old(h.list)] && Held() == old(Held())
    {
      h.list := [c] + h.list;
      c.owner := h;
      assert Held() == old(Held());
    }

    method Acquire(h: Handle) returns (c: Completion)
      requires Valid() && h in handles
      modifies this, handles, all
      ensures Valid() && handles == old(handles) && fresh(all - old(all))
      ensures all == if old(free) == [] then old(all) + {c} else old(all)
      ensures CanAcquire(old(View()), c) && View() == ServicePool.Acquire(old(View()), h, c)
      ensures c in inUse && c !in old(inUse) && !c.wrapped
    {
      c := MaybeAllocate();
      EnterUse(c);
      Link(c, h);
    }

    // ---- release ----

    /** `completion::emplace` that stores the handler. */
    method Emplace(c: Completion)
      requires Valid() && c in inUse && !c.wrapped
      modifies c`wrapped, `work
      ensures Valid() && View() == ServicePool.Emplace(old(View()), c)
    {
      c.wrapped := true;
      work := work + 1;
      assert Lists() == old(Lists()) && Held() == old(Held()) + {c};
    }

    /** `completion::reset`. */
    method Reset(c: Completion)
      requires Valid() && c in inUse
      modifies c`wrapped, `work
      ensures Valid() && View() == ServicePool.Reset(old(View()), c) && !c.wrapped
    {
      if c.wrapped {
        c.wrapped := false;
        work := work - 1;
        assert Held() == old(Held()) - {c};
      }
      assert Lists() == old(Lists());
    }

    /** `implementation_.unlink()`. */
    method Unlink(c: Completion)
      requires Valid() && c in inUse
      modifies handles`list, c`owner
      ensures Valid() && Lists() == ServicePool.Unlink(old(Lists()), c) && Held() == old(Held()) && c.owner == null
    {
      if c.owner != null {
        UnlinkFrom(c, c.owner);
      }
      assert Lists() == ServicePool.Unlink(old(Lists()), c);
      assert Held() == old(Held());
    }

    method UnlinkFrom(c: Completion, h: Handle)
      requires Valid() && c in inUse && c.owner == h
      modifies h`list, c`owner
      ensures Valid() && h in handles && h.list == Without(old(h.list), c) && c.owner == null
      ensures forall k :: k in handles && k != h ==> c !in k.list
    {
      WithoutDistinct(h.list, c);
      hide Distinct;
      h.list := Without(h.list, c);
      c.owner := null;
    }

    /** `service_.unlink()` and `free_.push_front`. */
    method LeaveUse(c: Completion)
      requires Valid() && c in inUse && !c.wrapped && c.owner == null
      modifies `inUse, `free
      ensures Valid() && inUse == Without(old(inUse), c) && free == [c] + old(free)
      ensures Lists() == old(Lists()) && Held() == old(Held())
    {
      assert forall h :: h in handles ==> c !in h.list;
      WithoutDistinct(inUse, c);
      inUse := Without(inUse, c);
      free := [c] + free;
    }

    /** `release(completion&)`. */
    method Release(c: Completion)
      requires Valid() && c in inUse
      modifies this, handles, all
      ensures Valid() && handles == old(handles) && all == old(all)
      ensures View() == ServicePool.Release(old(View()), c)
    {
      Reset(c);
      Unlink(c);
      LeaveUse(c);
    }

    /** `initiate`: the handler may fail to be stored and the entry may be missing; the guard
        releases the completion then. */
    method Initiate(h: Handle, o: Outcome) returns (c: Completion)
      requires Valid() && h in handles
      modifies this, handles, all
      ensures Valid() && handles == old(handles) && fresh(all - old(all))
      ensures all == if old(free) == [] then old(all) + {c} else old(all)
      ensures CanAcquire(old(View()), c) && View() == ServicePool.Initiate(old(View()), h, c, o)
    {
      c := Acquire(h);
      if o == EmplaceThrows {
        Release(c);
        return;
      }
      Emplace(c);
      if o == NoEntry {
        Release(c);
      }
    }

    // ---- completion ----

    /** What a handler does to the service while its completion is still in use. */
    method RunHandler(calls: seq<HandlerCall>, table: seq<Handle>)
      returns (ghost events: seq<Event<Completion, Handle>>, ghost tables: seq<seq<Handle>>)
      requires Valid() && NamesAll(calls, |table|) && forall h :: h in table ==> h in handles
      modifies this, handles, all
      ensures Valid() && fresh(handles - old(handles)) && fresh(all - old(all)) && old(all) <= all
      ensures PoolRun(old(View()), events, View()) && AreCalls(calls, table, events, tables)
      ensures forall c :: c in old(inUse) ==> c in inUse
      decreases |calls|
    {
      if calls == [] {
        return [], [];
      }
      ghost var e;
      var after;
      e, after := Perform(calls[0], table);
      ghost var rest, others := RunHandler(calls[1..], after);
      events, tables := [e] + rest, [after] + others;
      assert events[1..] == rest && tables[1..] == others;
    }

    method Perform(x: HandlerCall, table: seq<Handle>) returns (ghost e: Event<Completion, Handle>, after: seq<Handle>)
      requires Valid() && Names(x, |table|) && forall h :: h in table ==> h in handles
      modifies this, handles, all
      ensures Valid() && fresh(handles - old(handles)) && fresh(all - old(all)) && old(all) <= all
      ensures |after| == |table| + One(x.CallConstruct? || x.CallMove?) && forall h :: h in after ==> h in handles
      ensures IsCall(x, table, e, after) && ByHandler(old(View()), e) && View() == HandlerEffect(old(View()), e)
      ensures forall c :: c in old(inUse) ==> c in inUse
    {
      after := table;
      match x {
        case CallConstruct =>
          var h := Construct();
          e := Event.Construct(h);
          after := table + [h];
        case CallMove(src) =>
          var h := new Handle();
          MoveConstruct(h, table[src]);
          e := Move(h, table[src]);
          after := table + [h];
        case CallInitiate(h, o) =>
          var c := Initiate(table[h], o);
          e := Init(table[h], c, o);
          InitiateGrows(old(View()), table[h], c, o);
        case CallDestroy(h) =>
          Destroy(table[h]);
          e := Drop(table[h]);
        case CallAssign(dst, src) =>
          MoveAssign(table[dst], table[src]);
          e := Assign(table[dst], table[src]);
        case CallShutdown =>
          Shutdown();
          e := Stop;
      }
    }

    /** `completion::complete`: the handler runs with its completion in use, and the guard
        releases the completion whether or not the handler throws. */
    method Complete(c: Completion, calls: seq<HandlerCall>, table: seq<Handle>, throws: bool)
      returns (threw: bool, ghost events: seq<Event<Completion, Handle>>, ghost tables: seq<seq<Handle>>)
      requires Valid() && c in inUse && c.wrapped
      requires NamesAll(calls, |table|) && forall h :: h in table ==> h in handles
      modifies this, handles, all
      ensures Valid() && threw == throws && AreCalls(calls, table, events, tables)
      ensures exists p :: PoolRun(old(View()), events, p) && c in p.inUse && View() == ServicePool.Release(p, c)
    {
      events, tables := RunHandler(calls, table);
      ghost var p := View();
      threw := throws;
      Release(c);
    }

    // ---- handles ----

    /** `destroy`: the operations stay outstanding. */
    method Destroy(h: Handle)
      requires Valid() && h in handles
      modifies h`list, all`owner
      ensures Valid() && View() == ServicePool.Destroy(old(View()), h)
    {
      ghost var was := h.list;
      SetOwner(h.list, null);
      h.list := [];
      assert Lists() == old(Lists())[h := []] && Held() == old(Held());
    }

    /** The hooks of the nodes of a list. */
    method SetOwner(list: seq<Completion>, h: Handle?)
      modifies (set c | c in list)`owner
      ensures forall c :: c in list ==> c.owner == h
    {
      forall c | c in list {
        c.owner := h;
      }
    }

    /** `move_construct` into a handle that is new or has no operations. */
    method MoveConstruct(dst: Handle, src: Handle)
      requires Valid() && src in handles && dst.list == []
      modifies `handles, dst`list, src`list, all`owner
      ensures Valid() && handles == old(handles) + {dst}
      ensures View() == ServicePool.MoveConstruct(old(View()), dst, src)
    {
      Adopt(dst);
      MoveList(dst, src);
    }

    /** A handle without operations is one of the service's. */
    ghost method Adopt(h: Handle)
      requires Valid() && h.list == []
      modifies `handles
      ensures Valid() && handles == old(handles) + {h}
      ensures Lists() == old(Lists())[h := []] && Held() == old(Held())
    {
      handles := handles + {h};
    }

    method MoveList(dst: Handle, src: Handle)
      requires Valid() && dst in handles && src in handles && dst.list == []
      modifies dst`list, src`list, all`owner
      ensures Valid() && View() == ServicePool.MoveConstruct(old(View()), dst, src)
    {
      var moved := src.list;
      SetOwner(moved, dst);
      src.list := [];
      dst.list := moved;
      assert Lists() == old(Lists())[src := []][dst := moved] && Held() == old(Held());
    }

    /** `move_assign`; moving a handle onto itself drops its operations. */
    method MoveAssign(dst: Handle, src: Handle)
      requires Valid() && dst in handles && src in handles
      modifies `handles, dst`list, src`list, all`owner
      ensures Valid() && handles == old(handles) && View() == ServicePool.MoveAssign(old(View()), dst, src)
    {
      Destroy(dst);
      assert Lists()[dst] == [];
      MoveConstruct(dst, src);
    }

    // ---- shutdown and destruction ----

    /** `shutdown`. */
    method Shutdown()
      requires Valid()
      modifies `work, all`wrapped
      ensures Valid() && View() == ServicePool.Shutdown(old(View()))
    {
      hide Valid, Lists, Held;
      ResetAll();
    }

    method ResetAll()
      requires Valid()
      modifies `work, all`wrapped
      ensures Valid() && Lists() == old(Lists()) && Held() == {} && work == old(work) - |old(Held())|
    {
      hide Valid, Lists, Held, View;
      ghost var was := Held();
      ghost var done := {};
      assert was - done == was;
      var i := 0;
      while i < |inUse|
        invariant 0 <= i <= |inUse| && Valid() && Lists() == old(Lists())
        invariant Held() == was - done && forall j :: 0 <= j < i ==> inUse[j] in done
        invariant work - |Held()| == old(work) - |was|
      {
        ResetOne(inUse[i], was, done);
        done := done + {inUse[i]};
        i := i + 1;
      }
      NoneHeld(was, done);
    }

    method ResetOne(c: Completion, ghost was: set<Completion>, ghost done: set<Completion>)
      requires Valid() && c in inUse && Held() == was - done
      modifies `work, all`wrapped
      ensures Valid() && Lists() == old(Lists()) && Held() == was - (done + {c})
      ensures work - |Held()| == old(work) - |old(Held())|
    {
      ResetCounts(View(), c);
      Reset(c);
    }

    lemma NoneHeld(was: set<Completion>, done: set<Completion>)
      requires Held() == was - done && forall i :: 0 <= i < |inUse| ==> inUse[i] in done
      ensures Held() == {} && |Held()| == 0
    {
      assert forall c :: c in inUse ==> c in done;
    }

    lemma ResetCounts(p: Pool<Completion, Handle>, c: Completion)
      ensures var q := ServicePool.Reset(p, c);
              q.held == p.held - {c} && q.work - |q.held| == p.work - |p.held|
    {
    }

    /** One turn of `destroy_list(free_)`. */
    method DeleteFree() returns (c: Completion)
      requires Valid() && free != []
      modifies `free, `all
      ensures Valid() && c == old(free)[0] && free == old(free)[1..] && all == old(all) - {c}
      ensures Held() == old(Held())
    {
      c := free[0];
      assert free == [c] + free[1..];
      free := free[1..];
      all := all - {c};
    }

    /** One turn of `destroy_list(in_use_)`: deleting a completion takes its hook out of the list of
        its handle. */
    method DeleteInUse() returns (c: Completion)
      requires Valid() && inUse != []
      modifies `inUse, `all, handles`list, all`owner
      ensures Valid() && c == old(inUse)[0] && inUse == old(inUse)[1..] && all == old(all) - {c}
    {
      c := inUse[0];
      assert inUse == [c] + inUse[1..];
      UnlinkHook(c);
      inUse := inUse[1..];
      all := all - {c};
      assert forall d :: d in old(inUse) && d != c ==> d in inUse;
    }

    /** The hook `implementation_` unlinks itself when it is destroyed. */
    method UnlinkHook(c: Completion)
      requires Valid() && c in inUse
      modifies handles`list, c`owner
      ensures Valid() && c.owner == null && forall h :: h in handles ==> c !in h.list
    {
      if c.owner != null {
        UnlinkFrom(c, c.owner);
      }
    }

    /** `destroy_list(free_)`: the loop ends, and has deleted every free completion once, in order. */
    method DestroyFree() returns (ghost deleted: seq<Completion>)
      requires Valid()
      modifies `free, `all
      ensures Valid() && free == [] && deleted == old(free) && Held() == old(Held())
      ensures forall c :: c in all <==> c in old(all) && c !in deleted
    {
      deleted := [];
      while free != []
        invariant Valid() && deleted + free == old(free) && Held() == old(Held())
        invariant forall c :: c in all <==> c in old(all) && c !in deleted
        decreases |free|
      {
        ghost var rest := free;
        ghost var c := DeleteFree();
        assert rest == [c] + free;
        deleted := deleted + [c];
      }
    }

    /** `destroy_list(in_use_)`: the same for the completions in use, after which no handle lists any. */
    method DestroyInUse() returns (ghost deleted: seq<Completion>)
      requires Valid()
      modifies `inUse, `all, handles`list, all`owner
      ensures Valid() && inUse == [] && deleted == old(inUse)
      ensures forall c :: c in all <==> c in old(all) && c !in deleted
      ensures forall h :: h in handles ==> h.list == []
    {
      deleted := [];
      while inUse != []
        invariant Valid() && deleted + inUse == old(inUse)
        invariant forall c :: c in all <==> c in old(all) && c !in deleted
        decreases |inUse|
      {
        ghost var rest := inUse;
        ghost var c := DeleteInUse();
        assert rest == [c] + inUse;
        deleted := deleted + [c];
      }
      forall h | h in handles
        ensures h.list == []
      {
        NothingOutside(h.list, inUse);
      }
    }

    lemma NothingOutside(s: seq<Completion>, t: seq<Completion>)
      requires forall c :: c in s ==> c in t
      ensures t == [] ==> s == []
    {
      if s != [] {
        assert s[0] in t;
      }
    }

    /** The destructor: gives each held unit back, and deletes each completion once. */
    method Teardown() returns (ghost deleted: seq<Completion>)
      requires Valid()
      modifies this, handles, all
      ensures work == old(work) - |old(Held())|
      ensures free == [] && inUse == [] && forall h :: h in handles ==> h.list == []
      ensures deleted == old(free) + old(inUse) && Distinct(deleted) && forall c :: c in old(all) <==> c in deleted
    {
      ListsApart();
      ghost var a := DestroyFree();
      Shutdown();
      ghost var b := DestroyInUse();
      deleted := a + b;
    }

    lemma ListsApart()
      requires Valid()
      ensures Distinct(free + inUse) && forall c :: c in all <==> c in free + inUse
    {
      forall i, j | 0 <= i < |free| && 0 <= j < |inUse|
        ensures free[i] != inUse[j]
      {
        assert free[i] in free && inUse[j] in inUse;
      }
    }
  }
}
