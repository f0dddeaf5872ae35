/** The pool of completions of `service` as a value, and its histories.

    `C` are the completion objects and `H` the handles.  Service proves that the source's
    methods, on objects, compute the functions of this module. */
module ServicePool {
  import opened Helpers

  // ---- lists ----

  /** `unlink`: take `x` out of the list that it is in. */
  function Without<T(==)>(s: seq<T>, x: T): (r: seq<T>)
    ensures x !in s ==> r == s
    ensures forall y :: y in r ==> y in s
    ensures forall y :: y in s && y != x ==> y in r
  {
    if s == [] then [] else if s[0] == x then s[1..] else [s[0]] + Without(s[1..], x)
  }

  /** Taking one out of the middle keeps the order of the rest. */
  lemma {:induction false} WithoutMiddle<T>(a: seq<T>, x: T, b: seq<T>)
    requires x !in a
    ensures Without(a + [x] + b, x) == a + b
    decreases |a|
  {
    var s := a + [x] + b;
    if a == [] {
      assert s[1..] == b;
      assert a + b == b;
    } else {
      assert s[0] == a[0] && s[1..] == a[1..] + [x] + b;
      WithoutMiddle(a[1..], x, b);
      assert a + b == [a[0]] + (a[1..] + b);
    }
  }

  lemma {:induction false} WithoutDistinct<T>(s: seq<T>, x: T)
    requires Distinct(s)
    ensures Distinct(Without(s, x)) && x !in Without(s, x)
    ensures |Without(s, x)| == |s| - if x in s then 1 else 0
    decreases |s|
  {
    if s != [] {
      var rest := s[1..];
      assert s == [s[0]] + rest;
      assert s[0] !in rest;
      WithoutDistinct(rest, x);
      assert s[0] !in Without(rest, x);
    }
  }

  // ---- the pool ----

  datatype Outcome = Submitted | EmplaceThrows | NoEntry

  /** Free and in-use completions, the list of each handle, the completions that hold a handler,
      and the context's count of work. */
  datatype Pool<C, H> = Pool(free: seq<C>, inUse: seq<C>, lists: map<H, seq<C>>, held: set<C>, work: int)

  /** The completion that `maybe_allocate` may return: the front of the free list, or, when that
      is empty, a new one. */
  predicate CanAcquire<C(==), H>(p: Pool<C, H>, c: C) {
    if p.free != [] then c == p.free[0] else c !in p.inUse
  }

  function Acquire<C(==), H(==)>(p: Pool<C, H>, h: H, c: C): Pool<C, H>
    requires h in p.lists
  {
    p.(free := if p.free != [] then p.free[1..] else [],
       inUse := [c] + p.inUse,
       lists := p.lists[h := [c] + p.lists[h]])
  }

  /** `completion::emplace`. */
  function Emplace<C(==), H>(p: Pool<C, H>, c: C): Pool<C, H> {
    p.(held := p.held + {c}, work := p.work + 1)
  }

  /** `completion::reset`. */
  function Reset<C(==), H>(p: Pool<C, H>, c: C): Pool<C, H> {
    if c in p.held then p.(held := p.held - {c}, work := p.work - 1) else p
  }

  function Unlink<C(==), H(==)>(lists: map<H, seq<C>>, c: C): map<H, seq<C>> {
    map h | h in lists :: Without(lists[h], c)
  }

  /** `release(completion&)`. */
  function Release<C(==), H(==)>(p: Pool<C, H>, c: C): Pool<C, H> {
    var q := Reset(p, c);
    q.(lists := Unlink(p.lists, c), inUse := Without(p.inUse, c), free := [c] + p.free)
  }

  /** `initiate`: the guard releases the completion when the handler cannot be stored or there
      is no submission entry. */
  function Initiate<C(==), H(==)>(p: Pool<C, H>, h: H, c: C, o: Outcome): Pool<C, H>
    requires h in p.lists
  {
    var acquired := Acquire(p, h, c);
    match o
    case Submitted => Emplace(acquired, c)
    case EmplaceThrows => Release(acquired, c)
    case NoEntry => Release(Emplace(acquired, c), c)
  }

  /** `destroy`. */
  function Destroy<C, H(==)>(p: Pool<C, H>, h: H): Pool<C, H> {
    p.(lists := p.lists[h := []])
  }

  /** `move_construct`: the handle `dst` is new, or has no operations. */
  function MoveConstruct<C, H(==)>(p: Pool<C, H>, dst: H, src: H): Pool<C, H>
    requires src in p.lists
  {
    p.(lists := p.lists[src := []][dst := p.lists[src]])
  }

  /** `move_assign`. */
  function MoveAssign<C, H(==)>(p: Pool<C, H>, dst: H, src: H): Pool<C, H>
    requires src in p.lists
  {
    MoveConstruct(Destroy(p, dst), dst, src)
  }

  /** `shutdown`: every handler is destroyed and its unit of work given back. */
  function Shutdown<C(==), H>(p: Pool<C, H>): Pool<C, H> {
    p.(work := p.work - |p.held|, held := {})
  }

  /** The pool's own invariant: no completion in two lists of a kind, those of the handles in
      use, and those that hold a handler in use. */
  ghost predicate PoolInv<C, H>(p: Pool<C, H>) {
    && Distinct(p.free) && Distinct(p.inUse) && (forall c :: c in p.free ==> c !in p.inUse)
    && (forall h :: h in p.lists ==> Distinct(p.lists[h]))
    && (forall h, c :: h in p.lists && c in p.lists[h] ==> c in p.inUse)
    && (forall h, h', c :: h in p.lists && h' in p.lists && c in p.lists[h] && c in p.lists[h'] ==> h == h')
    && (forall c :: c in p.held ==> c in p.inUse)
  }

  // ---- each operation keeps the pool's invariant ----

  lemma AcquireKeeps<C, H>(p: Pool<C, H>, h: H, c: C)
    requires PoolInv(p) && h in p.lists && CanAcquire(p, c)
    ensures PoolInv(Acquire(p, h, c))
    ensures c !in p.inUse && c !in p.held && forall k :: k in p.lists ==> c !in p.lists[k]
  {
    if p.free != [] {
      assert p.free == [p.free[0]] + p.free[1..];
      assert p.free[0] in p.free && p.free[0] !in p.free[1..];
    }
  }

  lemma ReleaseKeeps<C, H>(p: Pool<C, H>, c: C)
    requires PoolInv(p) && c in p.inUse
    ensures PoolInv(Release(p, c))
  {
    WithoutDistinct(p.inUse, c);
    forall h | h in p.lists
      ensures Distinct(Without(p.lists[h], c)) && c !in Without(p.lists[h], c)
    {
      WithoutDistinct(p.lists[h], c);
    }
  }

  /** The completion released last is the only one that can be acquired next. */
  lemma LastReleasedFirstUsed<C, H>(p: Pool<C, H>, c: C, d: C)
    requires PoolInv(p) && c in p.inUse
    ensures CanAcquire(Release(p, c), d) <==> d == c
  {
  }

  /** An `initiate` that fails at storing the handler or at getting an entry changes nothing,
      except that a completion that it had to allocate stays on the free list. */
  lemma FailedInitiateIsNeutral<C, H>(p: Pool<C, H>, h: H, c: C, o: Outcome)
    requires PoolInv(p) && h in p.lists && CanAcquire(p, c) && o != Submitted
    ensures Initiate(p, h, c, o) == p.(free := if p.free != [] then p.free else [c])
  {
    AcquireKeeps(p, h, c);
    var a := Acquire(p, h, c);
    assert Emplace(a, c).held - {c} == p.held;
    forall k | k in p.lists
      ensures Without(a.lists[k], c) == p.lists[k]
    {
      if k == h {
        assert a.lists[h][1..] == p.lists[h];
      }
    }
    assert Unlink(a.lists, c) == p.lists;
    assert a.inUse[1..] == p.inUse;
  }

  lemma InitiateKeeps<C, H>(p: Pool<C, H>, h: H, c: C, o: Outcome)
    requires PoolInv(p) && h in p.lists && CanAcquire(p, c)
    ensures PoolInv(Initiate(p, h, c, o))
  {
    AcquireKeeps(p, h, c);
    if o != Submitted {
      FailedInitiateIsNeutral(p, h, c, o);
    }
  }

  lemma MoveKeeps<C, H>(p: Pool<C, H>, dst: H, src: H)
    requires PoolInv(p) && src in p.lists && (dst in p.lists ==> p.lists[dst] == [])
    ensures PoolInv(MoveConstruct(p, dst, src))
  {
  }

  /** `shutdown` gives every held unit back once: doing it again, or releasing a completion
      afterwards, gives nothing back. */
  lemma ShutdownOnce<C, H>(p: Pool<C, H>, c: C)
    requires PoolInv(p)
    ensures PoolInv(Shutdown(p)) && Shutdown(p).work == p.work - |p.held|
    ensures Shutdown(Shutdown(p)) == Shutdown(p)
    ensures Release(Shutdown(p), c).work == Shutdown(p).work
  {
  }

  // ---- histories ----

  /** What happens to a service: a handle is constructed, an operation initiated, a completion
      entry delivered (its handler starts), the handler left and its completion released, a
      handle destroyed or moved, the service shut down.  Between `Deliver` and `Done` come the
      calls that the handler makes. */
  datatype Event<C, H> =
    | Construct(h: H)
    | Init(h: H, c: C, o: Outcome)
    | Deliver(c: C)
    | Done(c: C)
    | Drop(h: H)
    | Move(dst: H, src: H)
    | Assign(dst: H, src: H)
    | Stop

  /** The pool, the operations that the kernel has not completed or the context not delivered,
      the completion whose handler runs, the completions ever allocated, and the most completions
      in use at once. */
  datatype System<C, H> =
    System(pool: Pool<C, H>, ring: multiset<C>, running: Option<C>, made: set<C>, peak: nat)

  predicate CanHappen<C(==), H(==)>(s: System<C, H>, e: Event<C, H>) {
    match e
    case Construct(h) => h !in s.pool.lists
    case Init(h, c, _) => h in s.pool.lists && CanAcquire(s.pool, c)
    case Deliver(c) => c in s.ring && s.running == None && c in s.pool.held
    case Done(c) => s.running == Some(c)
    case Drop(h) => h in s.pool.lists
    case Move(dst, src) => src in s.pool.lists && (dst in s.pool.lists ==> s.pool.lists[dst] == [])
    case Assign(dst, src) => dst in s.pool.lists && src in s.pool.lists
    case Stop => true
  }

  function After<C(==), H(==)>(s: System<C, H>, e: Event<C, H>): System<C, H>
    requires CanHappen(s, e)
  {
    match e
    case Construct(h) => s.(pool := s.pool.(lists := s.pool.lists[h := []]))
    case Init(h, c, o) =>
      s.(pool := Initiate(s.pool, h, c, o),
         ring := if o == Submitted then s.ring + multiset{c} else s.ring,
         made := if s.pool.free == [] then s.made + {c} else s.made,
         peak := Max(s.peak, |s.pool.inUse| + 1))
    case Deliver(c) => s.(ring := s.ring - multiset{c}, running := Some(c))
    case Done(c) => s.(pool := Release(s.pool, c), running := None)
    case Drop(h) => s.(pool := Destroy(s.pool, h))
    case Move(dst, src) => s.(pool := MoveConstruct(s.pool, dst, src))
    case Assign(dst, src) => s.(pool := MoveAssign(s.pool, dst, src))
    case Stop => s.(pool := Shutdown(s.pool))
  }

  function Empty<C(==), H(==)>(): System<C, H> {
    System(Pool([], [], map[], {}, 0), multiset{}, None, {}, 0)
  }

  /** The events can happen one after the other, from the construction of the service. */
  ghost predicate IsLog<C, H>(log: seq<Event<C, H>>)
    decreases |log|, 0
  {
    log == [] || (IsLog(log[..|log| - 1]) && CanHappen(Reached(log[..|log| - 1]), log[|log| - 1]))
  }

  ghost function Reached<C, H>(log: seq<Event<C, H>>): System<C, H>
    requires IsLog(log)
    decreases |log|, 1
  {
    if log == [] then Empty() else After(Reached(log[..|log| - 1]), log[|log| - 1])
  }

  /** The completions ever allocated are those of the two lists. */
  ghost predicate MadeInv<C>(made: set<C>, free: seq<C>, inUse: seq<C>) {
    && (forall c :: c in made ==> c in free || c in inUse)
    && (forall c :: c in free ==> c in made) && (forall c :: c in inUse ==> c in made)
  }

  ghost predicate SystemInv<C, H>(s: System<C, H>) {
    && PoolInv(s.pool)
    && s.pool.work == |s.pool.held|
    && |s.pool.free| + |s.pool.inUse| == s.peak == |s.made|
    && MadeInv(s.made, s.pool.free, s.pool.inUse)
  }

  lemma AcquiredMade<C>(made: set<C>, free: seq<C>, inUse: seq<C>, c: C)
    requires MadeInv(made, free, inUse) && if free != [] then c == free[0] else c !in inUse
    ensures if free != [] then MadeInv(made, free[1..], [c] + inUse)
            else c !in made && MadeInv(made + {c}, [], [c] + inUse) && MadeInv(made + {c}, [c], inUse)
  {
    if free != [] {
      assert free == [c] + free[1..];
    }
  }

  lemma InitMade<C, H>(s: System<C, H>, h: H, c: C, o: Outcome)
    requires SystemInv(s) && CanHappen(s, Init(h, c, o))
    ensures var t := After(s, Init(h, c, o));
            |t.pool.free| + |t.pool.inUse| == t.peak == |t.made| && MadeInv(t.made, t.pool.free, t.pool.inUse)
  {
    AcquiredMade(s.made, s.pool.free, s.pool.inUse, c);
    if o != Submitted {
      FailedInitiateIsNeutral(s.pool, h, c, o);
      hide Initiate;
    }
    hide PoolInv, MadeInv, Release;
  }

  lemma DoneMade<C, H>(s: System<C, H>, c: C)
    requires SystemInv(s) && s.running == Some(c) && c in s.pool.inUse
    ensures var t := After(s, Done(c));
            |t.pool.free| + |t.pool.inUse| == t.peak == |t.made| && MadeInv(t.made, t.pool.free, t.pool.inUse)
  {
    WithoutDistinct(s.pool.inUse, c);
    hide PoolInv;
  }

  lemma EventMade<C, H>(s: System<C, H>, e: Event<C, H>)
    requires SystemInv(s) && CanHappen(s, e) && (e.Done? ==> e.c in s.pool.inUse)
    ensures var t := After(s, e);
            |t.pool.free| + |t.pool.inUse| == t.peak == |t.made| && MadeInv(t.made, t.pool.free, t.pool.inUse)
  {
    match e
    case Init(h, c, o) => InitMade(s, h, c, o);
    case Done(c) => DoneMade(s, c);
    case _ => hide PoolInv, MadeInv;
  }

  lemma EventPool<C, H>(s: System<C, H>, e: Event<C, H>)
    requires PoolInv(s.pool) && CanHappen(s, e) && (e.Done? ==> e.c in s.pool.inUse)
    ensures PoolInv(After(s, e).pool)
  {
    match e
    case Init(h, c, o) => InitiateKeeps(s.pool, h, c, o);
    case Done(c) => ReleaseKeeps(s.pool, c);
    case Move(dst, src) => MoveKeeps(s.pool, dst, src);
    case Assign(dst, src) => MoveKeeps(Destroy(s.pool, dst), dst, src);
    case _ =>
  }

  lemma EventWork<C, H>(s: System<C, H>, e: Event<C, H>)
    requires PoolInv(s.pool) && CanHappen(s, e) && s.pool.work == |s.pool.held|
    ensures After(s, e).pool.work == |After(s, e).pool.held|
  {
    match e
    case Init(h, c, o) =>
      AcquireKeeps(s.pool, h, c);
      if o != Submitted {
        FailedInitiateIsNeutral(s.pool, h, c, o);
      }
      hide PoolInv;
    case _ => hide PoolInv;
  }

  lemma EventKeeps<C, H>(s: System<C, H>, e: Event<C, H>)
    requires SystemInv(s) && CanHappen(s, e) && (e.Done? ==> e.c in s.pool.inUse)
    ensures SystemInv(After(s, e))
  {
    hide PoolInv, MadeInv, After, CanHappen;
    EventPool(s, e);
    EventWork(s, e);
    EventMade(s, e);
  }

  predicate InPlace<C(==), H(==)>(s: System<C, H>, c: C) {
    s.ring[c] + One(s.running == Some(c)) == One(c in s.pool.inUse)
  }

  lemma PlaceKeeps<C, H>(s: System<C, H>, e: Event<C, H>, c: C)
    requires SystemInv(s) && CanHappen(s, e) && InPlace(s, c)
    ensures InPlace(After(s, e), c)
  {
    match e
    case Init(h, d, o) =>
      AcquireKeeps(s.pool, h, d);
      if o != Submitted {
        FailedInitiateIsNeutral(s.pool, h, d, o);
      }
    case Done(d) => WithoutDistinct(s.pool.inUse, d);
    case _ =>
  }

  lemma {:induction false} LogKeeps<C, H>(log: seq<Event<C, H>>)
    requires IsLog(log)
    ensures SystemInv(Reached(log))
    decreases |log|, 0
  {
    if log != [] {
      var pre, e := log[..|log| - 1], log[|log| - 1];
      LogKeeps(pre);
      if e.Done? {
        LogPlaces(pre, e.c);
      }
      EventKeeps(Reached(pre), e);
    }
  }

  lemma {:induction false} LogPlaces<C, H>(log: seq<Event<C, H>>, c: C)
    requires IsLog(log)
    ensures InPlace(Reached(log), c)
    decreases |log|, 1
  {
    if log != [] {
      var pre, e := log[..|log| - 1], log[|log| - 1];
      LogKeeps(pre);
      LogPlaces(pre, c);
      PlaceKeeps(Reached(pre), e, c);
    }
  }

  /** After any history, also when handlers initiate, move, destroy or throw, and initiations
      fail: a completion is in use exactly when its operation is outstanding or its handler is
      running, never both and never twice; so none is recycled before its own entry has been
      handled. */
  lemma CompletionIdentity<C, H>(log: seq<Event<C, H>>, c: C)
    requires IsLog(log)
    ensures var s := Reached(log);
            && (c in s.pool.inUse <==> c in s.ring || s.running == Some(c))
            && s.ring[c] <= 1 && !(c in s.ring && s.running == Some(c))
            && (forall h :: CanHappen(s, Init(h, c, Submitted)) ==> c !in s.ring && s.running != Some(c))
  {
    LogPlaces(log, c);
    LogKeeps(log);
    forall h | CanHappen(Reached(log), Init(h, c, Submitted))
      ensures c !in Reached(log).pool.inUse
    {
      AcquireKeeps(Reached(log).pool, h, c);
    }
  }

  lemma HeldStep<C, H>(s: System<C, H>, e: Event<C, H>, c: C)
    requires SystemInv(s) && CanHappen(s, e) && e != Stop
    requires c in s.pool.held <==> c in s.pool.inUse
    ensures c in After(s, e).pool.held <==> c in After(s, e).pool.inUse
  {
    match e
    case Init(h, d, o) =>
      AcquireKeeps(s.pool, h, d);
      if o != Submitted {
        FailedInitiateIsNeutral(s.pool, h, d, o);
      }
    case Done(d) => WithoutDistinct(s.pool.inUse, d);
    case _ =>
  }

  /** Without a shutdown every completion in use holds a handler, so each entry that the kernel
      delivers finds one. */
  lemma {:induction false} DeliveredHasHandler<C, H>(log: seq<Event<C, H>>, c: C)
    requires IsLog(log) && Stop !in log
    ensures c in Reached(log).pool.held <==> c in Reached(log).pool.inUse
    ensures c in Reached(log).ring ==> c in Reached(log).pool.held
    decreases |log|
  {
    if log != [] {
      var pre, e := log[..|log| - 1], log[|log| - 1];
      assert e in log && forall x :: x in pre ==> x in log;
      LogKeeps(pre);
      DeliveredHasHandler(pre, c);
      HeldStep(Reached(pre), e, c);
      LogPlaces(log, c);
    }
  }

  /** Work, ownership and allocation after any history: the service's share of the work is one
      unit for each completion that holds a handler; free and in-use completions are apart, and
      together they are the completions ever allocated; a handle lists only completions in use,
      each of them once; and as many completions were allocated as were ever in use at once. */
  lemma PoolAfterHistory<C, H>(log: seq<Event<C, H>>)
    requires IsLog(log)
    ensures var s := Reached(log);
            && s.pool.work == |s.pool.held| && PoolInv(s.pool)
            && (forall c :: c in s.made <==> c in s.pool.free || c in s.pool.inUse)
            && |s.made| == s.peak
  {
    LogKeeps(log);
  }

  // ---- what a handle lists ----

  /** How an event changes the handle that an operation belongs to. */
  function OwnerAfter<C(==), H(==)>(before: Option<H>, e: Event<C, H>, c: C): Option<H> {
    match e
    case Init(h, d, o) => if d != c then before else if o == Submitted then Some(h) else None
    case Done(d) => if d == c then None else before
    case Drop(h) => if before == Some(h) then None else before
    case Move(dst, src) => if before == Some(src) then Some(dst) else before
    case Assign(dst, src) =>
      if before == Some(dst) then None else if before == Some(src) then Some(dst) else before
    case _ => before
  }

  /** The handle that an operation belongs to, read off the history alone: the one it was
      initiated on, followed through moves, until it completes or its handle is destroyed or
      assigned to. */
  function Owner<C(==), H(==)>(log: seq<Event<C, H>>, c: C): Option<H>
    decreases |log|
  {
    if log == [] then None
    else OwnerAfter(Owner(log[..|log| - 1], c), log[|log| - 1], c)
  }

  /** When the operation was last initiated. */
  function Stamp<C(==), H(==)>(log: seq<Event<C, H>>, c: C): nat
    decreases |log|
  {
    if log == [] then 0
    else
      match log[|log| - 1]
      case Init(_, d, Submitted) => if d == c then |log| else Stamp(log[..|log| - 1], c)
      case _ => Stamp(log[..|log| - 1], c)
  }

  ghost predicate Listed<C, H>(p: Pool<C, H>, c: C, owner: Option<H>) {
    && (owner.Some? ==> owner.value in p.lists)
    && (forall h :: h in p.lists ==> (c in p.lists[h] <==> owner == Some(h)))
  }

  lemma OwnerStep<C, H>(s: System<C, H>, e: Event<C, H>, c: C, before: Option<H>)
    requires PoolInv(s.pool) && CanHappen(s, e) && Listed(s.pool, c, before)
    ensures Listed(After(s, e).pool, c, OwnerAfter(before, e, c))
  {
    match e
    case Init(k, d, o) =>
      AcquireKeeps(s.pool, k, d);
      if o != Submitted {
        FailedInitiateIsNeutral(s.pool, k, d, o);
      }
    case Done(d) =>
      forall h | h in s.pool.lists
        ensures d !in Without(s.pool.lists[h], d)
      {
        WithoutDistinct(s.pool.lists[h], d);
      }
    case _ =>
  }

  /** Iterating a handle yields exactly the operations that belong to it. */
  lemma {:induction false} HandleMembers<C, H>(log: seq<Event<C, H>>, c: C)
    requires IsLog(log)
    ensures var lists := Reached(log).pool.lists;
            && (Owner(log, c).Some? ==> Owner(log, c).value in lists)
            && (forall h :: h in lists ==> (c in lists[h] <==> Owner(log, c) == Some(h)))
    decreases |log|
  {
    if log != [] {
      var pre, e := log[..|log| - 1], log[|log| - 1];
      HandleMembers(pre, c);
      LogKeeps(pre);
      OwnerStep(Reached(pre), e, c, Owner(pre, c));
    }
  }

  /** `a` was initiated after `b`. */
  predicate Newer<C(==), H(==)>(log: seq<Event<C, H>>, a: C, b: C) {
    Stamp(log, a) > Stamp(log, b)
  }

  ghost predicate NewestFirst<C, H>(log: seq<Event<C, H>>, s: seq<C>) {
    forall i, j :: 0 <= i < j < |s| ==> Newer(log, s[i], s[j])
  }

  lemma {:induction false} StampBound<C, H>(log: seq<Event<C, H>>, c: C)
    ensures Stamp(log, c) <= |log|
    decreases |log|
  {
    if log != [] {
      StampBound(log[..|log| - 1], c);
    }
  }

  lemma {:induction false} WithoutNewest<C, H>(log: seq<Event<C, H>>, s: seq<C>, c: C)
    requires NewestFirst(log, s)
    ensures NewestFirst(log, Without(s, c))
    decreases |s|
  {
    if s != [] {
      var rest := s[1..];
      assert s == [s[0]] + rest;
      WithoutNewest(log, rest, c);
      if s[0] != c {
        var r := Without(rest, c);
        forall j | 0 <= j < |r|
          ensures Newer(log, s[0], r[j])
        {
          assert r[j] in rest;
        }
      }
    }
  }

  /** A handle yields its operations newest first, whatever was released from its middle and
      however often it was moved. */
  lemma {:induction false} HandleOrder<C, H>(log: seq<Event<C, H>>, h: H)
    requires IsLog(log) && h in Reached(log).pool.lists
    ensures NewestFirst(log, Reached(log).pool.lists[h])
    decreases |log|
  {
    if log != [] {
      var pre, e := log[..|log| - 1], log[|log| - 1];
      var p := Reached(pre).pool;
      LogKeeps(pre);
      forall k | k in p.lists
        ensures NewestFirst(pre, p.lists[k])
      {
        HandleOrder(pre, k);
      }
      OrderStep(log, h);
    }
  }

  lemma OrderSame<C, H>(log: seq<Event<C, H>>, s: seq<C>)
    requires log != [] && NewestFirst(log[..|log| - 1], s)
    requires forall c :: c in s ==> !(log[|log| - 1].Init? && log[|log| - 1].c == c && log[|log| - 1].o == Submitted)
    ensures NewestFirst(log, s)
  {
    forall i, j | 0 <= i < j < |s|
      ensures Newer(log, s[i], s[j])
    {
      assert s[i] in s && s[j] in s;
      assert Newer(log[..|log| - 1], s[i], s[j]);
    }
  }

  lemma OrderStep<C, H>(log: seq<Event<C, H>>, h: H)
    requires IsLog(log) && log != [] && h in Reached(log).pool.lists
    requires var pre := log[..|log| - 1];
             && PoolInv(Reached(pre).pool)
             && forall k :: k in Reached(pre).pool.lists ==> NewestFirst(pre, Reached(pre).pool.lists[k])
    ensures NewestFirst(log, Reached(log).pool.lists[h])
  {
    var pre, e := log[..|log| - 1], log[|log| - 1];
    var p := Reached(pre).pool;
    match e
    case Init(k, d, o) =>
      AcquireKeeps(p, k, d);
      OrderSame(log, p.lists[h]);
      if o == Submitted {
        forall c | c in p.lists[h]
          ensures Newer(log, d, c)
        {
          assert d !in p.lists[h] && c != d;
          StampBound(pre, c);
          assert Stamp(log, c) == Stamp(pre, c) && Stamp(log, d) == |log|;
        }
      } else {
        FailedInitiateIsNeutral(p, k, d, o);
      }
    case Done(d) =>
      WithoutNewest(pre, p.lists[h], d);
      OrderSame(log, Without(p.lists[h], d));
    case Construct(k) => OrderSame(log, if h == k then [] else p.lists[h]);
    case Drop(k) => OrderSame(log, if h == k then [] else p.lists[h]);
    case Move(dst, src) => OrderSame(log, if h == dst then p.lists[src] else if h == src then [] else p.lists[h]);
    case Assign(dst, src) =>
      OrderSame(log, if h == src then [] else if h == dst then p.lists[src] else p.lists[h]);
    case _ => OrderSame(log, p.lists[h]);
  }

  /** The completions in use are listed newest first, too: the order in which the destructor deletes
      them. */
  lemma {:induction false} InUseOrder<C, H>(log: seq<Event<C, H>>)
    requires IsLog(log)
    ensures NewestFirst(log, Reached(log).pool.inUse)
    decreases |log|
  {
    if log != [] {
      InUseOrder(log[..|log| - 1]);
      LogKeeps(log[..|log| - 1]);
      InUseStep(log);
    }
  }

  lemma InUseInit<C, H>(log: seq<Event<C, H>>)
    requires IsLog(log) && log != [] && log[|log| - 1].Init?
    requires var p := Reached(log[..|log| - 1]).pool; PoolInv(p) && NewestFirst(log[..|log| - 1], p.inUse)
    ensures NewestFirst(log, Reached(log).pool.inUse)
  {
    var pre, e := log[..|log| - 1], log[|log| - 1];
    var p := Reached(pre).pool;
    AcquireKeeps(p, e.h, e.c);
    OrderSame(log, p.inUse);
    if e.o == Submitted {
      forall c | c in p.inUse
        ensures Newer(log, e.c, c)
      {
        StampBound(pre, c);
        assert Stamp(log, c) == Stamp(pre, c) && Stamp(log, e.c) == |log|;
      }
    } else {
      FailedInitiateIsNeutral(p, e.h, e.c, e.o);
    }
    hide PoolInv, Stamp;
  }

  lemma InUseStep<C, H>(log: seq<Event<C, H>>)
    requires IsLog(log) && log != []
    requires var p := Reached(log[..|log| - 1]).pool; PoolInv(p) && NewestFirst(log[..|log| - 1], p.inUse)
    ensures NewestFirst(log, Reached(log).pool.inUse)
  {
    var pre, e := log[..|log| - 1], log[|log| - 1];
    var p := Reached(pre).pool;
    if e.Init? {
      InUseInit(log);
    } else if e.Done? {
      WithoutNewest(pre, p.inUse, e.c);
      OrderSame(log, Without(p.inUse, e.c));
    } else {
      OrderSame(log, p.inUse);
    }
    hide PoolInv, NewestFirst;
  }

  // ---- what a handler may do to the pool ----

  predicate ByHandler<C(==), H(==)>(p: Pool<C, H>, e: Event<C, H>) {
    match e
    case Construct(h) => h !in p.lists
    case Init(h, c, _) => h in p.lists && CanAcquire(p, c)
    case Move(dst, src) => src in p.lists && (dst in p.lists ==> p.lists[dst] == [])
    case Drop(h) => h in p.lists
    case Assign(dst, src) => dst in p.lists && src in p.lists
    case Stop => true
    case _ => false
  }

  function HandlerEffect<C(==), H(==)>(p: Pool<C, H>, e: Event<C, H>): Pool<C, H>
    requires ByHandler(p, e)
  {
    match e
    case Construct(h) => p.(lists := p.lists[h := []])
    case Init(h, c, o) => Initiate(p, h, c, o)
    case Move(dst, src) => MoveConstruct(p, dst, src)
    case Drop(h) => Destroy(p, h)
    case Assign(dst, src) => MoveAssign(p, dst, src)
    case Stop => Shutdown(p)
  }

  /** The events, all of them calls that a handler may make, lead from `p` to `q`. */
  ghost predicate PoolRun<C, H>(p: Pool<C, H>, events: seq<Event<C, H>>, q: Pool<C, H>)
    decreases |events|
  {
    if events == [] then p == q
    else ByHandler(p, events[0]) && PoolRun(HandlerEffect(p, events[0]), events[1..], q)
  }

  lemma InitiateGrows<C, H>(p: Pool<C, H>, h: H, c: C, o: Outcome)
    requires h in p.lists && CanAcquire(p, c) && c !in p.inUse
    ensures forall d :: d in p.inUse ==> d in Initiate(p, h, c, o).inUse
  {
  }
}
