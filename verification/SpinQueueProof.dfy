/** Mutual exclusion, the shape of the two lists, and the refinement of atomic operations on
    sequences, for every interleaving of SpinQueue. */
module SpinQueueProof {
  import opened Helpers
  import opened SpinQueue
  import CountedQueue

  // ---- what each program counter means ----

  /** Between `lock_.lock()` and `lock_.unlock()`. */
  predicate InLink(pc: Pc) {
    pc.LinkTest? || pc.LinkLoad? || pc.LinkNext? || pc.LinkHead? || pc.LinkTail? || pc.LinkUnlock? ||
    pc.PopRead? || pc.PopAgain? || pc.PopNext? || pc.PopAdvance? || pc.PopTest? || pc.PopClear? || pc.PopUnlock?
  }

  /** Between `free_lock_.lock()` and `free_lock_.unlock()`. */
  predicate InFree(pc: Pc) {
    pc.GetTest? || pc.GetRead? || pc.GetAgain? || pc.GetNext? || pc.GetAdvance? || pc.GetClear? || pc.GetUnlock? ||
    pc.MissUnlock? || pc.PutRead? || pc.PutNext? || pc.PutHead? || pc.PutUnlock?
  }

  /** The node that the thread alone may touch. */
  function Owned(pc: Pc): Ptr {
    match pc
    case GetClear(_, n) => Node(n)
    case GetUnlock(_, n) => Node(n)
    case Build(_, n) => Node(n)
    case LinkLock(_, n) => Node(n)
    case LinkTest(_, n) => Node(n)
    case LinkLoad(_, n) => Node(n)
    case LinkNext(_, n, _) => Node(n)
    case LinkHead(_, n) => Node(n)
    case PopTest(n, _) => Node(n)
    case PopClear(n, _) => Node(n)
    case PopUnlock(n, _) => Node(n)
    case UseRead(n, _) => Node(n)
    case Using(n, _, _) => Node(n)
    case PutLock(n) => Node(n)
    case PutRead(n) => Node(n)
    case PutNext(n, _) => Node(n)
    case PutHead(n) => Node(n)
    case _ => Null
  }

  /** `emplace` holds a node whose `next` is null. */
  predicate Cleared(pc: Pc) {
    pc.GetUnlock? || pc.Build? || pc.LinkLock? || pc.LinkTest? || pc.LinkLoad? || pc.LinkNext? || pc.LinkHead?
  }

  /** The owned node holds the function `f` of the program counter. */
  predicate Filled(pc: Pc) {
    pc.LinkLock? || pc.LinkTest? || pc.LinkLoad? || pc.LinkNext? || pc.LinkHead? ||
    pc.PopTest? || pc.PopClear? || pc.PopUnlock? || pc.UseRead? || pc.Using?
  }

  /** The list has changed and `tail_` has not been brought up to date yet. */
  predicate Midway(pc: Pc) {
    pc.LinkTail? || pc.PopTest? || pc.PopClear?
  }

  /** `pop_node` has used a count and has not unlinked a node yet. */
  predicate Popping(pc: Pc) {
    pc.PopLock? || pc.PopRead? || pc.PopAgain? || pc.PopNext? || pc.PopAdvance?
  }

  /** `emplace` has linked its node and has not written the eventfd yet. */
  predicate Unwritten(pc: Pc) {
    pc.LinkTail? || pc.LinkUnlock? || pc.LinkWrite?
  }

  /** The linked nodes that the thread accounts for. */
  function Share(pc: Pc): nat {
    One(Popping(pc)) + One(Unwritten(pc))
  }

  predicate Counts(pc: Pc, writing: bool) {
    if writing then Unwritten(pc) else Popping(pc)
  }

  /** The threads in one of the two situations. */
  function Tally(pcs: seq<Pc>, writing: bool): nat {
    if pcs == [] then 0 else One(Counts(pcs[0], writing)) + Tally(pcs[1..], writing)
  }

  function Shares(pcs: seq<Pc>): nat {
    Tally(pcs, true) + Tally(pcs, false)
  }

  function LastOf(ids: seq<Id>): Ptr {
    if ids == [] then Null else Node(ids[|ids| - 1])
  }

  function After(ids: seq<Id>, i: nat): Ptr {
    if i + 1 < |ids| then Node(ids[i + 1]) else Null
  }

  /** `ids` are the nodes from `start` along `next`, and the last one's `next` is null. */
  predicate Path(mem: map<Id, Cell>, start: Ptr, ids: seq<Id>) {
    && start == (if ids == [] then Null else Node(ids[0]))
    && forall i :: 0 <= i < |ids| ==>
         ids[i] in mem && mem[ids[i]].next == After(ids, i)
  }

  predicate Lists(sh: Shared) {
    && Path(sh.mem, sh.head, sh.queue) && Path(sh.mem, sh.free, sh.frees)
    && Distinct(sh.queue) && Distinct(sh.frees)
    && forall n :: n in sh.queue ==> n !in sh.frees
  }

  /** What holds of one thread. */
  predicate Local(sh: Shared, pc: Pc) {
    && (InLink(pc) ==> sh.lock)
    && (InFree(pc) ==> sh.freeLock)
    && (Owned(pc).Node? ==> var n := Owned(pc).id; n in sh.mem && n !in sh.queue && n !in sh.frees)
    && (Cleared(pc) ==> sh.mem[pc.n].next == Null)
    && (Filled(pc) ==> sh.mem[pc.n].value == pc.f)
    && match pc
       case GetRead(_) => sh.frees != []
       case GetAgain(_, n) => sh.frees != [] && sh.frees[0] == n
       case GetNext(_, n, p) => sh.frees != [] && sh.frees[0] == n && p == Node(n)
       case GetAdvance(_, n, x) => sh.frees != [] && sh.frees[0] == n && x == After(sh.frees, 0)
       case LinkLoad(_, _) => sh.tail == LastOf(sh.queue) && sh.queue != []
       case LinkNext(_, _, p) => p == sh.tail == LastOf(sh.queue) && sh.queue != []
       case LinkHead(_, _) => sh.queue == []
       case LinkTail(_, n) => LastOf(sh.queue) == Node(n) && sh.tail == LastOf(sh.queue[..|sh.queue| - 1])
       case PopAgain(n) => sh.queue != [] && sh.queue[0] == n
       case PopNext(n, p) => sh.queue != [] && sh.queue[0] == n && p == Node(n)
       case PopAdvance(n, x) => sh.queue != [] && sh.queue[0] == n && x == After(sh.queue, 0)
       case PopTest(n, _) => sh.tail == if sh.queue == [] then Node(n) else LastOf(sh.queue)
       case PopClear(_, _) => sh.queue == []
       case Using(_, f, v) => v == f
       case PutNext(_, x) => x == sh.free
       case PutHead(n) => sh.mem[n].next == sh.free
       case _ => true
  }

  /** What holds of two threads. */
  predicate Apart(pc: Pc, pc': Pc) {
    && !(InLink(pc) && InLink(pc'))
    && !(InFree(pc) && InFree(pc'))
    && (Owned(pc).Node? ==> Owned(pc) != Owned(pc'))
  }

  /** The counting invariant, at the grain of field accesses: a linked node is in the eventfd's
      counter, or in a count handed out and not used, or some thread accounts for it. */
  predicate Counted(s: State) {
    |s.sh.queue| == s.sh.count + s.sh.taken + Shares(s.pcs)
  }

  /** Some thread is in the section of the lock. */
  ghost predicate Held(pcs: seq<Pc>, link: bool) {
    exists t :: 0 <= t < |pcs| && In(pcs[t], link)
  }

  predicate In(pc: Pc, link: bool) {
    if link then InLink(pc) else InFree(pc)
  }

  ghost predicate Inv(s: State) {
    && Lists(s.sh) && Counted(s)
    && (s.sh.lock ==> Held(s.pcs, true)) && (s.sh.freeLock ==> Held(s.pcs, false))
    && (forall t :: 0 <= t < |s.pcs| ==> Local(s.sh, s.pcs[t]))
    && (forall t, u :: 0 <= t < u < |s.pcs| ==> Apart(s.pcs[t], s.pcs[u]))
    && ((forall t :: 0 <= t < |s.pcs| ==> !Midway(s.pcs[t])) ==> s.sh.tail == LastOf(s.sh.queue))
    && (forall n :: n in s.sh.mem ==>
          n in s.sh.queue || n in s.sh.frees || exists t :: 0 <= t < |s.pcs| && Owned(s.pcs[t]) == Node(n))
  }

  // ---- the lists after each kind of store ----

  lemma PathElsewhere(mem: map<Id, Cell>, start: Ptr, ids: seq<Id>, n: Id, c: Cell)
    requires Path(mem, start, ids) && n !in ids
    ensures Path(mem[n := c], start, ids)
  {
  }

  lemma PathAppend(mem: map<Id, Cell>, start: Ptr, ids: seq<Id>, n: Id)
    requires Path(mem, start, ids) && Distinct(ids) && n !in ids && n in mem && mem[n].next == Null && ids != []
    ensures Path(SetNext(mem, ids[|ids| - 1], Node(n)), start, ids + [n])
  {
    var last := ids[|ids| - 1];
    var mem', ids' := SetNext(mem, last, Node(n)), ids + [n];
    forall i | 0 <= i < |ids'|
      ensures ids'[i] in mem' && mem'[ids'[i]].next == After(ids', i)
    {
      if i < |ids| - 1 {
        assert ids[i] != last;
      }
    }
  }

  lemma RemoveFirst(mem: map<Id, Cell>, start: Ptr, ids: seq<Id>)
    requires Path(mem, start, ids) && Distinct(ids) && ids != []
    ensures ids[0] in mem && Path(mem, mem[ids[0]].next, ids[1..]) && Distinct(ids[1..]) && ids[0] !in ids[1..]
  {
    var rest := ids[1..];
    forall i | 0 <= i < |rest|
      ensures rest[i] in mem && mem[rest[i]].next == After(rest, i)
    {
      var j := i + 1;
      assert rest[i] == ids[j] && mem[ids[j]].next == After(ids, j);
    }
  }

  lemma Prepend(mem: map<Id, Cell>, start: Ptr, ids: seq<Id>, n: Id)
    requires Path(mem, start, ids) && Distinct(ids) && n !in ids && n in mem && mem[n].next == start
    ensures Path(mem, Node(n), [n] + ids) && Distinct([n] + ids)
  {
    var ids' := [n] + ids;
    forall i | 0 <= i < |ids'|
      ensures ids'[i] in mem && mem[ids'[i]].next == After(ids', i)
    {
      if i > 0 {
        var j := i - 1;
        assert ids'[i] == ids[j] && mem[ids[j]].next == After(ids, j);
      }
    }
  }

  // ---- one thread's step ----

  /** What the invariant says of `tail_` to a thread that holds `lock_` with the list up to date. */
  predicate TailKnown(sh: Shared, pc: Pc) {
    InLink(pc) && !Midway(pc) ==> sh.tail == LastOf(sh.queue)
  }

  predicate CanRun(sh: Shared, pc: Pc, id: Id) {
    Lists(sh) && Local(sh, pc) && TailKnown(sh, pc) && (Popping(pc) ==> sh.queue != []) && (pc.Alloc? ==> id !in sh.mem)
  }

  lemma FirstIsReal(mem: map<Id, Cell>, start: Ptr, ids: seq<Id>)
    requires Path(mem, start, ids)
    ensures start.Null? <==> ids == []
    ensures ids != [] ==> start == Node(ids[0]) && ids[0] in mem && mem[ids[0]].next == After(ids, 0)
  {
  }

  lemma LastIsReal(mem: map<Id, Cell>, start: Ptr, ids: seq<Id>)
    requires Path(mem, start, ids) && ids != []
    ensures LastOf(ids).Node? && LastOf(ids).id in mem
  {
  }

  lemma NoBadAccess(sh: Shared, pc: Pc)
    requires Lists(sh) && Local(sh, pc) && TailKnown(sh, pc) && (Popping(pc) ==> sh.queue != [])
    ensures !BadAccess(sh, pc)
  {
    FirstIsReal(sh.mem, sh.free, sh.frees);
    FirstIsReal(sh.mem, sh.head, sh.queue);
    if sh.queue != [] {
      LastIsReal(sh.mem, sh.head, sh.queue);
    }
    hide Path, Distinct, LastOf, TailKnown;
  }

  /** The lists after a step that stores to the free list or into a node. */
  lemma NodeLists(sh: Shared, pc: Pc, id: Id, throws: bool)
    requires CanRun(sh, pc, id) && !BadAccess(sh, pc) && !InLink(pc)
    ensures Lists(Effect(sh, pc, id, throws))
  {
    hide Path, Distinct, LastOf, TailKnown;
    match pc
    case GetAdvance(_, n, x) => FreeAdvanced(sh, x);
    case GetClear(_, n) => Stored(sh, n, sh.mem[n].(next := Null));
    case Alloc(_) => StoredFresh(sh, id, Cell(Null, 0));
    case Build(f, n) => Stored(sh, n, sh.mem[n].(value := f));
    case PutNext(n, x) => Stored(sh, n, sh.mem[n].(next := x));
    case PutHead(n) => Put(sh, n);
    case _ =>
  }

  lemma LinkLists(sh: Shared, pc: Pc, id: Id, throws: bool)
    requires CanRun(sh, pc, id) && !BadAccess(sh, pc) && (pc.LinkNext? || pc.LinkHead?)
    ensures Lists(Effect(sh, pc, id, throws))
  {
    if pc.LinkNext? {
      Appended(sh, pc.n);
    } else {
      Started(sh, pc.n);
    }
    hide Path, Distinct, LastOf, TailKnown, After;
  }

  lemma PopLists(sh: Shared, pc: Pc, id: Id, throws: bool)
    requires CanRun(sh, pc, id) && !BadAccess(sh, pc) && InLink(pc) && !pc.LinkNext? && !pc.LinkHead?
    ensures Lists(Effect(sh, pc, id, throws))
  {
    hide Path, Distinct, LastOf, TailKnown;
    if pc.PopAdvance? {
      QueueAdvanced(sh, pc.x);
    }
  }

  /** The lists after the step. */
  lemma StepLists(sh: Shared, pc: Pc, id: Id, throws: bool)
    requires CanRun(sh, pc, id) && !BadAccess(sh, pc)
    ensures Lists(Effect(sh, pc, id, throws))
  {
    hide Lists, Effect, CanRun, BadAccess;
    if pc.LinkNext? || pc.LinkHead? {
      LinkLists(sh, pc, id, throws);
    } else if InLink(pc) {
      PopLists(sh, pc, id, throws);
    } else {
      NodeLists(sh, pc, id, throws);
    }
  }

  lemma FreeAdvanced(sh: Shared, x: Ptr)
    requires Lists(sh) && sh.frees != [] && x == After(sh.frees, 0)
    ensures Lists(sh.(free := x, frees := sh.frees[1..]))
  {
    FirstIsReal(sh.mem, sh.free, sh.frees);
    RemoveFirst(sh.mem, sh.free, sh.frees);
  }

  lemma QueueAdvanced(sh: Shared, x: Ptr)
    requires Lists(sh) && sh.queue != [] && x == After(sh.queue, 0)
    ensures Lists(sh.(head := x, queue := sh.queue[1..]))
  {
    FirstIsReal(sh.mem, sh.head, sh.queue);
    RemoveFirst(sh.mem, sh.head, sh.queue);
  }

  lemma Stored(sh: Shared, n: Id, c: Cell)
    requires Lists(sh) && n !in sh.queue && n !in sh.frees
    ensures Lists(sh.(mem := sh.mem[n := c]))
  {
    PathElsewhere(sh.mem, sh.head, sh.queue, n, c);
    PathElsewhere(sh.mem, sh.free, sh.frees, n, c);
  }

  lemma StoredFresh(sh: Shared, n: Id, c: Cell)
    requires Lists(sh) && n !in sh.mem
    ensures Lists(sh.(mem := sh.mem[n := c]))
  {
    assert n !in sh.queue && n !in sh.frees;
    Stored(sh, n, c);
  }

  lemma Appended(sh: Shared, n: Id)
    requires Lists(sh) && n in sh.mem && n !in sh.queue && n !in sh.frees && sh.mem[n].next == Null
    requires sh.queue != [] && sh.tail == LastOf(sh.queue)
    ensures sh.tail.id in sh.mem
    ensures Lists(sh.(mem := SetNext(sh.mem, sh.tail.id, Node(n)), queue := sh.queue + [n]))
  {
    var last := sh.queue[|sh.queue| - 1];
    assert last in sh.queue;
    PathAppend(sh.mem, sh.head, sh.queue, n);
    PathElsewhere(sh.mem, sh.free, sh.frees, last, sh.mem[last].(next := Node(n)));
  }

  lemma Started(sh: Shared, n: Id)
    requires Lists(sh) && n in sh.mem && n !in sh.frees && sh.mem[n].next == Null && sh.queue == []
    ensures Lists(sh.(head := Node(n), queue := sh.queue + [n]))
  {
  }

  lemma Put(sh: Shared, n: Id)
    requires Lists(sh) && n in sh.mem && n !in sh.queue && n !in sh.frees && sh.mem[n].next == sh.free
    ensures Lists(sh.(free := Node(n), frees := [n] + sh.frees))
  {
    Prepend(sh.mem, sh.free, sh.frees, n);
  }

  predicate Getting(pc: Pc) {
    pc.GetLock? || pc.GetTest? || pc.GetRead? || pc.GetAgain? || pc.GetNext? || pc.GetAdvance? ||
    pc.GetClear? || pc.GetUnlock? || pc.MissUnlock?
  }

  predicate Making(pc: Pc) {
    pc.Out? || pc.Alloc? || pc.Build? || pc.LinkWrite?
  }

  predicate Linking(pc: Pc) {
    pc.LinkLock? || pc.LinkTest? || pc.LinkLoad? || pc.LinkNext? || pc.LinkHead? || pc.LinkTail? || pc.LinkUnlock?
  }

  predicate Taking(pc: Pc) {
    Popping(pc) || pc.PopTest? || pc.PopClear? || pc.PopUnlock?
  }

  lemma GetLocal(sh: Shared, pc: Pc, id: Id, throws: bool)
    requires CanRun(sh, pc, id) && !BadAccess(sh, pc) && Getting(pc) && !pc.GetAdvance?
    ensures Local(Effect(sh, pc, id, throws), Goto(sh, pc, id, throws))
  {
    FirstIsReal(sh.mem, sh.free, sh.frees);
    hide Path, Distinct, LastOf, TailKnown, After;
  }

  lemma GotLocal(sh: Shared, pc: Pc, id: Id, throws: bool)
    requires CanRun(sh, pc, id) && !BadAccess(sh, pc) && pc.GetAdvance?
    ensures Local(Effect(sh, pc, id, throws), Goto(sh, pc, id, throws))
  {
    RemoveFirst(sh.mem, sh.free, sh.frees);
    assert sh.frees[0] in sh.frees;
    hide Path, Distinct, LastOf, TailKnown, After;
  }

  lemma MakeLocal(sh: Shared, pc: Pc, id: Id, throws: bool)
    requires CanRun(sh, pc, id) && !BadAccess(sh, pc) && Making(pc)
    ensures Local(Effect(sh, pc, id, throws), Goto(sh, pc, id, throws))
  {
    hide Distinct, LastOf, TailKnown, After;
  }

  lemma LastAppended(queue: seq<Id>, n: Id)
    ensures var queue' := queue + [n]; LastOf(queue') == Node(n) && queue'[..|queue'| - 1] == queue
  {
  }

  /** The facts that the store of the link leaves behind. */
  lemma LinkedLocal(sh: Shared, sh': Shared, f: Fn, n: Id)
    requires sh'.lock && sh'.queue == sh.queue + [n] && sh'.tail == LastOf(sh.queue)
    ensures Local(sh', LinkTail(f, n))
  {
    LastAppended(sh.queue, n);
    hide LastOf;
  }

  lemma StoreLocal(sh: Shared, pc: Pc, id: Id, throws: bool)
    requires CanRun(sh, pc, id) && !BadAccess(sh, pc) && (pc.LinkNext? || pc.LinkHead?)
    ensures Local(Effect(sh, pc, id, throws), Goto(sh, pc, id, throws))
  {
    LinkedLocal(sh, Effect(sh, pc, id, throws), pc.f, pc.n);
    hide Lists, LastOf, SetNext, After;
  }

  lemma LinkLocal(sh: Shared, pc: Pc, id: Id, throws: bool)
    requires CanRun(sh, pc, id) && !BadAccess(sh, pc) && Linking(pc) && !pc.LinkNext? && !pc.LinkHead?
    ensures Local(Effect(sh, pc, id, throws), Goto(sh, pc, id, throws))
  {
    hide Distinct, SetNext;
  }

  lemma AdvanceLocal(sh: Shared, pc: Pc, id: Id, throws: bool)
    requires CanRun(sh, pc, id) && !BadAccess(sh, pc) && pc.PopAdvance?
    ensures Local(Effect(sh, pc, id, throws), Goto(sh, pc, id, throws))
  {
    RemoveFirst(sh.mem, sh.head, sh.queue);
    assert sh.queue[0] in sh.queue;
    hide Path, Distinct, After;
  }

  lemma FindLocal(sh: Shared, pc: Pc, id: Id, throws: bool)
    requires CanRun(sh, pc, id) && !BadAccess(sh, pc) && Popping(pc) && !pc.PopAdvance?
    ensures Local(Effect(sh, pc, id, throws), Goto(sh, pc, id, throws))
  {
    FirstIsReal(sh.mem, sh.head, sh.queue);
    hide Distinct, Path, After, LastOf;
  }

  lemma TakeLocal(sh: Shared, pc: Pc, id: Id, throws: bool)
    requires CanRun(sh, pc, id) && !BadAccess(sh, pc) && Taking(pc) && !Popping(pc)
    ensures Local(Effect(sh, pc, id, throws), Goto(sh, pc, id, throws))
  {
    FirstIsReal(sh.mem, sh.head, sh.queue);
    hide Distinct, Path, After;
  }

  lemma PutLocal(sh: Shared, pc: Pc, id: Id, throws: bool)
    requires CanRun(sh, pc, id) && !BadAccess(sh, pc)
    requires !Getting(pc) && !Making(pc) && !Linking(pc) && !Taking(pc)
    ensures Local(Effect(sh, pc, id, throws), Goto(sh, pc, id, throws))
  {
    hide Distinct, Path;
  }

  /** The thread's own facts after the step. */
  lemma StepLocal(sh: Shared, pc: Pc, id: Id, throws: bool)
    requires CanRun(sh, pc, id) && !BadAccess(sh, pc)
    ensures Local(Effect(sh, pc, id, throws), Goto(sh, pc, id, throws))
  {
    hide CanRun, BadAccess, Effect, Goto, Local, Lists;
    if pc.GetAdvance? {
      GotLocal(sh, pc, id, throws);
    } else if Getting(pc) {
      GetLocal(sh, pc, id, throws);
    } else if Making(pc) {
      MakeLocal(sh, pc, id, throws);
    } else if pc.LinkNext? || pc.LinkHead? {
      StoreLocal(sh, pc, id, throws);
    } else if Linking(pc) {
      LinkLocal(sh, pc, id, throws);
    } else if pc.PopAdvance? {
      AdvanceLocal(sh, pc, id, throws);
    } else if Popping(pc) {
      FindLocal(sh, pc, id, throws);
    } else if Taking(pc) {
      TakeLocal(sh, pc, id, throws);
    } else {
      PutLocal(sh, pc, id, throws);
    }
  }

  // ---- the other threads ----

  lemma MemFrame(sh: Shared, n: Id, c: Cell, other: Pc)
    requires Local(sh, other) && Owned(other) != Node(n)
    ensures Local(sh.(mem := sh.mem[n := c]), other)
  {
    hide LastOf;
  }

  lemma GetFrame(sh: Shared, pc: Pc, id: Id, throws: bool, other: Pc)
    requires CanRun(sh, pc, id) && !BadAccess(sh, pc) && Local(sh, other) && Apart(pc, other) && Getting(pc)
    ensures Local(Effect(sh, pc, id, throws), other)
  {
    if pc.GetClear? {
      MemFrame(sh, pc.n, sh.mem[pc.n].(next := Null), other);
    } else {
      hide Distinct, Path, LastOf, After;
    }
  }

  lemma BuildFrame(sh: Shared, pc: Pc, id: Id, throws: bool, other: Pc)
    requires !BadAccess(sh, pc) && Local(sh, other) && Apart(pc, other) && pc.Build?
    ensures Local(Effect(sh, pc, id, throws), other)
  {
    MemFrame(sh, pc.n, sh.mem[pc.n].(value := pc.f), other);
    hide Local;
  }

  lemma MakeFrame(sh: Shared, pc: Pc, id: Id, throws: bool, other: Pc)
    requires CanRun(sh, pc, id) && !BadAccess(sh, pc) && Local(sh, other) && Making(pc) && !pc.Build?
    ensures Local(Effect(sh, pc, id, throws), other)
  {
    if pc.Alloc? {
      assert Owned(other) != Node(id);
      MemFrame(sh, id, Cell(Null, 0), other);
      hide Local;
    } else {
      hide Distinct, Path, LastOf, After;
    }
  }

  lemma StoreFrame(sh: Shared, pc: Pc, id: Id, throws: bool, other: Pc)
    requires CanRun(sh, pc, id) && !BadAccess(sh, pc) && Local(sh, other) && Apart(pc, other)
    requires pc.LinkNext? || pc.LinkHead?
    ensures Local(Effect(sh, pc, id, throws), other)
  {
    if pc.LinkNext? {
      LastIsReal(sh.mem, sh.head, sh.queue);
      assert pc.p.id in sh.queue;
    }
    hide Distinct, Path, After;
  }

  lemma LinkFrame(sh: Shared, pc: Pc, id: Id, throws: bool, other: Pc)
    requires CanRun(sh, pc, id) && !BadAccess(sh, pc) && Local(sh, other) && Apart(pc, other)
    requires Linking(pc) && !pc.LinkNext? && !pc.LinkHead?
    ensures Local(Effect(sh, pc, id, throws), other)
  {
    hide Distinct, Path, After, LastOf;
  }

  lemma TakeFrame(sh: Shared, pc: Pc, id: Id, throws: bool, other: Pc)
    requires CanRun(sh, pc, id) && !BadAccess(sh, pc) && Local(sh, other) && Apart(pc, other) && Taking(pc)
    ensures Local(Effect(sh, pc, id, throws), other)
  {
    hide Distinct, Path, LastOf;
  }

  lemma PutFrame(sh: Shared, pc: Pc, id: Id, throws: bool, other: Pc)
    requires CanRun(sh, pc, id) && !BadAccess(sh, pc) && Local(sh, other) && Apart(pc, other)
    requires !Getting(pc) && !Making(pc) && !Linking(pc) && !Taking(pc)
    ensures Local(Effect(sh, pc, id, throws), other)
  {
    hide Distinct, Path, LastOf, After;
  }

  /** Another thread's facts survive the step. */
  lemma FrameLocal(sh: Shared, pc: Pc, id: Id, throws: bool, other: Pc)
    requires CanRun(sh, pc, id) && !BadAccess(sh, pc) && Local(sh, other) && Apart(pc, other)
    ensures Local(Effect(sh, pc, id, throws), other)
  {
    hide CanRun, BadAccess, Effect, Local, Apart;
    if Getting(pc) {
      GetFrame(sh, pc, id, throws, other);
    } else if pc.Build? {
      BuildFrame(sh, pc, id, throws, other);
    } else if Making(pc) {
      MakeFrame(sh, pc, id, throws, other);
    } else if pc.LinkNext? || pc.LinkHead? {
      StoreFrame(sh, pc, id, throws, other);
    } else if Linking(pc) {
      LinkFrame(sh, pc, id, throws, other);
    } else if Taking(pc) {
      TakeFrame(sh, pc, id, throws, other);
    } else {
      PutFrame(sh, pc, id, throws, other);
    }
  }

  lemma FrameOwned(sh: Shared, pc: Pc, id: Id, throws: bool, other: Pc)
    requires CanRun(sh, pc, id) && !BadAccess(sh, pc) && Local(sh, other) && Apart(pc, other)
    ensures var pc' := Goto(sh, pc, id, throws); Owned(pc').Node? ==> Owned(pc') != Owned(other)
  {
    hide Distinct, Path, LastOf, After, InLink, InFree, Popping, Filled, Cleared;
    assert Owned(pc).Node? ==> Owned(pc) != Owned(other);
    if pc.GetAdvance? {
      assert pc.n in sh.frees;
    } else if pc.PopAdvance? {
      assert pc.n in sh.queue;
    }
  }

  lemma FrameLocks(sh: Shared, pc: Pc, id: Id, throws: bool, other: Pc)
    requires CanRun(sh, pc, id) && !BadAccess(sh, pc) && Local(sh, other) && Apart(pc, other)
    ensures var pc' := Goto(sh, pc, id, throws);
            && !(InLink(pc') && InLink(other)) && !(InFree(pc') && InFree(other))
  {
    hide Lists, Owned, TailKnown, Filled, Cleared, LastOf;
  }

  /** Two threads stay apart. */
  lemma FrameApart(sh: Shared, pc: Pc, id: Id, throws: bool, other: Pc)
    requires CanRun(sh, pc, id) && !BadAccess(sh, pc) && Local(sh, other) && Apart(pc, other)
    ensures Apart(Goto(sh, pc, id, throws), other)
  {
    hide CanRun, BadAccess, Goto, Local, InLink, InFree, Owned;
    FrameOwned(sh, pc, id, throws, other);
    FrameLocks(sh, pc, id, throws, other);
  }

  lemma TailStep(sh: Shared, pc: Pc, id: Id, throws: bool)
    requires CanRun(sh, pc, id) && !BadAccess(sh, pc) && (Midway(pc) || sh.tail == LastOf(sh.queue))
    ensures var sh' := Effect(sh, pc, id, throws);
            Midway(Goto(sh, pc, id, throws)) || sh'.tail == LastOf(sh'.queue)
  {
    hide Distinct;
  }

  predicate Covered(sh: Shared, sh': Shared, pc: Pc, pc': Pc, n: Id) {
    || n in sh'.queue || n in sh'.frees || Owned(pc') == Node(n)
    || (n in sh.mem && n !in sh.queue && n !in sh.frees && Owned(pc) != Node(n))
  }

  lemma CoverLink(sh: Shared, pc: Pc, id: Id, throws: bool, n: Id)
    requires CanRun(sh, pc, id) && !BadAccess(sh, pc) && InLink(pc)
    requires n in Effect(sh, pc, id, throws).mem
    ensures Covered(sh, Effect(sh, pc, id, throws), pc, Goto(sh, pc, id, throws), n)
  {
    hide Distinct, Path, LastOf, After, TailKnown;
  }

  lemma CoverRest(sh: Shared, pc: Pc, id: Id, throws: bool, n: Id)
    requires CanRun(sh, pc, id) && !BadAccess(sh, pc) && !InLink(pc)
    requires n in Effect(sh, pc, id, throws).mem
    ensures Covered(sh, Effect(sh, pc, id, throws), pc, Goto(sh, pc, id, throws), n)
  {
    hide Distinct, Path, LastOf, After, TailKnown;
  }

  /** Every node after the step is in a list, or the stepping thread's, or was another's before. */
  lemma CoverStep(sh: Shared, pc: Pc, id: Id, throws: bool, n: Id)
    requires CanRun(sh, pc, id) && !BadAccess(sh, pc)
    requires n in Effect(sh, pc, id, throws).mem
    ensures Covered(sh, Effect(sh, pc, id, throws), pc, Goto(sh, pc, id, throws), n)
  {
    hide CanRun, BadAccess, Effect, Goto, Covered, InLink;
    if InLink(pc) {
      CoverLink(sh, pc, id, throws, n);
    } else {
      CoverRest(sh, pc, id, throws, n);
    }
  }

  predicate CountHolds(sh: Shared, sh': Shared, pc: Pc, pc': Pc) {
    |sh'.queue| - sh'.count - sh'.taken - Share(pc') == |sh.queue| - sh.count - sh.taken - Share(pc)
  }

  lemma CountLink(sh: Shared, pc: Pc, id: Id, throws: bool)
    requires !BadAccess(sh, pc) && (Popping(pc) ==> sh.queue != []) && InLink(pc)
    ensures CountHolds(sh, Effect(sh, pc, id, throws), pc, Goto(sh, pc, id, throws))
  {
    hide SetNext;
  }

  lemma CountRest(sh: Shared, pc: Pc, id: Id, throws: bool)
    requires !BadAccess(sh, pc) && !InLink(pc)
    ensures CountHolds(sh, Effect(sh, pc, id, throws), pc, Goto(sh, pc, id, throws))
  {
    hide SetNext;
  }

  lemma CountStep(sh: Shared, pc: Pc, id: Id, throws: bool)
    requires !BadAccess(sh, pc) && (Popping(pc) ==> sh.queue != [])
    ensures CountHolds(sh, Effect(sh, pc, id, throws), pc, Goto(sh, pc, id, throws))
  {
    if InLink(pc) {
      CountLink(sh, pc, id, throws);
    } else {
      CountRest(sh, pc, id, throws);
    }
    hide CountHolds, Effect, Goto, BadAccess;
  }

  lemma {:induction false} TallyUpdate(pcs: seq<Pc>, t: nat, pc: Pc, writing: bool)
    requires t < |pcs|
    ensures Tally(pcs[t := pc], writing) + One(Counts(pcs[t], writing))
              == Tally(pcs, writing) + One(Counts(pc, writing))
    ensures One(Counts(pcs[t], writing)) <= Tally(pcs, writing)
    decreases |pcs|
  {
    hide Counts;
    if t > 0 {
      TallyUpdate(pcs[1..], t - 1, pc, writing);
      assert pcs[t := pc][1..] == pcs[1..][t - 1 := pc];
    } else {
      assert pcs[t := pc][1..] == pcs[1..];
    }
  }

  lemma SharesUpdate(pcs: seq<Pc>, t: nat, pc: Pc)
    requires t < |pcs|
    ensures Shares(pcs[t := pc]) + Share(pcs[t]) == Shares(pcs) + Share(pc)
    ensures Share(pcs[t]) <= Shares(pcs)
  {
    TallyUpdate(pcs, t, pc, true);
    TallyUpdate(pcs, t, pc, false);
    hide Tally, Unwritten, Popping;
  }

  lemma {:induction false} NoTally(threads: nat, writing: bool)
    ensures Tally(seq(threads, _ => Out), writing) == 0
    decreases threads
  {
    if threads > 0 {
      NoTally(threads - 1, writing);
      assert seq(threads, _ => Out)[1..] == seq(threads - 1, _ => Out);
    }
  }

  /** A thread on its way to unlink a node has one to unlink. */
  lemma PopHasNode(s: State, t: nat)
    requires Counted(s) && t < |s.pcs| && Popping(s.pcs[t])
    ensures s.sh.queue != []
  {
    SharesUpdate(s.pcs, t, Out);
  }

  // ---- the invariant ----

  lemma InitInv(threads: nat)
    ensures Inv(Init(threads))
  {
    NoTally(threads, true);
    NoTally(threads, false);
  }

  lemma OthersApart(s: State, t: nat)
    requires Inv(s) && t < |s.pcs|
    ensures forall u :: 0 <= u < |s.pcs| && u != t ==> Local(s.sh, s.pcs[u]) && Apart(s.pcs[t], s.pcs[u])
  {
    hide Local, Lists;
    forall u | 0 <= u < |s.pcs| && u != t
      ensures Local(s.sh, s.pcs[u]) && Apart(s.pcs[t], s.pcs[u])
    {
      assert if t < u then Apart(s.pcs[t], s.pcs[u]) else Apart(s.pcs[u], s.pcs[t]);
    }
  }

  lemma ThreadRuns(s: State, t: nat)
    requires Inv(s) && t < |s.pcs|
    ensures Lists(s.sh) && Local(s.sh, s.pcs[t]) && TailKnown(s.sh, s.pcs[t]) && !BadAccess(s.sh, s.pcs[t])
    ensures Popping(s.pcs[t]) ==> s.sh.queue != []
  {
    OthersApart(s, t);
    if Popping(s.pcs[t]) {
      PopHasNode(s, t);
    }
    hide Local, Lists, Counted, Popping;
    if InLink(s.pcs[t]) && !Midway(s.pcs[t]) {
      forall u | 0 <= u < |s.pcs|
        ensures !Midway(s.pcs[u])
      {
        assert u != t ==> Apart(s.pcs[t], s.pcs[u]);
      }
    }
    NoBadAccess(s.sh, s.pcs[t]);
  }

  lemma StepsRun(s: State, t: nat, id: Id)
    requires Inv(s) && t < |s.pcs| && (s.pcs[t].Alloc? ==> id !in s.sh.mem)
    ensures CanRun(s.sh, s.pcs[t], id) && !BadAccess(s.sh, s.pcs[t])
    ensures forall u :: 0 <= u < |s.pcs| && u != t ==> Local(s.sh, s.pcs[u]) && Apart(s.pcs[t], s.pcs[u])
  {
    hide Inv, Local, Lists;
    OthersApart(s, t);
    ThreadRuns(s, t);
  }

  lemma RunThreads(s: State, t: nat, id: Id, throws: bool)
    requires Inv(s) && Enabled(s, Run(t, id, throws))
    ensures var s' := Next(s, Run(t, id, throws));
            && Lists(s'.sh)
            && (forall u :: 0 <= u < |s'.pcs| ==> Local(s'.sh, s'.pcs[u]))
            && (forall u, v :: 0 <= u < v < |s'.pcs| ==> Apart(s'.pcs[u], s'.pcs[v]))
  {
    var pc := s.pcs[t];
    StepsRun(s, t, id);
    StepLists(s.sh, pc, id, throws);
    StepLocal(s.sh, pc, id, throws);
    forall u | 0 <= u < |s.pcs| && u != t
      ensures Local(Effect(s.sh, pc, id, throws), s.pcs[u]) && Apart(Goto(s.sh, pc, id, throws), s.pcs[u])
    {
      FrameLocal(s.sh, pc, id, throws, s.pcs[u]);
      FrameApart(s.sh, pc, id, throws, s.pcs[u]);
    }
    hide Local, Lists, Effect, Goto, BadAccess;
  }

  lemma RunTail(s: State, t: nat, id: Id, throws: bool)
    requires Inv(s) && Enabled(s, Run(t, id, throws))
    ensures var s' := Next(s, Run(t, id, throws));
            (forall u :: 0 <= u < |s'.pcs| ==> !Midway(s'.pcs[u])) ==> s'.sh.tail == LastOf(s'.sh.queue)
  {
    var s' := Next(s, Run(t, id, throws));
    StepsRun(s, t, id);
    hide Local, Lists, Effect, Goto, BadAccess, CanRun, Midway, LastOf, Apart;
    if forall u :: 0 <= u < |s'.pcs| ==> !Midway(s'.pcs[u]) {
      forall u | 0 <= u < |s.pcs| && u != t
        ensures !Midway(s.pcs[u])
      {
        assert s'.pcs[u] == s.pcs[u];
      }
      assert !Midway(s'.pcs[t]);
      TailStep(s.sh, s.pcs[t], id, throws);
    }
  }

  lemma RunCover(s: State, t: nat, id: Id, throws: bool)
    requires Inv(s) && Enabled(s, Run(t, id, throws))
    ensures var s' := Next(s, Run(t, id, throws));
            forall n :: n in s'.sh.mem ==>
              n in s'.sh.queue || n in s'.sh.frees || exists u :: 0 <= u < |s'.pcs| && Owned(s'.pcs[u]) == Node(n)
  {
    var s' := Next(s, Run(t, id, throws));
    StepsRun(s, t, id);
    hide Local, Lists, Effect, Goto, BadAccess, CanRun, Midway, LastOf, Apart, Owned;
    forall n | n in s'.sh.mem && n !in s'.sh.queue && n !in s'.sh.frees
      ensures exists u :: 0 <= u < |s'.pcs| && Owned(s'.pcs[u]) == Node(n)
    {
      CoverStep(s.sh, s.pcs[t], id, throws, n);
      if Owned(s'.pcs[t]) != Node(n) {
        var u :| 0 <= u < |s.pcs| && Owned(s.pcs[u]) == Node(n);
        assert s'.pcs[u] == s.pcs[u];
      }
    }
  }

  /** A lock is set after the step only if the thread is in its section, or it was set by another. */
  lemma LockStep(sh: Shared, pc: Pc, id: Id, throws: bool)
    requires CanRun(sh, pc, id) && !BadAccess(sh, pc)
    ensures var sh', pc' := Effect(sh, pc, id, throws), Goto(sh, pc, id, throws);
            && (sh'.lock ==> InLink(pc') || (sh.lock && !InLink(pc)))
            && (sh'.freeLock ==> InFree(pc') || (sh.freeLock && !InFree(pc)))
  {
    hide Lists, Owned, TailKnown, Filled, Cleared, LastOf, After, SetNext;
  }

  lemma HeldBy(pcs: seq<Pc>, t: nat, pc: Pc, link: bool)
    requires t < |pcs|
    ensures In(pc, link) ==> Held(pcs[t := pc], link)
    ensures Held(pcs, link) && !In(pcs[t], link) ==> Held(pcs[t := pc], link)
  {
    hide In;
    if In(pc, link) {
      assert In(pcs[t := pc][t], link);
    } else if Held(pcs, link) && !In(pcs[t], link) {
      var u :| 0 <= u < |pcs| && In(pcs[u], link);
      assert In(pcs[t := pc][u], link);
    }
  }

  lemma RunLocks(s: State, t: nat, id: Id, throws: bool)
    requires Inv(s) && Enabled(s, Run(t, id, throws))
    ensures var s' := Next(s, Run(t, id, throws));
            (s'.sh.lock ==> Held(s'.pcs, true)) && (s'.sh.freeLock ==> Held(s'.pcs, false))
  {
    var pc' := Goto(s.sh, s.pcs[t], id, throws);
    StepsRun(s, t, id);
    LockStep(s.sh, s.pcs[t], id, throws);
    HeldBy(s.pcs, t, pc', true);
    HeldBy(s.pcs, t, pc', false);
    hide Lists, Local, Effect, Goto, BadAccess, CanRun, Held, InLink, InFree;
  }

  lemma BeginLocks(s: State, a: Action)
    requires Inv(s) && Enabled(s, a) && (a.Emplace? || a.Pop?)
    ensures var s' := Next(s, a);
            (s'.sh.lock ==> Held(s'.pcs, true)) && (s'.sh.freeLock ==> Held(s'.pcs, false))
  {
    HeldBy(s.pcs, a.t, Next(s, a).pcs[a.t], true);
    HeldBy(s.pcs, a.t, Next(s, a).pcs[a.t], false);
    hide Lists, Local, Held;
  }

  lemma RunCount(s: State, t: nat, id: Id, throws: bool)
    requires Inv(s) && Enabled(s, Run(t, id, throws))
    ensures Counted(Next(s, Run(t, id, throws)))
  {
    if Popping(s.pcs[t]) {
      PopHasNode(s, t);
    }
    hide Lists, Local, Effect, Goto, Share, BadAccess, Popping;
    CountStep(s.sh, s.pcs[t], id, throws);
    SharesUpdate(s.pcs, t, Goto(s.sh, s.pcs[t], id, throws));
  }

  /** Reading the eventfd, or using a count, is nothing to the lists and the threads. */
  lemma CountsElsewhere(sh: Shared, sh': Shared, other: Pc)
    requires sh' == sh.(count := sh'.count, taken := sh'.taken)
    ensures Local(sh, other) ==> Local(sh', other)
    ensures Lists(sh) ==> Lists(sh')
  {
    hide Path, Distinct, LastOf, After;
  }

  lemma BeginLocal(sh: Shared, pc: Pc, other: Pc)
    requires pc.GetLock? || pc.PopLock?
    ensures Apart(pc, other) && Apart(other, pc) && !Midway(pc) && Owned(pc) == Null && Local(sh, pc)
  {
  }

  lemma BeginThreads(s: State, a: Action)
    requires Inv(s) && Enabled(s, a) && (a.Emplace? || a.Pop?)
    ensures var s' := Next(s, a);
            && Lists(s'.sh)
            && (forall u :: 0 <= u < |s'.pcs| ==> Local(s'.sh, s'.pcs[u]))
            && (forall u, v :: 0 <= u < v < |s'.pcs| ==> Apart(s'.pcs[u], s'.pcs[v]))
  {
    var s' := Next(s, a);
    var t := a.t;
    hide Lists, Local, Apart, Midway, Owned;
    forall u | 0 <= u < |s'.pcs|
      ensures Local(s'.sh, s'.pcs[u])
    {
      BeginLocal(s'.sh, s'.pcs[t], s.pcs[u]);
      CountsElsewhere(s.sh, s'.sh, s.pcs[u]);
    }
    forall u, v | 0 <= u < v < |s'.pcs|
      ensures Apart(s'.pcs[u], s'.pcs[v])
    {
      if u == t {
        BeginLocal(s'.sh, s'.pcs[t], s'.pcs[v]);
      } else if v == t {
        BeginLocal(s'.sh, s'.pcs[t], s'.pcs[u]);
      }
    }
    CountsElsewhere(s.sh, s'.sh, Out);
  }

  lemma BeginTail(s: State, a: Action)
    requires Inv(s) && Enabled(s, a) && (a.Emplace? || a.Pop?)
    ensures var s' := Next(s, a);
            (forall u :: 0 <= u < |s'.pcs| ==> !Midway(s'.pcs[u])) ==> s'.sh.tail == LastOf(s'.sh.queue)
  {
    var s' := Next(s, a);
    hide Lists, Local, Apart, LastOf, Counted, Owned;
    if forall u :: 0 <= u < |s'.pcs| ==> !Midway(s'.pcs[u]) {
      forall u | 0 <= u < |s.pcs|
        ensures !Midway(s.pcs[u])
      {
        assert u != a.t ==> s'.pcs[u] == s.pcs[u];
      }
    }
  }

  lemma BeginCover(s: State, a: Action)
    requires Inv(s) && Enabled(s, a) && (a.Emplace? || a.Pop?)
    ensures var s' := Next(s, a);
            forall n :: n in s'.sh.mem ==>
              n in s'.sh.queue || n in s'.sh.frees || exists u :: 0 <= u < |s'.pcs| && Owned(s'.pcs[u]) == Node(n)
  {
    var s' := Next(s, a);
    hide Lists, Local, Apart, LastOf, Counted, Midway;
    forall n | n in s'.sh.mem && n !in s'.sh.queue && n !in s'.sh.frees
      ensures exists u :: 0 <= u < |s'.pcs| && Owned(s'.pcs[u]) == Node(n)
    {
      var u :| 0 <= u < |s.pcs| && Owned(s.pcs[u]) == Node(n);
      assert s'.pcs[u] == s.pcs[u];
    }
  }

  lemma BeginCount(s: State, a: Action)
    requires Inv(s) && Enabled(s, a) && (a.Emplace? || a.Pop?)
    ensures Counted(Next(s, a))
  {
    SharesUpdate(s.pcs, a.t, Next(s, a).pcs[a.t]);
    hide Lists, Local, Apart, Midway, LastOf, Owned;
  }

  lemma BeginKeeps(s: State, a: Action)
    requires Inv(s) && Enabled(s, a) && (a.Emplace? || a.Pop?)
    ensures Inv(Next(s, a))
  {
    BeginThreads(s, a);
    BeginTail(s, a);
    BeginCover(s, a);
    BeginCount(s, a);
    BeginLocks(s, a);
    hide Lists, Local, Apart, Midway, LastOf, Owned, Counted, Held, Next;
  }

  lemma PendingKeeps(s: State, t: nat)
    requires Inv(s) && Enabled(s, Pending(t))
    ensures Inv(Next(s, Pending(t)))
  {
    var s' := Next(s, Pending(t));
    hide Lists, Local, Apart, Shares, Midway, Owned, Held;
    CountsElsewhere(s.sh, s'.sh, Out);
    forall u | 0 <= u < |s'.pcs|
      ensures Local(s'.sh, s'.pcs[u])
    {
      CountsElsewhere(s.sh, s'.sh, s.pcs[u]);
    }
  }

  lemma InvStep(s: State, a: Action)
    requires Inv(s) && Enabled(s, a)
    ensures Inv(Next(s, a))
  {
    match a
    case Run(t, id, throws) =>
      hide Next;
      RunThreads(s, t, id, throws);
      RunTail(s, t, id, throws);
      RunCover(s, t, id, throws);
      RunCount(s, t, id, throws);
      RunLocks(s, t, id, throws);
    case Pending(t) => PendingKeeps(s, t);
    case _ => BeginKeeps(s, a);
  }

  lemma {:induction false} InvRun(s: State, acts: seq<Action>, t: State)
    requires Inv(s) && IsRun(s, acts, t)
    ensures Inv(t)
    decreases |acts|
  {
    if acts != [] {
      InvStep(s, acts[0]);
      InvRun(Next(s, acts[0]), acts[1..], t);
    }
  }

  lemma InvReachable(s: State)
    requires Reachable(s)
    ensures Inv(s)
  {
    var threads, acts :| IsRun(Init(threads), acts, s);
    InitInv(threads);
    InvRun(Init(threads), acts, s);
  }

  // ---- what it gives ----

  /** Mutual exclusion: no two threads are between `lock` and `unlock` of the same spin lock. */
  lemma MutualExclusion(s: State, t: nat, u: nat)
    requires Reachable(s) && t < |s.pcs| && u < |s.pcs| && t != u
    ensures !(InLink(s.pcs[t]) && InLink(s.pcs[u])) && !(InFree(s.pcs[t]) && InFree(s.pcs[u]))
  {
    InvReachable(s);
    assert Apart(s.pcs[if t < u then t else u], s.pcs[if t < u then u else t]);
  }

  /** A lock is set exactly while some thread is in its section: unlocking frees it. */
  lemma LocksHaveHolders(s: State)
    requires Reachable(s)
    ensures s.sh.lock <==> exists t :: 0 <= t < |s.pcs| && InLink(s.pcs[t])
    ensures s.sh.freeLock <==> exists t :: 0 <= t < |s.pcs| && InFree(s.pcs[t])
  {
    InvReachable(s);
    HolderLocks(s);
    if s.sh.lock {
      var t :| 0 <= t < |s.pcs| && In(s.pcs[t], true);
      assert InLink(s.pcs[t]);
    }
    if s.sh.freeLock {
      var t :| 0 <= t < |s.pcs| && In(s.pcs[t], false);
      assert InFree(s.pcs[t]);
    }
    hide Inv, InLink, InFree;
  }

  lemma HolderLocks(s: State)
    requires Inv(s)
    ensures forall t :: 0 <= t < |s.pcs| ==> (InLink(s.pcs[t]) ==> s.sh.lock) && (InFree(s.pcs[t]) ==> s.sh.freeLock)
    ensures (s.sh.lock ==> Held(s.pcs, true)) && (s.sh.freeLock ==> Held(s.pcs, false))
  {
    forall t | 0 <= t < |s.pcs|
      ensures (InLink(s.pcs[t]) ==> s.sh.lock) && (InFree(s.pcs[t]) ==> s.sh.freeLock)
    {
      assert Local(s.sh, s.pcs[t]);
    }
  }

  // ---- every call comes to its end ----

  /** A bound on the steps that the thread still takes, but for spinning. */
  function WorkOf(pc: Pc): nat {
    match pc
    case Out => 0
    case GetLock(_) => 24
    case GetTest(_) => 23
    case GetRead(_) => 22
    case GetAgain(_, _) => 21
    case GetNext(_, _, _) => 20
    case GetAdvance(_, _, _) => 19
    case GetClear(_, _) => 18
    case GetUnlock(_, _) => 17
    case MissUnlock(_) => 18
    case Alloc(_) => 17
    case Build(_, _) => 16
    case LinkLock(_, _) => 10
    case LinkTest(_, _) => 9
    case LinkLoad(_, _) => 8
    case LinkNext(_, _, _) => 7
    case LinkHead(_, _) => 7
    case LinkTail(_, _) => 6
    case LinkUnlock(_, _) => 5
    case LinkWrite => 1
    case PopLock => 16
    case PopRead => 15
    case PopAgain(_) => 14
    case PopNext(_, _) => 13
    case PopAdvance(_, _) => 12
    case PopTest(_, _) => 11
    case PopClear(_, _) => 10
    case PopUnlock(_, _) => 9
    case UseRead(_, _) => 8
    case Using(_, _, _) => 7
    case PutLock(_) => 6
    case PutRead(_) => 5
    case PutNext(_, _) => 4
    case PutHead(_) => 3
    case PutUnlock => 2
  }

  function Work(pcs: seq<Pc>): nat {
    if pcs == [] then 0 else WorkOf(pcs[0]) + Work(pcs[1..])
  }

  lemma {:induction false} WorkUpdate(pcs: seq<Pc>, t: nat, pc: Pc)
    requires t < |pcs|
    ensures Work(pcs[t := pc]) + WorkOf(pcs[t]) == Work(pcs) + WorkOf(pc)
    decreases |pcs|
  {
    hide WorkOf;
    if t > 0 {
      WorkUpdate(pcs[1..], t - 1, pc);
      assert pcs[t := pc][1..] == pcs[1..][t - 1 := pc];
    } else {
      assert pcs[t := pc][1..] == pcs[1..];
    }
  }

  lemma StepWorks(sh: Shared, pc: Pc, id: Id, throws: bool)
    requires !BadAccess(sh, pc)
    ensures WorkOf(Goto(sh, pc, id, throws)) < WorkOf(pc) || Goto(sh, pc, id, throws) == pc
  {
  }

  /** The steps of the run that are not spinning on a lock. */
  ghost function Moves(s: State, acts: seq<Action>): nat
    decreases |acts|
  {
    if acts == [] || !Enabled(s, acts[0]) then 0
    else One(Next(s, acts[0]).pcs != s.pcs) + Moves(Next(s, acts[0]), acts[1..])
  }

  lemma RunWorks(s: State, t: nat, id: Id, throws: bool)
    requires Enabled(s, Run(t, id, throws))
    ensures var s' := Next(s, Run(t, id, throws)); Work(s'.pcs) + One(s'.pcs != s.pcs) <= Work(s.pcs)
  {
    var pc' := Goto(s.sh, s.pcs[t], id, throws);
    StepWorks(s.sh, s.pcs[t], id, throws);
    WorkUpdate(s.pcs, t, pc');
    hide Effect, Goto, BadAccess, WorkOf, Work;
    if pc' == s.pcs[t] {
      assert s.pcs[t := pc'] == s.pcs;
    }
  }

  /** While no call is begun, the threads take a bounded number of steps, but for spinning. */
  lemma {:induction false} MovesAreBounded(s: State, acts: seq<Action>, t: State)
    requires IsRun(s, acts, t) && forall a :: a in acts ==> a.Run?
    ensures Moves(s, acts) + Work(t.pcs) <= Work(s.pcs)
    decreases |acts|
  {
    if acts != [] {
      var a := acts[0];
      assert a in acts;
      RunWorks(s, a.t, a.id, a.throws);
      hide Next, Enabled, Work;
      MovesAreBounded(Next(s, a), acts[1..], t);
    }
  }

  lemma {:induction false} FreshId(ids: set<Id>) returns (id: Id)
    ensures forall n :: n in ids ==> n < id
    decreases |ids|
  {
    id := 0;
    if ids != {} {
      var n :| n in ids;
      var rest := ids - {n};
      var m := FreshId(rest);
      id := if m > n then m else n + 1;
      assert forall k :: k in ids ==> k == n || k in rest;
    }
  }

  /** A step that is not waiting for a lock that is taken moves its thread on. */
  lemma NotSpinning(sh: Shared, pc: Pc, id: Id)
    requires !BadAccess(sh, pc) && pc != Out
    requires !In(pc, true) && !In(pc, false) ==> !sh.lock && !sh.freeLock
    ensures Goto(sh, pc, id, false) != pc
  {
  }

  /** The step of a thread that is not waiting for a lock. */
  predicate MovesOn(s: State, a: Action) {
    a.Run? && Enabled(s, a) && Next(s, a).pcs != s.pcs
  }

  /** The thread is in a call and does not wait for a lock that is taken. */
  predicate Unblocked(s: State, t: nat) {
    && t < |s.pcs| && s.pcs[t] != Out
    && (!In(s.pcs[t], true) && !In(s.pcs[t], false) ==> !s.sh.lock && !s.sh.freeLock)
  }

  lemma ThreadMoves(s: State, t: nat) returns (a: Action)
    requires Inv(s) && Unblocked(s, t)
    ensures MovesOn(s, a)
  {
    var id := FreshId(s.sh.mem.Keys);
    hide Inv, Lists, Local, BadAccess, Goto, Effect, In, TailKnown;
    ThreadRuns(s, t);
    NotSpinning(s.sh, s.pcs[t], id);
    assert id !in s.sh.mem.Keys;
    a := Run(t, id, false);
    assert Next(s, a).pcs[t] != s.pcs[t];
  }

  lemma SomeoneUnblocked(s: State, t: nat) returns (u: nat)
    requires Inv(s) && t < |s.pcs| && s.pcs[t] != Out
    ensures Unblocked(s, u)
  {
    HolderLocks(s);
    hide Inv, InLink, InFree;
    u := t;
    if s.sh.lock {
      u :| 0 <= u < |s.pcs| && In(s.pcs[u], true);
      OutIsOutside(s.pcs[u]);
    } else if s.sh.freeLock {
      u :| 0 <= u < |s.pcs| && In(s.pcs[u], false);
      OutIsOutside(s.pcs[u]);
    }
  }

  lemma OutIsOutside(pc: Pc)
    ensures In(pc, true) || In(pc, false) ==> pc != Out
  {
  }

  /** While some thread is inside a call, some thread can take a step that is not spinning: no lock is
      held by a thread that is not on its way to release it.  With MovesAreBounded every call comes
      to its end. */
  lemma SomeoneMoves(s: State, t: nat)
    requires Reachable(s) && t < |s.pcs| && s.pcs[t] != Out
    ensures exists a :: MovesOn(s, a)
  {
    hide Inv, Reachable, Unblocked, MovesOn;
    InvReachable(s);
    var u := SomeoneUnblocked(s, t);
    var a := ThreadMoves(s, u);
  }

  lemma UsesWhatItPopped(sh: Shared, pc: Pc)
    requires Local(sh, pc)
    ensures pc.Using? ==> pc.v == pc.f
  {
  }

  /** No thread ever dereferences a null or dangling pointer or pops an empty list, and the
      function that a thread takes from the node it popped is the one that was popped. */
  lemma NoBadPointer(s: State, t: nat)
    requires Reachable(s) && t < |s.pcs|
    ensures !BadAccess(s.sh, s.pcs[t])
    ensures s.pcs[t].Using? ==> s.pcs[t].v == s.pcs[t].f
  {
    hide Inv, Lists, BadAccess, TailKnown, Reachable, Local;
    InvReachable(s);
    ThreadRuns(s, t);
    UsesWhatItPopped(s.sh, s.pcs[t]);
  }

  /** With any number of threads in the middle of `emplace` and `pop_node`: the linked nodes are
      those counted in the eventfd, those of counts read and not used, and one for each thread
      that is about to unlink a node or has linked one and not written yet; so a thread on its way
      to unlink a node finds one. */
  lemma NodesAreCounted(s: State)
    requires Reachable(s)
    ensures |s.sh.queue| == s.sh.count + s.sh.taken + Shares(s.pcs)
    ensures forall t :: 0 <= t < |s.pcs| && Popping(s.pcs[t]) ==> s.sh.queue != []
  {
    InvReachable(s);
    forall t | 0 <= t < |s.pcs| && Popping(s.pcs[t])
      ensures s.sh.queue != []
    {
      PopHasNode(s, t);
    }
  }

  // ---- refinement ----

  /** The lists as the callers see them: the queued functions in order, and the free nodes. */
  datatype Spec = Spec(items: seq<Fn>, free: seq<Id>)

  function Items(mem: map<Id, Cell>, queue: seq<Id>): seq<Fn>
    requires forall n :: n in queue ==> n in mem
  {
    seq(|queue|, i requires 0 <= i < |queue| => mem[queue[i]].value)
  }

  predicate QueueInMem(sh: Shared) {
    forall n :: n in sh.queue ==> n in sh.mem
  }

  function Abstract(sh: Shared): Spec
    requires QueueInMem(sh)
  {
    Spec(Items(sh.mem, sh.queue), sh.frees)
  }

  /** One atomic operation, or none, on the abstract lists for each step of a thread:
      append at the store that links the node, pop at the store that advances `head_`, take and
      put at the stores to `free_`. */
  predicate SpecStep(a: Spec, b: Spec, pc: Pc, pc': Pc) {
    match pc
    case LinkNext(f, _, _) => b == a.(items := a.items + [f])
    case LinkHead(f, _) => b == a.(items := a.items + [f])
    case PopAdvance(n, _) => a.items != [] && b == a.(items := a.items[1..]) && pc' == PopTest(n, a.items[0])
    case GetAdvance(f, n, _) => a.free != [] && b == a.(free := a.free[1..]) && pc' == GetClear(f, a.free[0])
    case GetTest(f) => b == a && pc' == if a.free == [] then MissUnlock(f) else GetRead(f)
    case PutHead(n) => b == a.(free := [n] + a.free)
    case _ => b == a
  }

  lemma QueueStays(sh: Shared)
    requires Lists(sh)
    ensures QueueInMem(sh)
  {
  }

  lemma ItemsSame(mem: map<Id, Cell>, mem': map<Id, Cell>, queue: seq<Id>)
    requires forall n :: n in queue ==> n in mem && n in mem' && mem[n].value == mem'[n].value
    ensures Items(mem, queue) == Items(mem', queue)
  {
  }

  lemma ItemsAppend(mem: map<Id, Cell>, mem': map<Id, Cell>, queue: seq<Id>, n: Id)
    requires forall m :: m in queue + [n] ==> m in mem && m in mem' && mem[m].value == mem'[m].value
    ensures forall m :: m in queue ==> m in mem
    ensures Items(mem', queue + [n]) == Items(mem, queue) + [mem[n].value]
  {
    assert n in queue + [n] && forall m :: m in queue ==> m in queue + [n];
  }

  lemma ItemsRest(mem: map<Id, Cell>, queue: seq<Id>)
    requires queue != [] && forall n :: n in queue ==> n in mem
    ensures Items(mem, queue) == [mem[queue[0]].value] + Items(mem, queue[1..])
  {
    assert forall n :: n in queue[1..] ==> n in queue;
  }

  lemma LinkRefines(sh: Shared, pc: Pc, id: Id, throws: bool)
    requires CanRun(sh, pc, id) && !BadAccess(sh, pc) && (pc.LinkNext? || pc.LinkHead?)
    requires QueueInMem(sh) && QueueInMem(Effect(sh, pc, id, throws))
    ensures SpecStep(Abstract(sh), Abstract(Effect(sh, pc, id, throws)), pc, Goto(sh, pc, id, throws))
  {
    hide Items, Path, Distinct;
    ItemsAppend(sh.mem, Effect(sh, pc, id, throws).mem, sh.queue, pc.n);
  }

  lemma PopRefines(sh: Shared, pc: Pc, id: Id, throws: bool)
    requires CanRun(sh, pc, id) && !BadAccess(sh, pc) && pc.PopAdvance?
    requires QueueInMem(sh) && QueueInMem(Effect(sh, pc, id, throws))
    ensures SpecStep(Abstract(sh), Abstract(Effect(sh, pc, id, throws)), pc, Goto(sh, pc, id, throws))
  {
    hide Items, Path, Distinct;
    ItemsRest(sh.mem, sh.queue);
  }

  lemma TestRefines(sh: Shared, pc: Pc, id: Id, throws: bool)
    requires CanRun(sh, pc, id) && pc.GetTest? && QueueInMem(sh)
    ensures SpecStep(Abstract(sh), Abstract(Effect(sh, pc, id, throws)), pc, Goto(sh, pc, id, throws))
  {
    FirstIsReal(sh.mem, sh.free, sh.frees);
    hide Items, Path, Distinct, TailKnown, Local;
  }

  lemma RestRefines(sh: Shared, pc: Pc, id: Id, throws: bool)
    requires CanRun(sh, pc, id) && !BadAccess(sh, pc) && !pc.LinkNext? && !pc.LinkHead? && !pc.PopAdvance?
    requires !pc.GetTest?
    requires QueueInMem(sh) && QueueInMem(Effect(sh, pc, id, throws))
    ensures SpecStep(Abstract(sh), Abstract(Effect(sh, pc, id, throws)), pc, Goto(sh, pc, id, throws))
  {
    hide Items, Path, Distinct, TailKnown;
    ItemsSame(sh.mem, Effect(sh, pc, id, throws).mem, sh.queue);
  }

  lemma StepRefines(sh: Shared, pc: Pc, id: Id, throws: bool)
    requires CanRun(sh, pc, id) && !BadAccess(sh, pc)
    ensures QueueInMem(sh) && QueueInMem(Effect(sh, pc, id, throws))
    ensures SpecStep(Abstract(sh), Abstract(Effect(sh, pc, id, throws)), pc, Goto(sh, pc, id, throws))
  {
    StepLists(sh, pc, id, throws);
    QueueStays(sh);
    QueueStays(Effect(sh, pc, id, throws));
    hide Lists, Effect, Goto, Local, BadAccess, SpecStep, Abstract, QueueInMem;
    if pc.LinkNext? || pc.LinkHead? {
      LinkRefines(sh, pc, id, throws);
    } else if pc.PopAdvance? {
      PopRefines(sh, pc, id, throws);
    } else if pc.GetTest? {
      TestRefines(sh, pc, id, throws);
    } else {
      RestRefines(sh, pc, id, throws);
    }
  }

  /** Each step of each thread, in any interleaving, is one atomic operation on the abstract
      lists or leaves them alone; beginning a call leaves them alone. */
  lemma CriticalSectionsAreAtomic(s: State, a: Action)
    requires Reachable(s) && Enabled(s, a)
    ensures QueueInMem(s.sh) && QueueInMem(Next(s, a).sh)
    ensures if a.Run? then SpecStep(Abstract(s.sh), Abstract(Next(s, a).sh), s.pcs[a.t], Next(s, a).pcs[a.t])
            else Abstract(Next(s, a).sh) == Abstract(s.sh)
  {
    InvReachable(s);
    QueueStays(s.sh);
    if a.Run? {
      StepsRun(s, a.t, a.id);
      StepRefines(s.sh, s.pcs[a.t], a.id, a.throws);
    }
  }

  // ---- a counted queue ----

  function QueueOf(s: State): CountedQueue.Queue
    requires QueueInMem(s.sh)
  {
    CountedQueue.Queue(Items(s.sh.mem, s.sh.queue), s.sh.count, Tally(s.pcs, true), s.sh.taken + Tally(s.pcs, false))
  }

  function LabelOf(sh: Shared, pc: Pc): CountedQueue.Label {
    match pc
    case LinkNext(f, _, _) => CountedQueue.Link(f)
    case LinkHead(f, _) => CountedQueue.Link(f)
    case LinkWrite => CountedQueue.Write
    case PopAdvance(n, _) => CountedQueue.Pop(if n in sh.mem then sh.mem[n].value else 0)
    case _ => CountedQueue.Nothing
  }

  /** What the step is to the users of the queue. */
  function Meaning(s: State, a: Action): CountedQueue.Label
    requires Enabled(s, a)
  {
    match a
    case Pending(_) => CountedQueue.Read(s.sh.count)
    case Run(t, _, _) => LabelOf(s.sh, s.pcs[t])
    case _ => CountedQueue.Nothing
  }

  ghost function TraceOf(s: State, acts: seq<Action>): seq<CountedQueue.Label>
    decreases |acts|
  {
    if acts == [] || !Enabled(s, acts[0]) then []
    else [Meaning(s, acts[0])] + TraceOf(Next(s, acts[0]), acts[1..])
  }

  /** How the counts move, and with them the threads that account for a node. */
  predicate CountsMoved(sh: Shared, sh': Shared, pc: Pc, pc': Pc, l: CountedQueue.Label) {
    && sh'.count == sh.count + One(l.Write?) && sh'.taken == sh.taken
    && One(Unwritten(pc')) + One(l.Write?) == One(Unwritten(pc)) + One(l.Link?)
    && One(Popping(pc')) + One(l.Pop?) == One(Popping(pc))
  }

  lemma LinkCountsMove(sh: Shared, pc: Pc, id: Id, throws: bool)
    requires !BadAccess(sh, pc) && InLink(pc)
    ensures CountsMoved(sh, Effect(sh, pc, id, throws), pc, Goto(sh, pc, id, throws), LabelOf(sh, pc))
  {
    hide SetNext;
  }

  lemma CountsMove(sh: Shared, pc: Pc, id: Id, throws: bool)
    requires !BadAccess(sh, pc)
    ensures CountsMoved(sh, Effect(sh, pc, id, throws), pc, Goto(sh, pc, id, throws), LabelOf(sh, pc))
  {
    if InLink(pc) {
      LinkCountsMove(sh, pc, id, throws);
      hide CountsMoved, Effect, Goto, LabelOf, BadAccess;
    } else {
      hide SetNext;
    }
  }

  lemma ItemsMove(sh: Shared, pc: Pc, id: Id, throws: bool)
    requires CanRun(sh, pc, id) && !BadAccess(sh, pc)
    ensures QueueInMem(sh) && QueueInMem(Effect(sh, pc, id, throws))
    ensures var items, items' := Abstract(sh).items, Abstract(Effect(sh, pc, id, throws)).items;
            match LabelOf(sh, pc)
            case Link(f) => items' == items + [f]
            case Pop(f) => items != [] && f == items[0] && items' == items[1..]
            case _ => items' == items
  {
    StepRefines(sh, pc, id, throws);
    hide CanRun, BadAccess, Abstract, QueueInMem, Effect;
  }

  /** The parts of a step of a counted queue, put together. */
  lemma Together(a: CountedQueue.Queue, l: CountedQueue.Label, b: CountedQueue.Queue)
    requires !l.Read? && (l.Write? ==> a.writing > 0) && (l.Pop? ==> a.owed > 0)
    requires b.counter == a.counter + One(l.Write?) && b.writing + One(l.Write?) == a.writing + One(l.Link?)
    requires b.owed + One(l.Pop?) == a.owed
    requires match l
             case Link(f) => b.items == a.items + [f]
             case Pop(f) => a.items != [] && f == a.items[0] && b.items == a.items[1..]
             case _ => b.items == a.items
    ensures CountedQueue.Step(a, l, b)
  {
  }

  lemma RunMoves(s: State, t: nat, id: Id, throws: bool)
    requires Inv(s) && Enabled(s, Run(t, id, throws))
    ensures var s' := Next(s, Run(t, id, throws));
            && QueueInMem(s.sh) && QueueInMem(s'.sh)
            && CountedQueue.Step(QueueOf(s), LabelOf(s.sh, s.pcs[t]), QueueOf(s'))
  {
    var pc := s.pcs[t];
    var s' := Next(s, Run(t, id, throws));
    StepsRun(s, t, id);
    ItemsMove(s.sh, pc, id, throws);
    CountsMove(s.sh, pc, id, throws);
    TallyUpdate(s.pcs, t, Goto(s.sh, pc, id, throws), true);
    TallyUpdate(s.pcs, t, Goto(s.sh, pc, id, throws), false);
    hide Inv, CanRun, BadAccess, Items, QueueInMem, Effect, Goto, Tally, Unwritten, Popping, LabelOf, Local;
    hide CountedQueue.Step;
    Together(QueueOf(s), LabelOf(s.sh, pc), QueueOf(s'));
  }

  lemma PendingMoves(s: State, t: nat)
    requires QueueInMem(s.sh) && Enabled(s, Pending(t))
    ensures var s' := Next(s, Pending(t));
            QueueInMem(s'.sh) && CountedQueue.Step(QueueOf(s), Meaning(s, Pending(t)), QueueOf(s'))
  {
    hide Items, Tally;
  }

  lemma BeginMoves(s: State, a: Action)
    requires QueueInMem(s.sh) && Enabled(s, a) && (a.Emplace? || a.Pop?)
    ensures var s' := Next(s, a);
            QueueInMem(s'.sh) && CountedQueue.Step(QueueOf(s), Meaning(s, a), QueueOf(s'))
  {
    var pc := if a.Emplace? then GetLock(a.f) else PopLock;
    TallyUpdate(s.pcs, a.t, pc, true);
    TallyUpdate(s.pcs, a.t, pc, false);
    hide Items, Tally;
  }

  /** Every run of the threads is a trace of a counted queue, one label for each step. */
  lemma {:induction false} RunIsTrace(s: State, acts: seq<Action>, t: State)
    requires Inv(s) && IsRun(s, acts, t)
    ensures QueueInMem(s.sh) && QueueInMem(t.sh)
    ensures CountedQueue.IsTrace(QueueOf(s), TraceOf(s, acts), QueueOf(t))
    decreases |acts|
  {
    QueueStays(s.sh);
    if acts != [] {
      var a, m := acts[0], Next(s, acts[0]);
      if a.Run? {
        RunMoves(s, a.t, a.id, a.throws);
      } else if a.Pending? {
        PendingMoves(s, a.t);
      } else {
        BeginMoves(s, a);
      }
      InvStep(s, a);
      TraceBegins(s, acts);
      hide Inv, Next, Enabled, Meaning, QueueOf, QueueInMem;
      RunIsTrace(m, acts[1..], t);
      assert TraceOf(s, acts)[1..] == TraceOf(m, acts[1..]);
    }
  }

  lemma TraceBegins(s: State, acts: seq<Action>)
    requires acts != [] && Enabled(s, acts[0])
    ensures TraceOf(s, acts) == [Meaning(s, acts[0])] + TraceOf(Next(s, acts[0]), acts[1..])
  {
  }

  /** Over a whole run, with every field access of every thread a step of its own: what was unlinked, in
      order, followed by what is queued is what was linked, in order. */
  lemma FifoOverRuns(threads: nat, acts: seq<Action>, t: State)
    requires IsRun(Init(threads), acts, t)
    ensures QueueInMem(t.sh)
    ensures var trace := TraceOf(Init(threads), acts);
            && CountedQueue.Linked(trace) == CountedQueue.Popped(trace) + Items(t.sh.mem, t.sh.queue)
            && CountedQueue.Counted(QueueOf(t))
  {
    InitInv(threads);
    var s := Init(threads);
    RunIsTrace(s, acts, t);
    CountedQueue.TraceIsFifo(QueueOf(s), TraceOf(s, acts), QueueOf(t));
    NoTally(threads, true);
    NoTally(threads, false);
    hide IsRun, Inv;
    assert Items(s.sh.mem, s.sh.queue) == [];
    assert [] + CountedQueue.Linked(TraceOf(s, acts)) == CountedQueue.Linked(TraceOf(s, acts));
  }

  // ---- the memory itself ----

  /** The nodes met by following `next` from `p`, at most `limit` of them. */
  function Walk(mem: map<Id, Cell>, p: Ptr, limit: nat): seq<Id>
    decreases limit
  {
    if limit == 0 || p.Null? || p.id !in mem then []
    else [p.id] + Walk(mem, mem[p.id].next, limit - 1)
  }

  lemma {:induction false} WalkPath(mem: map<Id, Cell>, p: Ptr, ids: seq<Id>, limit: nat)
    requires Path(mem, p, ids) && Distinct(ids) && limit >= |ids|
    ensures Walk(mem, p, limit) == ids
    decreases |ids|
  {
    if ids != [] {
      RemoveFirst(mem, p, ids);
      WalkPath(mem, mem[ids[0]].next, ids[1..], limit - 1);
      assert ids == [ids[0]] + ids[1..];
    }
  }

  /** In every reachable state, in the middle of a critical section or not, both lists are
      acyclic and end in null, are disjoint, and hold exactly the abstract nodes; and `tail_` is
      the last node whenever no thread holds `lock_`. */
  lemma ListsAreReal(s: State, limit: nat)
    requires Reachable(s) && limit >= |s.sh.queue| && limit >= |s.sh.frees|
    ensures Walk(s.sh.mem, s.sh.head, limit) == s.sh.queue && Distinct(s.sh.queue)
    ensures Walk(s.sh.mem, s.sh.free, limit) == s.sh.frees && Distinct(s.sh.frees)
    ensures forall n :: n in s.sh.queue ==> n !in s.sh.frees
    ensures (forall t :: 0 <= t < |s.pcs| ==> !InLink(s.pcs[t])) ==> s.sh.tail == LastOf(s.sh.queue)
  {
    InvReachable(s);
    WalkPath(s.sh.mem, s.sh.head, s.sh.queue, limit);
    WalkPath(s.sh.mem, s.sh.free, s.sh.frees, limit);
    if forall t :: 0 <= t < |s.pcs| ==> !InLink(s.pcs[t]) {
      assert forall t :: 0 <= t < |s.pcs| ==> !Midway(s.pcs[t]);
    }
  }

  predicate Holds(s: State, t: nat, n: Id)
    requires t < |s.pcs|
  {
    Owned(s.pcs[t]) == Node(n)
  }

  /** Every node ever allocated is in exactly one place: queued, free, or in flight with one
      thread; also after constructors and functions that throw. */
  lemma NodesAccounted(s: State, n: Id)
    requires Reachable(s) && n in s.sh.mem
    ensures n in s.sh.queue ==> n !in s.sh.frees && forall t :: 0 <= t < |s.pcs| ==> !Holds(s, t, n)
    ensures n in s.sh.frees ==> forall t :: 0 <= t < |s.pcs| ==> !Holds(s, t, n)
    ensures n !in s.sh.queue && n !in s.sh.frees ==> exists t :: 0 <= t < |s.pcs| && Holds(s, t, n)
    ensures forall t, u :: 0 <= t < u < |s.pcs| && Holds(s, t, n) ==> !Holds(s, u, n)
  {
    InvReachable(s);
    if n !in s.sh.queue && n !in s.sh.frees {
      var t :| 0 <= t < |s.pcs| && Owned(s.pcs[t]) == Node(n);
      assert Holds(s, t, n);
    }
    forall t, u | 0 <= t < u < |s.pcs| && Holds(s, t, n)
      ensures !Holds(s, u, n)
    {
      assert Apart(s.pcs[t], s.pcs[u]);
    }
    forall t | 0 <= t < |s.pcs| && Holds(s, t, n)
      ensures n !in s.sh.queue && n !in s.sh.frees
    {
      assert Local(s.sh, s.pcs[t]);
    }
  }
}
