/** The two linked lists of `eventfd_queue` under their spin locks, at the grain of single field
    accesses.

    Any number of threads run `get_node`, the linking part of `emplace` with its eventfd write,
    `pending`, `pop_node` and `release_node`.  Every load, store and test-and-set of a shared field
    is a step of its own; a pointer that was loaded is in the program counter until it is used.
    The fields `queue` and `frees` are observations: the nodes of the two lists in order, changed
    at the one store of each critical section that changes the list.  So is the function `f` of
    the program counters from `PopTest` to `Using`: the one that the node held when it was
    unlinked.  No step reads an observation. */
module SpinQueue {
  type Id = nat
  type Fn = nat

  datatype Ptr = Null | Node(id: Id)

  datatype Cell = Cell(next: Ptr, value: Fn)

  datatype Pc =
    | Out
    // emplace(f): get_node
    | GetLock(f: Fn)                    // free_lock_.lock()
    | GetTest(f: Fn)                    // if (free_)
    | GetRead(f: Fn)                    // retr = *free_
    | GetAgain(f: Fn, n: Id)            // load free_
    | GetNext(f: Fn, n: Id, p: Ptr)     // load p->next
    | GetAdvance(f: Fn, n: Id, x: Ptr)  // free_ = x
    | GetClear(f: Fn, n: Id)            // retr.next = nullptr
    | GetUnlock(f: Fn, n: Id)
    | MissUnlock(f: Fn)                 // no free node
    | Alloc(f: Fn)
    | Build(f: Fn, n: Id)               // construct the function in the node
    // emplace(f): link
    | LinkLock(f: Fn, n: Id)            // lock_.lock()
    | LinkTest(f: Fn, n: Id)            // if (tail_)
    | LinkLoad(f: Fn, n: Id)            // load tail_
    | LinkNext(f: Fn, n: Id, p: Ptr)    // p->next = &node
    | LinkHead(f: Fn, n: Id)            // head_ = &node
    | LinkTail(f: Fn, n: Id)            // tail_ = &node
    | LinkUnlock(f: Fn, n: Id)
    | LinkWrite                         // e_.write(1)
    // pop_node
    | PopLock
    | PopRead                           // retr = *head_
    | PopAgain(n: Id)                   // load head_
    | PopNext(n: Id, p: Ptr)            // load p->next
    | PopAdvance(n: Id, x: Ptr)         // head_ = x
    | PopTest(n: Id, f: Fn)             // if (!head_)
    | PopClear(n: Id, f: Fn)            // tail_ = nullptr
    | PopUnlock(n: Id, f: Fn)
    | UseRead(n: Id, f: Fn)             // node.get()
    | Using(n: Id, f: Fn, v: Fn)        // the function `v` of the node runs
    // release_node
    | PutLock(n: Id)
    | PutRead(n: Id)                    // load free_
    | PutNext(n: Id, x: Ptr)            // node.next = x
    | PutHead(n: Id)                    // free_ = &node
    | PutUnlock

  /** `count` is the eventfd's counter, and `taken` what was read from it and not popped yet. */
  datatype Shared = Shared(
    mem: map<Id, Cell>,
    head: Ptr, tail: Ptr, free: Ptr,
    lock: bool, freeLock: bool,
    count: nat, taken: nat,
    queue: seq<Id>, frees: seq<Id>
  )

  datatype State = State(sh: Shared, pcs: seq<Pc>)

  /** A thread begins a call, reads the eventfd, or takes its next step: an allocation yields
      `id`, and `throws` says whether allocating or constructing throws. */
  datatype Action = Emplace(t: nat, f: Fn) | Pending(t: nat) | Pop(t: nat) | Run(t: nat, id: Id, throws: bool)

  function Init(threads: nat): State {
    State(Shared(map[], Null, Null, Null, false, false, 0, 0, [], []), seq(threads, _ => Out))
  }

  function SetNext(mem: map<Id, Cell>, n: Id, p: Ptr): map<Id, Cell>
    requires n in mem
  {
    mem[n := mem[n].(next := p)]
  }

  predicate Dangling(sh: Shared, p: Ptr) {
    p.Null? || p.id !in sh.mem
  }

  /** The pointer that the step dereferences is null or dangling: popping an empty list is `PopRead` with a
      null `head_`. */
  predicate BadAccess(sh: Shared, pc: Pc) {
    match pc
    case GetRead(_) => Dangling(sh, sh.free)
    case GetNext(_, _, p) => Dangling(sh, p)
    case GetClear(_, n) => n !in sh.mem
    case Build(_, n) => n !in sh.mem
    case LinkNext(_, _, p) => Dangling(sh, p)
    case PopRead => Dangling(sh, sh.head)
    case PopNext(_, p) => Dangling(sh, p)
    case UseRead(n, _) => n !in sh.mem
    case PutNext(n, _) => n !in sh.mem
    case _ => false
  }

  /** `pending` blocks on a counter at zero; a pop begins only on a count that was handed out. */
  predicate Enabled(s: State, a: Action) {
    match a
    case Emplace(t, _) => t < |s.pcs| && s.pcs[t] == Out
    case Pending(t) => t < |s.pcs| && s.pcs[t] == Out && s.sh.count > 0
    case Pop(t) => t < |s.pcs| && s.pcs[t] == Out && s.sh.taken > 0
    case Run(t, id, _) =>
      && t < |s.pcs| && s.pcs[t] != Out && !BadAccess(s.sh, s.pcs[t])
      && (s.pcs[t].Alloc? ==> id !in s.sh.mem)
  }

  /** The step's effect on the shared fields. */
  function Effect(sh: Shared, pc: Pc, id: Id, throws: bool): Shared
    requires !BadAccess(sh, pc)
  {
    match pc
    case GetLock(_) => sh.(freeLock := true)
    case GetAdvance(_, _, x) => sh.(free := x, frees := if sh.frees == [] then [] else sh.frees[1..])
    case GetClear(_, n) => sh.(mem := SetNext(sh.mem, n, Null))
    case GetUnlock(_, _) => sh.(freeLock := false)
    case MissUnlock(_) => sh.(freeLock := false)
    case Alloc(f) => if throws then sh else sh.(mem := sh.mem[id := Cell(Null, 0)])
    case Build(f, n) => if throws then sh else sh.(mem := sh.mem[n := sh.mem[n].(value := f)])
    case LinkLock(_, _) => sh.(lock := true)
    case LinkNext(_, n, p) => sh.(mem := SetNext(sh.mem, p.id, Node(n)), queue := sh.queue + [n])
    case LinkHead(_, n) => sh.(head := Node(n), queue := sh.queue + [n])
    case LinkTail(_, n) => sh.(tail := Node(n))
    case LinkUnlock(_, _) => sh.(lock := false)
    case LinkWrite => sh.(count := sh.count + 1)
    case PopLock => sh.(lock := true)
    case PopAdvance(_, x) => sh.(head := x, queue := if sh.queue == [] then [] else sh.queue[1..])
    case PopClear(_, _) => sh.(tail := Null)
    case PopUnlock(_, _) => sh.(lock := false)
    case PutLock(_) => sh.(freeLock := true)
    case PutNext(n, x) => sh.(mem := SetNext(sh.mem, n, x))
    case PutHead(n) => sh.(free := Node(n), frees := [n] + sh.frees)
    case PutUnlock => sh.(freeLock := false)
    case _ => sh
  }

  /** Where the thread goes; a lock that is taken leaves it spinning. */
  function Goto(sh: Shared, pc: Pc, id: Id, throws: bool): Pc
    requires !BadAccess(sh, pc)
  {
    match pc
    case Out => Out
    case GetLock(f) => if sh.freeLock then pc else GetTest(f)
    case GetTest(f) => if sh.free.Node? then GetRead(f) else MissUnlock(f)
    case GetRead(f) => GetAgain(f, sh.free.id)
    case GetAgain(f, n) => GetNext(f, n, sh.free)
    case GetNext(f, n, p) => GetAdvance(f, n, sh.mem[p.id].next)
    case GetAdvance(f, n, _) => GetClear(f, n)
    case GetClear(f, n) => GetUnlock(f, n)
    case GetUnlock(f, n) => Build(f, n)
    case MissUnlock(f) => Alloc(f)
    case Alloc(f) => if throws then Out else Build(f, id)
    case Build(f, n) => if throws then PutLock(n) else LinkLock(f, n)
    case LinkLock(f, n) => if sh.lock then pc else LinkTest(f, n)
    case LinkTest(f, n) => if sh.tail.Node? then LinkLoad(f, n) else LinkHead(f, n)
    case LinkLoad(f, n) => LinkNext(f, n, sh.tail)
    case LinkNext(f, n, _) => LinkTail(f, n)
    case LinkHead(f, n) => LinkTail(f, n)
    case LinkTail(f, n) => LinkUnlock(f, n)
    case LinkUnlock(_, _) => LinkWrite
    case LinkWrite => Out
    case PopLock => if sh.lock then pc else PopRead
    case PopRead => PopAgain(sh.head.id)
    case PopAgain(n) => PopNext(n, sh.head)
    case PopNext(n, p) => PopAdvance(n, sh.mem[p.id].next)
    case PopAdvance(n, _) => PopTest(n, if n in sh.mem then sh.mem[n].value else 0)
    case PopTest(n, f) => if sh.head.Null? then PopClear(n, f) else PopUnlock(n, f)
    case PopClear(n, f) => PopUnlock(n, f)
    case PopUnlock(n, f) => UseRead(n, f)
    case UseRead(n, f) => Using(n, f, sh.mem[n].value)
    case Using(n, _, _) => PutLock(n)
    case PutLock(n) => if sh.freeLock then pc else PutRead(n)
    case PutRead(n) => PutNext(n, sh.free)
    case PutNext(n, _) => PutHead(n)
    case PutHead(_) => PutUnlock
    case PutUnlock => Out
  }

  function Next(s: State, a: Action): State
    requires Enabled(s, a)
  {
    match a
    case Emplace(t, f) => s.(pcs := s.pcs[t := GetLock(f)])
    case Pending(t) => s.(sh := s.sh.(count := 0, taken := s.sh.taken + s.sh.count))
    case Pop(t) => State(s.sh.(taken := s.sh.taken - 1), s.pcs[t := PopLock])
    case Run(t, id, throws) =>
      State(Effect(s.sh, s.pcs[t], id, throws), s.pcs[t := Goto(s.sh, s.pcs[t], id, throws)])
  }

  ghost predicate IsRun(s: State, acts: seq<Action>, t: State)
    decreases |acts|
  {
    if acts == [] then s == t
    else Enabled(s, acts[0]) && IsRun(Next(s, acts[0]), acts[1..], t)
  }

  ghost predicate Reachable(s: State) {
    exists threads, acts :: IsRun(Init(threads), acts, s)
  }
}
