/** The service and the run loop together.

    A joint run interleaves the steps of Proactor with the events of ServicePool.  Delivering an
    entry to its handler and releasing its completion are one step of the runner and one event of
    the pool; an `initiate` begins and ends with a step of its own, and any other step may come
    between the two.  The service is not thread safe: its lists change under one call at a time. */
module ServiceInLoop {
  import opened Helpers
  import opened Proactor
  import opened ProactorInvariant
  import opened ProactorTheorems
  import ServicePool

  type PoolSystem<H> = ServicePool.System<Op, H>
  type PoolEvent<H> = ServicePool.Event<Op, H>
  type PoolLog<H> = seq<PoolEvent<H>>

  /** An `initiate` that has stored its handler and has not submitted its entry. */
  datatype Start<H> = Start(h: H, op: Op)

  datatype Joint<H> = Joint(s: State, p: PoolSystem<H>, starting: Option<Start<H>>)

  datatype Item<H> =
    | Machine(a: Action)        // a step that is nothing to the service
    | Pool(e: PoolEvent<H>)     // an event, with the runner's step if it has one
    | Begin(h: H, op: Op)       // an `initiate` has stored its handler
    | End(submitted: bool)      // it submits its entry, or has none and gives up

  // ---- joint runs ----

  /** The machine's steps that are events. */
  predicate IsEvent(s: State, a: Action) {
    a.Initiate? || a.Submit? || a.SubmitFail? ||
    (a.Go? && (s.pc.GiveBack? || (s.pc.Dispatch? && s.pc.c.User?)))
  }

  function EndAction(op: Op, submitted: bool): Action {
    if submitted then Submit(op) else SubmitFail(op)
  }

  function EndEvent<H>(x: Start<H>, submitted: bool): PoolEvent<H> {
    ServicePool.Init(x.h, x.op, if submitted then ServicePool.Submitted else ServicePool.NoEntry)
  }

  predicate CanStep<H(==)>(j: Joint<H>, x: Item<H>) {
    match x
    case Machine(a) => Enabled(j.s, a) && !IsEvent(j.s, a)
    case Begin(h, op) =>
      && j.starting.None? && ServicePool.CanHappen(j.p, ServicePool.Init(h, op, ServicePool.Submitted))
      && Enabled(j.s, Initiate(op))
    case End(submitted) =>
      && j.starting.Some? && ServicePool.CanHappen(j.p, EndEvent(j.starting.value, submitted))
      && Enabled(j.s, EndAction(j.starting.value.op, submitted))
    case Pool(e) =>
      ServicePool.CanHappen(j.p, e) &&
      match e
      case Init(_, _, o) => o == ServicePool.EmplaceThrows && j.starting.None?
      case Deliver(op) => j.s.pc == Dispatch(User(op))
      case Done(op) => j.s.pc.GiveBack? && j.starting.None?
      case Stop => false
      case _ => j.starting.None?
  }

  function Step<H(==)>(j: Joint<H>, x: Item<H>): Joint<H>
    requires CanStep(j, x)
  {
    match x
    case Machine(a) => j.(s := Next(j.s, a))
    case Begin(h, op) => j.(s := Next(j.s, Initiate(op)), starting := Some(Start(h, op)))
    case End(submitted) =>
      Joint(Next(j.s, EndAction(j.starting.value.op, submitted)),
            ServicePool.After(j.p, EndEvent(j.starting.value, submitted)), None)
    case Pool(e) =>
      j.(s := if e.Deliver? || e.Done? then Next(j.s, Go) else j.s, p := ServicePool.After(j.p, e))
  }

  /** What the item adds to the pool's history. */
  function EventsOf<H>(j: Joint<H>, x: Item<H>): PoolLog<H> {
    match x
    case Pool(e) => [e]
    case End(submitted) => if j.starting.Some? then [EndEvent(j.starting.value, submitted)] else []
    case _ => []
  }

  ghost predicate JointRun<H>(j: Joint<H>, items: seq<Item<H>>, k: Joint<H>)
    decreases |items|
  {
    if items == [] then j == k
    else CanStep(j, items[0]) && JointRun(Step(j, items[0]), items[1..], k)
  }

  function First<H>(): Joint<H> {
    Joint(Init(), ServicePool.Empty(), None)
  }

  // ---- agreement ----

  /** The operation whose handler the runner is in, or has left without releasing it. */
  function Running(pc: Pc): Option<Op> {
    match pc
    case InOp(op) => Some(op)
    case GiveBack(op, _) => Some(op)
    case _ => None
  }

  /** The places of an operation that the service calls outstanding. */
  function Outstanding(s: State, op: Op): nat {
    s.ring[op] + multiset(s.cq)[User(op)] + One(s.pc == Dispatch(User(op)))
  }

  predicate Starts<H>(starting: Option<Start<H>>, op: Op) {
    starting.Some? && starting.value.op == op
  }

  function StartingOps<H>(starting: Option<Start<H>>): set<Op> {
    if starting.Some? then {starting.value.op} else {}
  }

  /** The machine and the pool agree. */
  ghost predicate Agree<H>(j: Joint<H>) {
    && j.s.held == j.p.pool.held + StartingOps(j.starting)
    && j.p.running == Running(j.s.pc)
    && (forall op :: j.s.calls[InitSubmit(op)] == One(Starts(j.starting, op)))
    && (forall op :: j.p.ring[op] == Outstanding(j.s, op))
    && (j.starting.Some? ==> ServicePool.CanHappen(j.p, EndEvent(j.starting.value, false)))
  }

  lemma FirstAgrees<H>(j: Joint<H>)
    requires j == First()
    ensures Agree(j)
  {
  }

  /** A completion that `acquire` may return is neither in use nor held. */
  lemma AcquiredIsNew<H>(p: PoolSystem<H>, h: H, op: Op)
    requires ServicePool.PoolInv(p.pool) && h in p.pool.lists && ServicePool.CanAcquire(p.pool, op)
    ensures op !in p.pool.held && op !in p.pool.inUse
  {
    ServicePool.AcquireKeeps(p.pool, h, op);
  }

  lemma InitiateEffect(s: State, op: Op)
    requires Enabled(s, Initiate(op))
    ensures var t := Next(s, Initiate(op));
            && t.held == s.held + {op} && t.ring == s.ring && t.cq == s.cq && t.pc == s.pc
            && t.calls == s.calls + multiset{InitSubmit(op)}
  {
    hide ObserveOther;
  }

  lemma SubmitEffect(s: State, op: Op)
    requires Enabled(s, Submit(op))
    ensures var t := Next(s, Submit(op));
            && t.held == s.held && t.ring == s.ring + multiset{op} && t.cq == s.cq && t.pc == s.pc
            && t.calls == s.calls - multiset{InitSubmit(op)}
  {
    hide ObserveOther;
  }

  lemma SubmitFailEffect(s: State, op: Op)
    requires Enabled(s, SubmitFail(op))
    ensures var t := Next(s, SubmitFail(op));
            && t.held == s.held - {op} && t.ring == s.ring && t.cq == s.cq && t.pc == s.pc
            && forall d :: d != ZeroWrite ==> t.calls[d] == (s.calls - multiset{InitSubmit(op)})[d]
  {
    hide ObserveOther;
  }

  lemma DispatchEffect(s: State, op: Op)
    requires s.pc == Dispatch(User(op))
    ensures var t := Next(s, Go);
            && t.held == s.held && t.ring == s.ring && t.cq == s.cq && t.calls == s.calls && t.pc == InOp(op)
  {
    hide ObserveGo;
  }

  lemma GiveBackEffect(s: State)
    requires s.pc.GiveBack?
    ensures var t := Next(s, Go);
            && t.held == s.held - {s.pc.op} && t.ring == s.ring && t.cq == s.cq && t.calls == s.calls
            && Running(t.pc) == None && !t.pc.Dispatch?
  {
    hide ObserveGo;
  }

  lemma FailureSame<H>(p: PoolSystem<H>, h: H, op: Op, o: ServicePool.Outcome)
    requires ServicePool.PoolInv(p.pool) && o != ServicePool.Submitted
    requires ServicePool.CanHappen(p, ServicePool.Init(h, op, o))
    ensures var q := ServicePool.After(p, ServicePool.Init(h, op, o));
            q.pool.held == p.pool.held && q.ring == p.ring && q.running == p.running
  {
    ServicePool.FailedInitiateIsNeutral(p.pool, h, op, o);
    hide ServicePool.PoolInv, ServicePool.Initiate;
  }

  lemma SuccessSame<H>(p: PoolSystem<H>, h: H, op: Op)
    requires ServicePool.CanHappen(p, ServicePool.Init(h, op, ServicePool.Submitted))
    ensures var q := ServicePool.After(p, ServicePool.Init(h, op, ServicePool.Submitted));
            q.pool.held == p.pool.held + {op} && q.ring == p.ring + multiset{op} && q.running == p.running
  {
  }

  lemma BeginAgrees<H>(j: Joint<H>, h: H, op: Op)
    requires Agree(j) && CanStep(j, Begin(h, op))
    ensures Agree(Step(j, Begin(h, op)))
  {
    InitiateEffect(j.s, op);
    hide Next, Enabled;
  }

  lemma SubmitAgrees<H>(j: Joint<H>)
    requires Agree(j) && CanStep(j, End(true))
    ensures Agree(Step(j, End(true)))
  {
    var x := j.starting.value;
    SubmitEffect(j.s, x.op);
    SuccessSame(j.p, x.h, x.op);
    hide Next, Enabled, ServicePool.After, ServicePool.CanHappen;
  }

  lemma GiveUpAgrees<H>(j: Joint<H>)
    requires Agree(j) && ServicePool.PoolInv(j.p.pool) && CanStep(j, End(false))
    ensures Agree(Step(j, End(false)))
  {
    var x := j.starting.value;
    AcquiredIsNew(j.p, x.h, x.op);
    SubmitFailEffect(j.s, x.op);
    FailureSame(j.p, x.h, x.op, ServicePool.NoEntry);
    hide Next, Enabled, ServicePool.After, ServicePool.CanHappen, ServicePool.PoolInv;
  }

  lemma DeliverAgrees<H>(j: Joint<H>, op: Op)
    requires Agree(j) && CanStep(j, Pool(ServicePool.Deliver(op)))
    ensures Agree(Step(j, Pool(ServicePool.Deliver(op))))
  {
    DispatchEffect(j.s, op);
    hide Next;
  }

  lemma DoneAgrees<H>(j: Joint<H>, op: Op)
    requires Reachable(j.s) && Agree(j) && CanStep(j, Pool(ServicePool.Done(op)))
    ensures Agree(Step(j, Pool(ServicePool.Done(op))))
  {
    SourceAssertions(j.s);
    GiveBackEffect(j.s);
    hide Next, Reachable;
  }

  lemma ListsAgree<H>(j: Joint<H>, e: PoolEvent<H>)
    requires Agree(j) && ServicePool.PoolInv(j.p.pool) && CanStep(j, Pool(e)) && !e.Deliver? && !e.Done?
    ensures Agree(Step(j, Pool(e)))
  {
    if e.Init? {
      FailureSame(j.p, e.h, e.c, e.o);
    }
    hide ServicePool.PoolInv, ServicePool.Initiate;
  }

  /** What the agreement speaks of, apart from the queue of entries. */
  predicate SameOps(s: State, t: State) {
    s.held == t.held && s.ring == t.ring && Running(s.pc) == Running(t.pc)
  }

  predicate AtEventfd(pc: Pc) {
    pc.Restart? || pc.Dispatch? || pc.Drain? || pc.Arm? || pc.SignalZero? || pc.ArmQ?
  }

  lemma EventfdSame(s: State)
    requires CanGo(s) && !IsEvent(s, Go) && AtEventfd(s.pc)
    ensures var t := NextGo(s); SameOps(s, t) && t.calls == s.calls && t.cq == s.cq && !t.pc.Dispatch?
  {
    hide ObserveGo;
  }

  lemma GoSame(s: State)
    requires CanGo(s) && !IsEvent(s, Go) && !AtEventfd(s.pc) && s.pc != Wait
    ensures var t := NextGo(s); SameOps(s, t) && t.calls == s.calls && t.cq == s.cq && !t.pc.Dispatch?
  {
    hide ObserveGo, AllStarted;
  }

  lemma TakeSame(s: State)
    requires CanGo(s) && s.pc == Wait
    ensures var t := NextGo(s);
            SameOps(s, t) && t.calls == s.calls && forall op :: Outstanding(t, op) == Outstanding(s, op)
  {
    hide ObserveGo;
    if s.cq != [] {
      CqHead(s.cq);
    }
  }

  lemma GoAgrees(s: State)
    requires CanGo(s) && !IsEvent(s, Go)
    ensures var t := NextGo(s);
            && SameOps(s, t) && (forall op :: t.calls[InitSubmit(op)] == s.calls[InitSubmit(op)])
            && forall op :: Outstanding(t, op) == Outstanding(s, op)
  {
    if s.pc == Wait {
      TakeSame(s);
    } else if AtEventfd(s.pc) {
      EventfdSame(s);
    } else {
      GoSame(s);
    }
    hide NextGo, CanGo;
  }

  lemma NotifySame(s: State, a: Action)
    requires Enabled(s, a) && (a.PostNotify? || a.StopNotify? || a.ZeroNotify?)
    ensures var t := NextOther(s, a);
            && SameOps(s, t) && t.pc == s.pc && t.cq == s.cq
            && forall op :: t.calls[InitSubmit(op)] == s.calls[InitSubmit(op)]
  {
    hide ObserveOther;
  }

  lemma FireSame(s: State, fd: Fd)
    requires Enabled(s, Fire(fd))
    ensures var t := NextOther(s, Fire(fd));
            && SameOps(s, t) && t.pc == s.pc && t.calls == s.calls
            && forall op :: multiset(t.cq)[User(op)] == multiset(s.cq)[User(op)]
  {
    hide ObserveOther;
  }

  lemma CallSame(s: State, a: Action)
    requires Enabled(s, a)
    requires a.WorkStarted? || a.WorkFinished? || a.PostStart? || a.PostLinked? || a.PostFail? || a.StopFlag?
    ensures var t := NextOther(s, a);
            && SameOps(s, t) && t.pc == s.pc && t.cq == s.cq
            && forall op :: t.calls[InitSubmit(op)] == s.calls[InitSubmit(op)]
  {
    hide ObserveOther;
  }

  lemma CompleteSame(s: State, op: Op)
    requires Enabled(s, Complete(op))
    ensures var t := NextOther(s, Complete(op));
            && t.held == s.held && t.pc == s.pc && t.calls == s.calls
            && forall d :: Outstanding(t, d) == Outstanding(s, d)
  {
    hide ObserveOther;
  }

  /** A step that is nothing to the service leaves the agreement alone. */
  lemma MachineSame(s: State, a: Action)
    requires Enabled(s, a) && !IsEvent(s, a)
    ensures var t := Next(s, a);
            && t.held == s.held && Running(t.pc) == Running(s.pc)
            && (forall op :: t.calls[InitSubmit(op)] == s.calls[InitSubmit(op)])
            && forall op :: Outstanding(t, op) == Outstanding(s, op)
  {
    hide NextOther, NextGo;
    if a.PostNotify? || a.StopNotify? || a.ZeroNotify? {
      NotifySame(s, a);
    } else if a.Fire? {
      FireSame(s, a.fd);
    } else if a.Complete? {
      CompleteSame(s, a.op);
    } else if ByOthers(a) {
      CallSame(s, a);
    } else if a.Go? {
      GoAgrees(s);
    }
  }

  lemma StepAgrees<H>(j: Joint<H>, x: Item<H>)
    requires Reachable(j.s) && Agree(j) && ServicePool.PoolInv(j.p.pool) && CanStep(j, x)
    ensures Agree(Step(j, x))
  {
    hide Reachable, ServicePool.PoolInv, ServicePool.After, ServicePool.CanHappen, Next, Enabled;
    match x
    case Machine(a) => MachineSame(j.s, a);
    case Begin(h, op) => BeginAgrees(j, h, op);
    case End(submitted) => if submitted { SubmitAgrees(j); } else { GiveUpAgrees(j); }
    case Pool(e) =>
      hide Agree;
      if e.Deliver? {
        DeliverAgrees(j, e.c);
      } else if e.Done? {
        DoneAgrees(j, e.c);
      } else {
        ListsAgree(j, e);
      }
  }

  // ---- every joint run ----

  lemma StepReaches<H>(j: Joint<H>, x: Item<H>)
    requires Reachable(j.s) && CanStep(j, x)
    ensures Reachable(Step(j, x).s)
  {
    var t := Step(j, x).s;
    if t != j.s {
      var a := match x
        case Machine(a) => a
        case Begin(_, op) => Initiate(op)
        case End(submitted) => EndAction(j.starting.value.op, submitted)
        case Pool(_) => Go;
      LeadsStep(j.s, a);
      LeadsTrans(Init(), j.s, t);
    }
    hide Reachable, Leads, ServicePool.After, ServicePool.CanHappen;
  }

  /** The log is a history of the pool, without a shutdown, that ends in `p`. */
  ghost predicate Explains<H>(log: PoolLog<H>, p: PoolSystem<H>) {
    ServicePool.IsLog(log) && ServicePool.Stop !in log && ServicePool.Reached(log) == p
  }

  lemma Append<H>(log: PoolLog<H>, p: PoolSystem<H>, e: PoolEvent<H>)
    requires Explains(log, p) && ServicePool.CanHappen(p, e) && e != ServicePool.Stop
    ensures Explains(log + [e], ServicePool.After(p, e))
  {
    var log' := log + [e];
    assert log'[..|log'| - 1] == log && log'[|log'| - 1] == e;
    hide ServicePool.After, ServicePool.CanHappen;
  }

  lemma StepLogs<H>(j: Joint<H>, x: Item<H>, log: PoolLog<H>)
    requires Explains(log, j.p) && CanStep(j, x)
    ensures Explains(log + EventsOf(j, x), Step(j, x).p)
  {
    hide Explains, ServicePool.After, ServicePool.CanHappen, Next, Enabled;
    if x.Pool? {
      Append(log, j.p, x.e);
    } else if x.End? {
      Append(log, j.p, EndEvent(j.starting.value, x.submitted));
    } else {
      assert log + [] == log;
    }
  }

  lemma {:induction false} JointRunGoesOn<H>(j: Joint<H>, items: seq<Item<H>>, k: Joint<H>, log: PoolLog<H>)
    returns (log': PoolLog<H>)
    requires Reachable(j.s) && Agree(j) && Explains(log, j.p) && JointRun(j, items, k)
    ensures Reachable(k.s) && Agree(k) && Explains(log', k.p)
    decreases |items|
  {
    log' := log;
    if items != [] {
      var x := items[0];
      ServicePool.LogKeeps(log);
      StepReaches(j, x);
      StepAgrees(j, x);
      StepLogs(j, x, log);
      hide Agree, Reachable, ServicePool.IsLog, ServicePool.PoolInv, CanStep, Step;
      log' := JointRunGoesOn(Step(j, x), items[1..], k, log + EventsOf(j, x));
    }
  }

  /** In every joint run, from the construction of the context and the service: the machine's part is a
      run of the machine, the pool's part is a history of the pool, and the two agree. */
  lemma JointRunsAgree<H>(items: seq<Item<H>>, k: Joint<H>) returns (log: PoolLog<H>)
    requires JointRun(First<H>(), items, k)
    ensures Reachable(k.s) && Agree(k) && Explains(log, k.p)
  {
    var j := First<H>();
    FirstAgrees(j);
    LeadsRefl(Init());
    log := JointRunGoesOn(j, items, k, []);
  }

  /** So at every moment of a joint run the completions in use are those that hold a handler in the
      context's account, but for one that an `initiate` has just acquired; and a completion on the
      free list, or one that `acquire` would allocate, is nowhere in the kernel or the run loop. */
  lemma FreeMeansUnknownToTheLoop<H>(items: seq<Item<H>>, k: Joint<H>, op: Op)
    requires JointRun(First<H>(), items, k)
    ensures op in k.p.pool.inUse <==> op in k.s.held && !Starts(k.starting, op)
    ensures var places := Places(k.s.calls, k.s.ring, multiset(k.s.cq), OpInHand(k.s.pc), op);
            && (op in k.p.pool.inUse ==> places == 1)
            && (op !in k.p.pool.inUse ==> places == One(Starts(k.starting, op)))
  {
    var log := JointRunsAgree(items, k);
    ServicePool.DeliveredHasHandler(log, op);
    ServicePool.LogKeeps(log);
    if k.starting.Some? {
      AcquiredIsNew(k.p, k.starting.value.h, k.starting.value.op);
    }
    PlacesOf(k.s, op);
    hide Reachable, ServicePool.IsLog, ServicePool.PoolInv, Places, JointRun;
  }

  lemma PlacesOf(s: State, op: Op)
    requires Reachable(s)
    ensures Places(s.calls, s.ring, multiset(s.cq), OpInHand(s.pc), op) == One(op in s.held)
  {
    InvReachable(s);
    assert Places(s.calls, s.ring, multiset(s.cq), OpInHand(s.pc), op) == One(op in s.held);
    hide Inv;
  }

  predicate CanAcquireFor<H(==)>(k: Joint<H>, h: H, op: Op) {
    k.starting.None? && ServicePool.CanHappen(k.p, ServicePool.Init(h, op, ServicePool.Submitted))
  }

  /** The joint runs leave out nothing that either side could do: what the pool may acquire the machine
      may initiate, an `initiate` can always end either way, and where the runner's step delivers
      an entry or releases a completion the pool's event can happen. */
  lemma NothingIsBlocked<H>(items: seq<Item<H>>, k: Joint<H>)
    requires JointRun(First<H>(), items, k)
    ensures forall h, op :: CanAcquireFor(k, h, op) ==> CanStep(k, Begin(h, op))
    ensures k.starting.Some? ==> CanStep(k, End(true)) && CanStep(k, End(false))
    ensures k.s.pc.Dispatch? && k.s.pc.c.User? ==> CanStep(k, Pool(ServicePool.Deliver(k.s.pc.c.op)))
    ensures k.s.pc.GiveBack? && k.starting.None? ==> CanStep(k, Pool(ServicePool.Done(k.s.pc.op)))
  {
    var log := JointRunsAgree(items, k);
    ServicePool.LogKeeps(log);
    hide JointRun, Explains;
    BeginsFreely(k);
    EndsFreely(k);
    RunnerFreely(k, log);
  }

  lemma BeginsFreely<H>(k: Joint<H>)
    requires Agree(k) && ServicePool.PoolInv(k.p.pool)
    ensures forall h, op :: CanAcquireFor(k, h, op) ==> CanStep(k, Begin(h, op))
  {
    forall h, op | CanAcquireFor(k, h, op)
      ensures CanStep(k, Begin(h, op))
    {
      AcquiredIsNew(k.p, h, op);
    }
  }

  lemma EndsFreely<H>(k: Joint<H>)
    requires Agree(k)
    ensures k.starting.Some? ==> CanStep(k, End(true)) && CanStep(k, End(false))
  {
    if k.starting.Some? {
      assert k.s.calls[InitSubmit(k.starting.value.op)] == 1;
    }
  }

  lemma RunnerFreely<H>(k: Joint<H>, log: PoolLog<H>)
    requires Reachable(k.s) && Agree(k) && Explains(log, k.p)
    ensures k.s.pc.Dispatch? && k.s.pc.c.User? ==> CanStep(k, Pool(ServicePool.Deliver(k.s.pc.c.op)))
    ensures k.s.pc.GiveBack? && k.starting.None? ==> CanStep(k, Pool(ServicePool.Done(k.s.pc.op)))
  {
    if k.s.pc.Dispatch? && k.s.pc.c.User? {
      var op := k.s.pc.c.op;
      assert k.p.ring[op] == Outstanding(k.s, op);
      ServicePool.DeliveredHasHandler(log, op);
    }
    hide Reachable, ServicePool.IsLog;
  }
}
