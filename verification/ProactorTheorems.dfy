/** What the run loop guarantees, over every run of the state machine. */
module ProactorTheorems {
  import opened Helpers
  import opened Proactor
  import opened ProactorInvariant

  // ---- no wake-up is lost ----

  /** The runner sleeps in `io_uring_wait_cqe`. */
  predicate Blocked(s: State) {
    s.pc == Wait && s.mode.blocking && s.cq == []
  }

  /** There is something the runner should wake up for. */
  predicate Demand(s: State) {
    s.list != [] || s.stopped || s.work == 0
  }

  /** While the runner sleeps, every reason to wake it is still carried by a call that has not
      written its eventfd yet or by a poll that the kernel can complete. */
  lemma WakeupCarried(s: State)
    requires Reachable(s) && Blocked(s)
    ensures s.pending == 0 && s.q.armed == s.stop.armed == s.zero.armed == 1
    ensures s.list != [] <==> PostWrite in s.calls || Enabled(s, Fire(Q))
    ensures s.stopped ==> StopWrite in s.calls || Enabled(s, Fire(Stop))
    ensures s.work == 0 ==> ZeroWrite in s.calls || Enabled(s, Fire(Zero))
  {
    InvReachable(s);
    hide OpsInv, CountInv, ReasonInv, FifoInv;
  }

  /** No lost wake-up: a runner that sleeps with no poll ready and no eventfd write under way
      has nothing to do. */
  lemma NoLostWakeup(s: State)
    requires Reachable(s) && Blocked(s)
    requires PostWrite !in s.calls && StopWrite !in s.calls && ZeroWrite !in s.calls
    requires forall fd :: !Enabled(s, Fire(fd))
    ensures s.list == [] && s.pending == 0 && s.work > 0 && !s.stopped
  {
    InvReachable(s);
    assert WorkInv(s.work, |s.list|, s.calls[PostLink], |InHand(s.pc)|, |s.held|, s.guards);
    hide Inv;
    WakeupCarried(s);
  }

  // ---- the runner only ever blocks where it may ----

  /** The runner's next step is always possible, except outside a call and while it sleeps with
      no entry: it never pops an empty queue and never blocks reading an eventfd. */
  lemma RunnerNeverStuck(s: State)
    requires Reachable(s)
    ensures s.pc.Idle? || Blocked(s) || CanGo(s)
  {
    InvReachable(s);
    hide OpsInv, CountInv, ReasonInv, FifoInv, WorkInv, StopInv, ZeroInv;
  }

  /** The conditions the source asserts: the unsigned decrements do not wrap, a drained queue
      counter was positive, a completed operation still has its handler, and a batch leaves
      nothing pending. */
  lemma SourceAssertions(s: State)
    requires Reachable(s)
    ensures s.pc.Popped? ==> s.pending > 0 && s.work > 0
    ensures s.pc.Got? ==> s.pc.n > 0
    ensures s.pc.Serve? ==> s.pc.left <= s.pending <= |s.list|
    ensures s.pc.Serve? && s.pc.src.Batch? && s.pc.left == 0 ==> s.pending == 0
    ensures s.pc.Arm? ==> !Ev(s, s.pc.fd).started
    ensures s.pc.GiveBack? ==> s.pc.op in s.held && s.work > 0
    ensures s.pc.InOp? ==> s.pc.op in s.held
  {
    InvReachable(s);
    if s.pc.GiveBack? || s.pc.InOp? {
      OpHeld(s, s.pc.op);
    }
    hide OpsInv, CountInv, ReasonInv, FifoInv, StopInv, ZeroInv, PollsInv;
  }

  /** The same condition where the other callers of `on_work_finished` decrement: a guard given back,
      a `post` undone, an `initiate` undone. */
  lemma NoDecrementWraps(s: State, a: Action)
    requires Reachable(s) && Enabled(s, a) && (a.WorkFinished? || a.PostFail? || a.SubmitFail?)
    ensures s.work > 0
  {
    InvReachable(s);
    assert WorkInv(s.work, |s.list|, s.calls[PostLink], |InHand(s.pc)|, |s.held|, s.guards);
    if a.SubmitFail? {
      OpHeld(s, a.op);
    }
    hide Inv;
  }

  /** Every entry in the completion queue for `fd`, and the one being dispatched. */
  function Entries(s: State, fd: Fd): nat {
    multiset(s.cq)[Internal(fd)] + One(s.pc == Dispatch(Internal(fd)))
  }

  /** One poll per eventfd, after any run, whatever exceptions left calls early: a set flag
      means exactly one of an armed poll and an unhandled entry, a clear one means neither;
      and an entry still finds its counter positive. */
  lemma OnePollPerEventfd(s: State, fd: Fd)
    requires Reachable(s)
    ensures Ev(s, fd).armed + Entries(s, fd) == One(Ev(s, fd).started)
    ensures Entries(s, fd) > 0 || s.pc == Drain(fd) ==> Ev(s, fd).counter > 0
  {
    InvReachable(s);
    hide OpsInv, CountInv, ReasonInv, FifoInv, WorkInv, StopInv, ZeroInv, QueueInv, ServeInv;
  }

  /** The counting invariant of the queue: what is linked is what the runner has counted and
      not popped, what is in the eventfd, and what producers have linked and not written. */
  lemma QueueIsCounted(s: State)
    requires Reachable(s)
    ensures |s.list| + |InHand(s.pc)| == s.pending + s.q.counter + s.calls[PostWrite] + GotCount(s.pc)
    ensures s.pending >= 0
  {
    InvReachable(s);
  }

  /** Work is conserved: `work_` is the number of functions queued, being posted or popped and
      not called yet, of operations that hold a handler, and of outside units. */
  lemma WorkConserved(s: State)
    requires Reachable(s)
    ensures s.work == |s.list| + s.calls[PostLink] + |InHand(s.pc)| + |s.held| + s.guards
  {
    InvReachable(s);
  }

  /** An operation holds a handler exactly when it is in exactly one place: being initiated,
      in the ring, completed, or with the runner.  So no completion that `initiate` may take
      is still known to the kernel. */
  lemma CompletionIdentity(s: State, op: Op)
    requires Reachable(s)
    ensures op in s.held <==> Places(s.calls, s.ring, multiset(s.cq), OpInHand(s.pc), op) == 1
    ensures Enabled(s, Initiate(op)) <==>
              InitSubmit(op) !in s.calls && op !in s.ring && User(op) !in s.cq && OpInHand(s.pc) != Holds(op)
  {
    InvReachable(s);
    assert Places(s.calls, s.ring, multiset(s.cq), OpInHand(s.pc), op) == One(op in s.held);
  }

  // ---- running out of work ----

  /** `service_queue` reports that it is done exactly when its decrement took the last unit of
      work, and then nothing is left anywhere: the item is the last of its batch, nothing is
      queued, counted or being posted, and no operation holds a handler. */
  lemma CleanExhaustion(s: State)
    requires Reachable(s) && s.pc.Popped?
    ensures var t := NextGo(s);
            && (t.pc.done <==> s.work == 1)
            && (t.pc.done ==>
                  && t.pc.left == 0 && t.list == [] && t.pending == t.work == 0 && t.q.counter == 0
                  && t.held == {} && t.guards == 0 && PostLink !in t.calls && PostWrite !in t.calls)
  {
    InvReachable(s);
    hide OpsInv, CountInv, ReasonInv, FifoInv, StopInv, ZeroInv, PollsInv;
  }

  // ---- order ----

  /** The only steps that change the logs. */
  lemma LogsStep(s: State, a: Action)
    requires Enabled(s, a)
    ensures Next(s, a).h.linked == if a.PostLinked? then s.h.linked + [a.f] else s.h.linked
    ensures Next(s, a).h.executed == if a.Go? && s.pc.Popped? then s.h.executed + [s.pc.f] else s.h.executed
  {
    hide MoveGo, MoveOther;
  }

  lemma {:induction false} LogsGrow(s: State, acts: seq<Action>, t: State)
    requires IsRun(s, acts, t)
    ensures s.h.linked <= t.h.linked && s.h.executed <= t.h.executed
    decreases |acts|
  {
    if acts != [] {
      LogsGrow(Next(s, acts[0]), acts[1..], t);
      LogsStep(s, acts[0]);
      hide Next;
    }
  }

  /** Exactly once and in order: what has been called, then what is popped, then what is queued
      is always the link order; and what is linked or called stays so in every later state. */
  lemma ExactlyOnceFifo(s: State, acts: seq<Action>, t: State)
    requires Reachable(s) && IsRun(s, acts, t)
    ensures s.h.linked == s.h.executed + InHand(s.pc) + s.list
    ensures s.h.linked <= t.h.linked && s.h.executed <= t.h.executed
    ensures t.h.executed <= t.h.linked
  {
    LogsGrow(s, acts, t);
    LeadsTrans(Init(), s, t);
    FifoNow(s);
    FifoNow(t);
  }

  lemma FifoNow(s: State)
    requires Reachable(s)
    ensures s.h.linked == s.h.executed + (InHand(s.pc) + s.list)
  {
    InvReachable(s);
  }

  /** What only the runner changes is the same in both states. */
  predicate SameRunner(s: State, t: State) {
    && s.pc == t.pc && s.mode == t.mode && s.retr == t.retr && s.pending == t.pending
    && s.q.started == t.q.started && s.stop.started == t.stop.started && s.zero.started == t.zero.started
  }

  lemma EventKeepsRunner(s: State, a: Action)
    requires Enabled(s, a) && (a.PostNotify? || a.StopNotify? || a.ZeroNotify? || a.Fire?)
    ensures SameRunner(s, NextOther(s, a))
  {
    hide ObserveOther;
  }

  lemma CallKeepsRunner(s: State, a: Action)
    requires Enabled(s, a) && (a.WorkStarted? || a.WorkFinished? || a.PostStart? || a.PostLinked? || a.PostFail?)
    ensures SameRunner(s, NextOther(s, a))
  {
    hide ObserveOther, AfterSub, Bump, SetEv, Ev;
  }

  lemma OpKeepsRunner(s: State, a: Action)
    requires Enabled(s, a) && (a.Initiate? || a.Submit? || a.SubmitFail?)
    ensures SameRunner(s, NextOther(s, a))
  {
    hide ObserveOther, AfterSub, Bump, SetEv, Ev;
  }

  lemma FlagKeepsRunner(s: State, a: Action)
    requires Enabled(s, a) && (a.StopFlag? || a.Complete?)
    ensures SameRunner(s, NextOther(s, a))
  {
    hide ObserveOther, AfterSub, Bump, SetEv, Ev;
  }

  lemma OtherKeepsRunner(s: State, a: Action)
    requires Enabled(s, a) && ByOthers(a)
    ensures SameRunner(s, Next(s, a))
  {
    hide NextOther, SameRunner;
    if a.PostNotify? || a.StopNotify? || a.ZeroNotify? || a.Fire? {
      EventKeepsRunner(s, a);
    } else if a.Initiate? || a.Submit? || a.SubmitFail? {
      OpKeepsRunner(s, a);
    } else if a.StopFlag? || a.Complete? {
      FlagKeepsRunner(s, a);
    } else {
      CallKeepsRunner(s, a);
    }
  }

  /** From `s` to `t` the runner called exactly `called`, in order, and nothing linked was lost. */
  predicate LogsFrom(s: State, t: State, called: seq<Fn>) {
    t.h.executed == s.h.executed + called && s.h.linked <= t.h.linked
  }

  /** Whatever the other calls and the kernel do, what belongs to the runner stays, and no
      function is called. */
  lemma {:induction false} OthersKeepRunner(s: State, acts: seq<Action>, t: State)
    requires IsRun(s, acts, t) && forall a :: a in acts ==> ByOthers(a)
    ensures SameRunner(s, t) && LogsFrom(s, t, [])
    decreases |acts|
  {
    if acts != [] {
      assert acts[0] in acts;
      OtherKeepsRunner(s, acts[0]);
      LogsStep(s, acts[0]);
      hide Next;
      OthersKeepRunner(Next(s, acts[0]), acts[1..], t);
    }
  }

  /** A run during which the runner stays inside one call of `consume`. */
  ghost predicate ConsumeRun(s: State, acts: seq<Action>, t: State)
    decreases |acts|
  {
    && (s.pc.Serve? || s.pc.Popped? || s.pc.InFn?)
    && if acts == [] then s == t
       else acts[0] != Fail && Enabled(s, acts[0]) && ConsumeRun(Next(s, acts[0]), acts[1..], t)
  }

  function ToCall(pc: Pc): nat
    requires pc.Serve? || pc.Popped? || pc.InFn?
  {
    pc.left + One(pc.Popped?)
  }

  lemma {:induction false} ConsumeCounts(s: State, acts: seq<Action>, t: State)
    requires ConsumeRun(s, acts, t)
    ensures IsRun(s, acts, t)
    ensures t.pc.Serve? || t.pc.Popped? || t.pc.InFn?
    ensures |t.h.executed| + ToCall(t.pc) == |s.h.executed| + ToCall(s.pc)
    decreases |acts|
  {
    if acts != [] {
      ConsumeCounts(Next(s, acts[0]), acts[1..], t);
      LogsStep(s, acts[0]);
      ToCallStep(s, acts[0]);
      hide Next;
    }
  }

  lemma ToCallStep(s: State, a: Action)
    requires Enabled(s, a) && a != Fail
    requires s.pc.Serve? || s.pc.Popped? || s.pc.InFn?
    requires var pc := Next(s, a).pc; pc.Serve? || pc.Popped? || pc.InFn?
    ensures ToCall(Next(s, a).pc) + One(a.Go? && s.pc.Popped?) == ToCall(s.pc)
  {
    hide ObserveGo, NextOther;
    if ByOthers(a) {
      OtherKeepsRunner(s, a);
    }
  }

  lemma SamePrefix(executed: seq<Fn>, linked: seq<Fn>, executed': seq<Fn>, linked': seq<Fn>, n: nat)
    requires executed <= linked <= linked' && executed' <= linked'
    requires |executed'| == |executed| + n <= |linked|
    ensures executed' == executed + linked[|executed|..|executed| + n]
  {
    assert executed' == linked'[..|executed'|];
    assert linked == linked'[..|linked|];
  }

  /** A `consume(n)` that completes calls exactly the first n functions present at its start,
      in order, whatever is posted meanwhile. */
  lemma ConsumeRunsTheFirst(s: State, acts: seq<Action>, t: State)
    requires Reachable(s) && s.pc.Serve?
    requires ConsumeRun(s, acts, t) && t.pc.Serve? && t.pc.left == 0
    ensures s.pc.left <= |s.list|
    ensures t.h.executed == s.h.executed + s.list[..s.pc.left]
  {
    hide Next, ConsumeRun, IsRun;
    ConsumeCounts(s, acts, t);
    SourceAssertions(s);
    ExactlyOnceFifo(s, acts, t);
    SamePrefix(s.h.executed, s.h.linked, t.h.executed, t.h.linked, s.pc.left);
  }

  /** What a `consume` has called since it began is what was in front then. */
  lemma CalledInOrder(s: State, t: State, called: seq<Fn>)
    requires Reachable(s) && Reachable(t) && s.pc.Serve?
    requires LogsFrom(s, t, called) && |called| <= s.pc.left
    ensures |called| <= |s.list| && called == s.list[..|called|]
  {
    SourceAssertions(s);
    FifoNow(s);
    FifoNow(t);
    SamePrefix(s.h.executed, s.h.linked, t.h.executed, t.h.linked, |called|);
    var k := |s.h.executed|;
    assert s.h.linked == s.h.executed + s.list;
    assert s.h.linked[k..k + |called|] == s.list[..|called|];
    assert t.h.executed[k..] == called;
  }

  // ---- entries ----

  function ArrivedBy(a: Action): seq<Cqe> {
    match a
    case Fire(fd) => [Internal(fd)]
    case Complete(op) => [User(op)]
    case _ => []
  }

  /** The entries that the kernel appends in the run. */
  function Arrived(acts: seq<Action>): seq<Cqe> {
    if acts == [] then [] else ArrivedBy(acts[0]) + Arrived(acts[1..])
  }

  /** The entry that the step hands to `handle_cqe`. */
  function Handed(s: State, a: Action): seq<Cqe>
    requires Enabled(s, a)
  {
    if a.Go? && s.pc == Wait && Next(s, a).pc.Dispatch? then [Next(s, a).pc.c] else []
  }

  /** The entries that are handled in the run. */
  ghost function Taken(s: State, acts: seq<Action>): seq<Cqe>
    decreases |acts|
  {
    if acts == [] || !Enabled(s, acts[0]) then []
    else Handed(s, acts[0]) + Taken(Next(s, acts[0]), acts[1..])
  }

  lemma OtherEntries(s: State, a: Action)
    requires Enabled(s, a) && ByOthers(a)
    ensures NextOther(s, a).cq == s.cq + ArrivedBy(a)
  {
    hide ObserveOther, AfterSub;
  }

  lemma RestEntries(s: State, a: Action)
    requires Enabled(s, a) && !ByOthers(a) && !a.Go?
    ensures Next(s, a).cq == s.cq
  {
    hide NextGo, NextOther;
  }

  lemma GoEntries(s: State)
    requires CanGo(s)
    ensures s.cq == Handed(s, Go) + NextGo(s).cq
  {
    if s.pc == Wait {
      hide ObserveGo;
    } else {
      NoEntries(s);
      hide NextGo;
    }
  }

  lemma NoEntries(s: State)
    requires CanGo(s) && s.pc != Wait
    ensures NextGo(s).cq == s.cq
  {
    hide ObserveGo, AllStarted;
  }

  lemma StepEntries(s: State, a: Action)
    requires Enabled(s, a)
    ensures s.cq + ArrivedBy(a) == Handed(s, a) + Next(s, a).cq
  {
    if a.Go? {
      GoEntries(s);
      hide NextGo, Handed;
    } else if ByOthers(a) {
      OtherEntries(s, a);
      hide NextOther;
    } else {
      RestEntries(s, a);
      hide Next;
    }
  }

  lemma EntriesJoin(cq: seq<Cqe>, x: seq<Cqe>, xs: seq<Cqe>, y: seq<Cqe>, ys: seq<Cqe>, m: seq<Cqe>, cq': seq<Cqe>)
    requires cq + x == y + m && m + xs == ys + cq'
    ensures cq + (x + xs) == (y + ys) + cq'
  {
    assert cq + (x + xs) == (cq + x) + xs == y + (m + xs) == (y + ys) + cq';
  }

  /** Entries are handled in the order in which the kernel appends them: over every run, those taken
      followed by those still queued are those queued at its start followed by those appended. */
  lemma {:induction false} EntriesInOrder(s: State, acts: seq<Action>, t: State)
    requires IsRun(s, acts, t)
    ensures s.cq + Arrived(acts) == Taken(s, acts) + t.cq
    decreases |acts|
  {
    if acts != [] {
      var a, m := acts[0], Next(s, acts[0]);
      StepEntries(s, a);
      hide Next, Enabled, Handed, ArrivedBy;
      EntriesInOrder(m, acts[1..], t);
      EntriesJoin(s.cq, ArrivedBy(a), Arrived(acts[1..]), Handed(s, a), Taken(m, acts[1..]), m.cq, t.cq);
    }
  }
}
