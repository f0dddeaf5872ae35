/** What `eventfd_queue` is to its users: a queue of functions and a counter that says how many of them
    may be popped.  SpinQueueProof shows that the linked lists under their locks are one, at the grain
    of field accesses, and ProactorQueue that the queue of the run-loop machine is one. */
module CountedQueue {
  import opened Helpers

  type Fn = nat

  /** `writing`: functions linked and not counted in the eventfd yet; `owed`: counts read and not used. */
  datatype Queue = Queue(items: seq<Fn>, counter: nat, writing: nat, owed: int)

  datatype Label = Nothing | Link(f: Fn) | Write | Read(n: nat) | Pop(f: Fn)

  predicate Step(a: Queue, l: Label, b: Queue) {
    match l
    case Nothing => b == a
    case Link(f) => b == a.(items := a.items + [f], writing := a.writing + 1)
    case Write => a.writing > 0 && b == a.(counter := a.counter + 1, writing := a.writing - 1)
    case Read(n) => 0 < n == a.counter && b == a.(counter := 0, owed := a.owed + n)
    case Pop(f) =>
      a.items != [] && f == a.items[0] && a.owed > 0 && b == a.(items := a.items[1..], owed := a.owed - 1)
  }

  ghost predicate IsTrace(a: Queue, labels: seq<Label>, b: Queue)
    decreases |labels|
  {
    if labels == [] then a == b
    else exists m :: Step(a, labels[0], m) && IsTrace(m, labels[1..], b)
  }

  function LinkedBy(l: Label): seq<Fn> {
    if l.Link? then [l.f] else []
  }

  function PoppedBy(l: Label): seq<Fn> {
    if l.Pop? then [l.f] else []
  }

  function Linked(labels: seq<Label>): seq<Fn> {
    if labels == [] then [] else LinkedBy(labels[0]) + Linked(labels[1..])
  }

  function Popped(labels: seq<Label>): seq<Fn> {
    if labels == [] then [] else PoppedBy(labels[0]) + Popped(labels[1..])
  }

  predicate Counted(q: Queue) {
    |q.items| == q.counter + q.writing + q.owed && q.owed >= 0
  }

  lemma StepKeeps(a: Queue, l: Label, b: Queue)
    requires Step(a, l, b)
    ensures a.items + LinkedBy(l) == PoppedBy(l) + b.items
    ensures Counted(a) ==> Counted(b)
  {
  }

  lemma Glue(a: seq<Fn>, x: seq<Fn>, xs: seq<Fn>, y: seq<Fn>, ys: seq<Fn>, m: seq<Fn>, b: seq<Fn>)
    requires a + x == y + m && m + xs == ys + b
    ensures a + (x + xs) == (y + ys) + b
  {
    assert a + (x + xs) == (a + x) + xs == y + (m + xs) == (y + ys) + b;
  }

  /** Over any trace, what was popped followed by what is queued is what was queued followed by what was
      linked; and the queue holds as many functions as are counted, about to be, or owed. */
  lemma {:induction false} TraceIsFifo(a: Queue, labels: seq<Label>, b: Queue)
    requires IsTrace(a, labels, b)
    ensures a.items + Linked(labels) == Popped(labels) + b.items
    ensures Counted(a) ==> Counted(b)
    decreases |labels|
  {
    if labels != [] {
      var m :| Step(a, labels[0], m) && IsTrace(m, labels[1..], b);
      StepKeeps(a, labels[0], m);
      TraceIsFifo(m, labels[1..], b);
      var l, rest := labels[0], labels[1..];
      Glue(a.items, LinkedBy(l), Linked(rest), PoppedBy(l), Popped(rest), m.items, b.items);
    }
  }
}

/** The queue of the run-loop machine. */
module ProactorQueue {
  import opened Helpers
  import opened Proactor
  import opened ProactorInvariant
  import opened ProactorTheorems
  import CountedQueue

  function QueueOf(s: State): CountedQueue.Queue {
    CountedQueue.Queue(s.list, s.q.counter, s.calls[PostWrite], s.pending + GotCount(s.pc) - |InHand(s.pc)|)
  }

  function LabelOf(s: State, a: Action): CountedQueue.Label
    requires Enabled(s, a)
  {
    match a
    case PostLinked(f) => CountedQueue.Link(f)
    case PostNotify => CountedQueue.Write
    case Go =>
      if s.pc == Drain(Q) then CountedQueue.Read(s.q.counter)
      else if s.pc.Serve? && s.pc.left > 0 then CountedQueue.Pop(s.list[0])
      else CountedQueue.Nothing
    case _ => CountedQueue.Nothing
  }

  function TraceOf(s: State, acts: seq<Action>): seq<CountedQueue.Label>
    decreases |acts|
  {
    if acts == [] || !Enabled(s, acts[0]) then []
    else [LabelOf(s, acts[0])] + TraceOf(Next(s, acts[0]), acts[1..])
  }

  lemma LinkMoves(s: State, a: Action)
    requires Enabled(s, a) && (a.PostLinked? || a.PostNotify?)
    ensures CountedQueue.Step(QueueOf(s), LabelOf(s, a), QueueOf(NextOther(s, a)))
  {
    hide ObserveOther, GotCount, InHand;
  }

  lemma NotifyRests(s: State, a: Action)
    requires Enabled(s, a) && (a.StopNotify? || a.ZeroNotify? || a.Fire?)
    ensures QueueOf(NextOther(s, a)) == QueueOf(s)
  {
    hide ObserveOther, GotCount, InHand;
  }

  lemma OtherRests(s: State, a: Action)
    requires Enabled(s, a) && ByOthers(a)
    requires !a.PostLinked? && !a.PostNotify? && !a.StopNotify? && !a.ZeroNotify? && !a.Fire?
    ensures QueueOf(NextOther(s, a)) == QueueOf(s)
  {
    hide ObserveOther, GotCount, InHand;
  }

  lemma OtherMoves(s: State, a: Action)
    requires Enabled(s, a) && ByOthers(a)
    ensures CountedQueue.Step(QueueOf(s), LabelOf(s, a), QueueOf(NextOther(s, a)))
  {
    hide NextOther, QueueOf;
    if a.PostLinked? || a.PostNotify? {
      LinkMoves(s, a);
    } else if a.StopNotify? || a.ZeroNotify? || a.Fire? {
      NotifyRests(s, a);
    } else {
      OtherRests(s, a);
    }
  }

  predicate Consuming(pc: Pc) {
    pc.Serve? || pc.Popped? || pc.InFn? || pc.Got?
  }

  lemma ConsumeMoves(s: State)
    requires CanGo(s) && Consuming(s.pc) && (s.pc.Serve? && s.pc.left > 0 ==> s.pending > 0)
    ensures CountedQueue.Step(QueueOf(s), LabelOf(s, Go), QueueOf(NextGo(s)))
  {
    hide ObserveGo;
  }

  predicate AtEventfd(pc: Pc) {
    pc.Restart? || pc.Dispatch? || pc.Drain? || pc.Arm? || pc.SignalZero? || pc.ArmQ?
  }

  lemma EventfdMoves(s: State)
    requires CanGo(s) && AtEventfd(s.pc)
    ensures CountedQueue.Step(QueueOf(s), LabelOf(s, Go), QueueOf(NextGo(s)))
  {
    hide ObserveGo;
  }

  predicate AtEdge(pc: Pc) {
    pc.RestartClear? || pc.CheckStopped? || pc.CheckWork? || pc.Top? || pc.Finish? || pc.Handled?
  }

  lemma EdgeRests(s: State)
    requires CanGo(s) && AtEdge(s.pc)
    ensures QueueOf(NextGo(s)) == QueueOf(s)
  {
    hide ObserveGo, AllStarted;
  }

  lemma RestRests(s: State)
    requires CanGo(s) && !AtEventfd(s.pc) && !Consuming(s.pc) && !AtEdge(s.pc)
    ensures QueueOf(NextGo(s)) == QueueOf(s)
  {
    hide ObserveGo;
  }

  lemma GoMoves(s: State)
    requires CanGo(s) && (s.pc.Serve? && s.pc.left > 0 ==> s.pending > 0)
    ensures CountedQueue.Step(QueueOf(s), LabelOf(s, Go), QueueOf(NextGo(s)))
  {
    hide NextGo, QueueOf;
    if Consuming(s.pc) {
      ConsumeMoves(s);
    } else if AtEventfd(s.pc) {
      EventfdMoves(s);
    } else if AtEdge(s.pc) {
      EdgeRests(s);
    } else {
      RestRests(s);
    }
  }

  lemma RunnerMoves(s: State, a: Action)
    requires Reachable(s) && Enabled(s, a) && !ByOthers(a)
    ensures CountedQueue.Step(QueueOf(s), LabelOf(s, a), QueueOf(Next(s, a)))
  {
    SourceAssertions(s);
    if a.Go? {
      GoMoves(s);
    } else {
      IdleHands(s, a);
    }
    hide NextGo, Reachable;
  }

  lemma FailRests(s: State)
    requires CanFail(s)
    ensures QueueOf(Next(s, Fail)) == QueueOf(s)
  {
    hide CanGo;
  }

  lemma CallRests(s: State, a: Action)
    requires Enabled(s, a) && (a.CallRestart? || a.CallRun?)
    ensures QueueOf(Next(s, a)) == QueueOf(s)
  {
    hide NextGo, NextOther, NextFail, CanFail, CanGo;
  }

  lemma IdleHands(s: State, a: Action)
    requires Enabled(s, a) && !ByOthers(a) && !a.Go?
    ensures QueueOf(Next(s, a)) == QueueOf(s)
  {
    hide Next, QueueOf, CanFail, CanGo;
    if a.Fail? {
      FailRests(s);
    } else {
      CallRests(s, a);
    }
  }

  /** Every run of the machine is a trace of a counted queue. */
  lemma {:induction false} RunIsTrace(s: State, acts: seq<Action>, t: State)
    requires Reachable(s) && IsRun(s, acts, t)
    ensures CountedQueue.IsTrace(QueueOf(s), TraceOf(s, acts), QueueOf(t))
    decreases |acts|
  {
    if acts != [] {
      var a, m := acts[0], Next(s, acts[0]);
      if ByOthers(a) {
        OtherMoves(s, a);
      } else {
        RunnerMoves(s, a);
      }
      LeadsStep(s, a);
      LeadsTrans(Init(), s, m);
      hide Next, Enabled, LabelOf, QueueOf, Reachable;
      RunIsTrace(m, acts[1..], t);
      TraceBegins(s, acts);
      assert TraceOf(s, acts)[1..] == TraceOf(m, acts[1..]);
    }
  }

  lemma TraceBegins(s: State, acts: seq<Action>)
    requires acts != [] && Enabled(s, acts[0])
    ensures TraceOf(s, acts) == [LabelOf(s, acts[0])] + TraceOf(Next(s, acts[0]), acts[1..])
  {
  }
}
