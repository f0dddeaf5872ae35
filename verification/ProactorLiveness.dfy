/** The run loop does not only stay safe: calls under way, the kernel and the runner finish in a
    bounded number of steps. */
module ProactorLiveness {
  import opened Helpers
  import opened Proactor
  import opened ProactorInvariant
  import opened ProactorTheorems

  /** The steps by which calls already begun and the kernel finish what they are doing. */
  predicate Finishing(a: Action) {
    a.PostLinked? || a.PostFail? || a.PostNotify? || a.StopNotify? || a.ZeroNotify? ||
    a.Submit? || a.SubmitFail? || a.Fire? || a.Complete?
  }

  // ---- a bound on the steps that are left ----

  function CallSteps(calls: multiset<Call>): nat {
    16 * |calls| + 4 * calls[PostLink]
  }

  function EventSteps(e: Event): nat {
    15 * e.counter + 5 * e.armed
  }

  function ServeSteps(src: Source): nat {
    if src.FromCqe? then 13 else 4
  }

  function PcSteps(pc: Pc): nat {
    match pc
    case Idle => 0
    case Restart(Q) => 19
    case Restart(Stop) => 13
    case Restart(Zero) => 7
    case RestartClear => 1
    case CheckStopped => 7
    case CheckWork => 6
    case Top => 5
    case Serve(_, _, src) => ServeSteps(src)
    case Popped(_, _, _, src) => ServeSteps(src) + 2
    case InFn(_, _, src) => ServeSteps(src) + 1
    case Wait => 3
    case Dispatch(_) => 6
    case Drain(_) => 5
    case Got(_) => 14
    case StopTest => 19
    case ZeroTest => 19
    case Arm(_) => 18
    case InOp(_) => 5
    case GiveBack(_, _) => 4
    case SignalZero(_) => 28
    case Handled(_, stop) => if stop then 2 else 12
    case ArmQ => 11
    case Finish => 1
  }

  /** A bound on how many steps are left to the runner, the kernel and the calls under way, when no
      new call is made. */
  function StepsLeft(s: State): nat {
    CallSteps(s.calls) + 25 * |s.held| + 5 * |s.ring| + EventSteps(s.q) + EventSteps(s.stop) + EventSteps(s.zero)
      + 4 * |s.cq| + 3 * |s.list| + PcSteps(s.pc)
  }

  lemma CardChange<T>(m: multiset<T>, x: T, y: T)
    requires x in m
    ensures |m - multiset{x}| == |m| - 1
    ensures |m - multiset{x} + multiset{y}| == |m|
  {
    assert m == m - multiset{x} + multiset{x};
  }

  lemma CardSub(calls: multiset<Call>, c: Call, work: int)
    requires c in calls
    ensures |AfterSub(calls - multiset{c}, work)| <= |calls|
    ensures AfterSub(calls - multiset{c}, work)[PostLink] == calls[PostLink] - One(c == PostLink)
  {
    CardChange(calls, c, ZeroWrite);
  }

  lemma PostFailShrinks(s: State)
    requires Enabled(s, PostFail)
    ensures StepsLeft(NextOther(s, PostFail)) < StepsLeft(s)
  {
    hide ObserveOther, AfterSub, EventSteps, PcSteps;
    CardSub(s.calls, PostLink, s.work);
  }

  lemma PostShrinks(s: State, a: Action)
    requires Enabled(s, a) && (a.PostLinked? || a.PostNotify?)
    ensures StepsLeft(NextOther(s, a)) < StepsLeft(s)
  {
    hide ObserveOther, AfterSub, PcSteps;
    CardChange(s.calls, if a.PostLinked? then PostLink else PostWrite, PostWrite);
  }

  lemma NotifyShrinks(s: State, a: Action)
    requires Enabled(s, a) && (a.StopNotify? || a.ZeroNotify?)
    ensures StepsLeft(NextOther(s, a)) < StepsLeft(s)
  {
    hide ObserveOther, AfterSub, PcSteps;
    CardChange(s.calls, if a.StopNotify? then StopWrite else ZeroWrite, ZeroWrite);
  }

  lemma FireShrinks(s: State, fd: Fd)
    requires Enabled(s, Fire(fd))
    ensures StepsLeft(NextOther(s, Fire(fd))) < StepsLeft(s)
  {
    hide ObserveOther, AfterSub, PcSteps;
  }

  lemma OpShrinks(s: State, a: Action)
    requires Enabled(s, a) && (a.Submit? || a.Complete?)
    ensures StepsLeft(NextOther(s, a)) < StepsLeft(s)
  {
    hide ObserveOther, AfterSub, PcSteps;
    if a.Submit? {
      CardChange(s.calls, InitSubmit(a.op), ZeroWrite);
    } else {
      CardChange(s.ring, a.op, a.op);
    }
  }

  lemma SubmitFailShrinks(s: State, op: Op)
    requires Enabled(s, SubmitFail(op)) && op in s.held
    ensures StepsLeft(NextOther(s, SubmitFail(op))) < StepsLeft(s)
  {
    hide ObserveOther, AfterSub, PcSteps;
    CardSub(s.calls, InitSubmit(op), s.work);
  }

  lemma FinishingShrinks(s: State, a: Action)
    requires Inv(s) && Enabled(s, a) && Finishing(a)
    ensures StepsLeft(Next(s, a)) < StepsLeft(s)
  {
    if a.SubmitFail? {
      OpHeld(s, a.op);
      SubmitFailShrinks(s, a.op);
    }
    hide Inv, StepsLeft, NextOther;
    if a.PostFail? {
      PostFailShrinks(s);
    } else if a.PostLinked? || a.PostNotify? {
      PostShrinks(s, a);
    } else if a.StopNotify? || a.ZeroNotify? {
      NotifyShrinks(s, a);
    } else if a.Fire? {
      FireShrinks(s, a.fd);
    } else if a.Submit? || a.Complete? {
      OpShrinks(s, a);
    }
  }

  lemma PostEffect(s: State, a: Action)
    requires Enabled(s, a) && (a.PostLinked? || a.PostFail? || a.PostNotify?)
    ensures var t := NextOther(s, a);
            |t.list| >= |s.list| && t.stopped == s.stopped && (t.work == s.work || a.PostFail?)
  {
    hide ObserveOther, AfterSub;
  }

  lemma NotifyEffect(s: State, a: Action)
    requires Enabled(s, a) && (a.StopNotify? || a.ZeroNotify? || a.Fire?)
    ensures var t := NextOther(s, a); t.list == s.list && t.stopped == s.stopped && t.work == s.work
  {
    hide ObserveOther;
  }

  lemma OpEffect(s: State, a: Action)
    requires Enabled(s, a) && (a.Submit? || a.SubmitFail? || a.Complete?)
    ensures var t := NextOther(s, a);
            t.list == s.list && t.stopped == s.stopped && (t.work == s.work || a.SubmitFail?)
  {
    hide ObserveOther, AfterSub;
  }

  lemma FinishingEffect(s: State, a: Action)
    requires Enabled(s, a) && Finishing(a)
    ensures var t := Next(s, a);
            && t.pc == s.pc && |t.list| >= |s.list| && t.stopped == s.stopped
            && (t.work == s.work || a.PostFail? || a.SubmitFail?)
  {
    OtherKeepsRunner(s, a);
    hide NextOther;
    if a.PostLinked? || a.PostFail? || a.PostNotify? {
      PostEffect(s, a);
    } else if a.StopNotify? || a.ZeroNotify? || a.Fire? {
      NotifyEffect(s, a);
    } else {
      OpEffect(s, a);
    }
  }

  lemma DemandStays(s: State, a: Action)
    requires Inv(s) && Enabled(s, a) && Finishing(a) && s.pc == Wait && Demand(s)
    ensures Next(s, a).pc == Wait && Demand(Next(s, a))
  {
    FinishingEffect(s, a);
    if a.SubmitFail? {
      OpHeld(s, a.op);
    }
    hide Next, PollsInv, QueueInv, FifoInv, OpsInv, ServeInv, FlagsInv, StopInv, ZeroInv, CountInv, ReasonInv;
  }

  /** A sleeping runner with something to do is woken: the calls under way and the kernel
      take finitely many steps, and as long as the runner has no entry one of them can still
      take one. */
  lemma {:induction false} WakeupInevitable(s: State, acts: seq<Action>, t: State)
    requires Reachable(s) && s.pc == Wait && Demand(s)
    requires IsRun(s, acts, t) && forall a :: a in acts ==> Finishing(a)
    ensures |acts| + StepsLeft(t) <= StepsLeft(s)
    ensures t.cq != [] || exists a :: Finishing(a) && Enabled(t, a)
    decreases |acts|
  {
    InvReachable(s);
    if acts == [] {
      if s.cq == [] {
        SleeperHasHelp(s);
      }
    } else {
      assert acts[0] in acts;
      FinishingShrinks(s, acts[0]);
      DemandStays(s, acts[0]);
      LeadsStep(s, acts[0]);
      LeadsTrans(Init(), s, Next(s, acts[0]));
      WakeupInevitable(Next(s, acts[0]), acts[1..], t);
    }
  }

  lemma SleeperHasHelp(s: State)
    requires Reachable(s) && s.pc == Wait && s.cq == [] && Demand(s)
    ensures exists a :: Finishing(a) && Enabled(s, a)
  {
    InvReachable(s);
    hide OpsInv, CountInv, ReasonInv, FifoInv;
    if s.list != [] {
      assert Enabled(s, if PostWrite in s.calls then PostNotify else Fire(Q));
    } else if s.stopped {
      assert Enabled(s, if StopWrite in s.calls then StopNotify else Fire(Stop));
    } else {
      assert Enabled(s, if ZeroWrite in s.calls then ZeroNotify else Fire(Zero));
    }
  }

  // ---- a call of the run loop comes to its end ----

  predicate Arming(pc: Pc) {
    pc.Restart? || pc.Arm? || pc.ArmQ?
  }

  lemma RestartShrinks(s: State)
    requires CanGo(s) && s.pc.Restart?
    ensures StepsLeft(NextGo(s)) < StepsLeft(s)
  {
    hide ObserveGo, CallSteps, AllStarted, ReadOut, Bump;
  }

  lemma ArmShrinks(s: State)
    requires CanGo(s) && (s.pc.Arm? || s.pc.ArmQ?)
    ensures StepsLeft(NextGo(s)) < StepsLeft(s)
  {
    hide ObserveGo, CallSteps, AllStarted, ReadOut, Bump;
  }

  lemma DrainShrinks(s: State)
    requires CanGo(s) && s.pc.Drain?
    ensures StepsLeft(NextGo(s)) < StepsLeft(s)
  {
    hide ObserveGo, CallSteps;
  }

  lemma GiveBackShrinks(s: State)
    requires CanGo(s) && s.pc.GiveBack? && s.pc.op in s.held
    ensures StepsLeft(NextGo(s)) < StepsLeft(s)
  {
    hide ObserveGo, CallSteps, EventSteps;
    assert s.held == (s.held - {s.pc.op}) + {s.pc.op};
  }

  lemma SignalShrinks(s: State)
    requires CanGo(s) && s.pc.SignalZero?
    ensures StepsLeft(NextGo(s)) < StepsLeft(s)
  {
    hide ObserveGo, CallSteps;
  }

  lemma ServeShrinks(s: State)
    requires CanGo(s) && (s.pc.Serve? || s.pc.Popped? || s.pc.InFn?)
    ensures StepsLeft(NextGo(s)) < StepsLeft(s)
  {
    hide ObserveGo, CallSteps, EventSteps;
  }

  lemma DispatchShrinks(s: State)
    requires CanGo(s) && s.pc.Dispatch?
    ensures StepsLeft(NextGo(s)) < StepsLeft(s)
  {
    hide ObserveGo, CallSteps;
  }

  /** The entry check and the way out. */
  predicate AtEdge(pc: Pc) {
    pc.RestartClear? || pc.CheckStopped? || pc.CheckWork? || pc.Top? || pc.Finish?
  }

  lemma EdgeShrinks(s: State)
    requires CanGo(s) && AtEdge(s.pc)
    ensures StepsLeft(NextGo(s)) < StepsLeft(s)
  {
    hide ObserveGo, CallSteps, EventSteps, AllStarted;
  }

  lemma RestShrinks(s: State)
    requires CanGo(s) && !Arming(s.pc) && !AtEdge(s.pc) && !s.pc.Drain? && !s.pc.GiveBack? && !s.pc.SignalZero?
    requires !s.pc.Serve? && !s.pc.Popped? && !s.pc.InFn? && !s.pc.Dispatch?
    ensures StepsLeft(NextGo(s)) < StepsLeft(s)
  {
    hide ObserveGo, CallSteps, EventSteps;
  }

  lemma GoShrinks(s: State)
    requires CanGo(s) && (s.pc.GiveBack? ==> s.pc.op in s.held)
    ensures StepsLeft(NextGo(s)) < StepsLeft(s)
  {
    hide NextGo, StepsLeft, CanGo;
    match s.pc
    case Restart(_) => RestartShrinks(s);
    case Arm(_) => ArmShrinks(s);
    case ArmQ => ArmShrinks(s);
    case Drain(_) => DrainShrinks(s);
    case GiveBack(_, _) => GiveBackShrinks(s);
    case SignalZero(_) => SignalShrinks(s);
    case Serve(_, _, _) => ServeShrinks(s);
    case Popped(_, _, _, _) => ServeShrinks(s);
    case InFn(_, _, _) => ServeShrinks(s);
    case Dispatch(_) => DispatchShrinks(s);
    case _ =>
      if AtEdge(s.pc) {
        EdgeShrinks(s);
      } else {
        RestShrinks(s);
      }
  }

  lemma FailShrinks(s: State)
    requires CanFail(s)
    ensures StepsLeft(NextFail(s)) < StepsLeft(s)
  {
    hide CallSteps, EventSteps;
  }

  /** The first step of a call of another thread, or of a handler. */
  predicate Begins(a: Action) {
    a.WorkStarted? || a.WorkFinished? || a.PostStart? || a.StopFlag? || a.Initiate?
  }

  lemma BeginGrows(s: State, a: Action)
    requires Enabled(s, a) && Begins(a)
    ensures StepsLeft(NextOther(s, a)) <= StepsLeft(s) + 41
  {
    hide ObserveOther, EventSteps;
  }

  /** Everything but beginning a call brings the end nearer, and beginning one puts it off by a constant. */
  lemma StepBound(s: State, a: Action)
    requires Reachable(s) && Enabled(s, a) && !a.CallRestart? && !a.CallRun?
    ensures StepsLeft(Next(s, a)) + 1 <= StepsLeft(s) + 42 * One(Begins(a))
  {
    if a.Go? {
      SourceAssertions(s);
      GoShrinks(s);
    } else if a.Fail? {
      FailShrinks(s);
    } else if Begins(a) {
      BeginGrows(s, a);
    } else {
      InvReachable(s);
      FinishingShrinks(s, a);
    }
    hide NextGo, NextFail, NextOther, StepsLeft, Inv, Reachable;
  }

  /** The number of calls that are begun in the run. */
  function CallsBegun(acts: seq<Action>): nat {
    if acts == [] then 0 else One(Begins(acts[0])) + CallsBegun(acts[1..])
  }

  /** However the threads and the kernel interleave and whatever throws: between two calls of the run
      loop there are no more steps than the state and the number of calls begun allow. */
  lemma {:induction false} RunsAreBounded(s: State, acts: seq<Action>, t: State)
    requires Reachable(s) && IsRun(s, acts, t) && forall a :: a in acts ==> !a.CallRestart? && !a.CallRun?
    ensures Reachable(t) && |acts| + StepsLeft(t) <= StepsLeft(s) + 42 * CallsBegun(acts)
    decreases |acts|
  {
    if acts != [] {
      assert acts[0] in acts;
      StepBound(s, acts[0]);
      LeadsStep(s, acts[0]);
      LeadsTrans(Init(), s, Next(s, acts[0]));
      RunsAreBounded(Next(s, acts[0]), acts[1..], t);
    }
  }

  // ---- what holds at the end ----

  /** Steps that no exception takes and that begin no call. */
  predicate Progress(a: Action) {
    a.Go? || Finishing(a)
  }

  /** The steps of the runner, with exceptions, and those that finish what is under way. */
  predicate Closing(a: Action) {
    a.Go? || a.Fail? || Finishing(a)
  }

  lemma CallsCanFinish(s: State, c: Call)
    requires c in s.calls
    ensures exists a :: Progress(a) && Enabled(s, a)
  {
    var a := match c
      case PostLink => PostFail
      case PostWrite => PostNotify
      case ZeroWrite => ZeroNotify
      case StopWrite => StopNotify
      case InitSubmit(op) => Submit(op);
    assert Progress(a) && Enabled(s, a);
  }

  lemma OpsCanFinish(s: State, op: Op)
    requires op in s.ring
    ensures exists a :: Progress(a) && Enabled(s, a)
  {
    assert Progress(Complete(op)) && Enabled(s, Complete(op));
  }

  /** Where nothing but a new call or an exception can happen, all that was posted has been called: the
      runner is out of the run loop, or sleeps in a blocking call with work that others hold; no
      call and no operation is outstanding. */
  lemma NothingLeftUndone(s: State)
    requires Reachable(s) && forall a :: Progress(a) ==> !Enabled(s, a)
    ensures s.calls == multiset{} && s.ring == multiset{}
    ensures s.pc.Idle? || (Blocked(s) && s.list == [] && s.h.executed == s.h.linked && s.pending == 0)
    ensures !s.pc.Idle? ==> s.mode.blocking && s.work > 0 && !s.stopped
  {
    assert !Enabled(s, Go);
    if c :| c in s.calls {
      CallsCanFinish(s, c);
    }
    if op :| op in s.ring {
      OpsCanFinish(s, op);
    }
    RunnerNeverStuck(s);
    if !s.pc.Idle? {
      forall fd
        ensures !Enabled(s, Fire(fd))
      {
        assert Progress(Fire(fd));
      }
      NoLostWakeup(s);
      FifoNow(s);
    }
    hide CanGo, Reachable;
  }

  /** What was posted is called: from any reachable state the runner, the kernel and the calls under way
      take a bounded number of steps, and where they can take no more every linked function has
      been called, unless the runner has left the run loop; `poll` and `poll_one` always leave it. */
  lemma PostedIsCalled(s: State, acts: seq<Action>, t: State)
    requires Reachable(s) && IsRun(s, acts, t) && forall a :: a in acts ==> Closing(a)
    ensures |acts| + StepsLeft(t) <= StepsLeft(s)
    ensures (forall a :: Progress(a) ==> !Enabled(t, a)) ==>
              && t.calls == multiset{} && t.ring == multiset{}
              && (t.pc.Idle? || (Blocked(t) && t.list == [] && t.h.executed == t.h.linked && !t.stopped))
              && (!t.mode.blocking ==> t.pc.Idle?)
  {
    NoneBegun(acts);
    RunsAreBounded(s, acts, t);
    if forall a :: Progress(a) ==> !Enabled(t, a) {
      NothingLeftUndone(t);
    }
    hide Enabled, Blocked;
  }

  lemma {:induction false} NoneBegun(acts: seq<Action>)
    requires forall a :: a in acts ==> Closing(a)
    ensures CallsBegun(acts) == 0 && forall a :: a in acts ==> !a.CallRestart? && !a.CallRun?
    decreases |acts|
  {
    if acts != [] {
      assert acts[0] in acts;
      NoneBegun(acts[1..]);
    }
  }

  // ---- a call with a reason to end comes back ----

  /** The runner is inside a call of the run loop that has a reason to end, or outside any. */
  predicate MustEnd(s: State) {
    s.pc.Idle? || (!s.pc.Restart? && !s.pc.RestartClear? && (s.stopped || s.work == 0))
  }

  /** The program counters whose step touches an eventfd. */
  predicate AtEvent(pc: Pc) {
    Arming(pc) || pc.Drain? || pc.Dispatch? || pc.SignalZero?
  }

  lemma EventEffect(s: State)
    requires CanGo(s) && AtEvent(s.pc) && !s.pc.Restart?
    ensures var t := NextGo(s);
            !t.pc.Restart? && !t.pc.RestartClear? && t.stopped == s.stopped && t.work == s.work
  {
    hide ObserveGo;
  }

  lemma ServeEffect(s: State)
    requires CanGo(s) && (s.pc.Serve? || s.pc.Popped? || s.pc.InFn?)
    ensures var t := NextGo(s);
            !t.pc.Restart? && !t.pc.RestartClear? && s.stopped == t.stopped && (t.work == s.work || s.pc.Popped?)
  {
    hide ObserveGo;
  }

  lemma EdgeEffect(s: State)
    requires CanGo(s) && AtEdge(s.pc) && !s.pc.RestartClear?
    ensures var t := NextGo(s);
            !t.pc.Restart? && !t.pc.RestartClear? && (s.stopped ==> t.stopped) && t.work == s.work
  {
    hide ObserveGo, AllStarted;
  }

  lemma RestEffect(s: State)
    requires CanGo(s) && !AtEvent(s.pc) && !AtEdge(s.pc) && !s.pc.Serve? && !s.pc.Popped? && !s.pc.InFn?
    ensures var t := NextGo(s);
            && !t.pc.Restart? && !t.pc.RestartClear? && s.stopped == t.stopped
            && (t.work == s.work || s.pc.GiveBack?)
  {
    hide ObserveGo;
  }

  lemma GoEffect(s: State)
    requires CanGo(s) && !s.pc.Restart? && !s.pc.RestartClear?
    ensures var t := NextGo(s);
            && !t.pc.Restart? && !t.pc.RestartClear? && (s.stopped ==> t.stopped)
            && (t.work == s.work || s.pc.Popped? || s.pc.GiveBack?)
  {
    hide NextGo, CanGo;
    if AtEvent(s.pc) {
      EventEffect(s);
    } else if s.pc.Serve? || s.pc.Popped? || s.pc.InFn? {
      ServeEffect(s);
    } else if AtEdge(s.pc) {
      EdgeEffect(s);
    } else {
      RestEffect(s);
    }
  }

  lemma ClosingStep(s: State, a: Action)
    requires Reachable(s) && MustEnd(s) && Enabled(s, a) && Closing(a)
    ensures MustEnd(Next(s, a))
  {
    SourceAssertions(s);
    if a.Go? {
      GoEffect(s);
    } else if Finishing(a) {
      FinishingEffect(s, a);
      if a.PostFail? || a.SubmitFail? {
        NoDecrementWraps(s, a);
      }
    }
    hide NextGo, NextOther, Reachable;
  }

  lemma CanClose(s: State)
    requires Reachable(s) && MustEnd(s)
    ensures s.pc.Idle? || exists a :: Progress(a) && Enabled(s, a)
  {
    RunnerNeverStuck(s);
    if CanGo(s) {
      assert Enabled(s, Go);
    } else if s.pc == Wait {
      SleeperHasHelp(s);
    }
    hide CanGo, Finishing;
  }

  lemma {:induction false} MustEndStays(s: State, acts: seq<Action>, t: State)
    requires Reachable(s) && MustEnd(s)
    requires IsRun(s, acts, t) && forall a :: a in acts ==> Closing(a)
    ensures MustEnd(t)
    decreases |acts|
  {
    hide MustEnd, Closing;
    if acts != [] {
      assert acts[0] in acts;
      ClosingStep(s, acts[0]);
      LeadsStep(s, acts[0]);
      LeadsTrans(Init(), s, Next(s, acts[0]));
      hide Next, Enabled, Reachable;
      MustEndStays(Next(s, acts[0]), acts[1..], t);
    }
  }

  /** A call of `run`, `run_one`, `poll` or `poll_one` during which `stop` was called, or whose work is
      zero, comes back, by a return or by an exception: as long as no new call is made the
      runner, the kernel and the calls under way take a bounded number of steps, and until the
      runner is out of the call one of them can always take another. */
  lemma CallComesBack(s: State, acts: seq<Action>, t: State)
    requires Reachable(s) && MustEnd(s)
    requires IsRun(s, acts, t) && forall a :: a in acts ==> Closing(a)
    ensures |acts| + StepsLeft(t) <= StepsLeft(s)
    ensures t.pc == Idle || exists a :: Progress(a) && Enabled(t, a)
  {
    hide Reachable, MustEnd, IsRun, Closing, Progress, Enabled, StepsLeft;
    NoneBegun(acts);
    RunsAreBounded(s, acts, t);
    MustEndStays(s, acts, t);
    CanClose(t);
  }

  // ---- what `stop` does ----

  /** Whether the stop flag is set after a step, by the step alone. */
  function FlagAfter(flag: bool, s: State, a: Action): bool {
    if a.StopFlag? || (a.Go? && s.pc == Finish) then true
    else if a.Go? && s.pc == RestartClear then false
    else flag
  }

  lemma FlagStep(s: State, a: Action)
    requires Enabled(s, a)
    ensures Next(s, a).stopped == FlagAfter(s.stopped, s, a)
  {
    if a.Go? {
      FlagGo(s);
    } else if a.PostLinked? || a.PostFail? || a.PostNotify? {
      PostEffect(s, a);
    } else if a.StopNotify? || a.ZeroNotify? || a.Fire? {
      NotifyEffect(s, a);
    } else if a.Submit? || a.SubmitFail? || a.Complete? {
      OpEffect(s, a);
    } else if a.StopFlag? || a.WorkStarted? || a.WorkFinished? || a.PostStart? || a.Initiate? {
      BeginEffect(s, a);
    }
    hide NextGo, NextOther;
  }

  lemma BeginEffect(s: State, a: Action)
    requires Enabled(s, a) && Begins(a)
    ensures NextOther(s, a).stopped == (s.stopped || a.StopFlag?)
  {
    hide ObserveOther, AfterSub;
  }

  lemma FlagGo(s: State)
    requires CanGo(s)
    ensures NextGo(s).stopped == FlagAfter(s.stopped, s, Go)
  {
    if AtEvent(s.pc) {
      FlagAtEvent(s);
    } else {
      FlagElsewhere(s);
    }
    hide NextGo, CanGo;
  }

  lemma FlagAtEvent(s: State)
    requires CanGo(s) && AtEvent(s.pc)
    ensures NextGo(s).stopped == s.stopped
  {
    hide ObserveGo;
  }

  lemma FlagElsewhere(s: State)
    requires CanGo(s) && !AtEvent(s.pc)
    ensures NextGo(s).stopped == FlagAfter(s.stopped, s, Go)
  {
    hide ObserveGo, AllStarted;
  }

  /** The value of the stop flag, read off the run alone. */
  ghost function FlagOf(flag: bool, s: State, acts: seq<Action>): bool
    decreases |acts|
  {
    if acts == [] || !Enabled(s, acts[0]) then flag
    else FlagOf(FlagAfter(flag, s, acts[0]), Next(s, acts[0]), acts[1..])
  }

  /** The stop flag is set exactly when, since the last `restart` cleared it, `stop` was called or a call
      of the run loop returned. */
  lemma {:induction false} FlagIsHistory(s: State, acts: seq<Action>, t: State)
    requires IsRun(s, acts, t)
    ensures t.stopped == FlagOf(s.stopped, s, acts)
    decreases |acts|
  {
    if acts != [] {
      FlagStep(s, acts[0]);
      hide Next, Enabled, FlagAfter;
      FlagIsHistory(Next(s, acts[0]), acts[1..], t);
    }
  }

  /** The run contains no `restart` that gets as far as clearing the flag. */
  ghost predicate NeverClears(s: State, acts: seq<Action>)
    decreases |acts|
  {
    acts == [] || !Enabled(s, acts[0]) ||
    (!(acts[0].Go? && s.pc == RestartClear) && NeverClears(Next(s, acts[0]), acts[1..]))
  }

  /** A `stop` sets the flag, and it stays set until a `restart` clears it. */
  lemma {:induction false} StopStays(s: State, acts: seq<Action>, t: State)
    requires IsRun(s, acts, t) && NeverClears(s, acts)
    ensures s.stopped || StopFlag in acts ==> t.stopped
    decreases |acts|
  {
    if acts != [] {
      assert StopFlag in acts ==> acts[0] == StopFlag || StopFlag in acts[1..];
      FlagStep(s, acts[0]);
      hide Next, Enabled;
      StopStays(Next(s, acts[0]), acts[1..], t);
    }
  }

  /** In a call of the run loop, and after it until `restart`, the runner is not in `restart`. */
  lemma {:induction false} CallNeverClears(s: State, acts: seq<Action>, t: State)
    requires IsRun(s, acts, t) && !s.pc.Restart? && !s.pc.RestartClear?
    requires forall a :: a in acts ==> !a.CallRestart?
    ensures NeverClears(s, acts) && !t.pc.Restart? && !t.pc.RestartClear?
    decreases |acts|
  {
    if acts != [] {
      var a := acts[0];
      assert a in acts;
      if a.Go? {
        GoEffect(s);
      } else if ByOthers(a) {
        OtherKeepsRunner(s, a);
      }
      hide NextGo, NextOther;
      CallNeverClears(Next(s, a), acts[1..], t);
    }
  }

  /** `stop` makes the call return: once `stop` has been called during a call of the run loop, the call
      comes back.  `before`: what has happened since the call began; `acts`: any further steps that
      begin no call. */
  lemma StopEndsTheCall(s: State, m: Mode, before: seq<Action>, u: State, acts: seq<Action>, t: State)
    requires Reachable(s) && s.pc == Idle
    requires IsRun(Next(s, CallRun(m)), before, u) && forall a :: a in before ==> !a.CallRestart?
    requires StopFlag in before
    requires IsRun(u, acts, t) && forall a :: a in acts ==> Closing(a)
    ensures u.stopped && |acts| + StepsLeft(t) <= StepsLeft(u)
    ensures t.pc == Idle || exists a :: Progress(a) && Enabled(t, a)
  {
    var c := Next(s, CallRun(m));
    ReachStep(s, CallRun(m));
    CallNeverClears(c, before, u);
    StopStays(c, before, u);
    LeadsTrans(Init(), c, u);
    assert MustEnd(u);
    hide Next, IsRun, Reachable, StepsLeft, Closing, Progress, Enabled;
    CallComesBack(u, acts, t);
  }
}
