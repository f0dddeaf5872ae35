/** What one call of the run loop returns and why, read off the run itself. */
module ProactorCalls {
  import opened Helpers
  import opened Proactor
  import opened ProactorInvariant
  import opened ProactorTheorems

  /** Some state of the run satisfies `p`. */
  ghost predicate Visits(s: State, acts: seq<Action>, p: State -> bool)
    decreases |acts|
  {
    p(s) || (acts != [] && Enabled(s, acts[0]) && Visits(Next(s, acts[0]), acts[1..], p))
  }

  /** The step that starts a handler: calling a popped function, or completing a user operation. */
  predicate StartsHandler(s: State, a: Action) {
    a.Go? && (s.pc.Popped? || (s.pc.Dispatch? && s.pc.c.User?))
  }

  /** The number of handlers started in the run. */
  ghost function HandlersStarted(s: State, acts: seq<Action>): nat
    decreases |acts|
  {
    if acts == [] || !Enabled(s, acts[0]) then 0
    else One(StartsHandler(s, acts[0])) + HandlersStarted(Next(s, acts[0]), acts[1..])
  }

  predicate OutOfWork(s: State) {
    s.work == 0
  }

  /** The entry check is about to find a cleared `*_started_` flag or the stop flag. */
  predicate FlagRefuses(s: State) {
    s.pc == CheckStopped && (!AllStarted(s) || s.stopped)
  }

  /** A peek is about to find no entry. */
  predicate PeeksNothing(s: State) {
    s.pc == Wait && s.cq == []
  }

  /** The run contains no further call of the run loop. */
  predicate OneCall(acts: seq<Action>) {
    forall a :: a in acts ==> !a.CallRun?
  }

  /** `s` leads to `t` without a further call of the run loop. */
  ghost predicate Within(s: State, t: State) {
    exists acts :: IsRun(s, acts, t) && OneCall(acts)
  }

  lemma WithinRefl(s: State)
    ensures Within(s, s)
  {
    assert IsRun(s, [], s);
  }

  lemma WithinStep(s0: State, s: State, a: Action)
    requires Within(s0, s) && Enabled(s, a) && !a.CallRun?
    ensures Within(s0, Next(s, a))
  {
    var acts :| IsRun(s0, acts, s) && OneCall(acts);
    assert [a][1..] == [];
    assert IsRun(Next(s, a), [], Next(s, a));
    assert IsRun(s, [a], Next(s, a));
    RunConcat(s0, acts, s, [a], Next(s, a));
    assert OneCall(acts + [a]);
  }

  lemma ModeStep(s: State, a: Action)
    requires Enabled(s, a) && !a.CallRun?
    ensures Next(s, a).mode == s.mode
  {
    if ByOthers(a) {
      OtherKeepsRunner(s, a);
      hide NextOther;
    } else {
      hide ObserveGo;
    }
  }

  lemma ObservedGo(s: State)
    requires CanGo(s)
    ensures var h := ObserveGo(s);
            && h.ran == s.h.ran + One(StartsHandler(s, Go))
            && (h.stops > 0 ==> s.h.stops > 0)
            && (h.zeroSeen ==> s.h.zeroSeen || OutOfWork(s) || (s.pc.Popped? && s.work == 1))
            && (h.idleSeen ==> s.h.idleSeen || PeeksNothing(s))
            && (h.refused ==> s.h.refused || FlagRefuses(s) || OutOfWork(s))
  {
  }

  lemma PoppedWork(s: State)
    requires CanGo(s)
    ensures s.pc.Popped? ==> NextGo(s).work == s.work - 1
  {
  }

  lemma HistoryStep(s: State, a: Action)
    requires Enabled(s, a) && !a.CallRun?
    ensures var t := Next(s, a);
            && t.h.ran == s.h.ran + One(StartsHandler(s, a))
            && (t.h.stops > 0 ==> s.h.stops > 0 || a.StopFlag?)
            && (t.h.zeroSeen ==> s.h.zeroSeen || OutOfWork(s) || OutOfWork(t))
            && (t.h.idleSeen ==> s.h.idleSeen || PeeksNothing(s))
            && (t.h.refused ==> s.h.refused || FlagRefuses(s) || OutOfWork(s))
            && t.mode == s.mode
  {
    ModeStep(s, a);
    if a.Go? {
      ObservedGo(s);
      PoppedWork(s);
    }
    hide MoveGo, MoveOther, ObserveGo;
  }

  /** The observations recorded along a run are facts of that run. */
  lemma {:induction false} HistoryIsTrue(s: State, acts: seq<Action>, t: State)
    requires IsRun(s, acts, t) && OneCall(acts)
    ensures t.mode == s.mode && t.h.ran == s.h.ran + HandlersStarted(s, acts)
    ensures t.h.stops > 0 ==> s.h.stops > 0 || StopFlag in acts
    ensures t.h.zeroSeen ==> s.h.zeroSeen || Visits(s, acts, OutOfWork)
    ensures t.h.idleSeen ==> s.h.idleSeen || Visits(s, acts, PeeksNothing)
    ensures t.h.refused ==> s.h.refused || Visits(s, acts, FlagRefuses) || Visits(s, acts, OutOfWork)
    decreases |acts|
  {
    if acts != [] {
      var m := Next(s, acts[0]);
      assert acts[0] in acts;
      HistoryStep(s, acts[0]);
      hide Next;
      HistoryIsTrue(m, acts[1..], t);
      assert Visits(m, acts[1..], OutOfWork) ==> Visits(s, acts, OutOfWork);
      assert OutOfWork(m) ==> Visits(m, acts[1..], OutOfWork);
    }
  }

  /** A call that returns normally returns the number of handlers it started: queued functions
      called and user completions delivered, and nothing for the context's own entries.
      `run_one` and `poll_one` return at most one. */
  lemma ReturnsHandlerCount(s: State, m: Mode, acts: seq<Action>, t: State)
    requires Reachable(s) && s.pc == Idle
    requires IsRun(Next(s, CallRun(m)), acts, t) && OneCall(acts) && t.pc == Finish
    ensures t.retr == HandlersStarted(Next(s, CallRun(m)), acts)
    ensures t.mode.one ==> t.retr <= 1
  {
    var c := Next(s, CallRun(m));
    LeadsStep(s, CallRun(m));
    LeadsTrans(Init(), s, c);
    LeadsTrans(Init(), c, t);
    HistoryIsTrue(c, acts, t);
    InvReachable(t);
    assert CountInv(t.pc, t.mode.one, t.retr, t.h.ran);
  }

  /** `run` and `poll` return normally only when during the call a `stop()` set the flag, the
      work was zero, the entry check found a flag that refuses and nothing was run, or, for
      `poll` alone, no entry was available. */
  lemma ReturnsForAReason(s: State, m: Mode, acts: seq<Action>, t: State)
    requires Reachable(s) && s.pc == Idle && !m.one
    requires IsRun(Next(s, CallRun(m)), acts, t) && OneCall(acts) && t.pc == Finish
    ensures var c := Next(s, CallRun(m));
            || StopFlag in acts
            || Visits(c, acts, OutOfWork)
            || (t.retr == 0 && Visits(c, acts, FlagRefuses))
            || (!m.blocking && Visits(c, acts, PeeksNothing))
  {
    var c := Next(s, CallRun(m));
    LeadsStep(s, CallRun(m));
    LeadsTrans(Init(), s, c);
    LeadsTrans(Init(), c, t);
    HistoryIsTrue(c, acts, t);
    InvReachable(t);
    assert CountInv(t.pc, t.mode.one, t.retr, t.h.ran);
    assert ReasonInv(t.pc, t.mode, t.h.ran, t.h);
  }

  // ---- run_one and poll_one ----

  /** The step that decides that a call of `run_one` or `poll_one` runs no handler: the entry check
      refuses, a peek finds no entry, or the first entry is the one of the stop or zero eventfd. */
  predicate PassesBy(s: State, a: Action) {
    a.Go? &&
    match s.pc
    case CheckStopped => FlagRefuses(s)
    case CheckWork => s.work == 0
    case Wait => s.cq == []
    case Dispatch(Internal(fd)) => fd != Q
    case _ => false
  }

  ghost predicate PassedBy(s: State, acts: seq<Action>)
    decreases |acts|
  {
    acts != [] && Enabled(s, acts[0]) && (PassesBy(s, acts[0]) || PassedBy(Next(s, acts[0]), acts[1..]))
  }

  datatype Phase = Looking | RunsNone | RunsOne | Left

  /** How far a call of `run_one` or `poll_one` has come. */
  function PhaseOf(pc: Pc, retr: nat): Phase {
    match pc
    case Idle => Left
    case Restart(_) => Left
    case RestartClear => Left
    case CheckStopped => Looking
    case CheckWork => Looking
    case Top => Looking
    case Wait => Looking
    case Dispatch(_) => Looking
    case Drain(fd) => if fd == Q then RunsOne else RunsNone
    case StopTest => RunsNone
    case ZeroTest => RunsNone
    case Arm(_) => RunsNone
    case Handled(handlers, _) => if handlers == 0 then RunsNone else RunsOne
    case Finish => if retr == 0 then RunsNone else RunsOne
    case _ => RunsOne
  }

  lemma PhaseLooking(s: State)
    requires CanGo(s) && s.mode.one && PhaseOf(s.pc, s.retr) == Looking && s.retr == 0
    ensures var t := PhaseOf(NextGo(s).pc, NextGo(s).retr);
            if PassesBy(s, Go) then t == RunsNone else t == Looking || t == RunsOne
  {
    hide ObserveGo, Bump, ReadOut, ArmPoll, AllStarted;
  }

  lemma PhaseServing(s: State)
    requires CanGo(s) && s.mode.one && SourceMode(s.pc, true) && (s.pc.Serve? || s.pc.Popped? || s.pc.InFn?)
    ensures PhaseOf(NextGo(s).pc, NextGo(s).retr) == RunsOne
  {
    hide ObserveGo;
  }

  predicate InHandler(pc: Pc) {
    pc.InOp? || pc.GiveBack? || pc.SignalZero?
  }

  lemma PhaseHandler(s: State)
    requires CanGo(s) && s.mode.one && InHandler(s.pc)
    ensures var t := PhaseOf(NextGo(s).pc, NextGo(s).retr); t == RunsOne || t == Left
  {
    hide ObserveGo, ReadOut, ArmPoll, SetEv;
  }

  lemma PhaseDeciding(s: State)
    requires CanGo(s) && s.mode.one && PhaseOf(s.pc, s.retr) != Looking && SourceMode(s.pc, true)
    requires !(s.pc.Serve? || s.pc.Popped? || s.pc.InFn?) && !InHandler(s.pc)
    ensures var f, t := PhaseOf(s.pc, s.retr), PhaseOf(NextGo(s).pc, NextGo(s).retr);
            t == f || t == Left
  {
    hide ObserveGo, Bump, SetEv;
  }

  lemma PhaseGo(s: State)
    requires CanGo(s) && s.mode.one && SourceMode(s.pc, true)
    requires PhaseOf(s.pc, s.retr) == Looking ==> s.retr == 0
    ensures var f, t := PhaseOf(s.pc, s.retr), PhaseOf(NextGo(s).pc, NextGo(s).retr);
            && (f == Looking ==> if PassesBy(s, Go) then t == RunsNone else t == Looking || t == RunsOne)
            && (f != Looking ==> (t == f || t == Left) && !PassesBy(s, Go))
  {
    hide NextGo, SourceMode;
    if PhaseOf(s.pc, s.retr) == Looking {
      PhaseLooking(s);
    } else if s.pc.Serve? || s.pc.Popped? || s.pc.InFn? {
      PhaseServing(s);
    } else if InHandler(s.pc) {
      PhaseHandler(s);
    } else {
      PhaseDeciding(s);
    }
  }

  lemma PhaseOther(s: State, a: Action)
    requires Enabled(s, a) && !a.CallRun? && !a.Go?
    ensures var f, t := PhaseOf(s.pc, s.retr), PhaseOf(Next(s, a).pc, Next(s, a).retr);
            (t == f || t == Left) && (f == Left ==> t == Left)
  {
    hide NextOther;
    if ByOthers(a) {
      OtherKeepsRunner(s, a);
    }
  }

  lemma OneShape(s: State)
    requires Reachable(s) && s.mode.one
    ensures PhaseOf(s.pc, s.retr) == Looking ==> s.retr == 0
    ensures SourceMode(s.pc, true) || PhaseOf(s.pc, s.retr) == Left
  {
    InvReachable(s);
    assert CountInv(s.pc, s.mode.one, s.retr, s.h.ran);
    hide Inv;
  }

  lemma {:induction false} PhaseRun(s: State, acts: seq<Action>, t: State)
    requires Reachable(s) && s.mode.one && IsRun(s, acts, t) && OneCall(acts) && t.pc == Finish
    ensures match PhaseOf(s.pc, s.retr)
            case Looking => t.retr == 0 <==> PassedBy(s, acts)
            case RunsNone => t.retr == 0 && !PassedBy(s, acts)
            case RunsOne => t.retr != 0 && !PassedBy(s, acts)
            case Left => false
    decreases |acts|
  {
    if acts != [] {
      var a, m := acts[0], Next(s, acts[0]);
      assert a in acts;
      LeadsStep(s, a);
      LeadsTrans(Init(), s, m);
      ModeStep(s, a);
      OneShape(s);
      PhaseRun(m, acts[1..], t);
      if a.Go? {
        PhaseGo(s);
      } else {
        PhaseOther(s, a);
      }
      hide Next, Enabled, Reachable;
    }
  }

  /** The documentation of `run_one` and `poll_one` gives a handler run, no work, and for
      `poll_one` nothing to run as the reasons to return.  A call that returns normally returns 0
      exactly when its entry check refused, a peek found no entry, or the first entry that it
      took was that of the stop or zero eventfd, and then the work need not be zero. */
  lemma OneRunsNothing(s: State, m: Mode, acts: seq<Action>, t: State)
    requires Reachable(s) && s.pc == Idle && m.one
    requires IsRun(Next(s, CallRun(m)), acts, t) && OneCall(acts) && t.pc == Finish
    ensures t.retr == 0 <==> PassedBy(Next(s, CallRun(m)), acts)
  {
    LeadsStep(s, CallRun(m));
    LeadsTrans(Init(), s, Next(s, CallRun(m)));
    PhaseRun(Next(s, CallRun(m)), acts, t);
  }

  // ---- calling again after a handler threw ----

  /** The step by which a handler's exception leaves the call: out of a posted function, or out
      of a completion handler once its completion has been released. */
  predicate ThrowsOut(s: State, a: Action) {
    Enabled(s, a) && Next(s, a).pc == Idle &&
    ((s.pc.InFn? && a.Fail?) || ((s.pc.GiveBack? || s.pc.SignalZero?) && a.Go?))
  }

  lemma ThrowLeavesFlags(s: State, a: Action)
    requires Reachable(s) && ThrowsOut(s, a)
    ensures Next(s, a).stopped == s.stopped && (AllStarted(Next(s, a)) <==> !FromQueueCqe(s.pc))
  {
    InvReachable(s);
    assert FlagsInv(s.pc, s.q.started, s.stop.started, s.zero.started);
    hide Inv;
  }

  lemma FlagCheck(u: State)
    requires u.pc == CheckStopped
    ensures NextGo(u).pc == CheckWork <==> AllStarted(u) && !u.stopped
    ensures NextGo(u).pc == Finish <==> !AllStarted(u) || u.stopped
  {
  }

  /** After an exception from a handler, whatever other threads and the kernel do before and during
      the next call: the call made without `restart` gets past its flag check exactly when the
      handler was not a function called straight from the queue's completion entry and the stop
      flag is clear at that check; otherwise it returns 0 at once.  On that path the queue's poll
      has not been armed again. */
  lemma RerunAfterThrow(s: State, a: Action, before: seq<Action>, m: Mode, after: seq<Action>, u: State)
    requires Reachable(s) && ThrowsOut(s, a)
    requires forall b :: b in before || b in after ==> ByOthers(b)
    requires IsRun(Next(s, a), before + [CallRun(m)] + after, u)
    ensures u.pc == CheckStopped && u.mode == m && u.retr == 0
    ensures NextGo(u).pc == CheckWork <==> !FromQueueCqe(s.pc) && !u.stopped
    ensures NextGo(u).pc == Finish <==> FromQueueCqe(s.pc) || u.stopped
  {
    var c := RunSplit(Next(s, a), before + [CallRun(m)], after, u);
    var i := RunSplit(Next(s, a), before, [CallRun(m)], c);
    ThrowLeavesFlags(s, a);
    OthersKeepRunner(Next(s, a), before, i);
    assert [CallRun(m)][1..] == [];
    OthersKeepRunner(c, after, u);
    FlagCheck(u);
    hide NextGo, NextFail, NextOther, IsRun;
  }

  /** `restart` that reaches its end has every poll in place and the stop flag clear. */
  lemma RestartRepairs(s: State)
    requires Reachable(s) && s.pc == RestartClear
    ensures AllStarted(NextGo(s)) && !NextGo(s).stopped && NextGo(s).pc == Idle
  {
    InvReachable(s);
    assert FlagsInv(s.pc, s.q.started, s.stop.started, s.zero.started);
  }

  lemma Follow(s: State, a: Action) returns (t: State)
    requires Reachable(s) && Enabled(s, a)
    ensures t == Next(s, a) && Reachable(t)
  {
    t := Next(s, a);
    LeadsStep(s, a);
    LeadsTrans(Init(), s, t);
  }

  lemma FollowIn(c: State, s: State, a: Action) returns (t: State)
    requires Reachable(s) && Within(c, s) && Enabled(s, a) && !a.CallRun?
    ensures t == Next(s, a) && Reachable(t) && Within(c, t)
  {
    t := Follow(s, a);
    WithinStep(c, s, a);
  }

  lemma Begun(s: State, m: Mode) returns (c: State)
    requires Reachable(s) && s.pc == Idle
    ensures c == Next(s, CallRun(m)) && Reachable(c) && Within(c, c)
  {
    c := Follow(s, CallRun(m));
    WithinRefl(c);
  }

  lemma ArmNext(s: State) returns (t: State)
    requires Reachable(s) && s.pc.Restart? && !Ev(s, s.pc.fd).started
    ensures Reachable(t) && t == ArmPoll(s, s.pc.fd).(pc := AfterRestart(s.pc.fd))
  {
    t := Follow(s, Go);
  }

  /** The constructor's `restart` with submission entries available. */
  lemma Constructed() returns (s: State)
    ensures Reachable(s) && s.pc == Idle && AllStarted(s) && !s.stopped && s.work == 0 && s.list == [] && s.cq == []
    ensures s.pending == 0 && s.q == s.zero == Event(0, 1, true)
  {
    LeadsRefl(Init());
    s := ArmNext(Init());
    s := ArmNext(s);
    s := ArmNext(s);
    s := Follow(s, Go);
  }

  lemma Post(s: State, f: Fn) returns (t: State)
    requires Reachable(s)
    ensures Reachable(t) && t.pc == s.pc && AllStarted(t) == AllStarted(s) && t.stopped == s.stopped
    ensures t.q == s.q.(counter := s.q.counter + 1) && t.work == s.work + 1 && t.list == s.list + [f]
    ensures t.pending == s.pending && t.cq == s.cq
  {
    t := Follow(s, PostStart);
    t := Follow(t, PostLinked(f));
    t := Follow(t, PostNotify);
  }

  lemma Enter(s: State, m: Mode) returns (t: State)
    requires Reachable(s) && s.pc == Idle && AllStarted(s) && !s.stopped && s.work != 0
    ensures Reachable(t) && Within(Next(s, CallRun(m)), t) && t.pc == Top && t.mode == m
    ensures t.work == s.work && t.list == s.list && t.cq == s.cq && t.pending == s.pending
    ensures t.q == s.q && t.stopped == s.stopped
  {
    var c := Begun(s, m);
    t := c;
    t := FollowIn(c, t, Go);
    t := FollowIn(c, t, Go);
  }

  lemma SleepUntilQueueEntry(s: State) returns (t: State)
    requires Reachable(s) && s.pc == Top && !s.mode.one && s.pending == 0 && s.cq == []
    requires s.q.armed > 0 && s.q.counter > 0
    ensures Reachable(t) && t.pc == Dispatch(Internal(Q)) && t.pending == s.pending && t.q.counter == s.q.counter
    ensures t.work == s.work && t.list == s.list && t.stopped == s.stopped
  {
    t := Follow(s, Go);
    t := Follow(t, Go);
    t := Follow(t, Fire(Q));
    t := Follow(t, Go);
  }

  lemma CountQueue(s: State) returns (t: State)
    requires Reachable(s) && s.pc == Dispatch(Internal(Q)) && s.q.counter > 0
    ensures Reachable(t) && t.pc == Serve(1, false, FromCqe)
    ensures t.work == s.work && t.list == s.list && t.stopped == s.stopped
  {
    t := Follow(s, Go);
    t := Follow(t, Go);
    t := Follow(t, Go);
  }

  lemma CallFirst(s: State) returns (t: State)
    requires Reachable(s) && s.pc == Serve(1, false, FromCqe) && s.list != [] && s.work > 1
    ensures Reachable(t) && t.pc == InFn(0, false, FromCqe)
    ensures t.work == s.work - 1 && t.list == s.list[1..] && t.stopped == s.stopped
  {
    t := Follow(s, Go);
    t := Follow(t, Go);
  }

  lemma EnterRefused(s: State, m: Mode) returns (t: State)
    requires Reachable(s) && s.pc == Idle && !AllStarted(s)
    ensures Reachable(t) && Within(Next(s, CallRun(m)), t) && t.pc == Finish && t.mode == m && t.retr == 0
    ensures t.work == s.work && t.list == s.list && t.stopped == s.stopped
  {
    var c := Begun(s, m);
    t := c;
    t := FollowIn(c, t, Go);
  }

  lemma Throw(s: State) returns (t: State)
    requires Reachable(s) && s.pc == InFn(0, false, FromCqe)
    ensures ThrowsOut(s, Fail) && t == Next(s, Fail) && Reachable(t) && t.pc == Idle && !AllStarted(t)
    ensures t.work == s.work && t.list == s.list && t.stopped == s.stopped
  {
    t := Follow(s, Fail);
    ThrowLeavesFlags(s, Fail);
  }

  /** The documentation of `run` says that it is safe to call again without `restart` when a
      handler's exception ended it.  Here two functions are posted, the first throws, and the
      next `run` returns 0 with the second still queued. */
  lemma RerunDoesNothing() returns (s: State, t: State)
    ensures Reachable(s) && ThrowsOut(s, Fail) && !s.stopped && |s.list| == 1 && s.work == 1
    ensures Within(Next(Next(s, Fail), CallRun(Mode(true, false))), t) && t.pc == Finish
    ensures t.retr == 0 && t.list == s.list && t.work == 1 && !t.stopped
  {
    hide Next, Enabled, Within;
    s := Constructed();
    s := Post(s, 1);
    s := Post(s, 2);
    s := Enter(s, Mode(true, false));
    s := SleepUntilQueueEntry(s);
    s := CountQueue(s);
    s := CallFirst(s);
    var i := Throw(s);
    t := EnterRefused(i, Mode(true, false));
  }

  /** The last unit of work is given back before any call of the run loop. */
  lemma LeaveZeroEntry(s: State) returns (t: State)
    requires Reachable(s) && s.pc == Idle && s.work == 0 && s.zero == Event(0, 1, true) && s.cq == []
    ensures Reachable(t) && t.pc == Idle && t.work == 0 && t.cq == [Internal(Zero)]
    ensures AllStarted(t) == AllStarted(s) && t.stopped == s.stopped && t.list == s.list && t.pending == s.pending
  {
    t := Follow(s, WorkStarted);
    t := Follow(t, WorkFinished);
    t := Follow(t, ZeroNotify);
    t := Follow(t, Fire(Zero));
  }

  lemma TakeZeroEntry(c: State, s: State) returns (t: State)
    requires Reachable(s) && Within(c, s) && s.pc == Top && s.mode.one && s.pending == 0 && s.cq == [Internal(Zero)]
    ensures Reachable(t) && Within(c, t) && t.pc == Drain(Zero) && t.mode == s.mode
    ensures t.work == s.work && t.list == s.list && t.stopped == s.stopped
  {
    t := FollowIn(c, s, Go);
    t := FollowIn(c, t, Go);
    t := FollowIn(c, t, Go);
  }

  lemma PassZeroEntry(c: State, s: State) returns (t: State)
    requires Reachable(s) && Within(c, s) && s.pc == Drain(Zero) && s.mode.one && s.work != 0
    ensures Reachable(t) && Within(c, t) && t.pc == Handled(0, false) && t.mode == s.mode
    ensures t.work == s.work && t.list == s.list && t.stopped == s.stopped
  {
    RunnerNeverStuck(s);
    t := FollowIn(c, s, Go);
    t := FollowIn(c, t, Go);
    t := FollowIn(c, t, Go);
  }

  lemma ReturnOne(c: State, s: State) returns (t: State)
    requires Reachable(s) && Within(c, s) && s.pc == Handled(0, false) && s.mode.one
    ensures Reachable(t) && Within(c, t) && t.pc == Finish && t.retr == 0 && t.mode == s.mode
    ensures t.work == s.work && t.list == s.list && t.stopped == s.stopped
  {
    t := FollowIn(c, s, Go);
  }

  /** `run_one` returns 0 with a function queued and no `stop()`: an earlier moment without work
      left its entry in front of the function's. */
  lemma RunOneLeavesWork() returns (s: State, t: State)
    ensures Reachable(s) && s.pc == Idle && AllStarted(s) && !s.stopped && |s.list| == 1 && s.work == 1
    ensures Within(Next(s, CallRun(Mode(true, true))), t) && t.pc == Finish
    ensures t.retr == 0 && t.list == s.list && t.work == 1 && !t.stopped
  {
    hide Next, Enabled, Within;
    s := Constructed();
    s := LeaveZeroEntry(s);
    s := Post(s, 1);
    var c := Begun(s, Mode(true, true));
    t := Enter(s, Mode(true, true));
    t := TakeZeroEntry(c, t);
    t := PassZeroEntry(c, t);
    t := ReturnOne(c, t);
  }
}
