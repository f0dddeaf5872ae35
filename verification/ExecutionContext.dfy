/** `execution_context` in the source's own form.

    The fields are those of the source, with the queue's contents, the three eventfd counters
    and the completion queue that the library calls read and write.  The ghost field `s` is the
    state of the machine in Proactor; `Valid` ties the fields to it.

    The methods of the run loop run against an environment, as ProactorPlay has it: the field `env`
    says what the other threads and the kernel will do before each step of the runner.  Their
    contracts say that the state is the one that the environment and the machine determine, so a
    method can neither leave out a step of its own nor add one, nor take one of another thread.

    A call that a function or a handler makes on the runner's thread is in the environment, too. */
module ExecutionContexts {
  import opened Helpers
  import opened Proactor
  import opened ProactorInvariant
  import opened ProactorTheorems
  import opened ProactorCalls
  import opened ProactorLiveness
  import opened ProactorPlay

  /** How a method of the run loop ends.  `Asleep`: left inside `io_uring_wait_cqe` with nothing more
      to come; `Again`: at the head of the loop. */
  datatype Outcome = Returned | Threw | Asleep | Again

  /** What waiting for an entry gives. */
  datatype Waited = Took(c: Cqe) | Failed | NoneYet | Sleeps

  predicate LeavesByException(pc: Pc) {
    pc.Restart? || pc.Arm? || pc.ArmQ? || pc.Wait? || pc.InFn? || pc.GiveBack? || pc.SignalZero?
  }

  /** The two states belong to the same call, which has added nothing to its result in between. */
  predicate SameCall(s: State, t: State) {
    s.mode == t.mode && s.retr == t.retr
  }

  // ---- single steps of the machine, field by field ----

  lemma PopEffect(m: State)
    requires CanGo(m) && m.pc.Serve? && m.pc.left > 0
    ensures var t := NextGo(m);
            t == m.(list := m.list[1..], pc := Popped(m.list[0], m.pc.left - 1, m.pc.done, m.pc.src), h := t.h)
  {
    hide ObserveGo;
  }

  lemma UnitEffect(m: State)
    requires m.pc.Popped?
    ensures CanGo(m) && !CanFail(m)
    ensures var t := NextGo(m);
            t == m.(pending := m.pending - 1, work := m.work - 1,
                    pc := InFn(m.pc.left, m.pc.done || m.work == 1, m.pc.src), h := t.h)
  {
    hide ObserveGo;
  }

  lemma ReadEffect(m: State)
    requires Reachable(m) && m.pc.Drain?
    ensures CanGo(m) && !CanFail(m) && Ev(m, m.pc.fd).counter > 0
    ensures var t := NextGo(m);
            t == ReadOut(m, m.pc.fd).(pc := match m.pc.fd
                                            case Q => Got(m.q.counter)
                                            case Stop => StopTest
                                            case Zero => ZeroTest, h := t.h)
  {
    OnePollPerEventfd(m, m.pc.fd);
    hide ObserveGo, Reachable;
  }

  lemma ClearEffect(fd: Fd, m: State)
    requires m.pc == Dispatch(Internal(fd))
    ensures CanGo(m) && !CanFail(m)
    ensures var t := NextGo(m); t == SetEv(m, fd, Ev(m, fd).(started := false)).(pc := Drain(fd), h := t.h)
  {
    hide ObserveGo;
  }

  lemma OpFields(m: State, a: Action)
    requires Enabled(m, a) && (a.Initiate? || a.Submit? || a.SubmitFail? || a.Complete?)
    ensures var t := NextOther(m, a);
            && t.q == m.q && t.stop == m.stop && t.zero == m.zero && t.list == m.list && t.pending == m.pending
            && t.stopped == m.stopped && t.work == m.work + One(a.Initiate?) - One(a.SubmitFail?)
            && t.cq == if a.Complete? then m.cq + [User(a.op)] else m.cq
  {
    hide ObserveOther, AfterSub;
  }

  class ExecutionContext {
    var list: seq<Fn>
    var qCount: nat
    var qStarted: bool
    var pending: int
    var stopCount: nat
    var stopStarted: bool
    var zeroCount: nat
    var zeroStarted: bool
    var work: int
    var stopped: bool
    var cq: seq<Cqe>
    var env: seq<Turn>        // what is to come while the runner is in a call
    ghost var s: State
    ghost var origin: State   // where the call began
    ghost var plan: seq<Turn> // what was to come then
    ghost var turns: nat      // the turns taken since

    ghost predicate Coupled()
      reads this
    {
      && s.list == list && s.q.counter == qCount && s.q.started == qStarted && s.pending == pending
      && s.stop.counter == stopCount && s.stop.started == stopStarted
      && s.zero.counter == zeroCount && s.zero.started == zeroStarted
      && s.work == work && s.stopped == stopped && s.cq == cq
    }

    ghost predicate Valid()
      reads this
    {
      Reachable(s) && Coupled()
    }

    /** The runner is in a call, between two turns. */
    ghost predicate Playing()
      reads this
    {
      Valid() && OnPlan() && s == Play(origin, plan, turns)
    }

    ghost predicate OnPlan()
      reads `env, `origin, `plan, `turns
    {
      env == Rest(plan, turns) && CanPlay(Play(origin, plan, turns), env)
    }

    /** At least one turn has gone by, in the same call. */
    twostate predicate Onward()
      reads this
    {
      origin == old(origin) && plan == old(plan) && turns > old(turns) && Fuel(s, env) < old(Fuel(s, env))
    }

    /** In the middle of a turn that began at `was`: the others have done their part of it. */
    ghost predicate MidTurn(was: State)
      reads `s, `env, `origin, `plan, `turns
    {
      && OnPlan() && was == Play(origin, plan, turns) && Reachable(was)
      && s == Others(was, Head(env).others)
    }

    /** The last turn was an exception that left the call. */
    ghost predicate Thrown()
      reads `s, `origin, `plan, `turns
    {
      turns > 0 && s.pc == Idle && LeavesByException(Play(origin, plan, turns - 1).pc)
    }

    // ---- the environment ----

    method ActCall(a: Action)
      requires Coupled() && Enabled(s, a)
      requires a.WorkStarted? || a.WorkFinished? || a.PostStart? || a.PostLinked? || a.PostFail? || a.StopFlag?
      modifies `work, `list, `stopped, `s
      ensures Coupled() && s == NextOther(old(s), a)
    {
      hide ObserveOther, AfterSub;
      match a {
        case WorkStarted => work := work + 1;
        case WorkFinished => work := work - 1;
        case PostStart => work := work + 1;
        case PostLinked(f) => list := list + [f];
        case PostFail => work := work - 1;
        case StopFlag => stopped := true;
      }
      s := NextOther(s, a);
    }

    method ActNotify(a: Action)
      requires Coupled() && Enabled(s, a)
      requires a.PostNotify? || a.StopNotify? || a.ZeroNotify? || a.Fire?
      modifies `qCount, `stopCount, `zeroCount, `cq, `s
      ensures Coupled() && s == NextOther(old(s), a)
    {
      hide ObserveOther;
      match a {
        case PostNotify => qCount := qCount + 1;
        case StopNotify => stopCount := stopCount + 1;
        case ZeroNotify => zeroCount := zeroCount + 1;
        case Fire(fd) => cq := cq + [Internal(fd)];
      }
      s := NextOther(s, a);
    }

    method ActOp(a: Action)
      requires Coupled() && Enabled(s, a)
      requires a.Initiate? || a.Submit? || a.SubmitFail? || a.Complete?
      modifies `work, `cq, `s
      ensures Coupled() && s == NextOther(old(s), a)
    {
      OpFields(s, a);
      hide NextOther;
      match a {
        case Initiate(_) => work := work + 1;
        case Submit(_) =>
        case SubmitFail(_) => work := work - 1;
        case Complete(op) => cq := cq + [User(op)];
      }
      s := NextOther(s, a);
    }

    /** A step of another thread or of the kernel. */
    method Act(a: Action)
      requires Coupled() && Enabled(s, a) && ByOthers(a)
      modifies this
      ensures Coupled() && s == NextOther(old(s), a)
      ensures env == old(env) && origin == old(origin) && plan == old(plan) && turns == old(turns)
    {
      hide Coupled, Enabled, NextOther;
      if a.PostNotify? || a.StopNotify? || a.ZeroNotify? || a.Fire? {
        ActNotify(a);
      } else if a.Initiate? || a.Submit? || a.SubmitFail? || a.Complete? {
        ActOp(a);
      } else {
        ActCall(a);
      }
    }

    /** The others' part of a turn. */
    method Interfere()
      requires Playing()
      modifies this
      ensures Valid() && MidTurn(old(s)) && SameRunner(old(s), s) && LogsFrom(old(s), s, [])
      ensures env == old(env) && origin == old(origin) && plan == old(plan) && turns == old(turns)
    {
      hide Coupled, Reachable, SameRunner, LogsFrom, NextOther, Play, Enabled;
      var acts := Head(env).others;
      TurnCan(s, env);
      OthersBound(s, acts);
      var i := 0;
      assert acts[0..] == acts;
      while i < |acts|
        invariant 0 <= i <= |acts| && Coupled() && CanDo(s, acts[i..])
        invariant Others(s, acts[i..]) == Others(old(s), acts)
        invariant env == old(env) && origin == old(origin) && plan == old(plan) && turns == old(turns)
      {
        assert acts[i..][0] == acts[i] && acts[i..][1..] == acts[i + 1..];
        Act(acts[i]);
        i := i + 1;
      }
    }

    /** The runner's own part of a turn, and the end of it. */
    method EndTurn(ghost was: State)
      requires MidTurn(was)
      modifies `s, `env, `turns
      ensures s == OwnStep(old(s), Head(old(env)).fails) && turns == old(turns) + 1
      ensures Reachable(s) && OnPlan() && s == Play(origin, plan, turns) && Play(origin, plan, turns - 1) == was
      ensures CanStep(old(s), Head(old(env)).fails) || old(env) != [] ==> Fuel(s, env) < Fuel(was, old(env))
    {
      hide OwnStep, CanStep, Fuel, Others, Reachable, CanDo;
      TurnCan(was, env);
      TurnBurns(was, env);
      PlayOn(origin, plan, turns);
      hide Play, CanPlay, Rest;
      s := OwnStep(s, Head(env).fails);
      env := Tail(env);
      turns := turns + 1;
    }

    /** The same for a step that succeeds. */
    method EndGo(ghost was: State)
      requires MidTurn(was) && CanGo(s) && (Head(env).fails ==> !CanFail(s))
      modifies `s, `env, `turns
      ensures s == NextGo(old(s)) && turns == old(turns) + 1
      ensures Reachable(s) && OnPlan() && s == Play(origin, plan, turns) && Play(origin, plan, turns - 1) == was
      ensures Fuel(s, env) < Fuel(was, old(env))
    {
      hide NextGo, Fuel, Others, Reachable, Play, OnPlan, CanGo, CanFail;
      EndTurn(was);
    }

    /** What the environment has in store for a step that can fail: a handler that throws, a missing
        submission entry, a failed wait. */
    method Fails() returns (b: bool)
      ensures b == Head(env).fails
    {
      b := env != [] && env[0].fails;
    }

    // ---- service_queue ----

    /** `pop_node`. */
    method PopNode() returns (f: Fn)
      requires Playing() && s.pc.Serve? && s.pc.left > 0
      modifies this
      ensures Playing() && Onward()
      ensures SameCall(old(s), s) && LogsFrom(old(s), s, [])
      ensures s.pc == Popped(f, old(s.pc.left) - 1, old(s.pc.done), old(s.pc.src))
    {
      hide Reachable, ObserveGo, Play, Others, OnPlan, Fuel, OwnStep, CanStep, MidTurn, NextGo;
      ghost var was := s;
      Interfere();
      RunnerNeverStuck(s);
      PopEffect(s);
      f := list[0];
      list := list[1..];
      LogsStep(s, Go);
      EndGo(was);
    }

    /** The head of the lambda that `service_queue` passes to `consume`. */
    method TakeUnit() returns (w: int)
      requires Playing() && s.pc.Popped?
      modifies this
      ensures Playing() && Onward()
      ensures SameCall(old(s), s) && LogsFrom(old(s), s, [old(s.pc.f)])
      ensures s.pc == InFn(old(s.pc.left), old(s.pc.done) || w == 1, old(s.pc.src))
    {
      hide Reachable, ObserveGo, Play, Others, OnPlan, Fuel, OwnStep, CanStep, MidTurn, NextGo;
      ghost var was := s;
      Interfere();
      UnitEffect(s);
      pending := pending - 1;
      w := work;
      work := work - 1;
      LogsStep(s, Go);
      EndGo(was);
    }

    /** `func()`: what it does to the context is in the environment. */
    method CallFunction() returns (threw: bool)
      requires Playing() && s.pc.InFn?
      modifies this
      ensures Playing() && Onward()
      ensures SameCall(old(s), s) && LogsFrom(old(s), s, [])
      ensures s.pc == if threw then Idle else Serve(old(s.pc.left), old(s.pc.done), old(s.pc.src))
      ensures threw ==> Thrown()
    {
      hide Reachable, ObserveGo, Play, Others, OnPlan, Fuel, OwnStep, CanStep, MidTurn;
      ghost var was := s;
      Interfere();
      threw := Fails();
      if threw {
        StepFails(was);
      } else {
        FunctionReturned(was);
      }
    }

    method FunctionReturned(ghost was: State)
      requires Valid() && MidTurn(was) && !Head(env).fails && s.pc.InFn?
      modifies this
      ensures Playing() && origin == old(origin) && plan == old(plan) && turns == old(turns) + 1
      ensures Fuel(s, env) < Fuel(was, old(env)) && SameCall(old(s), s) && LogsFrom(old(s), s, [])
      ensures s.pc == Serve(old(s.pc.left), old(s.pc.done), old(s.pc.src))
    {
      hide Reachable, ObserveGo, Play, Others, OnPlan, Fuel, CanFail, OwnStep, CanStep, MidTurn;
      LogsStep(s, Go);
      EndGo(was);
    }

    /** `called`: the functions that were called, up to and including one that threw. */
    method ServiceQueue(max: nat, ghost src: Source) returns (done: bool, threw: bool, ghost called: seq<Fn>)
      requires Playing() && s.pc == Serve(max, false, src)
      modifies this
      ensures Playing() && (max > 0 ==> Onward()) && (max == 0 ==> s == old(s) && env == old(env))
      ensures origin == old(origin) && plan == old(plan) && turns >= old(turns)
      ensures SameCall(old(s), s) && s.pc == if threw then Idle else Serve(0, done, src)
      ensures |called| <= max <= |old(list)| && called == old(list)[..|called|] && LogsFrom(old(s), s, called)
      ensures if threw then |called| > 0 else |called| == max
      ensures threw ==> Thrown()
    {
      hide Reachable, Play, OnPlan, Fuel;
      SourceAssertions(s);
      done := false;
      threw := false;
      called := [];
      var i := 0;
      while i < max
        invariant 0 <= i <= max && Playing() && SameCall(old(s), s)
        invariant if i > 0 then Onward() else s == old(s) && env == old(env)
        invariant origin == old(origin) && plan == old(plan) && turns >= old(turns)
        invariant s.pc == Serve(max - i, done, src)
        invariant |called| == i && LogsFrom(old(s), s, called)
      {
        var f := PopNode();
        var w := TakeUnit();
        if w == 1 {
          done := true;
        }
        called := called + [f];
        threw := CallFunction();
        if threw {
          break;
        }
        i := i + 1;
      }
      CalledInOrder(old(s), s, called);
    }

    // ---- the run loop's control flow ----

    /** From the head of the loop into `service_queue` or `impl`. */
    method AtTop()
      requires Playing() && s.pc == Top
      modifies this
      ensures Playing() && Onward()
      ensures SameCall(old(s), s) && pending >= 0
      ensures s.pc == if !s.mode.one then Serve(pending, false, Batch(pending))
                      else if pending != 0 then Serve(1, false, Single) else Wait
    {
      hide Reachable, ObserveGo, Play, Others, OnPlan, Fuel, OwnStep, CanStep, MidTurn;
      ghost var was := s;
      Interfere();
      QueueIsCounted(s);
      EndGo(was);
    }

    /** Back from `service_queue`. */
    method Served()
      requires Playing() && s.pc.Serve? && s.pc.left == 0
      modifies this
      ensures Playing() && Onward()
      ensures s.mode == old(s.mode)
      ensures s.pc == match old(s.pc.src)
                      case Batch(_) => if old(s.pc.done) then Finish else Wait
                      case Single => Finish
                      case FromCqe => Handled(1, old(s.pc.done))
      ensures s.retr == match old(s.pc.src)
                        case Batch(n) => old(s.retr) + n
                        case Single => 1
                        case FromCqe => old(s.retr)
    {
      hide Reachable, ObserveGo, Play, Others, OnPlan, Fuel, OwnStep, CanStep, MidTurn;
      ghost var was := s;
      Interfere();
      EndGo(was);
    }

    /** Back from `impl`. */
    method BackFromImpl()
      requires Playing() && s.pc.Handled?
      modifies this
      ensures Playing() && Onward()
      ensures s.mode == old(s.mode)
      ensures s.pc == if s.mode.one || old(s.pc.stop) then Finish else ArmQ
      ensures s.retr == if s.mode.one then old(s.pc.handlers) else old(s.retr) + old(s.pc.handlers)
    {
      hide Reachable, ObserveGo, Play, Others, OnPlan, Fuel, OwnStep, CanStep, MidTurn;
      ghost var was := s;
      Interfere();
      EndGo(was);
    }

    // ---- restart ----

    function Started(fd: Fd): bool
      reads this
    {
      match fd case Q => qStarted case Stop => stopStarted case Zero => zeroStarted
    }

    method SetStarted(fd: Fd, b: bool)
      modifies `qStarted, `stopStarted, `zeroStarted
      ensures qStarted == if fd == Q then b else old(qStarted)
      ensures stopStarted == if fd == Stop then b else old(stopStarted)
      ensures zeroStarted == if fd == Zero then b else old(zeroStarted)
    {
      match fd {
        case Q => qStarted := b;
        case Stop => stopStarted := b;
        case Zero => zeroStarted := b;
      }
    }

    /** `restart(i, b)`: throws when there is no submission entry. */
    method PollAdd(fd: Fd) returns (threw: bool)
      requires Playing() && !Started(fd) && (s.pc == Restart(fd) || s.pc == Arm(fd) || (s.pc == ArmQ && fd == Q))
      modifies this
      ensures Playing() && Onward() && SameCall(old(s), s)
      ensures s.pc == if threw then Idle
                      else if old(s.pc) == Restart(fd) then AfterRestart(fd)
                      else if old(s.pc) == ArmQ then Top else Handled(0, false)
      ensures threw ==> Thrown() && Play(origin, plan, turns - 1).pc == old(s.pc)
    {
      hide Reachable, ObserveGo, Play, Others, OnPlan, Fuel, OwnStep, CanStep, MidTurn;
      ghost var was := s;
      Interfere();
      threw := Fails();
      if threw {
        StepFails(was);
      } else {
        EntryAdded(fd, was);
      }
    }

    /** A missing submission entry, or a failed wait. */
    method StepFails(ghost was: State)
      requires Valid() && MidTurn(was) && Head(env).fails && !s.pc.InOp? && CanFail(s)
      modifies this
      ensures Playing() && origin == old(origin) && plan == old(plan) && turns == old(turns) + 1
      ensures Fuel(s, env) < Fuel(was, old(env)) && SameCall(old(s), s) && s.pc == Idle
      ensures LogsFrom(old(s), s, [])
      ensures was.pc == old(s.pc) ==> Thrown() && Play(origin, plan, turns - 1).pc == old(s.pc)
    {
      hide Reachable, Play, Others, OnPlan, Fuel;
      LogsStep(s, Fail);
      EndTurn(was);
    }

    method EntryAdded(fd: Fd, ghost was: State)
      requires Valid() && MidTurn(was) && !Head(env).fails
      requires !Started(fd) && (s.pc == Restart(fd) || s.pc == Arm(fd) || (s.pc == ArmQ && fd == Q))
      modifies this
      ensures Playing() && origin == old(origin) && plan == old(plan) && turns == old(turns) + 1
      ensures Fuel(s, env) < Fuel(was, old(env)) && SameCall(old(s), s)
      ensures s.pc == if old(s.pc) == Restart(fd) then AfterRestart(fd)
                      else if old(s.pc) == ArmQ then Top else Handled(0, false)
    {
      hide Reachable, ObserveGo, Play, Others, OnPlan, Fuel, CanFail, OwnStep, CanStep, MidTurn;
      SetStarted(fd, true);
      EndGo(was);
    }

    /** `restart_if(i, b)` of a flag that is set. */
    method NoRestart(fd: Fd)
      requires Playing() && Started(fd) && (s.pc == Restart(fd) || (s.pc == ArmQ && fd == Q))
      modifies this
      ensures Playing() && Onward()
      ensures SameCall(old(s), s)
      ensures s.pc == if old(s.pc) == ArmQ then Top else AfterRestart(fd)
    {
      hide Reachable, ObserveGo, Play, Others, OnPlan, Fuel, OwnStep, CanStep, MidTurn;
      ghost var was := s;
      Interfere();
      EndGo(was);
    }

    /** `restart_if(i, b)`. */
    method RestartIf(fd: Fd) returns (threw: bool)
      requires Playing() && (s.pc == Restart(fd) || (s.pc == ArmQ && fd == Q))
      modifies this
      ensures Playing() && Onward() && SameCall(old(s), s)
      ensures s.pc == if threw then Idle else if old(s.pc) == ArmQ then Top else AfterRestart(fd)
      ensures old(Started(fd)) ==> !threw
      ensures threw ==> Thrown() && Play(origin, plan, turns - 1).pc == old(s.pc)
    {
      hide Playing, Fuel;
      threw := false;
      if Started(fd) {
        NoRestart(fd);
      } else {
        threw := PollAdd(fd);
      }
    }

    /** `restart()`. */
    method RestartContext() returns (outcome: Outcome)
      requires Valid() && s.pc == Idle && CanPlay(Next(s, CallRestart), env)
      modifies this
      ensures Valid() && s.pc == Idle
      ensures s == Play(Next(old(s), CallRestart), old(env), turns) && env == Rest(old(env), turns)
      ensures outcome == Returned ==> !stopped && qStarted && stopStarted && zeroStarted
      ensures outcome == Threw ==> turns > 0 && Play(Next(old(s), CallRestart), old(env), turns - 1).pc.Restart?
      ensures outcome == Returned || outcome == Threw
    {
      BeginRestart();
      hide Valid, OnPlan;
      outcome := Rearm();
      hide Play;
    }

    /** The body of `restart()`. */
    method Rearm() returns (outcome: Outcome)
      requires Playing() && s.pc == Restart(Q)
      modifies this
      ensures Playing() && origin == old(origin) && plan == old(plan) && s.pc == Idle
      ensures outcome == Returned ==> !stopped && qStarted && stopStarted && zeroStarted
      ensures outcome == Returned || outcome == Threw
      ensures outcome == Threw ==> turns > 0 && Play(origin, plan, turns - 1).pc.Restart?
    {
      hide Playing, Fuel, Play, Thrown, LeavesByException;
      outcome := Threw;
      var threw := RestartIf(Q);
      if threw { return; }
      threw := RestartIf(Stop);
      if threw { return; }
      threw := RestartIf(Zero);
      if threw { return; }
      ClearStopped();
      outcome := Returned;
    }

    /** The fields as the constructor initialises them. */
    constructor (env: seq<Turn>)
      requires CanPlay(Init(), env)
      ensures Playing() && s == Init() && origin == Init() && plan == env
      ensures list == [] && cq == [] && work == 0 && pending == 0 && !stopped
    {
      list, cq, pending, work, stopped := [], [], 0, 0, false;
      qCount, stopCount, zeroCount := 0, 0, 0;
      qStarted, stopStarted, zeroStarted := false, false, false;
      s, origin, plan, turns := Init(), Init(), env, 0;
      this.env := env;
      new;
      LeadsRefl(s);
    }

    /** The whole constructor: a context that is idle, with all its polls armed, unless `restart` threw. */
    static method Create(env: seq<Turn>) returns (context: ExecutionContext, outcome: Outcome)
      requires CanPlay(Init(), env)
      ensures fresh(context) && context.Valid() && context.s.pc == Idle
      ensures context.s == Play(Init(), env, context.turns) && context.env == Rest(env, context.turns)
      ensures outcome == Returned ==>
                !context.stopped && context.qStarted && context.stopStarted && context.zeroStarted
      ensures outcome == Returned || outcome == Threw
    {
      hide Play, CanPlay;
      context := new ExecutionContext(env);
      outcome := context.Rearm();
    }

    ghost method BeginRestart()
      requires Valid() && s.pc == Idle && CanPlay(Next(s, CallRestart), env)
      modifies `s, `origin, `plan, `turns
      ensures Playing() && s.pc == Restart(Q) && origin == Next(old(s), CallRestart) && plan == env && turns == 0
    {
      hide CanPlay, Reachable, Leads, Play, Rest;
      ReachStep(s, CallRestart);
      PlayNone(Next(s, CallRestart), env);
      s := Next(s, CallRestart);
      origin, plan, turns := s, env, 0;
    }

    method ClearStopped()
      requires Playing() && s.pc == RestartClear
      modifies this
      ensures Playing() && Onward()
      ensures s.pc == Idle && !stopped && qStarted && stopStarted && zeroStarted
    {
      hide Reachable, ObserveGo, Play, Others, OnPlan, Fuel, OwnStep, CanStep, MidTurn;
      ghost var was := s;
      Interfere();
      RestartRepairs(s);
      stopped := false;
      EndGo(was);
    }

    // ---- handle_cqe ----

    /** `*_started_ = false`. */
    method ClearFlag(fd: Fd)
      requires Playing() && s.pc == Dispatch(Internal(fd))
      modifies this
      ensures Playing() && Onward() && SameCall(old(s), s) && s.pc == Drain(fd)
    {
      hide Reachable, ObserveGo, Play, Others, OnPlan, Fuel, OwnStep, CanStep, MidTurn, NextGo;
      ghost var was := s;
      Interfere();
      SetStarted(fd, false);
      ClearEffect(fd, s);
      EndGo(was);
    }

    // The eventfd reads, which never block.

    method ReadStop() returns (n: nat)
      requires Playing() && s.pc == Drain(Stop)
      modifies this
      ensures Playing() && Onward()
      ensures SameCall(old(s), s) && n > 0 && s.pc == StopTest
    {
      hide Reachable, ObserveGo, Play, Others, OnPlan, Fuel, OwnStep, CanStep, MidTurn, NextGo;
      ghost var was := s;
      Interfere();
      ReadEffect(s);
      n := stopCount;
      stopCount := 0;
      EndGo(was);
    }

    method ReadZero() returns (n: nat)
      requires Playing() && s.pc == Drain(Zero)
      modifies this
      ensures Playing() && Onward()
      ensures SameCall(old(s), s) && n > 0 && s.pc == ZeroTest
    {
      hide Reachable, ObserveGo, Play, Others, OnPlan, Fuel, OwnStep, CanStep, MidTurn, NextGo;
      ghost var was := s;
      Interfere();
      ReadEffect(s);
      n := zeroCount;
      zeroCount := 0;
      EndGo(was);
    }

    method ReadQueue() returns (n: nat)
      requires Playing() && s.pc == Drain(Q)
      modifies this
      ensures Playing() && Onward()
      ensures SameCall(old(s), s) && n > 0 && s.pc == Got(n)
    {
      hide Reachable, ObserveGo, Play, Others, OnPlan, Fuel, OwnStep, CanStep, MidTurn, NextGo;
      ghost var was := s;
      Interfere();
      ReadEffect(s);
      n := qCount;
      qCount := 0;
      EndGo(was);
    }

    /** `pending_ += pending`. */
    method AddPending(n: nat)
      requires Playing() && s.pc == Got(n)
      modifies this
      ensures Playing() && Onward()
      ensures SameCall(old(s), s) && s.pc == Serve(1, false, FromCqe)
    {
      hide Reachable, ObserveGo, Play, Others, OnPlan, Fuel, OwnStep, CanStep, MidTurn;
      ghost var was := s;
      Interfere();
      pending := pending + n;
      EndGo(was);
    }

    /** `stopped_.load()` in the stop entry's branch. */
    method TestStopped() returns (stop: bool)
      requires Playing() && s.pc == StopTest
      modifies this
      ensures Playing() && Onward()
      ensures SameCall(old(s), s)
      ensures if stop then s.pc == Handled(0, true) else s.pc == Arm(Stop) && !stopStarted
    {
      hide Reachable, ObserveGo, Play, Others, OnPlan, Fuel, OwnStep, CanStep, MidTurn;
      ghost var was := s;
      Interfere();
      SourceFlags(s);
      stop := stopped;
      EndGo(was);
    }

    /** `work_.load()` in the zero entry's branch. */
    method TestWork() returns (stop: bool)
      requires Playing() && s.pc == ZeroTest
      modifies this
      ensures Playing() && Onward()
      ensures SameCall(old(s), s)
      ensures if stop then s.pc == Handled(0, true) else s.pc == Arm(Zero) && !zeroStarted
    {
      hide Reachable, ObserveGo, Play, Others, OnPlan, Fuel, OwnStep, CanStep, MidTurn;
      ghost var was := s;
      Interfere();
      SourceFlags(s);
      stop := work == 0;
      EndGo(was);
    }

    lemma SourceFlags(s: State)
      requires Reachable(s)
      ensures s.pc == StopTest ==> !s.stop.started
      ensures s.pc == ZeroTest ==> !s.zero.started
    {
      InvReachable(s);
      assert FlagsInv(s.pc, s.q.started, s.stop.started, s.zero.started);
      hide Inv;
    }

    method HandleStop() returns (stop: bool, threw: bool)
      requires Playing() && s.pc == Dispatch(Internal(Stop))
      modifies this
      ensures Playing() && Onward() && SameCall(old(s), s)
      ensures s.pc == if threw then Idle else Handled(0, stop)
      ensures threw ==> Thrown()
    {
      hide Playing, Fuel;
      ClearFlag(Stop);
      var n := ReadStop();
      stop := TestStopped();
      threw := false;
      if !stop {
        threw := PollAdd(Stop);
      }
    }

    method HandleZero() returns (stop: bool, threw: bool)
      requires Playing() && s.pc == Dispatch(Internal(Zero))
      modifies this
      ensures Playing() && Onward() && SameCall(old(s), s)
      ensures s.pc == if threw then Idle else Handled(0, stop)
      ensures threw ==> Thrown()
    {
      hide Playing, Fuel;
      ClearFlag(Zero);
      var n := ReadZero();
      stop := TestWork();
      threw := false;
      if !stop {
        threw := PollAdd(Zero);
      }
    }

    method HandleQueue() returns (stop: bool, threw: bool)
      requires Playing() && s.pc == Dispatch(Internal(Q))
      modifies this
      ensures Playing() && Onward() && SameCall(old(s), s)
      ensures s.pc == if threw then Idle else Handled(1, stop)
      ensures threw ==> Thrown()
    {
      hide Playing, Fuel;
      ClearFlag(Q);
      var n := ReadQueue();
      AddPending(n);
      ghost var called;
      stop, threw, called := ServiceQueue(1, FromCqe);
      if !threw {
        Served();
      }
    }

    /** `complete` is entered. */
    method EnterHandler(op: Op)
      requires Playing() && s.pc == Dispatch(User(op))
      modifies this
      ensures Playing() && Onward()
      ensures SameCall(old(s), s) && s.pc == InOp(op)
    {
      hide Reachable, ObserveGo, Play, Others, OnPlan, Fuel, OwnStep, CanStep, MidTurn;
      ghost var was := s;
      Interfere();
      EndGo(was);
    }

    /** The completion handler is called: what it does to the context is in the environment. */
    method CallHandler(op: Op) returns (threw: bool)
      requires Playing() && s.pc == InOp(op)
      modifies this
      ensures Playing() && Onward()
      ensures SameCall(old(s), s) && s.pc == GiveBack(op, threw)
    {
      hide Reachable, ObserveGo, Play, Others, OnPlan, Fuel;
      ghost var was := s;
      Interfere();
      threw := Fails();
      EndTurn(was);
    }

    /** The `fetch_sub` of `on_work_finished` in `completion::reset`. */
    method GiveUnitBack(op: Op, threw: bool) returns (w: int)
      requires Playing() && s.pc == GiveBack(op, threw)
      modifies this
      ensures Playing() && Onward()
      ensures SameCall(old(s), s)
      ensures s.pc == if w == 1 then SignalZero(threw) else AfterOp(threw)
      ensures w != 1 && threw ==> Thrown()
    {
      hide Reachable, ObserveGo, Play, Others, OnPlan, Fuel, OwnStep, CanStep, MidTurn;
      ghost var was := s;
      Interfere();
      w := work;
      work := work - 1;
      EndGo(was);
    }

    /** `zero_.write(1)`. */
    method WriteZero(threw: bool)
      requires Playing() && s.pc == SignalZero(threw)
      modifies this
      ensures Playing() && Onward()
      ensures SameCall(old(s), s) && s.pc == AfterOp(threw)
      ensures threw ==> Thrown()
    {
      hide Reachable, ObserveGo, Play, Others, OnPlan, Fuel, OwnStep, CanStep, MidTurn;
      ghost var was := s;
      Interfere();
      zeroCount := zeroCount + 1;
      EndGo(was);
    }

    /** `completion::complete`: the guard releases the completion whether or not the handler throws. */
    method HandleOp(op: Op) returns (threw: bool)
      requires Playing() && s.pc == Dispatch(User(op))
      modifies this
      ensures Playing() && Onward() && SameCall(old(s), s)
      ensures s.pc == AfterOp(threw)
      ensures threw ==> Thrown()
    {
      hide Playing, Fuel;
      EnterHandler(op);
      threw := CallHandler(op);
      var w := GiveUnitBack(op, threw);
      if w == 1 {
        WriteZero(threw);
      }
    }

    method HandleCqe(c: Cqe) returns (handlers: nat, stop: bool, threw: bool)
      requires Playing() && s.pc == Dispatch(c)
      modifies this
      ensures Playing() && Onward() && SameCall(old(s), s)
      ensures s.pc == if threw then Idle else Handled(handlers, stop)
      ensures threw ==> Thrown()
    {
      hide Playing, Fuel;
      handlers := 0;
      match c {
        case Internal(Stop) => stop, threw := HandleStop();
        case Internal(Zero) => stop, threw := HandleZero();
        case Internal(Q) =>
          stop, threw := HandleQueue();
          handlers := 1;
        case User(op) =>
          threw := HandleOp(op);
          handlers, stop := 1, false;
      }
    }

    // ---- run, run_one, poll, poll_one ----

    /** One turn inside `io_uring_wait_cqe` or `io_uring_peek_cqe`; `NoneYet` of a blocking wait: the turn
        went by. */
    method WaitTurn(blocking: bool) returns (r: Waited)
      requires Playing() && s.pc == Wait && s.mode.blocking == blocking
      modifies this
      ensures Playing() && SameCall(old(s), s) && origin == old(origin) && plan == old(plan) && turns >= old(turns)
      ensures if r == Sleeps then Blocked(s) && env == [] && Fuel(s, env) <= old(Fuel(s, env)) else Onward()
      ensures match r
              case Took(c) => s.pc == Dispatch(c)
              case Failed => s.pc == Idle
              case NoneYet => s.pc == if blocking then Wait else Handled(0, true)
              case Sleeps => blocking
      ensures r == Failed ==> Thrown()
    {
      hide Reachable, ObserveGo, Play, OnPlan, Fuel, OwnStep, CanStep;
      ghost var was := s;
      Interfere();
      var failed := Fails();
      if failed {
        r := Failed;
        StepFails(was);
      } else if cq != [] {
        var c := TakeEntry(was);
        r := Took(c);
      } else if blocking && env == [] {
        r := Sleeps;
      } else {
        r := NoneYet;
        NoEntryYet(was);
      }
    }

    method TakeEntry(ghost was: State) returns (c: Cqe)
      requires Valid() && MidTurn(was) && !Head(env).fails && s.pc == Wait && cq != []
      modifies this
      ensures Playing() && origin == old(origin) && plan == old(plan) && turns == old(turns) + 1
      ensures Fuel(s, env) < Fuel(was, old(env)) && SameCall(old(s), s) && s.pc == Dispatch(c)
      ensures c == old(cq)[0] && cq == old(cq)[1..]
    {
      hide Reachable, ObserveGo, Play, Others, OnPlan, Fuel, OwnStep, CanStep, MidTurn;
      c := cq[0];
      cq := cq[1..];
      EndGo(was);
    }

    method NoEntryYet(ghost was: State)
      requires Valid() && MidTurn(was) && !Head(env).fails && s.pc == Wait && cq == []
      requires s.mode.blocking ==> env != []
      modifies this
      ensures Playing() && origin == old(origin) && plan == old(plan) && turns == old(turns) + 1
      ensures Fuel(s, env) < Fuel(was, old(env)) && SameCall(old(s), s)
      ensures s.pc == if s.mode.blocking then Wait else Handled(0, true)
    {
      hide Reachable, ObserveGo, Play, Others, OnPlan, Fuel, MidTurn;
      EndTurn(was);
    }

    /** `io_uring_wait_cqe` or `io_uring_peek_cqe`. */
    method WaitCqe(blocking: bool) returns (r: Waited)
      requires Playing() && s.pc == Wait && s.mode.blocking == blocking
      modifies this
      ensures Playing() && SameCall(old(s), s) && origin == old(origin) && plan == old(plan) && turns >= old(turns)
      ensures if r == Sleeps then Blocked(s) && env == [] && Fuel(s, env) <= old(Fuel(s, env)) else Onward()
      ensures match r
              case Took(c) => s.pc == Dispatch(c)
              case Failed => s.pc == Idle
              case NoneYet => s.pc == Handled(0, true)
              case Sleeps => blocking && s.pc == Wait
      ensures r == Failed ==> Thrown()
    {
      hide Playing, Fuel;
      r := WaitTurn(blocking);
      while blocking && r == NoneYet
        invariant Playing() && SameCall(old(s), s)
        invariant origin == old(origin) && plan == old(plan) && turns >= old(turns)
        invariant r == Failed ==> Thrown()
        invariant if r == Sleeps then Blocked(s) && env == [] && Fuel(s, env) <= old(Fuel(s, env)) else Onward()
        invariant match r
                  case Took(c) => s.pc == Dispatch(c)
                  case Failed => s.pc == Idle
                  case NoneYet => s.pc == if blocking then Wait else Handled(0, true)
                  case Sleeps => blocking && s.pc == Wait
        decreases Fuel(s, env), r == NoneYet
      {
        r := WaitTurn(blocking);
      }
    }

    /** `impl<Blocking>`. */
    method Impl(blocking: bool) returns (outcome: Outcome, handlers: nat, stop: bool)
      requires Playing() && s.pc == Wait && s.mode.blocking == blocking
      modifies this
      ensures Playing() && SameCall(old(s), s) && origin == old(origin) && plan == old(plan) && turns >= old(turns)
      ensures if outcome == Asleep then blocking && Blocked(s) && env == [] else Onward()
      ensures Fuel(s, env) <= old(Fuel(s, env)) && outcome != Again
      ensures outcome == Threw ==> Thrown()
      ensures s.pc == match outcome case Returned => Handled(handlers, stop) case Threw => Idle case _ => Wait
    {
      hide Playing, Fuel;
      handlers, stop := 0, true;
      var r := WaitCqe(blocking);
      match r {
        case Failed => outcome := Threw;
        case NoneYet => outcome := Returned;
        case Sleeps => outcome := Asleep;
        case Took(c) =>
          var threw;
          handlers, stop, threw := HandleCqe(c);
          outcome := if threw then Threw else Returned;
      }
    }

    /** A call of the run loop begins. */
    ghost method Begin(m: Mode)
      requires Valid() && s.pc == Idle && CanPlay(Next(s, CallRun(m)), env)
      modifies `s, `origin, `plan, `turns
      ensures Playing() && s == Next(old(s), CallRun(m)) == origin && plan == env && turns == 0
      ensures s.pc == CheckStopped && s.mode == m && s.retr == 0
      ensures CanPlay(origin, plan)
    {
      hide CanPlay, Reachable, Leads, Play, Rest;
      ReachStep(s, CallRun(m));
      PlayNone(Next(s, CallRun(m)), env);
      s := Next(s, CallRun(m));
      origin, plan, turns := s, env, 0;
    }

    /** `stopped()` in the entry check. */
    method CheckFlags() returns (refused: bool)
      requires Playing() && s.pc == CheckStopped
      modifies this
      ensures Playing() && Onward()
      ensures SameCall(old(s), s) && s.pc == if refused then Finish else CheckWork
    {
      hide Reachable, ObserveGo, Play, Others, OnPlan, Fuel, OwnStep, CanStep, MidTurn;
      ghost var was := s;
      Interfere();
      refused := !(qStarted && stopStarted && zeroStarted) || stopped;
      EndGo(was);
    }

    /** `out_of_work()` in the entry check. */
    method CheckOutOfWork() returns (refused: bool)
      requires Playing() && s.pc == CheckWork
      modifies this
      ensures Playing() && Onward()
      ensures SameCall(old(s), s) && s.pc == if refused then Finish else Top
    {
      hide Reachable, ObserveGo, Play, Others, OnPlan, Fuel, OwnStep, CanStep, MidTurn;
      ghost var was := s;
      Interfere();
      refused := work == 0;
      EndGo(was);
    }

    /** The entry check. */
    method Enter() returns (refused: bool)
      requires Playing() && s.pc == CheckStopped
      modifies this
      ensures Playing() && Onward() && SameCall(old(s), s)
      ensures s.pc == if refused then Finish else Top
    {
      hide Playing, Fuel;
      refused := CheckFlags();
      if !refused {
        refused := CheckOutOfWork();
      }
    }

    /** `stopped_.store(true)` and the return. */
    method Leave()
      requires Playing() && s.pc == Finish
      modifies this
      ensures Playing() && Onward()
      ensures s.pc == Idle && stopped && turns == old(turns) + 1
    {
      hide Reachable, ObserveGo, Play, Others, OnPlan, Fuel, OwnStep, CanStep, MidTurn;
      ghost var was := s;
      Interfere();
      stopped := true;
      EndGo(was);
    }

    /** One turn of the loop of `all_impl`. */
    method Round(blocking: bool, retr: nat) returns (outcome: Outcome, retr': nat)
      requires Playing() && s.pc == Top && s.mode == Mode(blocking, false) && s.retr == retr
      modifies this
      ensures Playing() && Onward() && s.mode == old(s.mode)
      ensures outcome == Returned ==> s.pc == Finish && s.retr == retr'
      ensures outcome == Threw ==> s.pc == Idle
      ensures outcome == Threw ==> Thrown()
      ensures outcome == Again ==> s.pc == Top && s.retr == retr'
      ensures outcome == Asleep ==> blocking && Blocked(s) && env == []
    {
      hide Playing, Fuel;
      AtTop();
      var tmp: nat := pending;
      var done, threw, called := ServiceQueue(tmp, Batch(tmp));
      if threw {
        return Threw, retr;
      }
      retr' := retr + tmp;
      Served();
      if done {
        return Returned, retr';
      }
      outcome, retr' := WaitAndHandle(blocking, retr');
    }

    /** The rest of a turn: `impl()`, and the queue's poll again. */
    method WaitAndHandle(blocking: bool, retr: nat) returns (outcome: Outcome, retr': nat)
      requires Playing() && s.pc == Wait && s.mode == Mode(blocking, false) && s.retr == retr
      modifies this
      ensures Playing() && s.mode == old(s.mode) && origin == old(origin) && plan == old(plan)
      ensures Fuel(s, env) <= old(Fuel(s, env)) && turns >= old(turns)
      ensures outcome == Returned ==> s.pc == Finish && s.retr == retr'
      ensures outcome == Threw ==> s.pc == Idle
      ensures outcome == Threw ==> Thrown()
      ensures outcome == Again ==> s.pc == Top && s.retr == retr'
      ensures outcome == Asleep ==> blocking && Blocked(s) && env == []
    {
      hide Playing, Fuel;
      var handlers, stop;
      retr' := retr;
      outcome, handlers, stop := Impl(blocking);
      if outcome != Returned {
        return;
      }
      retr' := retr + handlers;
      BackFromImpl();
      if !stop {
        var threw := RestartIf(Q);
        outcome := if threw then Threw else Again;
      }
    }

    /** What a call that began at `c`, with `plan0` to come, has come to: the state is the one that the
        machine and the plan determine; a return has a result and a reason that are facts of that
        run; an exception was the call's last step; a sleeper sleeps for good. */
    ghost predicate Ended(c: State, plan0: seq<Turn>, outcome: Outcome, retr: nat)
      reads this
    {
      && Valid() && s == Play(c, plan0, turns) && env == Rest(plan0, turns)
      && match outcome
         case Returned => s.pc == Idle && stopped && turns > 0 && EndsWithResult(c, plan0, turns - 1, retr)
         case Threw => s.pc == Idle && turns > 0 && LeavesByException(Play(c, plan0, turns - 1).pc)
         case Asleep => Blocked(s) && env == []
         case Again => false
    }

    /** The end of a call that began at `start`. */
    method Conclude(ghost start: State, ghost m: Mode, outcome: Outcome, retr: nat)
      requires Reachable(start) && start.pc == Idle && origin == Next(start, CallRun(m)) && CanPlay(origin, plan)
      requires Playing() && outcome != Again && (outcome == Returned ==> s.pc == Finish && s.retr == retr)
      requires (outcome == Threw ==> Thrown()) && (outcome == Asleep ==> Blocked(s) && env == [])
      modifies this
      ensures origin == old(origin) && plan == old(plan) && Ended(origin, plan, outcome, retr)
    {
      hide Reachable, Coupled, Play, CanPlay, Fuel, Next, EndsWithResult, Blocked, LeavesByException;
      if outcome == Returned {
        EndOfCall(start, m, plan, turns);
        Leave();
      }
    }

    /** `all_impl<Blocking>`. */
    method AllImpl(blocking: bool) returns (outcome: Outcome, retr: nat)
      requires Valid() && s.pc == Idle && CanPlay(Next(s, CallRun(Mode(blocking, false))), env)
      modifies this
      ensures Ended(Next(old(s), CallRun(Mode(blocking, false))), old(env), outcome, retr)
      ensures outcome == Asleep ==> blocking
    {
      ghost var start := s;
      assert Reachable(start);
      hide Valid, Ended, Reachable, Playing, Play, Rest, Fuel, Next, CanPlay, Thrown, Blocked;
      Begin(Mode(blocking, false));
      outcome, retr := Loop(blocking);
      Conclude(start, Mode(blocking, false), outcome, retr);
    }

    method Loop(blocking: bool) returns (outcome: Outcome, retr: nat)
      requires Playing() && s.pc == CheckStopped && s.mode == Mode(blocking, false) && s.retr == 0
      modifies this
      ensures Playing() && Onward() && outcome != Again
      ensures outcome == Returned ==> s.pc == Finish && s.retr == retr
      ensures outcome == Threw ==> Thrown()
      ensures outcome == Asleep ==> blocking && Blocked(s) && env == []
    {
      hide Playing, Fuel, Thrown, Blocked;
      retr := 0;
      var refused := Enter();
      outcome := if refused then Returned else Again;
      while outcome == Again
        invariant Playing() && Onward() && s.mode == Mode(blocking, false)
        invariant outcome == Returned ==> s.pc == Finish && s.retr == retr
        invariant outcome == Threw ==> Thrown()
        invariant outcome == Again ==> s.pc == Top && s.retr == retr
        invariant outcome == Asleep ==> blocking && Blocked(s) && env == []
        decreases Fuel(s, env)
      {
        outcome, retr := Round(blocking, retr);
      }
    }

    /** `one_impl<Blocking>`. */
    method OneImpl(blocking: bool) returns (outcome: Outcome, retr: nat)
      requires Valid() && s.pc == Idle && CanPlay(Next(s, CallRun(Mode(blocking, true))), env)
      modifies this
      ensures Ended(Next(old(s), CallRun(Mode(blocking, true))), old(env), outcome, retr)
      ensures outcome == Asleep ==> blocking
    {
      ghost var start := s;
      assert Reachable(start);
      hide Valid, Ended, Reachable, Playing, Play, Rest, Fuel, Next, CanPlay, Thrown, Blocked;
      Begin(Mode(blocking, true));
      retr := 0;
      outcome := Returned;
      var refused := Enter();
      if !refused {
        outcome, retr := OneTurn(blocking);
      }
      Conclude(start, Mode(blocking, true), outcome, retr);
    }

    method OneTurn(blocking: bool) returns (outcome: Outcome, retr: nat)
      requires Playing() && s.pc == Top && s.mode == Mode(blocking, true)
      modifies this
      ensures Playing() && Onward() && s.mode == old(s.mode)
      ensures outcome == Returned ==> s.pc == Finish && s.retr == retr
      ensures outcome == Threw ==> s.pc == Idle
      ensures outcome == Threw ==> Thrown()
      ensures outcome != Again && (outcome == Asleep ==> blocking && Blocked(s) && env == [])
    {
      hide Playing, Fuel;
      retr := 0;
      AtTop();
      if pending != 0 {
        var done, threw, called := ServiceQueue(1, Single);
        if threw {
          return Threw, 0;
        }
        Served();
        return Returned, 1;
      }
      var stop;
      outcome, retr, stop := Impl(blocking);
      if outcome == Returned {
        BackFromImpl();
      }
    }

    // ---- executor_type: calls made by any thread ----

    /** Everyone else, the runner included, turns the context into `m`; the call `c` is ours. */
    method Yield(m: State, ghost c: Call)
      requires Valid() && Leads(s, m) && c in m.calls
      modifies this
      ensures Valid() && s == m
    {
      LeadsTrans(Init(), s, m);
      list, cq, pending, work, stopped := m.list, m.cq, m.pending, m.work, m.stopped;
      qCount, stopCount, zeroCount := m.q.counter, m.stop.counter, m.zero.counter;
      qStarted, stopStarted, zeroStarted := m.q.started, m.stop.started, m.zero.started;
      s := m;
    }

    /** The step `a`, of which the fields show the effect. */
    ghost method Take(a: Action)
      requires Reachable(s) && Enabled(s, a)
      modifies `s
      ensures s == Next(old(s), a) && Reachable(s)
    {
      ReachStep(s, a);
      s := Next(s, a);
    }

    method OnWorkStarted()
      requires Valid()
      modifies this
      ensures Valid() && s == Next(old(s), WorkStarted)
    {
      hide Reachable;
      work := work + 1;
      Take(WorkStarted);
    }

    /** `zero_.write(1)` of a call that took the last unit. */
    method NotifyZero()
      requires Valid() && ZeroWrite in s.calls
      modifies this
      ensures Valid() && s == Next(old(s), ZeroNotify)
    {
      hide Reachable;
      zeroCount := zeroCount + 1;
      Take(ZeroNotify);
    }

    /** Gives back a unit that `on_work_started` counted; `m`: what everyone else has made of the
        context between the decrement and the write. */
    method OnWorkFinished(m: State)
      requires Valid() && s.guards > 0
      requires s.work == 1 ==> Leads(Next(s, WorkFinished), m) && ZeroWrite in m.calls
      modifies this
      ensures Valid()
      ensures s == if old(work) == 1 then Next(m, ZeroNotify) else Next(old(s), WorkFinished)
    {
      hide Reachable, Leads;
      var rem := work;
      work := work - 1;
      rem := rem - 1;
      Take(WorkFinished);
      if rem == 0 {
        Yield(m, ZeroWrite);
        NotifyZero();
      }
    }

    method SetStopped()
      requires Valid()
      modifies this
      ensures Valid() && s == Next(old(s), StopFlag)
    {
      hide Reachable;
      stopped := true;
      Take(StopFlag);
    }

    method WriteStop()
      requires Valid() && StopWrite in s.calls
      modifies this
      ensures Valid() && s == Next(old(s), StopNotify)
    {
      hide Reachable;
      stopCount := stopCount + 1;
      Take(StopNotify);
    }

    /** `stop`; `m`: what everyone else has made of the context between the two steps. */
    method StopContext(m: State)
      requires Valid() && Leads(Next(s, StopFlag), m) && StopWrite in m.calls
      modifies this
      ensures Valid() && s == Next(m, StopNotify)
    {
      hide Valid, Leads, Next;
      SetStopped();
      Yield(m, StopWrite);
      WriteStop();
    }

    /** `post` when the queue takes the function; `m1` and `m2`: what everyone else has made of the
        context before the node is linked, and before the eventfd is written. */
    method Post(f: Fn, m1: State, m2: State)
      requires Valid() && Leads(Next(s, PostStart), m1) && PostLink in m1.calls
      requires Leads(Next(m1, PostLinked(f)), m2) && PostWrite in m2.calls
      modifies this
      ensures Valid() && s == Next(m2, PostNotify)
      ensures |m1.h.linked| < |s.h.linked| && s.h.linked[|m1.h.linked|] == f
    {
      hide Valid, Leads, Next;
      CountUnit();
      Yield(m1, PostLink);
      LinkNode(f);
      LinkedGrows(s, m2);
      Yield(m2, PostWrite);
      WriteQueue();
    }

    /** `post` when a node cannot be allocated or the function cannot be constructed, which it swallows
        after giving the unit of work back. */
    method PostFails(m1: State, m2: State)
      requires Valid() && Leads(Next(s, PostStart), m1) && PostLink in m1.calls
      requires m1.work == 1 ==> Leads(Next(m1, PostFail), m2) && ZeroWrite in m2.calls
      modifies this
      ensures Valid() && s == if m1.work == 1 then Next(m2, ZeroNotify) else Next(m1, PostFail)
    {
      hide Valid, Leads, Next;
      CountUnit();
      Yield(m1, PostLink);
      var w := UncountUnit();
      if w == 1 {
        Yield(m2, ZeroWrite);
        NotifyZero();
      }
    }

    method CountUnit()
      requires Valid()
      modifies this
      ensures Valid() && s == Next(old(s), PostStart)
    {
      hide Reachable;
      work := work + 1;
      Take(PostStart);
    }

    method UncountUnit() returns (w: int)
      requires Valid() && PostLink in s.calls
      modifies this
      ensures Valid() && s == Next(old(s), PostFail) && w == old(s).work
    {
      hide Reachable;
      w := work;
      work := work - 1;
      Take(PostFail);
    }

    method LinkNode(f: Fn)
      requires Valid() && PostLink in s.calls
      modifies this
      ensures Valid() && s == Next(old(s), PostLinked(f)) && s.h.linked == old(s).h.linked + [f]
    {
      hide Reachable;
      list := list + [f];
      Take(PostLinked(f));
    }

    method WriteQueue()
      requires Valid() && PostWrite in s.calls
      modifies this
      ensures Valid() && s == Next(old(s), PostNotify) && s.h.linked == old(s).h.linked
    {
      hide Reachable;
      qCount := qCount + 1;
      Take(PostNotify);
    }

    lemma LinkedGrows(m: State, t: State)
      requires Leads(m, t)
      ensures m.h.linked <= t.h.linked
    {
      var acts :| IsRun(m, acts, t);
      LogsGrow(m, acts, t);
    }
  }
}
