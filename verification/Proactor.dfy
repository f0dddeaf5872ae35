/** The run loop of `execution_context` as a state machine.

    One runner thread executes `run`, `run_one`, `poll`, `poll_one` or `restart`.  Any number
    of other calls (`post`, `on_work_started`, `on_work_finished`, `stop`, `initiate`) are in
    progress at the same time; each is split at its atomic operations.  The kernel turns an
    armed poll on a positive eventfd counter, or an outstanding user operation, into a
    completion queue entry.

    A call that a handler makes on the runner's own thread takes the same steps as one made
    by another thread while the runner stands inside the handler. */
module Proactor {
  type Fn = nat // a posted function
  type Op = nat // a completion object of the service

  /** The context's three eventfds. */
  datatype Fd = Q | Stop | Zero

  datatype Cqe = Internal(fd: Fd) | User(op: Op)

  /** An eventfd counter, the number of one-shot polls armed on it, and the `*_started_` flag. */
  datatype Event = Event(counter: nat, armed: nat, started: bool)

  /** A call that has performed its first atomic operation but not its last. */
  datatype Call =
    | PostLink             // `post`: work counted, node not linked yet
    | PostWrite            // `post`: node linked, eventfd not written yet
    | ZeroWrite            // `on_work_finished`: took the work to zero, eventfd not written yet
    | StopWrite            // `stop`: flag set, eventfd not written yet
    | InitSubmit(op: Op)   // `initiate`: handler stored and counted, entry not submitted yet

  /** run (true, false), run_one (true, true), poll (false, false), poll_one (false, true). */
  datatype Mode = Mode(blocking: bool, one: bool)

  /** Who called `service_queue`: the top of `all_impl` with its `tmp`, `one_impl`, or `handle_cqe`. */
  datatype Source = Batch(n: nat) | Single | FromCqe

  datatype Pc =
    | Idle
    | Restart(fd: Fd) | RestartClear                              // restart()
    | CheckStopped | CheckWork                                    // the entry check
    | Top                                                         // the head of the loop
    | Serve(left: nat, done: bool, src: Source)                   // consume: `left` items to go
    | Popped(f: Fn, left: nat, done: bool, src: Source)           // popped, not decremented yet
    | InFn(left: nat, done: bool, src: Source)                    // inside the posted function
    | Wait                                                        // io_uring_wait_cqe / io_uring_peek_cqe
    | Dispatch(c: Cqe)                                            // handle_cqe entered
    | Drain(fd: Fd)                                               // flag cleared, about to read the eventfd
    | Got(n: nat)                                                 // count read, not added to pending_ yet
    | StopTest | ZeroTest                                         // eventfd read, about to load
    | Arm(fd: Fd)                                                 // about to re-arm inside handle_cqe
    | InOp(op: Op)                                                // inside a completion handler
    | GiveBack(op: Op, threw: bool)                               // handler left, about to decrement work
    | SignalZero(threw: bool)                                     // took work to zero, about to write
    | Handled(handlers: nat, stop: bool)                          // back from impl()
    | ArmQ                                                        // restart_if(0, q_started_)
    | Finish                                                      // about to set stopped_ and return

  /** Observations of the run; no step depends on them. */
  datatype History = History(
    linked: seq<Fn>,     // functions in link order
    executed: seq<Fn>,   // functions in the order they were called
    ran: nat,            // handlers run by the current call of the run loop
    stops: nat,          // stop() flags set since the current call read the flag
    zeroSeen: bool,      // the current call saw work_ at zero
    idleSeen: bool,      // the current call peeked and found no entry
    refused: bool        // the current call was refused by its entry check
  )

  datatype State = State(
    q: Event, stop: Event, zero: Event,
    pending: int,
    work: int,
    stopped: bool,
    list: seq<Fn>,
    cq: seq<Cqe>,
    ring: multiset<Op>,   // user operations submitted and not completed
    held: set<Op>,        // completions that hold a handler, each with one unit of work
    guards: nat,          // units of work counted by on_work_started and not given back
    calls: multiset<Call>,
    pc: Pc, mode: Mode, retr: nat,
    h: History
  )

  datatype Action =
    // any thread
    | WorkStarted | WorkFinished
    | PostStart | PostLinked(f: Fn) | PostFail | PostNotify
    | StopFlag | StopNotify
    | ZeroNotify
    | Initiate(op: Op) | Submit(op: Op) | SubmitFail(op: Op)
    // the kernel
    | Fire(fd: Fd) | Complete(op: Op)
    // the runner
    | CallRestart | CallRun(mode: Mode) | Go | Fail

  function Ev(s: State, fd: Fd): Event {
    match fd case Q => s.q case Stop => s.stop case Zero => s.zero
  }

  function SetEv(s: State, fd: Fd, e: Event): State {
    match fd case Q => s.(q := e) case Stop => s.(stop := e) case Zero => s.(zero := e)
  }

  /** The eventfd write: add one to the counter. */
  function Bump(s: State, fd: Fd): State {
    SetEv(s, fd, Ev(s, fd).(counter := Ev(s, fd).counter + 1))
  }

  /** The eventfd read: the counter goes to zero. */
  function ReadOut(s: State, fd: Fd): State {
    SetEv(s, fd, Ev(s, fd).(counter := 0))
  }

  /** `restart(i, b)`: submit a one-shot poll and set the flag. */
  function ArmPoll(s: State, fd: Fd): State {
    SetEv(s, fd, Ev(s, fd).(armed := Ev(s, fd).armed + 1, started := true))
  }

  /** The calls in progress after the `fetch_sub` of `on_work_finished`: a caller that took the
      last unit goes on to write `zero_`. */
  function AfterSub(calls: multiset<Call>, work: int): multiset<Call> {
    if work == 1 then calls + multiset{ZeroWrite} else calls
  }

  function Init(): (s: State) {
    State(Event(0, 0, false), Event(0, 0, false), Event(0, 0, false),
          0, 0, false, [], [], multiset{}, {}, 0, multiset{},
          Restart(Q), Mode(true, false), 0,
          History([], [], 0, 0, false, false, false))
  }

  predicate AllStarted(s: State) {
    s.q.started && s.stop.started && s.zero.started
  }

  /** Where the runner cannot take its next step: outside any call, blocked in
      `io_uring_wait_cqe`, blocked reading an eventfd at zero, or popping an empty queue. */
  predicate CanGo(s: State) {
    match s.pc
    case Idle => false
    case Serve(left, _, _) => left > 0 ==> s.list != []
    case Wait => s.mode.blocking ==> s.cq != []
    case Drain(fd) => Ev(s, fd).counter > 0
    case _ => true
  }

  /** Where an exception can leave the runner's code. */
  predicate CanFail(s: State) {
    match s.pc
    case Restart(fd) => !Ev(s, fd).started // no submission entry
    case Arm(_) => true
    case ArmQ => !s.q.started
    case Wait => true                      // io_uring_wait_cqe failed
    case InFn(_, _, _) => true             // the function threw
    case InOp(_) => true                   // the completion handler threw
    case _ => false
  }

  predicate Enabled(s: State, a: Action) {
    match a
    case WorkStarted => true
    case WorkFinished => s.guards > 0
    case PostStart => true
    case PostLinked(_) => PostLink in s.calls
    case PostFail => PostLink in s.calls
    case PostNotify => PostWrite in s.calls
    case StopFlag => true
    case StopNotify => StopWrite in s.calls
    case ZeroNotify => ZeroWrite in s.calls
    case Initiate(op) => op !in s.held
    case Submit(op) => InitSubmit(op) in s.calls
    case SubmitFail(op) => InitSubmit(op) in s.calls
    case Fire(fd) => Ev(s, fd).armed > 0 && Ev(s, fd).counter > 0
    case Complete(op) => op in s.ring
    case CallRestart => s.pc == Idle
    case CallRun(_) => s.pc == Idle
    case Go => CanGo(s)
    case Fail => CanFail(s)
  }

  /** A step of another call or of the kernel. */
  predicate ByOthers(a: Action) {
    !a.CallRestart? && !a.CallRun? && !a.Go? && !a.Fail?
  }

  /** Steps of the other calls and of the kernel. */
  function MoveOther(s: State, a: Action): State
    requires Enabled(s, a) && ByOthers(a)
  {
    match a
    case WorkStarted => s.(work := s.work + 1, guards := s.guards + 1)
    case WorkFinished => s.(work := s.work - 1, calls := AfterSub(s.calls, s.work), guards := s.guards - 1)
    case PostStart => s.(work := s.work + 1, calls := s.calls + multiset{PostLink})
    case PostLinked(f) =>
      s.(list := s.list + [f],
         calls := s.calls - multiset{PostLink} + multiset{PostWrite})
    case PostFail => s.(work := s.work - 1, calls := AfterSub(s.calls - multiset{PostLink}, s.work))
    case PostNotify => Bump(s, Q).(calls := s.calls - multiset{PostWrite})
    case StopFlag =>
      s.(stopped := true, calls := s.calls + multiset{StopWrite})
    case StopNotify => Bump(s, Stop).(calls := s.calls - multiset{StopWrite})
    case ZeroNotify => Bump(s, Zero).(calls := s.calls - multiset{ZeroWrite})
    case Initiate(op) =>
      s.(held := s.held + {op}, work := s.work + 1, calls := s.calls + multiset{InitSubmit(op)})
    case Submit(op) => s.(ring := s.ring + multiset{op}, calls := s.calls - multiset{InitSubmit(op)})
    case SubmitFail(op) =>
      s.(work := s.work - 1, calls := AfterSub(s.calls - multiset{InitSubmit(op)}, s.work), held := s.held - {op})
    case Fire(fd) =>
      SetEv(s, fd, Ev(s, fd).(armed := Ev(s, fd).armed - 1)).(cq := s.cq + [Internal(fd)])
    case Complete(op) => s.(ring := s.ring - multiset{op}, cq := s.cq + [User(op)])
  }

  function AfterRestart(fd: Fd): Pc {
    match fd case Q => Restart(Stop) case Stop => Restart(Zero) case Zero => RestartClear
  }

  /** Where the runner goes when the completion guard has released the completion. */
  function AfterOp(threw: bool): Pc {
    if threw then Idle else Handled(1, false)
  }

  /** The runner's next atomic step. */
  function MoveGo(s: State): State
    requires CanGo(s)
  {
    match s.pc
    case Restart(fd) => (if Ev(s, fd).started then s else ArmPoll(s, fd)).(pc := AfterRestart(fd))
    case RestartClear => s.(stopped := false, pc := Idle)
    case CheckStopped =>
      if !AllStarted(s) || s.stopped then s.(pc := Finish) else s.(pc := CheckWork)
    case CheckWork =>
      if s.work == 0 then s.(pc := Finish) else s.(pc := Top)
    case Top =>
      if !s.mode.one then
        var n: nat := if s.pending > 0 then s.pending else 0;
        s.(pc := Serve(n, false, Batch(n)))
      else if s.pending != 0 then s.(pc := Serve(1, false, Single))
      else s.(pc := Wait)
    case Serve(left, done, src) =>
      if left > 0 then s.(list := s.list[1..], pc := Popped(s.list[0], left - 1, done, src))
      else (
        match src
        case Batch(n) => s.(retr := s.retr + n, pc := if done then Finish else Wait)
        case Single => s.(retr := 1, pc := Finish)
        case FromCqe => s.(pc := Handled(1, done)))
    case Popped(f, left, done, src) =>
      s.(pending := s.pending - 1, work := s.work - 1,
         pc := InFn(left, done || s.work == 1, src))
    case InFn(left, done, src) => s.(pc := Serve(left, done, src))
    case Wait =>
      if s.cq == [] then s.(pc := Handled(0, true))
      else s.(cq := s.cq[1..], pc := Dispatch(s.cq[0]))
    case Dispatch(c) =>
      (match c
       case Internal(fd) => SetEv(s, fd, Ev(s, fd).(started := false)).(pc := Drain(fd))
       case User(op) => s.(pc := InOp(op)))
    case Drain(fd) =>
      ReadOut(s, fd).(pc := match fd case Q => Got(s.q.counter) case Stop => StopTest case Zero => ZeroTest)
    case Got(n) => s.(pending := s.pending + n, pc := Serve(1, false, FromCqe))
    case StopTest => s.(pc := if s.stopped then Handled(0, true) else Arm(Stop))
    case ZeroTest =>
      if s.work == 0 then s.(pc := Handled(0, true)) else s.(pc := Arm(Zero))
    case Arm(fd) => ArmPoll(s, fd).(pc := Handled(0, false))
    case InOp(op) => s.(pc := GiveBack(op, false))
    case GiveBack(op, threw) =>
      s.(held := s.held - {op}, work := s.work - 1,
         pc := if s.work == 1 then SignalZero(threw) else AfterOp(threw))
    case SignalZero(threw) => Bump(s, Zero).(pc := AfterOp(threw))
    case Handled(handlers, stop) =>
      if s.mode.one then s.(retr := handlers, pc := Finish)
      else s.(retr := s.retr + handlers, pc := if stop then Finish else ArmQ)
    case ArmQ => (if s.q.started then s else ArmPoll(s, Q)).(pc := Top)
    case Finish => s.(stopped := true, pc := Idle)
  }

  /** What the runner's step adds to the history. */
  function ObserveGo(s: State): History
    requires CanGo(s)
  {
    match s.pc
    case CheckStopped =>
      if !AllStarted(s) || s.stopped then s.h.(refused := true) else s.h.(stops := 0)
    case CheckWork => if s.work == 0 then s.h.(refused := true, zeroSeen := true) else s.h
    case Popped(f, _, _, _) =>
      s.h.(executed := s.h.executed + [f], ran := s.h.ran + 1, zeroSeen := s.h.zeroSeen || s.work == 1)
    case Wait => if s.cq == [] then s.h.(idleSeen := true) else s.h
    case Dispatch(User(_)) => s.h.(ran := s.h.ran + 1)
    case ZeroTest => if s.work == 0 then s.h.(zeroSeen := true) else s.h
    case _ => s.h
  }

  function ObserveOther(s: State, a: Action): History {
    match a
    case PostLinked(f) => s.h.(linked := s.h.linked + [f])
    case StopFlag => s.h.(stops := s.h.stops + 1)
    case _ => s.h
  }

  function NextOther(s: State, a: Action): State
    requires Enabled(s, a) && ByOthers(a)
  {
    MoveOther(s, a).(h := ObserveOther(s, a))
  }

  function NextGo(s: State): State
    requires CanGo(s)
  {
    MoveGo(s).(h := ObserveGo(s))
  }

  /** The runner's step when an exception is thrown: the call is left, except that the
      guard of a completion still releases it. */
  function NextFail(s: State): State
    requires CanFail(s)
  {
    match s.pc
    case InOp(op) => s.(pc := GiveBack(op, true))
    case _ => s.(pc := Idle)
  }

  function Next(s: State, a: Action): State
    requires Enabled(s, a)
  {
    match a
    case CallRestart => s.(pc := Restart(Q))
    case CallRun(m) =>
      s.(pc := CheckStopped, mode := m, retr := 0,
         h := s.h.(ran := 0, stops := 0, zeroSeen := false, idleSeen := false, refused := false))
    case Go => NextGo(s)
    case Fail => NextFail(s)
    case _ => NextOther(s, a)
  }

  /** `acts` leads from `s` to `t`. */
  ghost predicate IsRun(s: State, acts: seq<Action>, t: State)
    decreases |acts|
  {
    if acts == [] then s == t
    else Enabled(s, acts[0]) && IsRun(Next(s, acts[0]), acts[1..], t)
  }

  ghost predicate Leads(s: State, t: State) {
    exists acts :: IsRun(s, acts, t)
  }

  ghost predicate Reachable(s: State) {
    Leads(Init(), s)
  }

  lemma {:induction false} RunConcat(s: State, xs: seq<Action>, m: State, ys: seq<Action>, t: State)
    requires IsRun(s, xs, m) && IsRun(m, ys, t)
    ensures IsRun(s, xs + ys, t)
    decreases |xs|
  {
    hide Next, Enabled;
    if xs == [] {
      assert xs + ys == ys;
    } else {
      RunConcat(Next(s, xs[0]), xs[1..], m, ys, t);
      assert (xs + ys)[1..] == xs[1..] + ys;
    }
  }

  lemma {:induction false} RunSplit(s: State, xs: seq<Action>, ys: seq<Action>, t: State) returns (m: State)
    requires IsRun(s, xs + ys, t)
    ensures IsRun(s, xs, m) && IsRun(m, ys, t)
    decreases |xs|
  {
    hide Next, Enabled;
    if xs == [] {
      m := s;
      assert xs + ys == ys;
    } else {
      assert (xs + ys)[0] == xs[0] && (xs + ys)[1..] == xs[1..] + ys;
      m := RunSplit(Next(s, xs[0]), xs[1..], ys, t);
    }
  }

  lemma LeadsTrans(s: State, m: State, t: State)
    requires Leads(s, m) && Leads(m, t)
    ensures Leads(s, t)
  {
    var xs :| IsRun(s, xs, m);
    var ys :| IsRun(m, ys, t);
    RunConcat(s, xs, m, ys, t);
  }

  lemma LeadsRefl(s: State)
    ensures Leads(s, s)
  {
    assert IsRun(s, [], s);
  }

  lemma LeadsStep(s: State, a: Action)
    requires Enabled(s, a)
    ensures Leads(s, Next(s, a))
  {
    assert [a][1..] == [];
    assert IsRun(Next(s, a), [], Next(s, a));
    assert IsRun(s, [a], Next(s, a));
  }

  lemma ReachStep(s: State, a: Action)
    requires Reachable(s) && Enabled(s, a)
    ensures Reachable(Next(s, a))
  {
    hide Enabled, Next;
    LeadsStep(s, a);
    LeadsTrans(Init(), s, Next(s, a));
  }
}
