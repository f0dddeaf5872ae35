/** The inductive invariant of the run loop, and the proof that every step keeps it. */
module ProactorInvariant {
  import opened Helpers
  import opened Proactor

  // ---- what the runner holds at each program counter ----

  function InHand(pc: Pc): seq<Fn> {
    if pc.Popped? then [pc.f] else []
  }

  function GotCount(pc: Pc): nat {
    if pc.Got? then pc.n else 0
  }

  datatype Hand = Nothing | Holds(op: Op)

  /** The operation whose completion the runner is handling. */
  function OpInHand(pc: Pc): Hand {
    match pc
    case Dispatch(User(op)) => Holds(op)
    case InOp(op) => Holds(op)
    case GiveBack(op, _) => Holds(op)
    case _ => Nothing
  }

  datatype Busy = NotBusy | Entry(fd: Fd) | Reading(fd: Fd)

  /** The eventfd whose entry the runner has taken and whose counter it has not read yet. */
  function BusyWith(pc: Pc): Busy {
    match pc
    case Dispatch(Internal(fd)) => Entry(fd)
    case Drain(fd) => Reading(fd)
    case _ => NotBusy
  }

  /** `service_queue` has recorded that it took the last unit of work. */
  predicate DoneRecorded(pc: Pc) {
    (pc.Serve? || pc.Popped? || pc.InFn?) && pc.done
  }

  /** Inside a call of the run loop that has read the flag and has not decided to return. */
  predicate InLoop(pc: Pc) {
    !pc.Idle? && !pc.Restart? && !pc.RestartClear? && !pc.CheckStopped? && !pc.Finish? &&
    !(pc.Handled? && pc.stop) && !((pc.GiveBack? || pc.SignalZero?) && pc.threw)
  }

  predicate FromQueueCqe(pc: Pc) {
    (pc.Serve? || pc.Popped? || pc.InFn?) && pc.src == FromCqe
  }

  // ---- the conjuncts ----

  /** `n` entries for the eventfd are queued; `hand`: its entry is being dispatched;
      `drain`: the runner is about to read it.  A started eventfd has exactly one of an armed
      poll and an unhandled entry, and an entry means that the counter is positive until the
      runner reads it. */
  predicate PollInv(e: Event, n: nat, hand: bool, drain: bool) {
    && e.armed + n + One(hand) == One(e.started)
    && (n > 0 || hand || drain ==> e.counter > 0)
  }

  predicate PollsInv(q: Event, stop: Event, zero: Event, cq: multiset<Cqe>, busy: Busy) {
    && PollInv(q, cq[Internal(Q)], busy == Entry(Q), busy == Reading(Q))
    && PollInv(stop, cq[Internal(Stop)], busy == Entry(Stop), busy == Reading(Stop))
    && PollInv(zero, cq[Internal(Zero)], busy == Entry(Zero), busy == Reading(Zero))
  }

  /** The counting invariant: what is linked is what was counted and not popped, and what was
      linked and is still to be counted. */
  predicate QueueInv(linked: nat, hand: nat, pending: int, counter: nat, writing: nat, got: nat) {
    linked + hand == pending + counter + writing + got && pending >= 0
  }

  predicate FifoInv(linked: seq<Fn>, executed: seq<Fn>, hand: seq<Fn>, list: seq<Fn>) {
    linked == executed + hand + list
  }

  predicate WorkInv(work: int, linked: nat, linking: nat, hand: nat, held: nat, guards: nat) {
    work == linked + linking + hand + held + guards
  }

  /** How many places an operation is in: being initiated, in the ring, completed, in the runner's hand. */
  function Places(calls: multiset<Call>, ring: multiset<Op>, cq: multiset<Cqe>, hand: Hand, op: Op): nat {
    calls[InitSubmit(op)] + ring[op] + cq[User(op)] + One(hand == Holds(op))
  }

  ghost predicate OpsInv(calls: multiset<Call>, ring: multiset<Op>, cq: multiset<Cqe>, hand: Hand, held: set<Op>) {
    forall op :: Places(calls, ring, cq, hand, op) == One(op in held)
  }

  predicate ServeInv(pc: Pc, pending: int) {
    match pc
    case Serve(left, done, src) =>
      left <= pending && (done ==> left == 0) &&
      (if src.Batch? then left == pending && left <= src.n else left <= 1)
    case Popped(_, left, done, src) =>
      left + 1 <= pending && !done &&
      (if src.Batch? then left + 1 == pending && left < src.n else left == 0)
    case InFn(left, done, src) =>
      left <= pending && (done ==> left == 0) &&
      (if src.Batch? then left == pending && left < src.n else left == 0)
    case Got(n) => n > 0
    case Wait => pending == 0
    case _ => true
  }

  /** Which of the three flags are set at each program counter. */
  predicate FlagsInv(pc: Pc, q: bool, stop: bool, zero: bool) {
    match pc
    case Idle => true
    case Restart(fd) => (fd != Q ==> q) && (fd == Zero ==> stop)
    case CheckStopped => true
    case Finish => true
    case Handled(_, st) => !st ==> stop && zero
    case ArmQ => stop && zero
    case Drain(fd) => q == (fd != Q) && stop == (fd != Stop) && zero == (fd != Zero)
    case Got(_) => !q && stop && zero
    case StopTest => q && !stop && zero
    case ZeroTest => q && stop && !zero
    case Arm(fd) => q && stop == (fd != Stop) && zero == (fd != Zero) && fd != Q
    case Serve(_, _, src) => q == (src != FromCqe) && stop && zero
    case Popped(_, _, _, src) => q == (src != FromCqe) && stop && zero
    case InFn(_, _, src) => q == (src != FromCqe) && stop && zero
    case _ => q && stop && zero
  }

  /** A set flag is on its way to the runner. */
  predicate StopInv(pc: Pc, stopped: bool, stops: nat, writing: nat, counter: nat) {
    InLoop(pc) && stopped ==> stops > 0 && (writing > 0 || counter > 0 || pc == StopTest)
  }

  /** Running out of work is on its way to the runner. */
  predicate ZeroInv(pc: Pc, work: int, writing: nat, counter: nat) {
    InLoop(pc) && pc != CheckWork && work == 0 ==>
      writing > 0 || counter > 0 || pc == ZeroTest || pc.SignalZero? || DoneRecorded(pc)
  }

  /** What the locals of the call will still add to `retr`, less what they will still run. */
  function Owed(pc: Pc): int {
    match pc
    case Serve(left, _, src) => SourceCount(src) - left
    case Popped(_, left, _, src) => SourceCount(src) - left - 1
    case InFn(left, _, src) => SourceCount(src) - left
    case InOp(_) => 1
    case GiveBack(_, _) => 1
    case SignalZero(_) => 1
    case Handled(handlers, _) => handlers
    case _ => 0
  }

  function SourceCount(src: Source): nat {
    if src.Batch? then src.n else 1
  }

  predicate SourceMode(pc: Pc, one: bool) {
    && (pc.Serve? || pc.Popped? || pc.InFn? ==> (pc.src.Batch? ==> !one) && (pc.src.Single? ==> one))
    && (pc.ArmQ? ==> !one)
  }

  /** `retr` and what the locals of the call will add to it agree with the handlers run. */
  predicate CountInv(pc: Pc, one: bool, retr: nat, ran: nat) {
    !pc.Idle? && !pc.Restart? && !pc.RestartClear? ==>
      && ran == retr + Owed(pc) && SourceMode(pc, one)
      && (pc.CheckStopped? || pc.CheckWork? || (one && !pc.Finish?) ==> retr == 0)
      && (pc.Handled? ==> pc.handlers <= 1) && (one ==> retr <= 1)
  }

  /** Why a call may return. */
  predicate ReasonInv(pc: Pc, mode: Mode, ran: nat, h: History) {
    && (pc == Finish ==> (h.refused && ran == 0) || h.stops > 0 || h.zeroSeen || h.idleSeen || mode.one)
    && (pc.Handled? && pc.stop ==> h.stops > 0 || h.zeroSeen || h.idleSeen)
    && (DoneRecorded(pc) ==> h.zeroSeen)
    && (h.idleSeen && !pc.Idle? && !pc.Restart? && !pc.RestartClear? ==> !mode.blocking)
  }

  ghost predicate Inv(s: State) {
    && PollsInv(s.q, s.stop, s.zero, multiset(s.cq), BusyWith(s.pc))
    && QueueInv(|s.list|, |InHand(s.pc)|, s.pending, s.q.counter, s.calls[PostWrite], GotCount(s.pc))
    && FifoInv(s.h.linked, s.h.executed, InHand(s.pc), s.list)
    && WorkInv(s.work, |s.list|, s.calls[PostLink], |InHand(s.pc)|, |s.held|, s.guards)
    && OpsInv(s.calls, s.ring, multiset(s.cq), OpInHand(s.pc), s.held)
    && ServeInv(s.pc, s.pending)
    && FlagsInv(s.pc, s.q.started, s.stop.started, s.zero.started)
    && StopInv(s.pc, s.stopped, s.h.stops, s.calls[StopWrite], s.stop.counter)
    && ZeroInv(s.pc, s.work, s.calls[ZeroWrite], s.zero.counter)
    && CountInv(s.pc, s.mode.one, s.retr, s.h.ran)
    && ReasonInv(s.pc, s.mode, s.h.ran, s.h)
  }

  // ---- every step keeps it ----

  lemma CqHead(cq: seq<Cqe>)
    requires cq != []
    ensures forall c :: multiset(cq)[c] == multiset(cq[1..])[c] + One(c == cq[0])
  {
    assert cq == [cq[0]] + cq[1..];
  }

  /** Steps that leave every operation's own calls and entries alone keep `OpsInv`. */
  lemma OpsSame(calls: multiset<Call>, calls2: multiset<Call>, ring: multiset<Op>,
                cq: multiset<Cqe>, cq2: multiset<Cqe>, hand: Hand, held: set<Op>)
    requires OpsInv(calls, ring, cq, hand, held)
    requires forall op :: calls[InitSubmit(op)] == calls2[InitSubmit(op)]
    requires forall op :: cq[User(op)] == cq2[User(op)]
    ensures OpsInv(calls2, ring, cq2, hand, held)
  {
    forall op ensures Places(calls2, ring, cq2, hand, op) == One(op in held) {
      assert Places(calls, ring, cq, hand, op) == One(op in held);
    }
  }

  /** The operation in the runner's hand, or being initiated, is held. */
  lemma OpHeld(s: State, op: Op)
    requires OpsInv(s.calls, s.ring, multiset(s.cq), OpInHand(s.pc), s.held)
    requires InitSubmit(op) in s.calls || OpInHand(s.pc) == Holds(op)
    ensures op in s.held
  {
    assert Places(s.calls, s.ring, multiset(s.cq), OpInHand(s.pc), op) > 0;
  }

  lemma NoOps()
    ensures OpsInv(multiset{}, multiset{}, multiset{}, Nothing, {})
  {
  }

  lemma NoPoll(e: Event, n: nat, hand: bool, drain: bool)
    requires e.counter == e.armed == n == 0 && !e.started && !hand && !drain
    ensures PollInv(e, n, hand, drain)
  {
  }

  lemma InitPolls(s: State)
    requires s == Init()
    ensures PollsInv(s.q, s.stop, s.zero, multiset(s.cq), BusyWith(s.pc))
  {
    hide PollInv;
    var busy := BusyWith(s.pc);
    assert forall c :: c !in s.cq;
    NoPoll(s.q, multiset(s.cq)[Internal(Q)], busy == Entry(Q), busy == Reading(Q));
    NoPoll(s.stop, multiset(s.cq)[Internal(Stop)], busy == Entry(Stop), busy == Reading(Stop));
    NoPoll(s.zero, multiset(s.cq)[Internal(Zero)], busy == Entry(Zero), busy == Reading(Zero));
  }

  lemma InitInv(s: State)
    requires s == Init()
    ensures Inv(s)
  {
    hide PollsInv, OpsInv;
    InitPolls(s);
    assert multiset(s.cq) == multiset{};
    assert OpsInv(multiset{}, multiset{}, multiset{}, Nothing, {}) by {
      NoOps();
    }
  }

  lemma ArmPolls(s: State, fd: Fd)
    requires PollsInv(s.q, s.stop, s.zero, multiset(s.cq), NotBusy) && !Ev(s, fd).started
    ensures var t := ArmPoll(s, fd); PollsInv(t.q, t.stop, t.zero, multiset(t.cq), NotBusy)
  {
  }

  lemma FirePolls(s: State, fd: Fd)
    requires PollsInv(s.q, s.stop, s.zero, multiset(s.cq), BusyWith(s.pc)) && Enabled(s, Fire(fd))
    ensures var t := NextOther(s, Fire(fd)); PollsInv(t.q, t.stop, t.zero, multiset(t.cq), BusyWith(t.pc))
  {
  }

  lemma ReadPolls(s: State, fd: Fd)
    requires PollsInv(s.q, s.stop, s.zero, multiset(s.cq), Reading(fd))
    requires s.pc == Drain(fd) && CanGo(s) && !Ev(s, fd).started
    ensures var t := NextGo(s); PollsInv(t.q, t.stop, t.zero, multiset(t.cq), BusyWith(t.pc))
  {
  }

  lemma BumpPolls(s: State, fd: Fd)
    requires PollsInv(s.q, s.stop, s.zero, multiset(s.cq), BusyWith(s.pc))
    ensures var t := Bump(s, fd); PollsInv(t.q, t.stop, t.zero, multiset(t.cq), BusyWith(t.pc))
  {
  }

  lemma WorkStartedKeeps(s: State, a: Action)
    requires Inv(s) && a.WorkStarted? && Enabled(s, a)
    ensures Inv(NextOther(s, a))
  {
    hide FlagsInv, CountInv, ServeInv, ReasonInv, PollsInv, FifoInv, OpsInv, StopInv, QueueInv;
  }

  /** Steps that are nothing to the operations. */
  lemma OpsKept(s: State, a: Action)
    requires OpsInv(s.calls, s.ring, multiset(s.cq), OpInHand(s.pc), s.held) && Enabled(s, a)
    requires a.WorkFinished? || a.PostNotify? || a.StopNotify? || a.ZeroNotify?
    ensures var t := NextOther(s, a); OpsInv(t.calls, t.ring, multiset(t.cq), OpInHand(t.pc), t.held)
  {
    hide OpsInv, Places, ObserveOther, OpInHand;
    var t := NextOther(s, a);
    OpsSame(s.calls, t.calls, s.ring, multiset(s.cq), multiset(t.cq), OpInHand(s.pc), s.held);
  }

  lemma FireOps(s: State, fd: Fd)
    requires OpsInv(s.calls, s.ring, multiset(s.cq), OpInHand(s.pc), s.held) && Enabled(s, Fire(fd))
    ensures var t := NextOther(s, Fire(fd)); OpsInv(t.calls, t.ring, multiset(t.cq), OpInHand(t.pc), t.held)
  {
    hide OpsInv, Places, ObserveOther, OpInHand;
    var t := NextOther(s, Fire(fd));
    OpsSame(s.calls, t.calls, s.ring, multiset(s.cq), multiset(t.cq), OpInHand(s.pc), s.held);
  }

  lemma WorkFinishedKeeps(s: State, a: Action)
    requires Inv(s) && a.WorkFinished? && Enabled(s, a)
    ensures Inv(NextOther(s, a))
  {
    hide FlagsInv, CountInv, ServeInv, ReasonInv, PollsInv, FifoInv, StopInv, ServeInv, OpsInv, Places;
    OpsKept(s, a);
  }

  lemma PostStartKeeps(s: State, a: Action)
    requires Inv(s) && a.PostStart? && Enabled(s, a)
    ensures Inv(NextOther(s, a))
  {
    hide FlagsInv, CountInv, ServeInv, ReasonInv, PollsInv, FifoInv, StopInv, OpsInv, Places;
    var t := NextOther(s, a);
    OpsSame(s.calls, t.calls, s.ring, multiset(s.cq), multiset(t.cq), OpInHand(s.pc), s.held);
  }

  lemma PostLinkedKeeps(s: State, a: Action)
    requires Inv(s) && a.PostLinked? && Enabled(s, a)
    ensures Inv(NextOther(s, a))
  {
    hide FlagsInv, CountInv, ServeInv, PollsInv, StopInv, OpsInv, Places;
    var t := NextOther(s, a);
    OpsSame(s.calls, t.calls, s.ring, multiset(s.cq), multiset(t.cq), OpInHand(s.pc), s.held);
  }

  /** A call that ends by giving its unit of work back. */
  lemma SubCalls(calls: multiset<Call>, c: Call, work: int)
    requires c in calls && c != ZeroWrite
    ensures var rest := AfterSub(calls - multiset{c}, work);
            && rest[ZeroWrite] == calls[ZeroWrite] + One(work == 1)
            && forall d :: d != ZeroWrite ==> rest[d] == calls[d] - One(c == d)
  {
  }

  lemma PostFailKeeps(s: State, a: Action)
    requires Inv(s) && a.PostFail? && Enabled(s, a)
    ensures Inv(NextOther(s, a))
  {
    hide FlagsInv, CountInv, ServeInv, ReasonInv, PollsInv, FifoInv, StopInv, OpsInv, Places, AfterSub;
    SubCalls(s.calls, PostLink, s.work);
    var t := NextOther(s, a);
    OpsSame(s.calls, t.calls, s.ring, multiset(s.cq), multiset(t.cq), OpInHand(s.pc), s.held);
  }

  lemma PostNotifyKeeps(s: State, a: Action)
    requires Inv(s) && a.PostNotify? && Enabled(s, a)
    ensures Inv(NextOther(s, a))
  {
    hide FlagsInv, CountInv, ServeInv, ReasonInv, PollsInv, FifoInv, OpsInv, Places;
    BumpPolls(s, Q);
    OpsKept(s, a);
  }

  lemma StopFlagKeeps(s: State, a: Action)
    requires Inv(s) && a.StopFlag? && Enabled(s, a)
    ensures Inv(NextOther(s, a))
  {
    hide FlagsInv, CountInv, ServeInv, PollsInv, FifoInv, QueueInv, WorkInv, OpsInv, Places;
    var t := NextOther(s, a);
    OpsSame(s.calls, t.calls, s.ring, multiset(s.cq), multiset(t.cq), OpInHand(s.pc), s.held);
  }

  lemma StopNotifyKeeps(s: State, a: Action)
    requires Inv(s) && a.StopNotify? && Enabled(s, a)
    ensures Inv(NextOther(s, a))
  {
    hide FlagsInv, CountInv, ServeInv, ReasonInv, PollsInv, FifoInv, OpsInv, Places, WorkInv, QueueInv;
    BumpPolls(s, Stop);
    OpsKept(s, a);
  }

  lemma ZeroNotifyKeeps(s: State, a: Action)
    requires Inv(s) && a.ZeroNotify? && Enabled(s, a)
    ensures Inv(NextOther(s, a))
  {
    hide FlagsInv, CountInv, ServeInv, ReasonInv, PollsInv, FifoInv, OpsInv, Places, WorkInv, QueueInv;
    BumpPolls(s, Zero);
    OpsKept(s, a);
  }

  lemma InitiateKeeps(s: State, a: Action)
    requires Inv(s) && a.Initiate? && Enabled(s, a)
    ensures Inv(NextOther(s, a))
  {
    hide FlagsInv, CountInv, ServeInv, ReasonInv, PollsInv, FifoInv, StopInv, QueueInv;
  }

  lemma SubmitKeeps(s: State, a: Action)
    requires Inv(s) && a.Submit? && Enabled(s, a)
    ensures Inv(NextOther(s, a))
  {
    hide FlagsInv, CountInv, ServeInv, ReasonInv, PollsInv, FifoInv, StopInv, QueueInv;
  }

  lemma SubmitFailOps(s: State, op: Op)
    requires OpsInv(s.calls, s.ring, multiset(s.cq), OpInHand(s.pc), s.held) && InitSubmit(op) in s.calls
    ensures var t := NextOther(s, SubmitFail(op));
            OpsInv(t.calls, t.ring, multiset(t.cq), OpInHand(t.pc), t.held)
  {
    hide AfterSub;
    SubCalls(s.calls, InitSubmit(op), s.work);
    var t := NextOther(s, SubmitFail(op));
    forall o ensures Places(t.calls, t.ring, multiset(t.cq), OpInHand(t.pc), o) == One(o in t.held) {
      assert Places(s.calls, s.ring, multiset(s.cq), OpInHand(s.pc), o) == One(o in s.held);
    }
  }

  lemma SubmitFailKeeps(s: State, a: Action)
    requires Inv(s) && a.SubmitFail? && Enabled(s, a)
    ensures Inv(NextOther(s, a))
  {
    hide FlagsInv, CountInv, ServeInv, ReasonInv, PollsInv, FifoInv, StopInv, OpsInv, Places, QueueInv, AfterSub;
    SubCalls(s.calls, InitSubmit(a.op), s.work);
    OpHeld(s, a.op);
    SubmitFailOps(s, a.op);
  }

  lemma FireKeeps(s: State, a: Action)
    requires Inv(s) && a.Fire? && Enabled(s, a)
    ensures Inv(NextOther(s, a))
  {
    hide FlagsInv, CountInv, ServeInv, ReasonInv, PollsInv, FifoInv, OpsInv, Places, WorkInv;
    FirePolls(s, a.fd);
    FireOps(s, a.fd);
  }

  lemma CompleteKeeps(s: State, a: Action)
    requires Inv(s) && a.Complete? && Enabled(s, a)
    ensures Inv(NextOther(s, a))
  {
    hide FlagsInv, CountInv, ServeInv, ReasonInv, FifoInv, WorkInv, QueueInv, StopInv, ZeroInv;
  }

  lemma RestartKeeps(s: State)
    requires Inv(s) && s.pc.Restart? && CanGo(s)
    ensures Inv(NextGo(s))
  {
    hide FifoInv, WorkInv, OpsInv, QueueInv, PollsInv;
    if !Ev(s, s.pc.fd).started {
      ArmPolls(s, s.pc.fd);
    }
  }

  lemma RestartClearKeeps(s: State)
    requires Inv(s) && s.pc.RestartClear? && CanGo(s)
    ensures Inv(NextGo(s))
  {
  }

  lemma CheckStoppedKeeps(s: State)
    requires Inv(s) && s.pc.CheckStopped? && CanGo(s)
    ensures Inv(NextGo(s))
  {
    hide FifoInv, WorkInv, OpsInv, QueueInv, PollsInv;
  }

  lemma CheckWorkKeeps(s: State)
    requires Inv(s) && s.pc.CheckWork? && CanGo(s)
    ensures Inv(NextGo(s))
  {
    hide FifoInv, WorkInv, OpsInv, QueueInv, PollsInv;
  }

  lemma TopKeeps(s: State)
    requires Inv(s) && s.pc.Top? && CanGo(s)
    ensures Inv(NextGo(s))
  {
    hide FifoInv, WorkInv, OpsInv, PollsInv;
  }

  lemma PopKeeps(s: State)
    requires Inv(s) && s.pc.Serve? && s.pc.left > 0 && CanGo(s)
    ensures Inv(NextGo(s))
  {
    hide PollsInv, OpsInv;
    assert s.list == [s.list[0]] + s.list[1..];
  }

  lemma ServedKeeps(s: State)
    requires Inv(s) && s.pc.Serve? && s.pc.left == 0
    ensures Inv(NextGo(s))
  {
    hide PollsInv, OpsInv, FifoInv, WorkInv, QueueInv, AllStarted;
  }

  lemma ServeKeeps(s: State)
    requires Inv(s) && s.pc.Serve? && CanGo(s)
    ensures Inv(NextGo(s))
  {
    hide Inv;
    if s.pc.left > 0 {
      PopKeeps(s);
    } else {
      ServedKeeps(s);
    }
  }

  lemma PoppedKeeps(s: State)
    requires Inv(s) && s.pc.Popped? && CanGo(s)
    ensures Inv(NextGo(s))
  {
    hide PollsInv, OpsInv;
  }

  lemma InFnKeeps(s: State)
    requires Inv(s) && s.pc.InFn? && CanGo(s)
    ensures Inv(NextGo(s))
  {
    hide FifoInv, WorkInv, OpsInv, QueueInv, PollsInv;
  }

  lemma WaitOps(s: State)
    requires OpsInv(s.calls, s.ring, multiset(s.cq), OpInHand(s.pc), s.held) && s.pc == Wait && s.cq != []
    ensures var t := NextGo(s);
            OpsInv(t.calls, t.ring, multiset(t.cq), OpInHand(t.pc), t.held)
  {
    var t := NextGo(s);
    CqHead(s.cq);
    forall o ensures Places(t.calls, t.ring, multiset(t.cq), OpInHand(t.pc), o) == One(o in t.held) {
      assert Places(s.calls, s.ring, multiset(s.cq), OpInHand(s.pc), o) == One(o in s.held);
    }
  }

  lemma WaitPolls(s: State)
    requires PollsInv(s.q, s.stop, s.zero, multiset(s.cq), BusyWith(s.pc)) && s.pc == Wait && s.cq != []
    ensures var t := NextGo(s);
            PollsInv(t.q, t.stop, t.zero, multiset(t.cq), BusyWith(t.pc))
  {
    CqHead(s.cq);
    var m, m' := multiset(s.cq), multiset(s.cq[1..]);
    assert m[Internal(Q)] == m'[Internal(Q)] + One(Internal(Q) == s.cq[0]);
    assert m[Internal(Stop)] == m'[Internal(Stop)] + One(Internal(Stop) == s.cq[0]);
    assert m[Internal(Zero)] == m'[Internal(Zero)] + One(Internal(Zero) == s.cq[0]);
  }

  lemma WaitKeeps(s: State)
    requires Inv(s) && s.pc.Wait? && CanGo(s)
    ensures Inv(NextGo(s))
  {
    hide FifoInv, WorkInv, QueueInv, OpsInv, PollsInv;
    if s.cq != [] {
      WaitOps(s);
      WaitPolls(s);
    }
  }

  lemma DispatchEventKeeps(s: State)
    requires Inv(s) && s.pc.Dispatch? && s.pc.c.Internal?
    ensures Inv(NextGo(s))
  {
    hide FifoInv, WorkInv, QueueInv, OpsInv;
  }

  lemma DispatchOpKeeps(s: State)
    requires Inv(s) && s.pc.Dispatch? && s.pc.c.User?
    ensures Inv(NextGo(s))
  {
    hide FifoInv, WorkInv, QueueInv, OpsInv, PollsInv;
  }

  lemma DispatchKeeps(s: State)
    requires Inv(s) && s.pc.Dispatch? && CanGo(s)
    ensures Inv(NextGo(s))
  {
    hide Inv;
    if s.pc.c.Internal? {
      DispatchEventKeeps(s);
    } else {
      DispatchOpKeeps(s);
    }
  }

  lemma DrainKeeps(s: State)
    requires Inv(s) && s.pc.Drain? && CanGo(s)
    ensures Inv(NextGo(s))
  {
    hide FifoInv, WorkInv, OpsInv, PollsInv;
    ReadPolls(s, s.pc.fd);
  }

  lemma GotKeeps(s: State)
    requires Inv(s) && s.pc.Got? && CanGo(s)
    ensures Inv(NextGo(s))
  {
    hide FifoInv, WorkInv, OpsInv, PollsInv;
  }

  lemma StopTestKeeps(s: State)
    requires Inv(s) && s.pc.StopTest? && CanGo(s)
    ensures Inv(NextGo(s))
  {
    hide FifoInv, WorkInv, OpsInv, QueueInv, PollsInv, AllStarted, ReadOut, Bump, ArmPoll, AfterSub;
  }

  lemma ZeroStops(s: State)
    requires Inv(s) && s.pc.ZeroTest? && s.work == 0
    ensures Inv(NextGo(s))
  {
    hide FifoInv, WorkInv, OpsInv, QueueInv, PollsInv, AllStarted, ReadOut, Bump, ArmPoll, AfterSub;
  }

  lemma ZeroRearms(s: State)
    requires Inv(s) && s.pc.ZeroTest? && s.work != 0
    ensures Inv(NextGo(s))
  {
    hide FifoInv, WorkInv, OpsInv, QueueInv, PollsInv, AllStarted, ReadOut, Bump, ArmPoll, AfterSub;
  }

  lemma ZeroTestKeeps(s: State)
    requires Inv(s) && s.pc.ZeroTest? && CanGo(s)
    ensures Inv(NextGo(s))
  {
    hide Inv, NextGo, CanGo;
    if s.work == 0 {
      ZeroStops(s);
    } else {
      ZeroRearms(s);
    }
  }

  lemma ArmKeeps(s: State)
    requires Inv(s) && s.pc.Arm? && CanGo(s)
    ensures Inv(NextGo(s))
  {
    hide FifoInv, WorkInv, OpsInv, QueueInv, PollsInv;
    ArmPolls(s, s.pc.fd);
  }

  lemma InOpKeeps(s: State)
    requires Inv(s) && s.pc.InOp? && CanGo(s)
    ensures Inv(NextGo(s))
  {
    hide FifoInv, WorkInv, OpsInv, QueueInv, PollsInv;
  }

  lemma GiveBackOps(s: State)
    requires OpsInv(s.calls, s.ring, multiset(s.cq), OpInHand(s.pc), s.held) && s.pc.GiveBack?
    ensures var t := NextGo(s);
            OpsInv(t.calls, t.ring, multiset(t.cq), OpInHand(t.pc), t.held)
  {
    var t := NextGo(s);
    forall o ensures Places(t.calls, t.ring, multiset(t.cq), OpInHand(t.pc), o) == One(o in t.held) {
      assert Places(s.calls, s.ring, multiset(s.cq), OpInHand(s.pc), o) == One(o in s.held);
    }
  }

  lemma GiveBackKeeps(s: State)
    requires Inv(s) && s.pc.GiveBack? && CanGo(s)
    ensures Inv(NextGo(s))
  {
    hide PollsInv, FifoInv, QueueInv, OpsInv;
    OpHeld(s, s.pc.op);
    GiveBackOps(s);
  }

  lemma SignalZeroKeeps(s: State)
    requires Inv(s) && s.pc.SignalZero? && CanGo(s)
    ensures Inv(NextGo(s))
  {
    hide FifoInv, WorkInv, OpsInv, QueueInv, PollsInv;
    BumpPolls(s, Zero);
  }

  lemma HandledKeeps(s: State)
    requires Inv(s) && s.pc.Handled? && CanGo(s)
    ensures Inv(NextGo(s))
  {
    hide FifoInv, WorkInv, OpsInv, QueueInv, PollsInv;
  }

  lemma ArmQKeeps(s: State)
    requires Inv(s) && s.pc.ArmQ? && CanGo(s)
    ensures Inv(NextGo(s))
  {
    hide FifoInv, WorkInv, OpsInv, QueueInv, PollsInv;
    if !s.q.started {
      ArmPolls(s, Q);
    }
  }

  lemma FinishKeeps(s: State)
    requires Inv(s) && s.pc.Finish? && CanGo(s)
    ensures Inv(NextGo(s))
  {
    hide FifoInv, WorkInv, OpsInv, QueueInv, PollsInv;
  }

  lemma FailKeeps(s: State)
    requires Inv(s) && CanFail(s)
    ensures Inv(NextFail(s))
  {
    hide FifoInv, WorkInv, QueueInv, PollsInv;
  }

  lemma GoKeeps(s: State)
    requires Inv(s) && CanGo(s)
    ensures Inv(NextGo(s))
  {
    hide Inv;
    match s.pc
    case Restart(_) => RestartKeeps(s);
    case RestartClear => RestartClearKeeps(s);
    case CheckStopped => CheckStoppedKeeps(s);
    case CheckWork => CheckWorkKeeps(s);
    case Top => TopKeeps(s);
    case Serve(_, _, _) => ServeKeeps(s);
    case Popped(_, _, _, _) => PoppedKeeps(s);
    case InFn(_, _, _) => InFnKeeps(s);
    case Wait => WaitKeeps(s);
    case Dispatch(_) => DispatchKeeps(s);
    case Drain(_) => DrainKeeps(s);
    case Got(_) => GotKeeps(s);
    case StopTest => StopTestKeeps(s);
    case ZeroTest => ZeroTestKeeps(s);
    case Arm(_) => ArmKeeps(s);
    case InOp(_) => InOpKeeps(s);
    case GiveBack(_, _) => GiveBackKeeps(s);
    case SignalZero(_) => SignalZeroKeeps(s);
    case Handled(_, _) => HandledKeeps(s);
    case ArmQ => ArmQKeeps(s);
    case Finish => FinishKeeps(s);
  }

  lemma OtherKeeps(s: State, a: Action)
    requires Inv(s) && Enabled(s, a) && ByOthers(a)
    ensures Inv(NextOther(s, a))
  {
    hide Inv;
    match a
    case WorkStarted => WorkStartedKeeps(s, a);
    case WorkFinished => WorkFinishedKeeps(s, a);
    case PostStart => PostStartKeeps(s, a);
    case PostLinked(_) => PostLinkedKeeps(s, a);
    case PostFail => PostFailKeeps(s, a);
    case PostNotify => PostNotifyKeeps(s, a);
    case StopFlag => StopFlagKeeps(s, a);
    case StopNotify => StopNotifyKeeps(s, a);
    case ZeroNotify => ZeroNotifyKeeps(s, a);
    case Initiate(_) => InitiateKeeps(s, a);
    case Submit(_) => SubmitKeeps(s, a);
    case SubmitFail(_) => SubmitFailKeeps(s, a);
    case Fire(_) => FireKeeps(s, a);
    case Complete(_) => CompleteKeeps(s, a);
  }

  lemma CallKeeps(s: State, a: Action)
    requires Enabled(s, a) && Inv(s) && (a.CallRestart? || a.CallRun?)
    ensures Inv(Next(s, a))
  {
    hide OpsInv, PollsInv, QueueInv, FifoInv, WorkInv;
  }

  lemma InvStep(s: State, a: Action)
    requires Enabled(s, a) && Inv(s)
    ensures Inv(Next(s, a))
  {
    hide Inv, NextGo, NextOther, NextFail, CanGo, CanFail;
    match a
    case CallRestart => CallKeeps(s, a);
    case CallRun(_) => CallKeeps(s, a);
    case Go => GoKeeps(s);
    case Fail => FailKeeps(s);
    case _ => OtherKeeps(s, a);
  }

  lemma {:induction false} InvRun(s: State, acts: seq<Action>, t: State)
    requires Inv(s) && IsRun(s, acts, t)
    ensures Inv(t)
    decreases |acts|
  {
    if acts != [] {
      InvStep(s, acts[0]);
      InvRun(Next(s, acts[0]), acts[1..], t);
    }
  }

  lemma InvReachable(s: State)
    requires Reachable(s)
    ensures Inv(s)
  {
    var acts :| IsRun(Init(), acts, s);
    InitInv(Init());
    InvRun(Init(), acts, s);
  }
}
