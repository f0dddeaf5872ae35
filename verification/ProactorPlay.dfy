/** The runner against a given environment.

    An environment says, for each step of the runner, what the other threads and the kernel do before
    it, and whether what can fail at that step fails.  Given an environment, a call of the run loop
    is a function of the state: nothing in it is the runner's choice. */
module ProactorPlay {
  import opened Helpers
  import opened Proactor
  import opened ProactorInvariant
  import opened ProactorTheorems
  import opened ProactorCalls
  import opened ProactorLiveness

  datatype Turn = Turn(others: seq<Action>, fails: bool)

  function Head(env: seq<Turn>): Turn {
    if env == [] then Turn([], false) else env[0]
  }

  /** When the environment is used up, nothing more happens and nothing fails. */
  function Tail(env: seq<Turn>): seq<Turn> {
    if env == [] then [] else env[1..]
  }

  function Rest(env: seq<Turn>, n: nat): seq<Turn> {
    if n <= |env| then env[n..] else []
  }

  function Others(s: State, acts: seq<Action>): State
    decreases |acts|
  {
    if acts == [] || !ByOthers(acts[0]) || !Enabled(s, acts[0]) then s
    else Others(NextOther(s, acts[0]), acts[1..])
  }

  /** The steps are steps of others, one possible after the other. */
  predicate CanDo(s: State, acts: seq<Action>)
    decreases |acts|
  {
    acts == [] || (ByOthers(acts[0]) && Enabled(s, acts[0]) && CanDo(NextOther(s, acts[0]), acts[1..]))
  }

  /** The runner's own step; a runner that cannot step stays where it is. */
  function OwnStep(s: State, fails: bool): State {
    if fails && CanFail(s) then NextFail(s) else if CanGo(s) then NextGo(s) else s
  }

  predicate CanStep(s: State, fails: bool) {
    (fails && CanFail(s)) || CanGo(s)
  }

  function TurnOf(s: State, t: Turn): State {
    OwnStep(Others(s, t.others), t.fails)
  }

  /** The state after `n` turns. */
  function Play(s: State, env: seq<Turn>, n: nat): State
    decreases n
  {
    if n == 0 then s else Play(TurnOf(s, Head(env)), Tail(env), n - 1)
  }

  /** The environment does only what it can. */
  predicate CanPlay(s: State, env: seq<Turn>)
    decreases |env|
  {
    env == [] || (CanDo(s, env[0].others) && CanPlay(TurnOf(s, env[0]), env[1..]))
  }

  // ---- turns one after the other ----

  lemma {:induction false} PlayOn(s: State, env: seq<Turn>, n: nat)
    ensures Play(s, env, n + 1) == TurnOf(Play(s, env, n), Head(Rest(env, n)))
    ensures Rest(env, n + 1) == Tail(Rest(env, n))
    decreases n
  {
    hide TurnOf;
    if n > 0 {
      PlayOn(TurnOf(s, Head(env)), Tail(env), n - 1);
      RestTail(env, n - 1);
    }
  }

  lemma RestTail(env: seq<Turn>, n: nat)
    ensures Rest(Tail(env), n) == Rest(env, n + 1)
  {
  }

  lemma PlayNone(s: State, env: seq<Turn>)
    ensures Play(s, env, 0) == s && Rest(env, 0) == env
  {
  }

  // ---- turns are a run ----

  /** The actions of the first `n` turns. */
  function PlayActs(s: State, env: seq<Turn>, n: nat): seq<Action>
    decreases n
  {
    if n == 0 then [] else TurnActs(s, Head(env)) + PlayActs(TurnOf(s, Head(env)), Tail(env), n - 1)
  }

  function TurnActs(s: State, t: Turn): seq<Action> {
    var m := Others(s, t.others);
    t.others + if t.fails && CanFail(m) then [Fail] else if CanGo(m) then [Go] else []
  }

  lemma {:induction false} OthersRun(s: State, acts: seq<Action>)
    requires CanDo(s, acts)
    ensures IsRun(s, acts, Others(s, acts)) && forall a :: a in acts ==> ByOthers(a)
    decreases |acts|
  {
    hide NextOther;
    if acts != [] {
      OthersRun(NextOther(s, acts[0]), acts[1..]);
      assert forall a :: a in acts ==> a == acts[0] || a in acts[1..];
    }
  }

  lemma OwnRun(s: State, fails: bool)
    ensures IsRun(s, if fails && CanFail(s) then [Fail] else if CanGo(s) then [Go] else [], OwnStep(s, fails))
  {
    hide NextGo, NextFail, CanGo, CanFail;
    if fails && CanFail(s) {
      SingleRun(s, Fail);
    } else if CanGo(s) {
      SingleRun(s, Go);
    }
  }

  lemma SingleRun(s: State, a: Action)
    requires Enabled(s, a)
    ensures IsRun(s, [a], Next(s, a))
  {
    hide Enabled, Next;
    assert [a][1..] == [];
    assert IsRun(Next(s, a), [], Next(s, a));
  }

  lemma TurnRun(s: State, t: Turn)
    requires CanDo(s, t.others)
    ensures IsRun(s, TurnActs(s, t), TurnOf(s, t))
    ensures forall a :: a in TurnActs(s, t) ==> a.Go? || a.Fail? || (a in t.others && ByOthers(a))
  {
    var m := Others(s, t.others);
    OthersRun(s, t.others);
    OwnRun(m, t.fails);
    hide OwnStep, CanGo, CanFail, CanDo, Others;
    RunConcat(s, t.others, m, if t.fails && CanFail(m) then [Fail] else if CanGo(m) then [Go] else [], TurnOf(s, t));
  }

  /** `a` is done by others in the first `n` turns. */
  predicate DoneByOthers(env: seq<Turn>, n: nat, a: Action) {
    exists i :: 0 <= i < n && i < |env| && a in env[i].others
  }

  lemma DoneLater(env: seq<Turn>, n: nat, a: Action)
    requires n > 0
    ensures DoneByOthers(Tail(env), n - 1, a) ==> DoneByOthers(env, n, a)
    ensures a in Head(env).others ==> DoneByOthers(env, n, a)
  {
    if i :| 0 <= i < n - 1 && i < |Tail(env)| && a in Tail(env)[i].others {
      assert a in env[i + 1].others;
    }
    if a in Head(env).others {
      assert a in env[0].others;
    }
  }

  /** The runner's part of the run is its own steps, and every other step is one that the environment
      contains. */
  lemma {:induction false} PlayRun(s: State, env: seq<Turn>, n: nat)
    requires CanPlay(s, env)
    ensures IsRun(s, PlayActs(s, env, n), Play(s, env, n)) && OneCall(PlayActs(s, env, n))
    ensures forall a :: a in PlayActs(s, env, n) ==> a.Go? || a.Fail? || (DoneByOthers(env, n, a) && ByOthers(a))
    decreases n
  {
    hide TurnOf, TurnActs, CanDo, DoneByOthers;
    if n > 0 {
      var t, m := Head(env), TurnOf(s, Head(env));
      TurnCan(s, env);
      TurnRun(s, t);
      PlayRun(m, Tail(env), n - 1);
      var xs, ys := TurnActs(s, t), PlayActs(m, Tail(env), n - 1);
      hide IsRun, CanPlay;
      RunConcat(s, xs, m, ys, Play(s, env, n));
      forall a: Action | a in xs + ys
        ensures a.Go? || a.Fail? || (DoneByOthers(env, n, a) && ByOthers(a))
      {
        DoneLater(env, n, a);
      }
    }
  }

  lemma TurnCan(s: State, env: seq<Turn>)
    requires CanPlay(s, env)
    ensures CanDo(s, Head(env).others) && CanPlay(TurnOf(s, Head(env)), Tail(env))
  {
    hide TurnOf;
  }

  // ---- how long a call can go on ----

  function BegunBy(env: seq<Turn>): nat {
    if env == [] then 0 else CallsBegun(env[0].others) + BegunBy(env[1..])
  }

  /** A bound on the turns before the runner is out of the run loop, or asleep with nothing to come. */
  function Fuel(s: State, env: seq<Turn>): nat {
    StepsLeft(s) + 42 * BegunBy(env) + |env|
  }

  lemma OthersBound(s: State, acts: seq<Action>)
    requires Reachable(s) && CanDo(s, acts)
    ensures Reachable(Others(s, acts)) && SameRunner(s, Others(s, acts)) && LogsFrom(s, Others(s, acts), [])
    ensures StepsLeft(Others(s, acts)) <= StepsLeft(s) + 42 * CallsBegun(acts)
  {
    OthersRun(s, acts);
    OthersKeepRunner(s, acts, Others(s, acts));
    RunsAreBounded(s, acts, Others(s, acts));
  }

  /** A turn in which the runner can step, or in which there is an environment left, uses fuel. */
  lemma TurnBurns(s: State, env: seq<Turn>)
    requires Reachable(s) && CanPlay(s, env)
    ensures var t := TurnOf(s, Head(env));
            && Reachable(t)
            && (CanStep(Others(s, Head(env).others), Head(env).fails) || env != [] ==>
                  Fuel(t, Tail(env)) < Fuel(s, env))
  {
    TurnCan(s, env);
    var m := Others(s, Head(env).others);
    OthersBound(s, Head(env).others);
    OwnBurns(m, Head(env).fails);
    hide OwnStep, CanStep, Others, StepsLeft, CanDo, CanPlay, Reachable;
  }

  lemma OwnBurns(s: State, fails: bool)
    requires Reachable(s)
    ensures Reachable(OwnStep(s, fails)) && StepsLeft(OwnStep(s, fails)) <= StepsLeft(s)
    ensures CanStep(s, fails) ==> StepsLeft(OwnStep(s, fails)) < StepsLeft(s)
  {
    hide NextGo, NextFail, StepsLeft, CanGo, CanFail, Reachable;
    if fails && CanFail(s) {
      OwnReaches(s, Fail);
    } else if CanGo(s) {
      OwnReaches(s, Go);
    }
  }

  lemma OwnReaches(s: State, a: Action)
    requires Reachable(s) && Enabled(s, a) && (a.Go? || a.Fail?)
    ensures Reachable(Next(s, a)) && StepsLeft(Next(s, a)) < StepsLeft(s)
  {
    StepBound(s, a);
    LeadsStep(s, a);
    LeadsTrans(Init(), s, Next(s, a));
  }

  // ---- what a call returns ----

  /** Why `run` and `poll` return: others set the stop flag, the work was zero, the entry check found a
      flag that refuses and nothing was run, or a peek found no entry. */
  ghost predicate HasReason(c: State, env: seq<Turn>, n: nat, retr: nat) {
    || DoneByOthers(env, n, StopFlag)
    || Visits(c, PlayActs(c, env, n), OutOfWork)
    || (retr == 0 && Visits(c, PlayActs(c, env, n), FlagRefuses))
    || (!c.mode.blocking && Visits(c, PlayActs(c, env, n), PeeksNothing))
  }

  /** After `n` turns the call that began at `c` is at its end, with this result: the number of
      handlers that it started, and a reason to return that is not of the call's own making. */
  ghost predicate EndsWithResult(c: State, env: seq<Turn>, n: nat, retr: nat) {
    && Play(c, env, n).pc == Finish
    && retr == HandlersStarted(c, PlayActs(c, env, n))
    && if c.mode.one then retr <= 1 && (retr == 0 <==> PassedBy(c, PlayActs(c, env, n)))
       else HasReason(c, env, n, retr)
  }

  lemma EndOfCall(s: State, m: Mode, env: seq<Turn>, n: nat)
    requires Reachable(s) && s.pc == Idle && CanPlay(Next(s, CallRun(m)), env)
    requires Play(Next(s, CallRun(m)), env, n).pc == Finish
    ensures EndsWithResult(Next(s, CallRun(m)), env, n, Play(Next(s, CallRun(m)), env, n).retr)
  {
    var c := Next(s, CallRun(m));
    var acts, t := PlayActs(c, env, n), Play(c, env, n);
    PlayRun(c, env, n);
    assert c.mode == m;
    hide PlayActs, Play, CanPlay, Reachable, Next, IsRun;
    HistoryIsTrue(c, acts, t);
    ReturnsHandlerCount(s, m, acts, t);
    if m.one {
      OneRunsNothing(s, m, acts, t);
    } else {
      ReturnsForAReason(s, m, acts, t);
      if StopFlag in acts {
        assert DoneByOthers(env, n, StopFlag);
      }
    }
    hide Visits, PassedBy, DoneByOthers;
  }
}
