/** How the daemon leaves its service loop: a stop wins over a reload, and either is carried through, slot by
    slot, to the return or to the next load; no runtime is ever given a second thread or released a second time,
    and no worker exits untold. */
module LifecycleStop {
  import opened Basics
  import opened SpiTransaction
  import opened Lifecycle
  import opened LifecycleSafety
  import opened LifecycleTrace

  // ---- the way out of the service loop ----------------------------------------------------------------------

  /** Whether the main thread is stopping bridges in order to load again. */
  function Again(pc: Pc): Option<bool> {
    match pc
    case StopSource(_, again) => Some(again)
    case Join(_, again) => Some(again)
    case CloseSource(_, again) => Some(again)
    case FreeSource(_, again) => Some(again)
    case StopDest(_, again) => Some(again)
    case FreeDest(_, again) => Some(again)
    case FreeArray(again) => Some(again)
    case FreeConfig(again) => Some(again)
    case _ => None
  }

  /** The service loop is about to be left, to load `again` or to return, or has been left for that. */
  predicate Leaving(s: State, again: bool) {
    match s.pc
    case Service => if again then s.reload && !s.stop else s.stop
    case Load => again
    case Done(rc) => !again && rc == 0
    case _ => Again(s.pc) == Some(again)
  }

  /** The service loop runs with the stop flag up, or has already left to return. */
  predicate Ending(s: State) {
    s.stop && Leaving(s, false)
  }

  /** Slots still to be stopped from `j` on. */
  function SlotsLeft(s: State, j: nat): nat {
    if j < s.count then s.count - j else 0
  }

  /** Main-thread steps that are left at most. */
  function StepsLeft(s: State): nat {
    match s.pc
    case Service => 4 + 6 * SlotsLeft(s, 0)
    case StopSource(j, _) => 3 + 6 * SlotsLeft(s, j)
    case Join(j, _) => 8 + 6 * SlotsLeft(s, j + 1)
    case CloseSource(j, _) => 7 + 6 * SlotsLeft(s, j + 1)
    case FreeSource(j, _) => 6 + 6 * SlotsLeft(s, j + 1)
    case StopDest(j, _) => 5 + 6 * SlotsLeft(s, j + 1)
    case FreeDest(j, _) => 4 + 6 * SlotsLeft(s, j + 1)
    case FreeArray(_) => 2
    case FreeConfig(_) => 1
    case _ => 0
  }

  /** The stop flag stays as it is, and no descriptor is opened. */
  predicate Kept(s: State, s': State) {
    s'.stop == s.stop && s'.heap.fds.Keys <= s.heap.fds.Keys
  }

  /** One step on the way. */
  predicate Nearer(s: State, s': State, again: bool) {
    && Leaving(s', again) && StepsLeft(s') < StepsLeft(s)
    && Kept(s, s') && (s'.reload == s.reload || s.pc.Service?)
  }

  lemma StopSourcePlace(s: State, s': State, j: nat, again: bool)
    requires StopSourceStep(s, j, again) == Some(s')
    ensures Kept(s, s') && s'.count == s.count && s'.reload == s.reload
    ensures if j >= s.count then s'.pc == FreeArray(again)
            else s'.pc == StopDest(j, again) || s'.pc == Join(j, again) || s'.pc == CloseSource(j, again)
  {
  }

  lemma StopSourceEnds(s: State, s': State, j: nat, again: bool, e: Env)
    requires s.pc == StopSource(j, again) && MainStep(s, e) == Some(s')
    ensures Nearer(s, s', again)
  {
    StopSourcePlace(s, s', j, again);
  }

  lemma JoinEnds(s: State, s': State, again: bool, e: Env)
    requires Leaving(s, again) && MainStep(s, e) == Some(s') && s.pc.Join?
    ensures Nearer(s, s', again)
  {
  }

  lemma CloseSourceEnds(s: State, s': State, again: bool, e: Env)
    requires Leaving(s, again) && MainStep(s, e) == Some(s') && s.pc.CloseSource?
    ensures Nearer(s, s', again)
  {
  }

  lemma FreeSourceEnds(s: State, s': State, again: bool, e: Env)
    requires Leaving(s, again) && MainStep(s, e) == Some(s') && s.pc.FreeSource?
    ensures Nearer(s, s', again)
  {
  }

  lemma StopDestPlace(s: State, s': State, j: nat, again: bool)
    requires SlotReady(s, j) && StopDestStep(s, j, again) == Some(s')
    ensures Kept(s, s') && s'.count == s.count && s'.reload == s.reload
    ensures s'.pc == StopSource(j + 1, again) || s'.pc == FreeDest(j, again)
  {
  }

  lemma StopDestEnds(s: State, s': State, j: nat, again: bool, e: Env)
    requires s.pc == StopDest(j, again) && MainStep(s, e) == Some(s')
    ensures Nearer(s, s', again)
  {
    StopDestPlace(s, s', j, again);
  }

  lemma FreeDestEnds(s: State, s': State, again: bool, e: Env)
    requires Leaving(s, again) && MainStep(s, e) == Some(s') && s.pc.FreeDest?
    ensures Nearer(s, s', again)
  {
  }

  lemma RestEnds(s: State, s': State, again: bool, e: Env)
    requires Leaving(s, again) && MainStep(s, e) == Some(s')
    requires s.pc.Service? || s.pc.FreeArray? || s.pc.FreeConfig?
    ensures Nearer(s, s', again)
  {
  }

  lemma MainStepEnds(s: State, s': State, again: bool, e: Env)
    requires Leaving(s, again) && !s.pc.Load? && MainStep(s, e) == Some(s')
    ensures Nearer(s, s', again)
  {
    match s.pc
    case StopSource(j, _) => StopSourceEnds(s, s', j, again, e);
    case Join(_, _) => JoinEnds(s, s', again, e);
    case CloseSource(_, _) => CloseSourceEnds(s, s', again, e);
    case FreeSource(_, _) => FreeSourceEnds(s, s', again, e);
    case StopDest(j, _) => StopDestEnds(s, s', j, again, e);
    case FreeDest(_, _) => FreeDestEnds(s, s', again, e);
    case _ => RestEnds(s, s', again, e);
  }

  /** Workers leave the main thread's place alone. */
  lemma WorkStepStays(s: State, s': State, sp: nat, io: Io, net: Net)
    requires sp in s.workers && WorkerStep(s, sp, io, net) == Some(s')
    ensures s'.pc == s.pc && s'.stop == s.stop && s'.reload == s.reload
    ensures s'.count == s.count && s'.slots == s.slots && s'.config == s.config
    ensures s'.heap.spis.Keys == s.heap.spis.Keys && s'.heap.fds == s.heap.fds
  {
  }

  function MainSteps(es: seq<Event>): nat {
    if es == [] then 0 else (if es[0].Main? then 1 else 0) + MainSteps(es[1..])
  }

  lemma EndingStep(s: State, s': State, e: Event)
    requires Ending(s) && Step(s, e) == Some(s')
    ensures Ending(s') && StepsLeft(s') + (if e.Main? then 1 else 0) <= StepsLeft(s)
  {
    if e.Main? {
      MainStepEnds(s, s', false, e.env);
    } else if e.Work? {
      WorkStepStays(s, s', e.spi, e.io, e.net);
    }
  }

  /** A stop wins over a reload: once the service loop runs with the stop flag up, whatever signals and
      workers do, no run ever loads again, and the main thread takes at most `6 * count + 8` more steps. */
  lemma {:induction false} StopIsFinal(s: State, s': State, es: seq<Event>)
    requires Ending(s) && Run(s, es) == Some(s')
    ensures Ending(s') && StepsLeft(s') + MainSteps(es) <= StepsLeft(s) <= 6 * s.count + 8
    decreases |es|
  {
    if es != [] {
      var s1 := Step(s, es[0]).value;
      EndingStep(s, s1, es[0]);
      StopIsFinal(s1, s', es[1..]);
    }
  }

  /** All that can hold the main thread up on the way is a worker that has not exited; the steps run out
      exactly where it leads to: at the return, with code 0, or at the next load.
      `LifecycleTrace.JoinIsBounded` bounds that worker's steps. */
  lemma OnlyWorkersDelay(s: State, again: bool, e: Env)
    requires Reachable(s) && Leaving(s, again) && !s.pc.Load?
    ensures MainStep(s, e).None? <==>
      s.pc == Done(0) || (s.pc.Join? && SourceReady(s, s.pc.j) && Unfinished(s, SourceOf(s, s.pc.j)))
    ensures s.pc == Done(0) <==> StepsLeft(s) == 0
  {
    MainNeverFaults(s, e);
  }

  /** What the worker waited for still has to do. */
  function WaitLeft(s: State): nat {
    if s.pc.Join? && SourceReady(s, s.pc.j) && SourceOf(s, s.pc.j) in s.workers
    then Rank(s.workers[SourceOf(s, s.pc.j)], M(s, SourceOf(s, s.pc.j)))
    else 0
  }

  /** The worker waited for can take a step, and is then closer to its exit. */
  lemma WorkerGetsOn(s: State, again: bool, e: Env, io: Io, net: Net) returns (s': State)
    requires Reachable(s) && Leaving(s, again) && s.pc.Join? && MainStep(s, e).None?
    ensures SourceReady(s, s.pc.j) && Step(s, Work(SourceOf(s, s.pc.j), io, net)) == Some(s')
    ensures Leaving(s', again) && StepsLeft(s') == StepsLeft(s) && WaitLeft(s') < WaitLeft(s) && Kept(s, s')
  {
    JoinMakesProgress(s, e, io, net);
    var sp := SourceOf(s, s.pc.j);
    s' := WorkerStep(s, sp, io, net).value;
    WorkerIsCloser(s, s', sp, io, net);
    WorkStepStays(s, s', sp, io, net);
  }

  /** The event's answers come from the environment's `k`th ones. */
  predicate Answered(e: Event, k: nat, env: nat -> Env, io: nat -> Io, net: nat -> Net) {
    e == Main(env(k)) || (e.Work? && e.io == io(k) && e.net == net(k))
  }

  /** Where it leads to. */
  function Exit(again: bool): Pc {
    if again then Load else Done(0)
  }

  /** The events lead from `s` to `t`, answered from the `k`th answers on. */
  predicate Way(s: State, es: seq<Event>, t: State, k: nat, env: nat -> Env, io: nat -> Io, net: nat -> Net) {
    Run(s, es) == Some(t) && forall i :: 0 <= i < |es| ==> Answered(es[i], k + i, env, io, net)
  }

  lemma WayNone(s: State, k: nat, env: nat -> Env, io: nat -> Io, net: nat -> Net)
    ensures Way(s, [], s, k, env, io, net)
  {
  }

  lemma WayCons(s: State, e: Event, s1: State, es: seq<Event>, t: State,
      k: nat, env: nat -> Env, io: nat -> Io, net: nat -> Net)
    requires Step(s, e) == Some(s1) && Answered(e, k, env, io, net) && Way(s1, es, t, k + 1, env, io, net)
    ensures Way(s, [e] + es, t, k, env, io, net)
  {
    RunOne(s, e, es);
    forall i | 0 <= i < 1 + |es| ensures Answered(([e] + es)[i], k + i, env, io, net) {
      if i > 0 {
        assert Answered(es[i - 1], k + 1 + (i - 1), env, io, net);
      }
    }
  }

  /** One event on the way: the main thread's step if it can take one, and the awaited worker's otherwise. */
  lemma LeavingStep(s: State, again: bool, k: nat, env: nat -> Env, io: nat -> Io, net: nat -> Net)
    returns (s1: State, first: Event)
    requires Reachable(s) && Leaving(s, again) && s.pc != Exit(again)
    ensures Step(s, first) == Some(s1) && Answered(first, k, env, io, net)
    ensures Reachable(s1) && Leaving(s1, again) && Kept(s, s1)
    ensures StepsLeft(s1) < StepsLeft(s) || (StepsLeft(s1) == StepsLeft(s) && WaitLeft(s1) < WaitLeft(s))
  {
    OnlyWorkersDelay(s, again, env(k));
    if MainStep(s, env(k)).Some? {
      s1, first := MainStep(s, env(k)).value, Main(env(k));
      MainStepEnds(s, s1, again, env(k));
    } else {
      s1 := WorkerGetsOn(s, again, env(k), io(k), net(k));
      first := Work(SourceOf(s, s.pc.j), io(k), net(k));
    }
    StepReachable(s, s1, first);
  }

  /** Once the service loop is left, its end is reached: letting the main thread step whenever it can, and the
      worker it waits for otherwise, whatever the environment answers at each step. */
  lemma {:induction false} LeavingEnds(
      s: State, again: bool, k: nat, env: nat -> Env, io: nat -> Io, net: nat -> Net)
    returns (es: seq<Event>, t: State)
    requires Reachable(s) && Leaving(s, again)
    ensures Way(s, es, t, k, env, io, net) && t.pc == Exit(again) && Kept(s, t)
    decreases StepsLeft(s), WaitLeft(s)
  {
    if s.pc == Exit(again) {
      WayNone(s, k, env, io, net);
      return [], s;
    }
    var s1, first := LeavingStep(s, again, k, env, io, net);
    var rest;
    rest, t := LeavingEnds(s1, again, k + 1, env, io, net);
    WayCons(s, first, s1, rest, t, k, env, io, net);
    es := [first] + rest;
  }

  /** From every reachable state in which a stop is being carried out the return is reached. */
  lemma StopReachesReturn(s: State, k: nat, env: nat -> Env, io: nat -> Io, net: nat -> Net)
    returns (es: seq<Event>)
    requires Reachable(s) && Ending(s)
    ensures Run(s, es).Some? && Run(s, es).value.pc == Done(0)
    ensures forall i :: 0 <= i < |es| ==> Answered(es[i], k + i, env, io, net)
  {
    var t;
    es, t := LeavingEnds(s, false, k, env, io, net);
  }

  /** From every reachable state in which a reload is seen or being carried out the next load is reached, with
      everything of the old configuration gone. */
  lemma ReloadReachesLoad(s: State, k: nat, env: nat -> Env, io: nat -> Io, net: nat -> Net)
    returns (es: seq<Event>, t: State)
    requires Reachable(s) && Leaving(s, true)
    ensures Run(s, es) == Some(t) && t.pc == Load && Kept(s, t) && Reachable(t)
    ensures t.config == None && t.workers == map[] && t.slots == [] && t.count == 0
    ensures forall i :: 0 <= i < |es| ==> Answered(es[i], k + i, env, io, net)
  {
    es, t := LeavingEnds(s, true, k, env, io, net);
    RunReaches(s, t, es);
    QuietWhenReleasing(t);
    ReachableInv(t);
  }

  /** A successful load and allocation then go on to the first bridge of the new configuration. */
  lemma LoadGoesOn(s: State, e: Env, e1: Env)
    requires Reachable(s) && s.pc == Load && e.ok && e1.ok
    ensures Run(s, [Main(e), Main(e1)]).Some?
    ensures var t := Run(s, [Main(e), Main(e1)]).value;
      && t.pc == Prepare(0) && t.config == Some(e.config) && t.count == 0 && t.started == []
      && |t.slots| == Max(1, |e.config|) && t.workers == map[] && t.heap == s.heap
      && t.stop == s.stop && t.reload == s.reload
  {
    QuietWhenReleasing(s);
    var s1 := MainStep(s, e).value;
    RunTwo(s, s1, MainStep(s1, e1).value, Main(e), Main(e1));
  }

  // ---- a return and what it was for -----------------------------------------------------------------------------

  /** Stopping for good, or having returned 0, is because of the stop flag. */
  predicate StopOk(s: State) {
    Again(s.pc) == Some(false) || s.pc == Done(0) ==> s.stop
  }

  lemma StopOkStep(s: State, s': State, e: Event)
    requires StopOk(s) && Step(s, e) == Some(s')
    ensures StopOk(s')
  {
    if e.Main? {
      StopOkMain(s, s', e.env);
    } else if e.Work? {
      WorkStepStays(s, s', e.spi, e.io, e.net);
    }
  }

  lemma StopOkMain(s: State, s': State, e: Env)
    requires StopOk(s) && MainStep(s, e) == Some(s')
    ensures StopOk(s')
  {
    if Again(s.pc) == Some(false) {
      MainStepEnds(s, s', false, e);
    } else if Again(s.pc) == Some(true) {
      MainStepEnds(s, s', true, e);
    } else if StartIndex(s.pc).Some? {
      StartingStaysIn(s, s', e);
    }
  }

  lemma StartingStaysIn(s: State, s': State, e: Env)
    requires StartIndex(s.pc).Some? && MainStep(s, e) == Some(s')
    ensures StartIndex(s'.pc).Some? || s'.pc.Service?
    ensures s'.stop == s.stop && s'.reload == s.reload
  {
    if s.pc.StartSource? {
      OpeningStaysIn(s, s', e);
    } else if s.pc.StartPolling? {
      ThreadStaysIn(s, s', e);
    } else if Progress(s.pc) == 5 {
      InitialStaysIn(s, s', e);
    } else if s.pc.StartDest? {
      ConnectingStaysIn(s, s', e);
    } else {
      PreparingStaysIn(s, s', e);
    }
  }

  lemma PreparingStaysIn(s: State, s': State, e: Env)
    requires (s.pc.Prepare? || s.pc.AllocDest? || s.pc.AllocSource?) && MainStep(s, e) == Some(s')
    ensures StartIndex(s'.pc).Some? || s'.pc.Service?
    ensures s'.stop == s.stop && s'.reload == s.reload
  {
  }

  lemma ConnectingStaysIn(s: State, s': State, e: Env)
    requires s.pc.StartDest? && MainStep(s, e) == Some(s')
    ensures StartIndex(s'.pc).Some?
    ensures s'.stop == s.stop && s'.reload == s.reload
  {
  }

  lemma OpeningStaysIn(s: State, s': State, e: Env)
    requires s.pc.StartSource? && MainStep(s, e) == Some(s')
    ensures StartIndex(s'.pc).Some?
    ensures s'.stop == s.stop && s'.reload == s.reload
  {
  }

  lemma ThreadStaysIn(s: State, s': State, e: Env)
    requires s.pc.StartPolling? && MainStep(s, e) == Some(s')
    ensures StartIndex(s'.pc).Some?
    ensures s'.stop == s.stop && s'.reload == s.reload
  {
  }

  lemma InitialStaysIn(s: State, s': State, e: Env)
    requires (s.pc.InitTxn? || s.pc.InitRx?) && MainStep(s, e) == Some(s')
    ensures StartIndex(s'.pc).Some?
    ensures s'.stop == s.stop && s'.reload == s.reload
  {
  }

  /** A failed load or allocation makes the process return 1, with nothing left of it; code 1 comes from
      nowhere else. */
  lemma FailedLoadReturns(s: State, s': State, e: Env)
    requires MainStep(s, e) == Some(s')
    ensures s'.pc == Done(1) <==> (s.pc.Load? || s.pc.AllocArray?) && !e.ok
  {
    if Again(s.pc).Some? {
      StoppingReturns(s, s', e);
    } else if StartIndex(s.pc).Some? {
      StartingStaysIn(s, s', e);
    } else {
      RestReturns(s, s', e);
    }
  }

  lemma StoppingReturns(s: State, s': State, e: Env)
    requires Again(s.pc).Some? && MainStep(s, e) == Some(s')
    ensures s'.pc != Done(1) && s'.stop == s.stop && s'.reload == s.reload
  {
    MainStepEnds(s, s', Again(s.pc).value, e);
  }

  lemma RestReturns(s: State, s': State, e: Env)
    requires (s.pc.Load? || s.pc.AllocArray? || s.pc.Service? || s.pc.Done?) && MainStep(s, e) == Some(s')
    ensures s'.pc == Done(1) <==> (s.pc.Load? || s.pc.AllocArray?) && !e.ok
    ensures s'.stop == s.stop
    ensures s'.reload == s.reload || (s.pc.Service? && !s.stop && s'.pc == StopSource(0, true))
  {
  }

  lemma {:induction false} RunStopOk(s: State, s': State, es: seq<Event>)
    requires StopOk(s) && Run(s, es) == Some(s')
    ensures StopOk(s')
    decreases |es|
  {
    if es != [] {
      var s1 := Step(s, es[0]).value;
      StopOkStep(s, s1, es[0]);
      RunStopOk(s1, s', es[1..]);
    }
  }

  /** In every reachable state: the process has returned 0, or is stopping its bridges for good, only with the
      stop flag up. A reload never ends it. */
  lemma ReturnsOnlyWhenStopped(s: State)
    requires Reachable(s)
    ensures s.pc == Done(0) || Again(s.pc) == Some(false) ==> s.stop
  {
    var es :| Run(START, es) == Some(s);
    RunStopOk(START, s, es);
  }

  /** No signal is lost: whenever it comes, the stop flag stays up for good, and the reload flag until the service
      loop acts on it. */
  lemma SignalsAreKept(s: State, s': State, e: Event)
    requires Step(s, e) == Some(s')
    ensures s.stop || e.SignalStop? ==> s'.stop
    ensures s.reload || e.SignalReload? ==> s'.reload || (s.pc.Service? && !s.stop && s'.pc == StopSource(0, true))
  {
    if e.Work? {
      WorkStepStays(s, s', e.spi, e.io, e.net);
    } else if e.Main? {
      if Again(s.pc).Some? {
        StoppingReturns(s, s', e.env);
      } else if StartIndex(s.pc).Some? {
        StartingStaysIn(s, s', e.env);
      } else {
        RestReturns(s, s', e.env);
      }
    }
  }

  /** The service loop sees either signal: the one makes it stop for good, the other, unless the first came
      too, to load again, with its flag lowered. Without either it stays. */
  lemma SignalsAreSeen(s: State, e: Env)
    requires s.pc.Service?
    ensures Run(s, [SignalStop, Main(e)]) == Some(Goto(s.(stop := true), StopSource(0, false)))
    ensures !s.stop ==> Run(s, [SignalReload, Main(e)]) == Some(Goto(s.(reload := false), StopSource(0, true)))
    ensures !s.stop && !s.reload ==> MainStep(s, e) == Some(s)
  {
    var s1, s2 := s.(stop := true), s.(reload := true);
    RunTwo(s, s1, Goto(s1, StopSource(0, false)), SignalStop, Main(e));
    if !s.stop {
      RunTwo(s, s2, Goto(s2.(reload := false), StopSource(0, true)), SignalReload, Main(e));
    }
  }

  // ---- once and no more -------------------------------------------------------------------------------------

  /** A stop of slot `j` finds both its pointers null: both halves fall through. */
  lemma SecondStopDoesNothing(s: State, j: nat, again: bool, e: Env)
    requires s.pc == StopSource(j, again) && j < s.count && SlotReady(s, j)
    requires s.slots[j].source.None? && s.slots[j].dest.None?
    ensures Run(s, [Main(e), Main(e)]) == Some(Goto(s, StopSource(j + 1, again)))
  {
    var s1 := Goto(s, StopDest(j, again));
    assert MainStep(s, e) == Some(s1);
    assert [Main(e)] + [Main(e)] == [Main(e), Main(e)];
    RunOne(s, Main(e), [Main(e)]);
    RunOne(s1, Main(e), []);
    assert [Main(e)] + [] == [Main(e)];
  }

  /** Stopping the same slot twice: the first stop, once its worker is joined, closes the slot's descriptor and
      frees its two runtimes; a second one of the same slot, begun in the state the first one leaves, ends in
      that same state. So each resource is released once. */
  lemma StopTwice(s: State, j: nat, again: bool, e: Env)
    requires Reachable(s) && s.pc == CloseSource(j, again)
    ensures SourceReady(s, j) && s.slots[j].dest.Some?
    ensures var first := Released(s, j, again);
      && Run(s, [Main(e), Main(e), Main(e), Main(e)]) == Some(first)
      && Run(Goto(first, StopSource(j, again)), [Main(e), Main(e)]) == Some(first)
  {
    StopReleasesItsOwn(s, j, again, e);
    ReachableInv(s);
    var second := Goto(Released(s, j, again), StopSource(j, again));
    SecondStopDoesNothing(second, j, again, e);
    assert Goto(second, StopSource(j + 1, again)) == Released(s, j, again);
  }

  /** The only step that creates a worker is the main thread's start of a runtime that is not polling and has
      none; and a worker's place changes by its own steps alone. */
  lemma WorkersAreBornOnce(s: State, s': State, e: Event, sp: nat)
    requires Step(s, e) == Some(s') && sp in s'.workers
    ensures sp !in s.workers ==>
      e.Main? && s.pc.StartPolling? && SourceReady(s, s.count) && SourceOf(s, s.count) == sp
      && !s.heap.spis[sp].polling
    ensures sp in s.workers && !(e.Work? && e.spi == sp) ==> s'.workers[sp] == s.workers[sp]
  {
    if e.Main? {
      MainWorkers(s, s', e.env);
    } else if e.Work? {
      WorkWorkers(s, s', e.spi, e.io, e.net);
    }
  }

  predicate BornOnce(s: State, s': State) {
    && (forall sp :: sp in s'.workers && sp in s.workers ==> s'.workers[sp] == s.workers[sp])
    && (forall sp :: sp in s'.workers && sp !in s.workers ==>
          s.pc.StartPolling? && SourceReady(s, s.count) && SourceOf(s, s.count) == sp && !s.heap.spis[sp].polling
          && s'.workers[sp].Test?)
  }

  lemma MainWorkers(s: State, s': State, e: Env)
    requires MainStep(s, e) == Some(s')
    ensures BornOnce(s, s')
  {
    if Progress(s.pc) == 5 {
      BuildWorkers(s, s', e);
    } else if Progress(s.pc) > 0 {
      PrepareWorkers(s, s', e);
    } else if StopIndex(s.pc).Some? {
      StopWorkers(s, s', e);
    }
  }

  lemma BuildWorkers(s: State, s': State, e: Env)
    requires Progress(s.pc) == 5 && MainStep(s, e) == Some(s')
    ensures BornOnce(s, s')
  {
    if s.pc.StartPolling? {
      PollingWorkers(s, s', e);
    } else {
      InitialWorkers(s, s', e);
    }
  }

  lemma PollingWorkers(s: State, s': State, e: Env)
    requires s.pc.StartPolling? && MainStep(s, e) == Some(s')
    ensures BornOnce(s, s')
  {
  }

  lemma InitialWorkers(s: State, s': State, e: Env)
    requires (s.pc.InitTxn? || s.pc.InitRx?) && MainStep(s, e) == Some(s')
    ensures s'.workers == s.workers
  {
  }

  lemma PrepareWorkers(s: State, s': State, e: Env)
    requires 0 < Progress(s.pc) < 5 && MainStep(s, e) == Some(s')
    ensures s'.workers == s.workers
  {
  }

  lemma StopWorkers(s: State, s': State, e: Env)
    requires StopIndex(s.pc).Some? && MainStep(s, e) == Some(s')
    ensures s'.workers == s.workers
            || (s.pc.Join? && SourceReady(s, s.pc.j) && s'.workers == s.workers - {SourceOf(s, s.pc.j)})
  {
    if s.pc.StopSource? {
      StopSourceForm(s, s', s.pc.j, s.pc.again);
    } else if s.pc.StopDest? || s.pc.FreeDest? {
      DestIsQuiet(s, s', e);
    }
  }

  lemma WorkWorkers(s: State, s': State, sp: nat, io: Io, net: Net)
    requires sp in s.workers && WorkerStep(s, sp, io, net) == Some(s')
    ensures s'.workers == s.workers[sp := s'.workers[sp]]
  {
  }

  // ---- a worker exits only when told ------------------------------------------------------------------------

  predicate ExitedWhenTold(s: State) {
    forall sp :: sp in s.workers && s.workers[sp].Exited? ==> sp in s.heap.spis && s.heap.spis[sp].stopFlag
  }

  /** A raised flag means that the main thread waits for that worker. */
  lemma ToldIsAwaited(s: State, sp: nat)
    requires PcOk(s) && LiveOk(s) && HomesOk(s) && sp in s.workers && sp in s.heap.spis && s.heap.spis[sp].stopFlag
    ensures s.pc.Join? && SourceReady(s, s.pc.j) && SourceOf(s, s.pc.j) == sp
  {
    assert AtHome(s, sp);
    var j := s.heap.spis[sp].user.value.index;
    assert Live(s.heap, s.slots[j], SlotRef(s.arrays, j), s.pc.Join? && s.pc.j == j);
  }

  lemma MainTold(s: State, s': State, e: Env)
    requires Inv(s) && ExitedWhenTold(s) && MainStep(s, e) == Some(s')
    ensures ExitedWhenTold(s')
  {
    MainWorkers(s, s', e);
    forall sp | sp in s'.workers ensures !s'.workers[sp].Exited? {
      if s'.workers[sp].Exited? {
        ToldIsAwaited(s, sp);
        JoinedIsGone(s, s', e);
      }
    }
  }

  lemma JoinedIsGone(s: State, s': State, e: Env)
    requires s.pc.Join? && SourceReady(s, s.pc.j) && MainStep(s, e) == Some(s')
    ensures SourceOf(s, s.pc.j) !in s'.workers
  {
  }

  lemma WorkTold(s: State, s': State, sp: nat, io: Io, net: Net)
    requires ExitedWhenTold(s) && sp in s.workers && WorkerStep(s, sp, io, net) == Some(s')
    ensures ExitedWhenTold(s')
  {
    forall x | x in s'.workers && s'.workers[x].Exited? ensures x in s'.heap.spis && s'.heap.spis[x].stopFlag {
      WorkFlags(s, s', sp, io, net, x);
    }
  }

  /** A worker's step changes no flag and no other worker, and reaches the exit from a raised flag only. */
  lemma WorkFlags(s: State, s': State, sp: nat, io: Io, net: Net, x: nat)
    requires sp in s.workers && WorkerStep(s, sp, io, net) == Some(s') && x in s.workers
    ensures x != sp ==> s'.workers[x] == s.workers[x]
    ensures x in s.heap.spis ==> x in s'.heap.spis && s'.heap.spis[x].stopFlag == s.heap.spis[x].stopFlag
    ensures s'.workers[sp].Exited? ==> sp in s.heap.spis && s.heap.spis[sp].stopFlag
  {
  }

  lemma {:induction false} RunTold(s: State, s': State, es: seq<Event>)
    requires Inv(s) && ExitedWhenTold(s) && Run(s, es) == Some(s')
    ensures ExitedWhenTold(s')
    decreases |es|
  {
    if es != [] {
      var s1 := Step(s, es[0]).value;
      StepKeeps(s, s1, es[0]);
      if es[0].Main? {
        MainTold(s, s1, es[0].env);
      } else if es[0].Work? {
        WorkTold(s, s1, es[0].spi, es[0].io, es[0].net);
      }
      RunTold(s1, s', es[1..]);
    }
  }

  /** In every reachable state, a worker that has exited was told to stop, and the main thread waits for it. */
  lemma ExitsOnlyWhenTold(s: State, sp: nat)
    requires Reachable(s) && sp in s.workers && s.workers[sp].Exited?
    ensures sp in s.heap.spis && s.heap.spis[sp].stopFlag
    ensures s.pc.Join? && SourceReady(s, s.pc.j) && SourceOf(s, s.pc.j) == sp
  {
    var es :| Run(START, es) == Some(s);
    StartInv();
    RunTold(START, s, es);
    ReachableInv(s);
    ToldIsAwaited(s, sp);
  }

  /** In particular a start on a runtime that polls already succeeds and creates nothing. */
  lemma SecondStartCreatesNone(s: State, i: nat, e: Env)
    requires s.pc == StartPolling(i) && SourceReady(s, s.count) && s.heap.spis[SourceOf(s, s.count)].polling
    ensures MainStep(s, e).Some?
    ensures var s' := MainStep(s, e).value;
      s'.workers == s.workers && s'.heap == s.heap && s'.started == s.started + [i]
  {
  }
}
