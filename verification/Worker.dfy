/**
 The cleanup worker's life: ticker loop, stop and done channels, and the panic recovery that runs
 the loop a second time.  A sweep is a series of anonymous steps here; what it does to the stores is
 the subject of the step machine.
 */
module Worker {
  /** `second` tells the loop that runs inside the recovery handler from the first one. */
  datatype Loop =
    | Waiting(second: bool)
    | Sweeping(second: bool)
    | Recovering
    | Returned
    | Crashed

  datatype Stopper = NotCalled | Blocked | Released

  /** `closes` counts close(done), `panics` the panics raised inside a sweep. */
  datatype State = State(loop: Loop, stopClosed: bool, closes: nat, stopper: Stopper, panics: nat)

  datatype Event =
    | Tick           // the select takes the ticker branch
    | SweepStep
    | SweepEnd
    | TakeStop       // the select takes the stop branch
    | Panic          // the sweep panics
    | Restart        // the recovery handler enters runLoop again
    | CallStop       // Stop closes the stop channel
    | Release        // Stop receives from done

  const Start: State := State(Waiting(false), false, 0, NotCalled, 0)

  /** runLoop leaves: its deferred close(done) runs, and panics when done is closed already. */
  function Leave(s: State, next: Loop): State {
    if s.closes > 0 then s.(loop := Crashed) else s.(loop := next, closes := s.closes + 1)
  }

  function Step(s: State, e: Event): State {
    match e
    case Tick => if s.loop.Waiting? then s.(loop := Sweeping(s.loop.second)) else s
    case SweepStep => s
    case SweepEnd => if s.loop.Sweeping? then s.(loop := Waiting(s.loop.second)) else s
    case TakeStop => if s.loop.Waiting? && s.stopClosed then Leave(s, Returned) else s
    case Panic =>
      if !s.loop.Sweeping? then s
      else if s.loop.second then s.(loop := Crashed, panics := s.panics + 1)
      else Leave(s.(panics := s.panics + 1), Recovering)
    case Restart => if s.loop.Recovering? then s.(loop := Waiting(true)) else s
    case CallStop => if s.stopper.NotCalled? then s.(stopper := Blocked, stopClosed := true) else s
    case Release => if s.stopper.Blocked? && s.closes > 0 then s.(stopper := Released) else s
  }

  function Run(es: seq<Event>): State {
    if es == [] then Start else Step(Run(es[..|es| - 1]), es[|es| - 1])
  }

  /** A sweep step can only happen while the loop is inside a sweep. */
  predicate CanSweep(s: State) {
    s.loop.Sweeping?
  }

  /** The worker may still start or continue sweeping. */
  predicate Active(s: State) {
    s.loop.Waiting? || s.loop.Sweeping? || s.loop.Recovering?
  }

  predicate Inv(s: State) {
    && s.closes <= 1
    && (s.stopClosed <==> !s.stopper.NotCalled?)
    && (s.stopper.Released? ==> s.closes == 1)
    && (s.loop.Returned? ==> s.closes == 1 && s.panics == 0 && s.stopClosed)
    && (s.panics == 0 ==> !s.loop.Crashed? && !s.loop.Recovering? && (s.closes == 1 <==> s.loop.Returned?))
    && (s.panics == 0 && (s.loop.Waiting? || s.loop.Sweeping?) ==> !s.loop.second)
    && (s.panics > 0 ==> s.closes == 1)
    && (s.panics > 0 && (s.loop.Waiting? || s.loop.Sweeping?) ==> s.loop.second)
  }

  lemma {:induction false} RunInv(es: seq<Event>)
    ensures Inv(Run(es))
  {
    if es != [] { RunInv(es[..|es| - 1]); }
  }

  lemma {:induction false} RunCut(es: seq<Event>, m: nat)
    requires m <= |es|
    ensures Run(es[..m]).panics <= Run(es).panics
    ensures Run(es[..m]).stopper.Released? ==> Run(es).stopper.Released?
    ensures Run(es[..m]).loop.Returned? ==> Run(es).loop.Returned?
    decreases |es|
  {
    if m == |es| {
      assert es[..m] == es;
    } else {
      assert es[..|es| - 1][..m] == es[..m];
      RunCut(es[..|es| - 1], m);
    }
  }

  /**
   Shutdown.  In every panic-free run, Stop returns only after the loop has returned, so after any
   sweep in progress has finished; no sweep step is possible from then on; and done has been closed
   exactly once.
   */
  lemma StopWaitsForSweep(es: seq<Event>, m: nat)
    requires m <= |es| && Run(es).panics == 0 && Run(es[..m]).stopper.Released?
    ensures Run(es[..m]).loop.Returned? && Run(es[..m]).closes == 1
    ensures Run(es).loop.Returned? && !CanSweep(Run(es)) && Run(es).closes == 1
  {
    RunCut(es, m);
    RunInv(es[..m]);
    RunInv(es);
  }

  /** Panic-free, done is closed at most once, and exactly when the loop has returned. */
  lemma DoneClosesOnce(es: seq<Event>)
    requires Run(es).panics == 0
    ensures Run(es).closes == (if Run(es).loop.Returned? then 1 else 0) && !Run(es).loop.Crashed?
  {
    RunInv(es);
  }

  /** Exactly the panics matter: the loop can be left cleanly if and only if no sweep ever panicked. */
  lemma CleanReturnIffNoPanic(es: seq<Event>)
    requires !Active(Run(es))
    ensures Run(es).loop.Returned? <==> Run(es).panics == 0
  {
    RunInv(es);
  }

  /** What is left for Stop to do: the call, if it has not been made, and its return. */
  function StopNow(s: State): seq<Event> {
    match s.stopper
    case NotCalled => [CallStop, Release]
    case Blocked => [Release]
    case Released => []
  }

  /** With done closed by a panic, Stop returns at once, in the middle of a sweep, called before or not. */
  lemma StopReturnsInSweep(es: seq<Event>, sweep: seq<Event>)
    requires var s := Run(es + sweep); CanSweep(s) && s.closes > 0
    ensures var s := Run(es + sweep); var t := Run(es + (sweep + StopNow(s)));
            t.stopper.Released? && CanSweep(t) && t.panics == s.panics && t.closes > 0
  {
    match Run(es + sweep).stopper
    case NotCalled =>
      RunsOn(es, sweep, CallStop);
      RunsOn(es, sweep + [CallStop], Release);
      assert sweep + [CallStop] + [Release] == sweep + [CallStop, Release];
    case Blocked =>
      RunsOn(es, sweep, Release);
    case Released =>
      assert sweep + [] == sweep;
  }

  /** An alive worker in which some sweep has panicked lets Stop return in the middle of a sweep. */
  lemma StopInSweep(es: seq<Event>) returns (more: seq<Event>)
    requires Active(Run(es)) && Run(es).panics > 0
    ensures var s := Run(es + more);
            s.panics == Run(es).panics && s.stopper.Released? && CanSweep(s) && s.stopClosed && s.closes > 0
  {
    RunInv(es);
    ToSweep(es);
    var sweep := IntoSweep(Run(es));
    StopReturnsInSweep(es, sweep);
    more := sweep + StopNow(Run(es + sweep));
    RunInv(es + more);
  }

  /**
   Exactly the panics break Stop.  While the worker is alive, whether Stop has been called or not, Stop
   can return in the middle of a sweep without a further panic if and only if a sweep has panicked.
   */
  lemma StopBreaksIffPanicked(es: seq<Event>)
    requires Active(Run(es))
    ensures Run(es).panics > 0 <==>
              exists more :: var s := Run(es + more);
                s.panics == Run(es).panics && s.stopper.Released? && CanSweep(s)
  {
    if Run(es).panics > 0 {
      var more := StopInSweep(es);
      assert Run(es + more).stopper.Released?;
    } else {
      forall more ensures var s := Run(es + more); !(s.panics == 0 && s.stopper.Released? && CanSweep(s)) {
        RunInv(es + more);
      }
    }
  }

  lemma LeaveAfterStop(es: seq<Event>, early: seq<Event>)
    requires var s := Run(es + early); CanSweep(s) && s.stopClosed && s.closes > 0
    ensures var s := Run(es + (early + [SweepEnd, TakeStop])); s.loop.Crashed? && s.panics == Run(es + early).panics
  {
    RunsOn(es, early, SweepEnd);
    RunsOn(es, early + [SweepEnd], TakeStop);
    assert early + [SweepEnd] + [TakeStop] == early + [SweepEnd, TakeStop];
  }

  /** And likewise the second close: an alive worker can crash without a further panic iff one has panicked. */
  lemma CrashesIffPanicked(es: seq<Event>)
    requires Active(Run(es))
    ensures Run(es).panics > 0 <==>
              exists more :: var s := Run(es + more); s.panics == Run(es).panics && s.loop.Crashed?
  {
    if Run(es).panics > 0 {
      var early := StopInSweep(es);
      LeaveAfterStop(es, early);
      assert Run(es + (early + [SweepEnd, TakeStop])).loop.Crashed?;
    } else {
      forall more ensures var s := Run(es + more); !(s.panics == 0 && s.loop.Crashed?) {
        RunInv(es + more);
      }
    }
  }

  lemma RunsOn(es: seq<Event>, more: seq<Event>, e: Event)
    ensures Run(es + (more + [e])) == Step(Run(es + more), e)
  {
    var all := es + (more + [e]);
    assert all[..|all| - 1] == es + more;
  }

  function IntoSweep(s: State): seq<Event> {
    if s.loop.Sweeping? then [] else if s.loop.Waiting? then [Tick] else [Restart, Tick]
  }

  /** An active worker can always get into a sweep, and nothing else changes on the way. */
  lemma ToSweep(es: seq<Event>)
    requires Active(Run(es))
    ensures var s, t := Run(es), Run(es + IntoSweep(Run(es)));
            CanSweep(t) && t == s.(loop := t.loop)
  {
    assert es + [] == es;
    RunsOn(es, [], Tick);
    RunsOn(es, [], Restart);
    RunsOn(es, [Restart], Tick);
    assert [] + [Tick] == [Tick] && [] + [Restart] == [Restart] && [Restart] + [Tick] == [Restart, Tick];
  }

  lemma OneStep(es: seq<Event>, e: Event)
    ensures Run(es + [e]) == Step(Run(es), e)
  {
    assert (es + [e])[..|es|] == es;
  }

  lemma TwoSteps(es: seq<Event>, a: Event, b: Event)
    ensures Run(es + [a, b]) == Step(Step(Run(es), a), b)
  {
    OneStep(es, a);
    OneStep(es + [a], b);
    assert es + [a] + [b] == es + [a, b];
  }

  lemma FourSteps(es: seq<Event>, a: Event, b: Event, c: Event, d: Event)
    ensures Run(es + [a, b] + [c, d]) == Step(Step(Step(Step(Run(es), a), b), c), d)
  {
    TwoSteps(es, a, b);
    TwoSteps(es + [a, b], c, d);
  }

  /** End the sweep in progress, call Stop if need be, take the stop branch, let Stop return. */
  lemma Shutdown(s: State)
    requires Inv(s) && s.panics == 0
    ensures var t := Step(Step(Step(Step(s, SweepEnd), CallStop), TakeStop), Release);
            t.panics == 0 && t.stopper.Released? && t.loop.Returned?
  {
  }

  /** Stop can always return: a worker that has not panicked can be shut down without a panic. */
  lemma StopCanReturn(es: seq<Event>)
    requires Run(es).panics == 0
    ensures exists more :: var s := Run(es + more); s.panics == 0 && s.stopper.Released? && s.loop.Returned?
  {
    RunInv(es);
    Shutdown(Run(es));
    FourSteps(es, SweepEnd, CallStop, TakeStop, Release);
    assert es + [SweepEnd, CallStop] + [TakeStop, Release] == es + [SweepEnd, CallStop, TakeStop, Release];
    assert Run(es + [SweepEnd, CallStop, TakeStop, Release]).stopper.Released?;
  }

  /** The first panic in a sweep closes done and leaves the worker alive, about to run its loop again. */
  lemma FirstPanicRestarts(es: seq<Event>)
    requires CanSweep(Run(es)) && Run(es).panics == 0
    ensures var s := Run(es + [Panic]); s.panics == 1 && s.closes == 1 && s.loop.Recovering?
  {
    RunInv(es);
    RunsOn(es, [], Panic);
    assert es + [] == es && [] + [Panic] == [Panic];
  }
}
