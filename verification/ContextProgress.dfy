/** The flags of a handler, and progress. */
module ContextProgress {
  // The two flags say exactly who has acted, and every shutdown can finish.

  import opened Context
  import opened Semaphore

  // ---------------------------------------------------------------- the flags

  predicate Cancels(call: Call) {
    call.kind.Cancel? || call.kind.Shutdown?
  }

  /** `cancel` or `shutdown`, past its `stop()`. */
  predicate HasStopped(call: Call) {
    Cancels(call) && !call.pc.Stopping?
  }

  /** `cancel` or `shutdown`, past its `token.cancel()`. */
  predicate HasCancelled(call: Call) {
    HasStopped(call) && !call.pc.Cancelling?
  }

  ghost predicate SomeStopped(s: State) {
    exists c :: 0 <= c < |s.calls| && HasStopped(s.calls[c])
  }

  ghost predicate SomeCancelled(s: State) {
    exists c :: 0 <= c < |s.calls| && HasCancelled(s.calls[c])
  }

  /** A `cancel` returns without waiting; the others go on to wait, `done` and `shutdown` behind the token. */
  predicate PcOk(s: State, call: Call) {
    match call.pc
    case Stopping => Cancels(call)
    case Cancelling => Cancels(call)
    case AwaitingToken => call.kind.Shutdown? || call.kind.Done?
    case Registering => !call.kind.Cancel? && (call.kind.Wait? || s.tokenCancelled)
    case Loading => !call.kind.Cancel? && (call.kind.Wait? || s.tokenCancelled)
    case Blocked => !call.kind.Cancel? && (call.kind.Wait? || s.tokenCancelled)
    case Returned => call.kind.Wait? || s.tokenCancelled
  }

  ghost predicate FlagsOk(s: State) {
    && (s.stopped <==> SomeStopped(s))
    && (s.tokenCancelled <==> s.parentCancelled || SomeCancelled(s))
    && forall c :: 0 <= c < |s.calls| ==> PcOk(s, s.calls[c])
  }

  /** The calls of `s` are where they were; a new one is about to do its first operation. */
  predicate Still(s: State, t: State) {
    && |s.calls| <= |t.calls| && t.stopped == s.stopped
    && (forall c :: 0 <= c < |s.calls| ==> t.calls[c].kind == s.calls[c].kind && t.calls[c].pc == s.calls[c].pc)
    && (forall c :: |s.calls| <= c < |t.calls| ==> t.calls[c].pc == FirstPc(t.calls[c].kind))
  }

  lemma SameMarks(s: State, t: State)
    requires Still(s, t)
    ensures (SomeStopped(s) <==> SomeStopped(t)) && (SomeCancelled(s) <==> SomeCancelled(t))
  {
    if c :| 0 <= c < |s.calls| && HasStopped(s.calls[c]) {
      assert HasStopped(t.calls[c]);
    }
    if c :| 0 <= c < |t.calls| && HasStopped(t.calls[c]) {
      assert HasStopped(s.calls[c]);
    }
    if c :| 0 <= c < |s.calls| && HasCancelled(s.calls[c]) {
      assert HasCancelled(t.calls[c]);
    }
    if c :| 0 <= c < |t.calls| && HasCancelled(t.calls[c]) {
      assert HasCancelled(s.calls[c]);
    }
  }

  lemma StillOk(s: State, t: State)
    requires FlagsOk(s) && Still(s, t)
    requires t.tokenCancelled == (s.tokenCancelled || t.parentCancelled) && (s.parentCancelled ==> t.parentCancelled)
    ensures FlagsOk(t)
  {
    SameMarks(s, t);
    forall c | 0 <= c < |t.calls| ensures PcOk(t, t.calls[c]) {
      assert c < |s.calls| ==> PcOk(s, s.calls[c]);
    }
  }

  /** Only call `d` has moved. */
  predicate Moved(s: State, t: State, d: nat) {
    && d < |s.calls| == |t.calls| && t.parentCancelled == s.parentCancelled
    && forall c :: 0 <= c < |s.calls| ==>
         t.calls[c].kind == s.calls[c].kind && (c != d ==> t.calls[c].pc == s.calls[c].pc)
  }

  lemma MovedMarks(s: State, t: State, d: nat)
    requires Moved(s, t, d)
    requires (HasStopped(s.calls[d]) ==> HasStopped(t.calls[d])) && (HasCancelled(s.calls[d]) ==> HasCancelled(t.calls[d]))
    ensures SomeStopped(t) <==> SomeStopped(s) || HasStopped(t.calls[d])
    ensures SomeCancelled(t) <==> SomeCancelled(s) || HasCancelled(t.calls[d])
  {
    if c :| 0 <= c < |s.calls| && HasStopped(s.calls[c]) {
      assert HasStopped(t.calls[c]);
    }
    if c :| 0 <= c < |t.calls| && HasStopped(t.calls[c]) && c != d {
      assert HasStopped(s.calls[c]);
    }
    if c :| 0 <= c < |s.calls| && HasCancelled(s.calls[c]) {
      assert HasCancelled(t.calls[c]);
    }
    if c :| 0 <= c < |t.calls| && HasCancelled(t.calls[c]) && c != d {
      assert HasCancelled(s.calls[c]);
    }
  }

  /** What an operation of call `d` does to the flags and to its own position. */
  lemma AdvanceEffect(s: State, d: nat)
    requires Enabled(s, Advance(d)) && PcOk(s, s.calls[d])
    ensures var t := Next(s, Advance(d));
            && Moved(s, t, d) && PcOk(t, t.calls[d])
            && (t.stopped <==> s.stopped || s.calls[d].pc.Stopping?)
            && (t.tokenCancelled <==> s.tokenCancelled || s.calls[d].pc.Cancelling?)
            && (HasStopped(t.calls[d]) <==> HasStopped(s.calls[d]) || s.calls[d].pc.Stopping?)
            && (HasCancelled(t.calls[d]) <==> HasCancelled(s.calls[d]) || s.calls[d].pc.Cancelling?)
  {
  }

  lemma AdvanceFlags(s: State, d: nat)
    requires FlagsOk(s)
    ensures FlagsOk(Next(s, Advance(d)))
  {
    if Enabled(s, Advance(d)) {
      var t := Next(s, Advance(d));
      assert PcOk(s, s.calls[d]);
      AdvanceEffect(s, d);
      MovedOk(s, t, d);
    }
  }

  lemma MovedOk(s: State, t: State, d: nat)
    requires FlagsOk(s) && Moved(s, t, d) && PcOk(t, t.calls[d])
    requires t.stopped <==> s.stopped || s.calls[d].pc.Stopping?
    requires t.tokenCancelled <==> s.tokenCancelled || s.calls[d].pc.Cancelling?
    requires HasStopped(t.calls[d]) <==> HasStopped(s.calls[d]) || s.calls[d].pc.Stopping?
    requires HasCancelled(t.calls[d]) <==> HasCancelled(s.calls[d]) || s.calls[d].pc.Cancelling?
    ensures FlagsOk(t)
  {
    MovedMarks(s, t, d);
    if HasStopped(s.calls[d]) {
      assert SomeStopped(s);
    }
    if HasCancelled(s.calls[d]) {
      assert SomeCancelled(s);
    }
    forall c | 0 <= c < |t.calls| ensures PcOk(t, t.calls[c]) {
      assert PcOk(s, s.calls[c]);
    }
  }

  lemma FlagsNext(s: State, step: Step)
    requires FlagsOk(s)
    ensures FlagsOk(Next(s, step))
  {
    if step.Advance? {
      AdvanceFlags(s, step.call);
    } else {
      StillOk(s, Next(s, step));
    }
  }

  lemma {:induction false} FlagsRun(s: State, steps: seq<Step>)
    requires FlagsOk(s)
    ensures FlagsOk(Run(s, steps))
    ensures Run(s, steps).parentCancelled <==> s.parentCancelled || CancelParent in steps
    decreases |steps|
  {
    if steps != [] {
      FlagsNext(s, steps[0]);
      FlagsRun(Next(s, steps[0]), steps[1..]);
      assert steps == [steps[0]] + steps[1..];
    }
  }

  /** In every reachable state the flags tell exactly who has acted: `stopped` is set if and only if
      some `cancel` or `shutdown` has passed its `stop()`, the token is cancelled if and only if a
      parent was or some `cancel` or `shutdown` has passed its `token.cancel()`.  In particular a
      returned `cancel`, `shutdown` or `done` means that `is_done()` holds. */
  lemma FlagsAreExact(steps: seq<Step>)
    ensures var s := Run(INIT, steps);
            && (s.stopped <==> exists c :: 0 <= c < |s.calls| && HasStopped(s.calls[c]))
            && (s.tokenCancelled <==> CancelParent in steps || exists c :: 0 <= c < |s.calls| && HasCancelled(s.calls[c]))
            && (forall c :: 0 <= c < |s.calls| && s.calls[c].pc.Returned? && !s.calls[c].kind.Wait? ==> s.tokenCancelled)
  {
    FlagsRun(INIT, steps);
    var s := Run(INIT, steps);
    forall c | 0 <= c < |s.calls| && s.calls[c].pc.Returned? && !s.calls[c].kind.Wait? ensures s.tokenCancelled {
      assert PcOk(s, s.calls[c]);
    }
  }

  // ---------------------------------------------------------------- progress

  /** How many operations a call has in front of it at most. */
  function Left(pc: Pc): nat {
    match pc
    case Stopping => 6
    case Cancelling => 5
    case AwaitingToken => 4
    case Registering => 3
    case Loading => 2
    case Blocked => 1
    case Returned => 0
  }

  /** No new context and no new call: contexts are dropped, and calls go on. */
  predicate Settling(steps: seq<Step>) {
    forall i :: 0 <= i < |steps| ==>
      steps[i].Decrement? || steps[i].CheckStopped? || steps[i].Notify? || steps[i].Advance?
  }

  ghost predicate Good(s: State, c: nat) {
    Inv(s) && FlagsOk(s) && c < |s.calls| && s.calls[c].kind.Shutdown?
  }

  lemma AdvanceMoves(s: State, c: nat)
    requires Good(s, c) && !s.calls[c].pc.Returned? && (s.calls[c].pc.Blocked? ==> s.calls[c].notified)
    ensures var t := Next(s, Advance(c)); c < |t.calls| && Left(t.calls[c].pc) < Left(s.calls[c].pc)
  {
    assert s.calls[c].pc.AwaitingToken? ==> HasCancelled(s.calls[c]);
  }

  /** The blocked call stays blocked, and a context goes. */
  lemma DropMoves(s: State, c: nat) returns (i: nat)
    requires Good(s, c) && s.calls[c].pc.Blocked? && s.active > 0
    ensures var t := Next(s, Decrement(i)); c < |t.calls| && t.calls[c].pc.Blocked? && t.active < s.active
  {
    SomebodyHolds(IsAlive, s.trackers);
    i :| 0 <= i < |s.trackers| && IsAlive(s.trackers[i]);
  }

  lemma RunOne(s: State, step: Step)
    ensures Run(s, [step]) == Next(s, step)
  {
    assert Run(s, [step]) == Run(Next(s, step), []);
  }

  /** The call takes a step, or a context goes that keeps it blocked. */
  lemma ShutdownMoves(s: State, c: nat) returns (steps: seq<Step>)
    requires Good(s, c) && !s.calls[c].pc.Returned?
    ensures var t := Run(s, steps);
            && c < |t.calls| && Left(t.calls[c].pc) <= Left(s.calls[c].pc)
            && (Left(t.calls[c].pc) < Left(s.calls[c].pc) || t.active < s.active)
    ensures Settling(steps)
  {
    var call := s.calls[c];
    if !call.pc.Blocked? || call.notified {
      steps := [Advance(c)];
      AdvanceMoves(s, c);
      RunOne(s, steps[0]);
    } else if s.active > 0 {
      var i := DropMoves(s, c);
      steps := [Decrement(i)];
      RunOne(s, steps[0]);
    } else {
      assert CallOk(s, call);
      var i :| InFlight(s, i);
      steps := [CheckStopped(i), Notify(i), Advance(c)];
      RunThree(s, CheckStopped(i), Notify(i), Advance(c));
      WakeFrom(s, i, c);
    }
  }

  lemma KindNext(s: State, step: Step, c: nat)
    requires c < |s.calls|
    ensures c < |Next(s, step).calls| && Next(s, step).calls[c].kind == s.calls[c].kind
  {
    if step.Advance? && step.call == c {
      assert Operate(s, s.calls[c]).1.kind == s.calls[c].kind;
    }
  }

  lemma {:induction false} KindStays(s: State, steps: seq<Step>, c: nat)
    requires c < |s.calls|
    ensures c < |Run(s, steps).calls| && Run(s, steps).calls[c].kind == s.calls[c].kind
    decreases |steps|
  {
    if steps != [] {
      KindNext(s, steps[0], c);
      KindStays(Next(s, steps[0]), steps[1..], c);
    }
  }

  lemma GoodStays(s: State, steps: seq<Step>, c: nat)
    requires Good(s, c)
    ensures Good(Run(s, steps), c)
  {
    RunOk(s, steps);
    FlagsRun(s, steps);
    KindStays(s, steps, c);
  }

  lemma {:induction false} ShutdownReturns(s: State, c: nat) returns (steps: seq<Step>)
    requires Good(s, c)
    ensures var t := Run(s, steps); c < |t.calls| && t.calls[c].pc.Returned?
    ensures Settling(steps)
    decreases Left(s.calls[c].pc), s.active
  {
    steps := [];
    if !s.calls[c].pc.Returned? {
      var first := ShutdownMoves(s, c);
      GoodStays(s, first, c);
      var rest := ShutdownReturns(Run(s, first), c);
      RunAppend(s, first, rest);
      steps := first + rest;
    }
  }

  /** From every reachable state every `shutdown` can return, without any new context or call: it is
      enough that the live contexts are dropped. */
  lemma EveryShutdownCanReturn(steps: seq<Step>, c: nat) returns (more: seq<Step>)
    requires c < |Run(INIT, steps).calls| && Run(INIT, steps).calls[c].kind.Shutdown?
    ensures var t := Run(INIT, steps + more); c < |t.calls| && t.calls[c].pc.Returned?
    ensures Settling(more)
  {
    RunOk(INIT, steps);
    FlagsRun(INIT, steps);
    more := ShutdownReturns(Run(INIT, steps), c);
    RunAppend(INIT, steps, more);
  }
}
